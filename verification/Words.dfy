/** Machine words, options and results shared by every part of the model.
    Arithmetic that the program performs on `u64`/`u32` wraps explicitly (release profile). */
module Words {

  const U64_MAX: nat := 0xFFFF_FFFF_FFFF_FFFF
  const U32_MAX: nat := 0xFFFF_FFFF

  type U64 = n: nat | n <= U64_MAX
  type U32 = n: nat | n <= U32_MAX
  type Byte = n: nat | n < 256

  datatype Option<+T> = None | Some(value: T)

  function Wrap64(n: nat): U64 {
    n % (U64_MAX + 1)
  }

  function Wrap32(n: nat): U32 {
    n % (U32_MAX + 1)
  }

  lemma WrapNext64(n: nat)
    ensures Wrap64(Wrap64(n) + 1) == Wrap64(n + 1)
  {
  }

  lemma WrapNext32(n: nat)
    ensures Wrap32(Wrap32(n) + 1) == Wrap32(n + 1)
  {
  }

  function Min(a: nat, b: nat): nat {
    if a <= b then a else b
  }
}
