/** Object keys of a group: `KeysResolver` in src/paths.rs, and the decimal names that
    order the log entries inside a lexicographic listing. */
module Paths {
  import opened Words

  // ---------------------------------------------------------------- decimal names

  function DigitChar(d: nat): char
    requires d < 10
  {
    (48 + d) as char
  }

  predicate IsDigit(c: char) {
    '0' <= c <= '9'
  }

  /** `{index}` in a format string: shortest decimal form. */
  function Decimal(n: nat): (s: string)
    ensures s != [] && forall c :: c in s ==> IsDigit(c)
  {
    if n < 10 then [DigitChar(n)] else Decimal(n / 10) + [DigitChar(n % 10)]
  }

  function Value(s: string): nat
    requires forall c :: c in s ==> IsDigit(c)
  {
    if s == [] then 0
    else
      assert IsDigit(s[|s| - 1]);
      Value(s[..|s| - 1]) * 10 + (s[|s| - 1] as int - 48)
  }

  /** `str::parse::<u64>`: one optional plus sign, at least one digit, no overflow. */
  function ParseU64(s: string): Option<U64> {
    var digits := if s != [] && s[0] == '+' then s[1..] else s;
    if digits != [] && (forall c :: c in digits ==> IsDigit(c)) && Value(digits) <= U64_MAX
    then Some(Value(digits)) else None
  }

  lemma {:induction false} ValueOfDecimal(n: nat)
    ensures Value(Decimal(n)) == n
  {
    if n >= 10 {
      ValueOfDecimal(n / 10);
      assert Decimal(n)[..|Decimal(n)| - 1] == Decimal(n / 10);
    } else {
      assert Decimal(n)[..0] == [];
    }
  }

  /** Parsing undoes formatting, so distinct numbers have distinct names; a number beyond 64 bits
      does not parse. */
  lemma ParseOfDecimal(n: nat)
    ensures ParseU64(Decimal(n)) == if n <= U64_MAX then Some(n) else None
  {
    ValueOfDecimal(n);
    assert Decimal(n)[0] in Decimal(n);
  }

  function Pow10(k: nat): (p: nat)
    ensures p >= 1
  {
    if k == 0 then 1 else 10 * Pow10(k - 1)
  }

  lemma {:induction false} DecimalLength(n: nat, k: nat)
    requires k >= 1 && n < Pow10(k)
    requires k >= 2 ==> Pow10(k - 1) <= n
    ensures |Decimal(n)| == k
  {
    if k >= 2 {
      assert Pow10(k - 1) == 10 * Pow10(k - 2);
      assert k >= 3 ==> Pow10(k - 2) == 10 * Pow10(k - 3);
      assert n / 10 < Pow10(k - 1) && Pow10(k - 2) <= n / 10;
      DecimalLength(n / 10, k - 1);
    } else {
      assert Pow10(0) == 1;
    }
  }

  lemma {:induction false} DecimalOfPow10(k: nat)
    ensures Decimal(Pow10(k))[0] == '1'
    ensures k >= 1 ==> Decimal(Pow10(k) - 1)[0] == '9'
  {
    if k >= 1 {
      DecimalOfPow10(k - 1);
      assert Pow10(k) / 10 == Pow10(k - 1);
      assert k >= 2 ==> (Pow10(k) - 1) / 10 == Pow10(k - 1) - 1;
      assert k == 1 ==> Pow10(0) == 1;
    }
  }

  // ---------------------------------------------------------------- lexicographic order

  /** The order in which the object store lists keys. */
  predicate LexLess(a: string, b: string) {
    b != [] && (a == [] || a[0] < b[0] || (a[0] == b[0] && LexLess(a[1..], b[1..])))
  }

  lemma FirstCharDecides(a: string, b: string)
    requires a != [] && b != [] && a[0] < b[0]
    ensures LexLess(a, b) && !LexLess(b, a)
  {
  }

  lemma {:induction false} LexCommonPrefix(p: string, a: string, b: string)
    ensures LexLess(p + a, p + b) == LexLess(a, b)
  {
    if p == [] {
      assert p + a == a && p + b == b;
    } else {
      assert (p + a)[1..] == p[1..] + a && (p + b)[1..] == p[1..] + b;
      LexCommonPrefix(p[1..], a, b);
    }
  }

  lemma {:induction false} LexExtend(a: string, b: string, x: string, y: string)
    requires |a| == |b| && LexLess(a, b)
    ensures LexLess(a + x, b + y)
  {
    if a[0] == b[0] {
      assert (a + x)[1..] == a[1..] + x && (b + y)[1..] == b[1..] + y;
      LexExtend(a[1..], b[1..], x, y);
    }
  }

  lemma {:induction false} LexAsymmetric(a: string, b: string)
    requires LexLess(a, b)
    ensures !LexLess(b, a) && a != b
  {
    if a != [] && a[0] == b[0] {
      LexAsymmetric(a[1..], b[1..]);
    }
  }

  /** Names of equal length sort as their numbers do. */
  lemma {:induction false} LexIsNumeric(a: nat, b: nat)
    requires a < b && |Decimal(a)| == |Decimal(b)|
    ensures LexLess(Decimal(a), Decimal(b))
    decreases b
  {
    if b >= 10 {
      var x, y := Decimal(a / 10), Decimal(b / 10);
      assert |Decimal(b)| == |y| + 1 >= 2;
      assert a >= 10;
      var u, v := [DigitChar(a % 10)], [DigitChar(b % 10)];
      if a / 10 < b / 10 {
        assert b / 10 < b;
        LexIsNumeric(a / 10, b / 10);
        LexExtend(x, y, u, v);
      } else {
        assert a / 10 == b / 10 && a % 10 < b % 10;
        LexCommonPrefix(x, u, v);
      }
    }
  }

  // ---------------------------------------------------------------- inverted indices

  /** Index of the last log entry whose inverted name still has twenty digits. */
  const LAST_ORDERED_INDEX: U64 := 8446744073709551615

  function Invert(index: U64): U64 {
    U64_MAX - index
  }

  function EntryName(index: U64): string {
    Decimal(Invert(index))
  }

  ghost predicate ReverseOrdered(bound: U64) {
    forall i: U64, j: U64 :: i < j <= bound ==> LexLess(EntryName(j), EntryName(i))
  }

  lemma Pow10Values()
    ensures Pow10(19) == 10_000_000_000_000_000_000
    ensures Pow10(20) == 100_000_000_000_000_000_000
  {
    assert Pow10(4) == 10_000;
    assert Pow10(8) == 100_000_000;
    assert Pow10(12) == 1_000_000_000_000;
    assert Pow10(16) == 10_000_000_000_000_000;
  }

  lemma NewerSortsFirst(i: U64, j: U64)
    requires i < j <= LAST_ORDERED_INDEX
    ensures LexLess(EntryName(j), EntryName(i))
  {
    Pow10Values();
    DecimalLength(Invert(i), 20);
    DecimalLength(Invert(j), 20);
    LexIsNumeric(Invert(j), Invert(i));
  }

  /** Newer entries sort strictly first for all indices up to the bound, and for no larger bound. */
  lemma ReverseOrderedExactly(bound: U64)
    ensures ReverseOrdered(bound) <==> bound <= LAST_ORDERED_INDEX
  {
    if bound <= LAST_ORDERED_INDEX {
      forall i: U64, j: U64 | i < j <= bound ensures LexLess(EntryName(j), EntryName(i)) {
        NewerSortsFirst(i, j);
      }
    } else {
      OutOfOrderPair();
    }
  }

  lemma OutOfOrderPair()
    ensures LexLess(EntryName(LAST_ORDERED_INDEX), EntryName(LAST_ORDERED_INDEX + 1))
    ensures !LexLess(EntryName(LAST_ORDERED_INDEX + 1), EntryName(LAST_ORDERED_INDEX))
  {
    Pow10Values();
    OrderFlips(LAST_ORDERED_INDEX, 19);
  }

  /** Where the names lose a digit, the older entry lists first. */
  lemma OrderFlips(i: U64, k: nat)
    requires k >= 1 && i < U64_MAX && Invert(i) == Pow10(k)
    ensures LexLess(EntryName(i), EntryName(i + 1)) && !LexLess(EntryName(i + 1), EntryName(i))
  {
    DecimalOfPow10(k);
    FirstCharDecides(Decimal(Pow10(k)), Decimal(Pow10(k) - 1));
  }

  // ---------------------------------------------------------------- keys

  function GroupPrefix(group: string): string {
    "s2c/" + group + "/"
  }

  function LogPrefix(group: string): string {
    GroupPrefix(group) + "log/"
  }

  function SnapshotKey(group: string): string {
    GroupPrefix(group) + "snapshot.pb"
  }

  /** `KeysResolver::log_entry`. */
  function LogEntryKey(group: string, number: U64): string {
    LogPrefix(group) + Decimal(number)
  }

  /** The key under which `append` stores the entry at `index`, and `get_at(index)` reads it. */
  function EntryKey(group: string, index: U64): string {
    LogEntryKey(group, Invert(index))
  }

  predicate SlashFree(s: string) {
    forall c :: c in s ==> c != '/'
  }

  /** `Path::filename`: what follows the last slash. */
  function FileName(path: string): string {
    if path == [] || path[|path| - 1] == '/' then []
    else FileName(path[..|path| - 1]) + [path[|path| - 1]]
  }

  lemma {:induction false} FileNameAfterSlash(dir: string, name: string)
    requires SlashFree(name)
    ensures FileName(dir + "/" + name) == name
  {
    var p := dir + "/" + name;
    if name != [] {
      var front := name[..|name| - 1];
      assert p[..|p| - 1] == dir + "/" + front;
      assert name[|name| - 1] in name;
      assert forall c :: c in front ==> c in name;
      FileNameAfterSlash(dir, front);
    }
  }

  lemma LastSlashSplits(a: string, x: string, b: string, y: string)
    requires SlashFree(x) && SlashFree(y)
    requires a + "/" + x == b + "/" + y
    ensures a == b && x == y
  {
    FileNameAfterSlash(a, x);
    FileNameAfterSlash(b, y);
    var s := a + "/" + x;
    assert a == s[..|s| - |x| - 1] && b == s[..|s| - |y| - 1];
  }

  lemma KeyShape(group: string, number: U64)
    ensures LogEntryKey(group, number) == ("s2c/" + group + "/log") + "/" + Decimal(number)
    ensures SlashFree(Decimal(number))
  {
  }

  /** Log keys are injective in group and number, for arbitrary group ids. */
  lemma LogKeysInjective(g: string, m: U64, h: string, n: U64)
    requires LogEntryKey(g, m) == LogEntryKey(h, n)
    ensures g == h && m == n
  {
    KeyShape(g, m);
    KeyShape(h, n);
    LastSlashSplits("s2c/" + g + "/log", Decimal(m), "s2c/" + h + "/log", Decimal(n));
    var a, b := "s2c/" + g + "/log", "s2c/" + h + "/log";
    assert g == a[4..|a| - 4] && h == b[4..|b| - 4];
    ParseOfDecimal(m);
    ParseOfDecimal(n);
  }

  /** A log key is never a snapshot key, whatever the two groups are. */
  lemma LogKeysAreNotSnapshots(g: string, m: U64, h: string)
    ensures LogEntryKey(g, m) != SnapshotKey(h)
  {
    var k, s := LogEntryKey(g, m), SnapshotKey(h);
    var d := Decimal(m);
    assert k[|k| - 1] == d[|d| - 1] && d[|d| - 1] in d;
    assert s[|s| - 1] == 'b';
  }

  /** Exactly when a log key of group `g` is listed under the log prefix of group `h`. */
  lemma UnderPrefixExactly(g: string, m: U64, h: string)
    ensures LogPrefix(h) <= LogEntryKey(g, m) <==> g == h || h + "/log/" <= g + "/"
  {
    var p, k, d := LogPrefix(h), LogEntryKey(g, m), Decimal(m);
    assert k == "s2c/" + (g + "/log/" + d) && p == "s2c/" + (h + "/log/");
    assert p <= k <==> h + "/log/" <= g + "/log/" + d by {
      assert p[4..] == h + "/log/" && k[4..] == g + "/log/" + d;
      if h + "/log/" <= g + "/log/" + d {
        assert k[..|p|] == "s2c/" + (g + "/log/" + d)[..|p| - 4];
      }
    }
    UnderTail(g, d, h);
  }

  lemma UnderTail(g: string, d: string, h: string)
    requires SlashFree(d)
    ensures h + "/log/" <= g + "/log/" + d <==> g == h || h + "/log/" <= g + "/"
  {
    var p, t := h + "/log/", g + "/log/" + d;
    assert t == (g + "/") + ("log/" + d);
    if p <= t {
      if |h| > |g| {
        SlashAmongDigits(g, d, h);
      } else if |h| == |g| {
        assert t[..|h|] == g && p[..|h|] == h;
      } else if |g| < |h| + 4 {
        SlashInsideName(g, d, h);
      } else {
        assert t[..|p|] == (g + "/")[..|p|];
      }
    }
    if h + "/log/" <= g + "/" {
      assert t[..|p|] == (g + "/")[..|p|];
    }
    if g == h {
      assert t[..|p|] == p;
    }
  }

  lemma SlashAmongDigits(g: string, d: string, h: string)
    requires |h| > |g| && h + "/log/" <= g + "/log/" + d
    ensures !SlashFree(d)
  {
    var p, t := h + "/log/", g + "/log/" + d;
    assert p[|h| + 4] == t[|h| + 4] == d[|h| - |g| - 1];
    assert '/' in d;
  }

  lemma SlashInsideName(g: string, d: string, h: string)
    requires |h| < |g| < |h| + 4 && h + "/log/" <= g + "/log/" + d
    ensures "/log/"[|g| - |h|] == '/'
  {
    var p, t := h + "/log/", g + "/log/" + d;
    assert p[|g|] == t[|g|] == "/log/"[|g| - |h|];
  }

  lemma SlashInsideGroup(g: string, h: string)
    requires h + "/log/" <= g + "/"
    ensures !SlashFree(g)
  {
    var p := h + "/log/";
    assert p[|h|] == (g + "/")[|h|] == g[|h|];
    assert '/' in g;
  }

  /** For slash-free group ids a listing under a log prefix shows that group's entries only. */
  lemma SlashFreeGroupsAreDisjoint(g: string, m: U64, h: string)
    requires SlashFree(g)
    ensures LogPrefix(h) <= LogEntryKey(g, m) <==> g == h
  {
    UnderPrefixExactly(g, m, h);
    if h + "/log/" <= g + "/" {
      SlashInsideGroup(g, h);
    }
  }

  // ---------------------------------------------------------------- listings

  /** What `get_head` makes of the first listed key. */
  function HeadNumber(key: string): Option<U64> {
    ParseU64(FileName(key))
  }

  lemma HeadNumberOfKey(group: string, number: U64)
    ensures HeadNumber(LogEntryKey(group, number)) == Some(number)
  {
    KeyShape(group, number);
    FileNameAfterSlash("s2c/" + group + "/log", Decimal(number));
    ParseOfDecimal(number);
  }

  /** `keys` is the lexicographic listing of exactly the entries at `indices`. */
  ghost predicate IsLogListing(keys: seq<string>, group: string, indices: set<U64>) {
    && (forall i: U64 :: i in indices ==> EntryKey(group, i) in keys)
    && (forall k :: 0 <= k < |keys| ==> exists i: U64 :: i in indices && keys[k] == EntryKey(group, i))
    && (forall a, b :: 0 <= a < b < |keys| ==> LexLess(keys[a], keys[b]))
  }

  ghost predicate IsLargest(m: U64, indices: set<U64>) {
    m in indices && forall i: U64 :: i in indices ==> i <= m
  }

  lemma KeyOrderIsNameOrder(group: string, i: U64, j: U64)
    ensures LexLess(EntryKey(group, i), EntryKey(group, j)) == LexLess(EntryName(i), EntryName(j))
  {
    LexCommonPrefix(LogPrefix(group), EntryName(i), EntryName(j));
  }

  /** Up to the bound, inverting `get_head`'s number once gives the largest index in the log. */
  lemma HeadIsLargest(keys: seq<string>, group: string, indices: set<U64>, m: U64)
    requires IsLogListing(keys, group, indices) && IsLargest(m, indices)
    requires m <= LAST_ORDERED_INDEX
    ensures keys != [] && HeadNumber(keys[0]) == Some(Invert(m))
  {
    var at :| 0 <= at < |keys| && keys[at] == EntryKey(group, m);
    var i: U64 :| i in indices && keys[0] == EntryKey(group, i);
    if i != m {
      NewerSortsFirst(i, m);
      KeyOrderIsNameOrder(group, m, i);
      assert LexLess(keys[0], keys[at]);
      LexAsymmetric(keys[0], keys[at]);
    }
    HeadNumberOfKey(group, Invert(m));
  }

  ghost predicate HeadAlwaysLargest(group: string, bound: U64) {
    forall keys: seq<string>, indices: set<U64>, m: U64 ::
      IsLogListing(keys, group, indices) && IsLargest(m, indices) && m <= bound
      ==> keys != [] && HeadNumber(keys[0]) == Some(Invert(m))
  }

  /** The bound is exact: the head of a listing is the newest entry of every log up to `bound`
      precisely when `bound` does not exceed it. */
  lemma HeadAlwaysLargestExactly(group: string, bound: U64)
    ensures HeadAlwaysLargest(group, bound) <==> bound <= LAST_ORDERED_INDEX
  {
    if bound <= LAST_ORDERED_INDEX {
      forall keys: seq<string>, indices: set<U64>, m: U64
        | IsLogListing(keys, group, indices) && IsLargest(m, indices) && m <= bound
        ensures keys != [] && HeadNumber(keys[0]) == Some(Invert(m))
      {
        HeadIsLargest(keys, group, indices, m);
      }
    } else {
      OutOfOrderPair();
      HeadNotAlwaysLargest(group, bound, LAST_ORDERED_INDEX, LAST_ORDERED_INDEX + 1);
    }
  }

  lemma HeadNotAlwaysLargest(group: string, bound: U64, older: U64, newer: U64)
    requires older < newer <= bound && LexLess(EntryName(older), EntryName(newer))
    ensures !HeadAlwaysLargest(group, bound)
  {
    HeadMissesNewer(group, older, newer);
  }

  lemma HeadMissesNewer(group: string, older: U64, newer: U64)
    requires older < newer && LexLess(EntryName(older), EntryName(newer))
    ensures IsLogListing([EntryKey(group, older), EntryKey(group, newer)], group, {older, newer})
    ensures IsLargest(newer, {older, newer})
    ensures HeadNumber(EntryKey(group, older)) != Some(Invert(newer))
  {
    KeyOrderIsNameOrder(group, older, newer);
    HeadNumberOfKey(group, Invert(older));
    ListingOfTwo(group, older, newer);
  }

  lemma ListingOfTwo(group: string, older: U64, newer: U64)
    requires LexLess(EntryKey(group, older), EntryKey(group, newer))
    ensures IsLogListing([EntryKey(group, older), EntryKey(group, newer)], group, {older, newer})
  {
  }

  /** `get_at` inverts the number `get_head` left inverted: the pair never reads the listed
      entry, but the one at the mirrored index. */
  lemma DiscoveryReadsMirroredEntry(group: string, index: U64)
    ensures HeadNumber(EntryKey(group, index)) == Some(Invert(index))
    ensures EntryKey(group, HeadNumber(EntryKey(group, index)).value) != EntryKey(group, index)
  {
    HeadNumberOfKey(group, Invert(index));
    if EntryKey(group, Invert(index)) == EntryKey(group, index) {
      LogKeysInjective(group, index, group, Invert(index));
    }
  }

  // ---------------------------------------------------------------- other keys under a prefix

  /** Is this the key of some entry of the group? */
  predicate IsEntryKey(group: string, key: string) {
    HeadNumber(key).Some? && key == LogEntryKey(group, HeadNumber(key).value)
  }

  lemma EntryKeyIsOne(group: string, index: U64)
    ensures IsEntryKey(group, EntryKey(group, index))
  {
    HeadNumberOfKey(group, Invert(index));
  }

  lemma IsEntryKeyExactly(group: string, key: string)
    ensures IsEntryKey(group, key) <==> exists index: U64 :: key == EntryKey(group, index)
  {
    if IsEntryKey(group, key) {
      var number := HeadNumber(key).value;
      assert key == EntryKey(group, Invert(number));
    }
    forall index: U64 | key == EntryKey(group, index) ensures IsEntryKey(group, key) {
      EntryKeyIsOne(group, index);
    }
  }

  /** A key of somebody else that is listed under the group's prefix and read as number 1, which
      sends discovery to the group's entry at index 1. */
  predicate Misleads(group: string, key: string) {
    LogPrefix(group) <= key && HeadNumber(key) == Some(1) && !IsEntryKey(group, key)
  }

  /** Exactly which entries of other groups mislead a group: those numbered 1 of a group whose id
      continues the group's own log prefix. */
  lemma MisleadingEntryExactly(group: string, h: string, number: U64)
    ensures Misleads(group, LogEntryKey(h, number))
       <==> h != group && number == 1 && group + "/log/" <= h + "/"
  {
    HeadNumberOfKey(h, number);
    UnderPrefixExactly(h, number, group);
    if h != group && LogEntryKey(h, number) == LogEntryKey(group, number) {
      LogKeysInjective(h, number, group, number);
    }
  }

  lemma NotANumber(name: string)
    requires |name| > 1 && !IsDigit(name[0]) && !IsDigit(name[1])
    ensures ParseU64(name).None?
  {
    var digits := if name[0] == '+' then name[1..] else name;
    assert digits[0] in digits && !IsDigit(digits[0]);
  }

  lemma SnapshotHasNoNumber(h: string)
    ensures HeadNumber(SnapshotKey(h)).None?
  {
    assert SnapshotKey(h) == ("s2c/" + h) + "/" + "snapshot.pb";
    FileNameAfterSlash("s2c/" + h, "snapshot.pb");
    NotANumber("snapshot.pb");
  }

  /** Snapshots, first entries of any group, and entries of groups without a slash in their id. */
  ghost predicate Ordinary(key: string) {
    || (exists h: string :: key == SnapshotKey(h))
    || (exists h: string :: key == EntryKey(h, 1))
    || (exists h: string, number: U64 :: SlashFree(h) && key == LogEntryKey(h, number))
  }

  lemma OrdinaryKeysMisleadNobody(group: string, key: string)
    requires Ordinary(key)
    ensures !Misleads(group, key)
  {
    if h: string :| key == SnapshotKey(h) {
      SnapshotHasNoNumber(h);
    } else if h: string :| key == EntryKey(h, 1) {
      HeadNumberOfKey(h, Invert(1));
    } else {
      var h: string, number: U64 :| SlashFree(h) && key == LogEntryKey(h, number);
      MisleadingEntryExactly(group, h, number);
      SlashFreeGroupsAreDisjoint(h, number, group);
    }
  }
}
