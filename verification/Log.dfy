/** The log over a create-only object store: src/log.rs, and `discover_leader_state` of src/fsm.rs.
    The object store is a map from keys to values. What it answers, and what other clients write
    meanwhile, is supplied by the environment. */
module Log {
  import opened Words
  import opened Paths
  import opened Backoff

  type Objects<V> = map<string, V>

  /** Store errors other than `AlreadyExists`. Only `Generic` errors can be transient. */
  datatype Failure = Generic(transient: bool) | Fatal
  {
    predicate Transient() { this == Generic(true) }
  }

  // ---------------------------------------------------------------- create-only put

  /** `put_opts` with `PutMode::Create`: an existing object is left alone. */
  function Create<V>(objects: Objects<V>, key: string, payload: V): Objects<V> {
    if key in objects then objects else objects[key := payload]
  }

  ghost predicate Extends<V>(before: Objects<V>, after: Objects<V>) {
    forall k :: k in before ==> k in after && after[k] == before[k]
  }

  /** A put either answers, or fails without effect (`Lost`), or takes effect and reports a
      failure all the same (`Hidden`). Before it, other clients created `others`. */
  datatype Fault = NoFault | Lost(failure: Failure) | Hidden(failure: Failure)
  datatype PutEvent<V> = PutEvent(others: Objects<V>, fault: Fault, jitter: Jitter)
  datatype PutReply = Ok | AlreadyExists | Failed(failure: Failure)

  function ByOthers<V>(objects: Objects<V>, e: PutEvent<V>): Objects<V> {
    e.others + objects
  }

  function Reply<V>(objects: Objects<V>, key: string, e: PutEvent<V>): PutReply {
    match e.fault
    case NoFault => if key in ByOthers(objects, e) then AlreadyExists else Ok
    case Lost(f) => Failed(f)
    case Hidden(f) => Failed(f)
  }

  function AfterPut<V>(objects: Objects<V>, key: string, payload: V, e: PutEvent<V>): Objects<V> {
    if e.fault.Lost? then ByOthers(objects, e) else Create(ByOthers(objects, e), key, payload)
  }

  // ---------------------------------------------------------------- append

  /** `append` after some environment events: finished with a reply, or still in its retry loop. */
  datatype Appending<V> = Appending(objects: Objects<V>, reply: Option<PutReply>)

  function AppendRun<V>(
    objects: Objects<V>, key: string, payload: V, o: RetryOptions, attempt: U32, env: seq<PutEvent<V>>): Appending<V>
    decreases |env|
  {
    if env == [] then Appending(objects, None)
    else
      var after := AfterPut(objects, key, payload, env[0]);
      match Reply(objects, key, env[0])
      case Failed(Generic(true)) =>
        if MayAttempt(o, attempt)
        then AppendRun(after, key, payload, o, AfterAttempt(o, attempt), env[1..])
        else Appending(after, Some(Failed(Generic(true))))
      case Failed(Generic(false)) => AppendRun(after, key, payload, o, attempt, env[1..])
      case reply => Appending(after, Some(reply))
  }

  /** Whatever the environment does, present objects keep their values; `Ok` means the key was
      free at the call and now holds exactly the payload; `AlreadyExists` means it is occupied. */
  lemma {:induction false} AppendMeaning<V>(
    objects: Objects<V>, key: string, payload: V, o: RetryOptions, attempt: U32, env: seq<PutEvent<V>>)
    ensures var r := AppendRun(objects, key, payload, o, attempt, env);
      && Extends(objects, r.objects)
      && (r.reply == Some(Ok) ==> key !in objects && key in r.objects && r.objects[key] == payload)
      && (r.reply == Some(AlreadyExists) ==> key in r.objects)
    decreases |env|
  {
    if env != [] {
      var after := AfterPut(objects, key, payload, env[0]);
      match Reply(objects, key, env[0])
      case Failed(Generic(true)) => AppendMeaning(after, key, payload, o, AfterAttempt(o, attempt), env[1..]);
      case Failed(Generic(false)) => AppendMeaning(after, key, payload, o, attempt, env[1..]);
      case _ =>
    }
  }

  /** How often a put of this very call created the object, visibly or hidden behind an error. */
  function OwnPuts<V>(
    objects: Objects<V>, key: string, payload: V, o: RetryOptions, attempt: U32, env: seq<PutEvent<V>>): nat
    decreases |env|
  {
    if env == [] then 0
    else
      var after := AfterPut(objects, key, payload, env[0]);
      (if !env[0].fault.Lost? && key !in ByOthers(objects, env[0]) then 1 else 0) +
      match Reply(objects, key, env[0])
      case Failed(Generic(true)) =>
        if MayAttempt(o, attempt)
        then OwnPuts(after, key, payload, o, AfterAttempt(o, attempt), env[1..])
        else 0
      case Failed(Generic(false)) => OwnPuts(after, key, payload, o, attempt, env[1..])
      case _ => 0
  }

  /** One call creates its object at most once, and `Ok` reports it exactly. A call that created
      its object behind an error can only go on to fail or to see `AlreadyExists`. */
  lemma {:induction false} AppendCreatesAtMostOnce<V>(
    objects: Objects<V>, key: string, payload: V, o: RetryOptions, attempt: U32, env: seq<PutEvent<V>>)
    ensures var n := OwnPuts(objects, key, payload, o, attempt, env);
      var r := AppendRun(objects, key, payload, o, attempt, env);
      && n <= 1
      && (key in objects ==> n == 0)
      && (r.reply == Some(Ok) ==> n == 1)
      && (n == 1 ==> key in r.objects && r.objects[key] == payload)
    decreases |env|
  {
    if env != [] {
      var after := AfterPut(objects, key, payload, env[0]);
      match Reply(objects, key, env[0])
      case Failed(Generic(true)) =>
        AppendCreatesAtMostOnce(after, key, payload, o, AfterAttempt(o, attempt), env[1..]);
        AppendMeaning(after, key, payload, o, AfterAttempt(o, attempt), env[1..]);
      case Failed(Generic(false)) =>
        AppendCreatesAtMostOnce(after, key, payload, o, attempt, env[1..]);
        AppendMeaning(after, key, payload, o, attempt, env[1..]);
      case _ =>
    }
  }

  /** Some other client created the object, or a put of this call did so behind an error. */
  ghost predicate Occupied<V>(key: string, env: seq<PutEvent<V>>) {
    exists k :: 0 <= k < |env| && (key in env[k].others || env[k].fault.Hidden?)
  }

  /** What `AlreadyExists` means, exactly. A call that settles between `Ok` and `AlreadyExists` on
      the last of these events answers `AlreadyExists` precisely when the object was there at the
      start, was created by others, or was created by this very call behind an error. */
  lemma {:induction false} AlreadyExistsExactly<V>(
    objects: Objects<V>, key: string, payload: V, o: RetryOptions, attempt: U32, env: seq<PutEvent<V>>)
    requires env != [] && AppendRun(objects, key, payload, o, attempt, env[..|env| - 1]).reply.None?
    requires AppendRun(objects, key, payload, o, attempt, env).reply in {Some(Ok), Some(AlreadyExists)}
    ensures AppendRun(objects, key, payload, o, attempt, env).reply == Some(AlreadyExists)
       <==> key in objects || Occupied(key, env)
    decreases |env|
  {
    if |env| > 1 {
      var after, rest := AfterPut(objects, key, payload, env[0]), env[1..];
      assert env[..|env| - 1][1..] == rest[..|rest| - 1];
      AlreadyExistsExactly(after, key, payload, o,
        if env[0].fault.failure.Transient() then AfterAttempt(o, attempt) else attempt, rest);
      OccupiedFirst(key, env);
    }
  }

  lemma OccupiedFirst<V>(key: string, env: seq<PutEvent<V>>)
    requires env != []
    ensures Occupied(key, env) <==> key in env[0].others || env[0].fault.Hidden? || Occupied(key, env[1..])
  {
    if Occupied(key, env[1..]) {
      var k :| 0 <= k < |env[1..]| && (key in env[1..][k].others || env[1..][k].fault.Hidden?);
      assert env[k + 1] == env[1..][k];
    }
    if k :| 0 <= k < |env| && (key in env[k].others || env[k].fault.Hidden?) && k > 0 {
      assert env[1..][k - 1] == env[k];
    }
  }

  /** With nobody else writing a free key, whatever is found there is the call's own object: so
      an `AlreadyExists` then speaks of the payload of this very call. */
  lemma {:induction false} OnlyOwnObject<V>(
    objects: Objects<V>, key: string, payload: V, o: RetryOptions, attempt: U32, env: seq<PutEvent<V>>)
    requires key !in objects && forall k :: 0 <= k < |env| ==> key !in env[k].others
    ensures var r := AppendRun(objects, key, payload, o, attempt, env);
      && (OwnPuts(objects, key, payload, o, attempt, env) == 1 <==> key in r.objects)
      && (r.reply == Some(AlreadyExists) ==> key in r.objects && r.objects[key] == payload)
    decreases |env|
  {
    if env != [] {
      AppendCreatesAtMostOnce(objects, key, payload, o, attempt, env);
      AppendMeaning(objects, key, payload, o, attempt, env);
      var after := AfterPut(objects, key, payload, env[0]);
      if env[0].fault.Lost? && env[0].fault.failure.Generic? {
        OnlyOwnObject(after, key, payload, o,
          if env[0].fault.failure.Transient() then AfterAttempt(o, attempt) else attempt, env[1..]);
      } else if env[0].fault.Hidden? && env[0].fault.failure.Generic? {
        AppendMeaning(after, key, payload, o,
          if env[0].fault.failure.Transient() then AfterAttempt(o, attempt) else attempt, env[1..]);
      }
    }
  }

  /** The smallest such call: the retry of a hidden put is told `AlreadyExists` about its own
      object. */
  lemma HiddenPutIsReportedAsExisting<V>(key: string, payload: V, o: RetryOptions, j: Jitter)
    requires MayAttempt(o, 0)
    ensures var env := [PutEvent(map[], Hidden(Generic(true)), j), PutEvent(map[], NoFault, j)];
      AppendRun(map[], key, payload, o, 0, env) == Appending(map[key := payload], Some(AlreadyExists))
  {
  }

  // ---------------------------------------------------------------- when append ends

  /** A put that is answered with a `Generic` error, transient or not, had effect or not. */
  predicate FailsGeneric<V>(e: PutEvent<V>) {
    !e.fault.NoFault? && e.fault.failure.Generic?
  }

  ghost predicate AllFailGeneric<V>(env: seq<PutEvent<V>>) {
    forall k :: 0 <= k < |env| ==> FailsGeneric(env[k])
  }

  /** The puts that failed with a non-transient `Generic` error, which are retried for free. */
  function Uncounted<V>(env: seq<PutEvent<V>>): (n: nat)
    ensures n <= |env|
  {
    if env == [] then 0
    else (if env[0].fault in {Lost(Generic(false)), Hidden(Generic(false))} then 1 else 0) + Uncounted(env[1..])
  }

  lemma AllFailGenericFirst<V>(env: seq<PutEvent<V>>)
    requires env != []
    ensures AllFailGeneric(env) <==> FailsGeneric(env[0]) && AllFailGeneric(env[1..])
  {
    assert env == [env[0]] + env[1..];
  }

  /** Exactly when `append` is still in its loop, for every budget and every environment: every
      put so far failed with a `Generic` error, and, if the budget is bounded at all, those that
      count have not exceeded what was left of it. */
  lemma {:induction false} AppendRunsOnExactly<V>(
    objects: Objects<V>, key: string, payload: V, o: RetryOptions, attempt: U32, env: seq<PutEvent<V>>)
    requires Bounded(o) ==> attempt <= o.maxAttempts.value
    ensures AppendRun(objects, key, payload, o, attempt, env).reply.None?
       <==> && AllFailGeneric(env)
            && (Bounded(o) ==> |env| - Uncounted(env) <= o.maxAttempts.value - attempt)
    decreases |env|
  {
    if env != [] {
      var after := AfterPut(objects, key, payload, env[0]);
      AllFailGenericFirst(env);
      AttemptStep(o, attempt);
      match Reply(objects, key, env[0])
      case Failed(Generic(true)) =>
        if MayAttempt(o, attempt) {
          AppendRunsOnExactly(after, key, payload, o, AfterAttempt(o, attempt), env[1..]);
        }
      case Failed(Generic(false)) => AppendRunsOnExactly(after, key, payload, o, attempt, env[1..]);
      case _ =>
    }
  }

  /** What the last of these events does to a call that is still running before it. */
  lemma {:induction false} AppendLast<V>(
    objects: Objects<V>, key: string, payload: V, o: RetryOptions, attempt: U32, env: seq<PutEvent<V>>)
    requires env != [] && AppendRun(objects, key, payload, o, attempt, env[..|env| - 1]).reply.None?
    ensures var r, last := AppendRun(objects, key, payload, o, attempt, env), env[|env| - 1].fault;
      && (last.NoFault? <==> r.reply in {Some(Ok), Some(AlreadyExists)})
      && (!last.NoFault? ==> r.reply == Some(Failed(last.failure)) || (r.reply.None? && last.failure.Generic?))
      && (!last.NoFault? && last.failure == Generic(false) ==> r.reply.None?)
      && (!last.Lost? ==> key in r.objects)
    decreases |env|
  {
    if |env| > 1 {
      var rest := env[1..];
      assert env[..|env| - 1][1..] == rest[..|rest| - 1];
      AppendLast(AfterPut(objects, key, payload, env[0]), key, payload, o,
        if env[0].fault.failure.Transient() then AfterAttempt(o, attempt) else attempt, rest);
    }
  }

  lemma FailedLast<V>(
    objects: Objects<V>, key: string, payload: V, o: RetryOptions, attempt: U32, env: seq<PutEvent<V>>)
    requires Bounded(o) ==> attempt <= o.maxAttempts.value
    requires env != [] && AppendRun(objects, key, payload, o, attempt, env[..|env| - 1]).reply.None?
    requires FailsGeneric(env[|env| - 1])
    ensures AppendRun(objects, key, payload, o, attempt, env).reply.None?
       <==> (Bounded(o) ==> |env| - Uncounted(env) <= o.maxAttempts.value - attempt)
  {
    AppendRunsOnExactly(objects, key, payload, o, attempt, env);
    AppendRunsOnExactly(objects, key, payload, o, attempt, env[..|env| - 1]);
    AllFailGenericLast(env);
  }

  lemma AllFailGenericLast<V>(env: seq<PutEvent<V>>)
    requires env != [] && AllFailGeneric(env[..|env| - 1]) && FailsGeneric(env[|env| - 1])
    ensures AllFailGeneric(env)
  {
    assert env == env[..|env| - 1] + [env[|env| - 1]];
  }

  /** The answer of `append`, exactly: a call that is still running before the last of these events
      answers on it `Ok` or `AlreadyExists` precisely if that put succeeds, by whether the key was
      free; a fatal error precisely if the put fails with it; and a transient one precisely if the
      put fails transiently and a bounded budget is exceeded. */
  lemma AppendAnswersExactly<V>(
    objects: Objects<V>, key: string, payload: V, o: RetryOptions, attempt: U32, env: seq<PutEvent<V>>)
    requires Bounded(o) ==> attempt <= o.maxAttempts.value
    requires env != [] && AppendRun(objects, key, payload, o, attempt, env[..|env| - 1]).reply.None?
    ensures var reply, last := AppendRun(objects, key, payload, o, attempt, env).reply, env[|env| - 1].fault;
      var taken := key in objects || Occupied(key, env);
      && (reply == Some(Ok) <==> last.NoFault? && !taken)
      && (reply == Some(AlreadyExists) <==> last.NoFault? && taken)
      && (reply == Some(Failed(Fatal)) <==> !last.NoFault? && last.failure == Fatal)
      && (reply == Some(Failed(Generic(true))) <==>
            && !last.NoFault? && last.failure == Generic(true)
            && Bounded(o) && |env| - Uncounted(env) > o.maxAttempts.value - attempt)
  {
    AppendLast(objects, key, payload, o, attempt, env);
    if env[|env| - 1].fault.NoFault? {
      AlreadyExistsExactly(objects, key, payload, o, attempt, env);
    } else if env[|env| - 1].fault.failure.Generic? {
      FailedLast(objects, key, payload, o, attempt, env);
    }
  }

  /** Whether the object is there after these events: it was, or others or a hidden put created it,
      or the last put succeeded. */
  lemma {:induction false} AppendOccupies<V>(
    objects: Objects<V>, key: string, payload: V, o: RetryOptions, attempt: U32, env: seq<PutEvent<V>>)
    requires env != [] && AppendRun(objects, key, payload, o, attempt, env[..|env| - 1]).reply.None?
    ensures key in AppendRun(objects, key, payload, o, attempt, env).objects
       <==> key in objects || Occupied(key, env) || env[|env| - 1].fault.NoFault?
    decreases |env|
  {
    OccupiedFirst(key, env);
    if |env| > 1 {
      var rest := env[1..];
      assert env[..|env| - 1][1..] == rest[..|rest| - 1];
      AppendOccupies(AfterPut(objects, key, payload, env[0]), key, payload, o,
        if env[0].fault.failure.Transient() then AfterAttempt(o, attempt) else attempt, rest);
    }
  }

  /** A fatal error comes out only of a put that failed with one. */
  lemma {:induction false} AppendNotFatal<V>(
    objects: Objects<V>, key: string, payload: V, o: RetryOptions, attempt: U32, env: seq<PutEvent<V>>)
    requires NoFatal(env)
    ensures AppendRun(objects, key, payload, o, attempt, env).reply != Some(Failed(Fatal))
    decreases |env|
  {
    if env != [] {
      var after := AfterPut(objects, key, payload, env[0]);
      match Reply(objects, key, env[0])
      case Failed(Generic(true)) => AppendNotFatal(after, key, payload, o, AfterAttempt(o, attempt), env[1..]);
      case Failed(Generic(false)) => AppendNotFatal(after, key, payload, o, attempt, env[1..]);
      case _ =>
    }
  }

  ghost predicate NoFatal<V>(env: seq<PutEvent<V>>) {
    forall k :: 0 <= k < |env| ==> env[k].fault.NoFault? || env[k].fault.failure != Fatal
  }

  /** `append` never returns a non-transient `Generic` error. */
  lemma {:induction false} NeverPlainGeneric<V>(
    objects: Objects<V>, key: string, payload: V, o: RetryOptions, attempt: U32, env: seq<PutEvent<V>>)
    ensures AppendRun(objects, key, payload, o, attempt, env).reply != Some(Failed(Generic(false)))
    decreases |env|
  {
    if env != [] {
      var after := AfterPut(objects, key, payload, env[0]);
      match Reply(objects, key, env[0])
      case Failed(Generic(true)) => NeverPlainGeneric(after, key, payload, o, AfterAttempt(o, attempt), env[1..]);
      case Failed(Generic(false)) => NeverPlainGeneric(after, key, payload, o, attempt, env[1..]);
      case _ =>
    }
  }

  /** Once it has answered, further events are nothing to it. */
  lemma {:induction false} AppendSettled<V>(
    objects: Objects<V>, key: string, payload: V, o: RetryOptions, attempt: U32, env: seq<PutEvent<V>>, more: seq<PutEvent<V>>)
    requires AppendRun(objects, key, payload, o, attempt, env).reply.Some?
    ensures AppendRun(objects, key, payload, o, attempt, env + more) == AppendRun(objects, key, payload, o, attempt, env)
    decreases |env|
  {
    assert (env + more)[1..] == env[1..] + more;
    var after := AfterPut(objects, key, payload, env[0]);
    match Reply(objects, key, env[0])
    case Failed(Generic(true)) =>
      if MayAttempt(o, attempt) {
        AppendSettled(after, key, payload, o, AfterAttempt(o, attempt), env[1..], more);
      }
    case Failed(Generic(false)) => AppendSettled(after, key, payload, o, attempt, env[1..], more);
    case _ =>
  }

  /** So a bounded `append` is over after the remaining budget plus one put, not counting the puts
      that are retried for free. */
  lemma AppendEnds<V>(
    objects: Objects<V>, key: string, payload: V, o: RetryOptions, attempt: U32, env: seq<PutEvent<V>>)
    requires Bounded(o) && attempt <= o.maxAttempts.value
    requires |env| > o.maxAttempts.value - attempt + Uncounted(env)
    ensures AppendRun(objects, key, payload, o, attempt, env).reply.Some?
  {
    AppendRunsOnExactly(objects, key, payload, o, attempt, env);
  }

  /** And there is no bound without that exception, whatever the budget: errors that are retried
      for free keep `append` looping for ever. */
  lemma AppendLoopsUncounted<V>(objects: Objects<V>, key: string, payload: V, o: RetryOptions, env: seq<PutEvent<V>>)
    requires forall k :: 0 <= k < |env| ==> FailsGeneric(env[k]) && !env[k].fault.failure.transient
    ensures AppendRun(objects, key, payload, o, 0, env).reply.None?
  {
    AllUncounted(env);
    AppendRunsOnExactly(objects, key, payload, o, 0, env);
  }

  lemma {:induction false} AllUncounted<V>(env: seq<PutEvent<V>>)
    requires forall k :: 0 <= k < |env| ==> FailsGeneric(env[k]) && !env[k].fault.failure.transient
    ensures Uncounted(env) == |env|
  {
    if env != [] {
      assert FailsGeneric(env[0]);
      AllUncounted(env[1..]);
    }
  }

  class ObjectStore<V> {
    var objects: Objects<V>

    method PutCreate(key: string, payload: V, e: PutEvent<V>) returns (reply: PutReply)
      modifies this
      ensures objects == AfterPut(old(objects), key, payload, e)
      ensures reply == Reply(old(objects), key, e)
    {
      objects := e.others + objects;
      match e.fault
      case NoFault =>
        if key in objects {
          reply := AlreadyExists;
        } else {
          objects, reply := objects[key := payload], Ok;
        }
      case Lost(f) =>
        reply := Failed(f);
      case Hidden(f) =>
        if key !in objects {
          objects := objects[key := payload];
        }
        reply := Failed(f);
    }
  }

  class S2cLog<V> {
    const store: ObjectStore<V>
    const group: string
    const retry: RetryOptions

    constructor (store: ObjectStore<V>, group: string, retry: RetryOptions)
      ensures this.store == store && this.group == group && this.retry == retry
    {
      this.store, this.group, this.retry := store, group, retry;
    }

    /** `append`, run for as long as the environment supplies answers; `None` if it is then still
        retrying. */
    method Append(index: U64, payload: V, env: seq<PutEvent<V>>) returns (reply: Option<PutReply>)
      modifies store
      ensures Appending(store.objects, reply)
           == AppendRun(old(store.objects), EntryKey(group, index), payload, retry, 0, env)
    {
      var backoff := new BackoffCounter(retry);
      var key := LogEntryKey(group, Invert(index));
      var i := 0;
      while i < |env|
        invariant i <= |env|
        invariant backoff.Valid() && fresh(backoff) && backoff.options == retry
        invariant AppendRun(old(store.objects), key, payload, retry, 0, env)
               == AppendRun(store.objects, key, payload, retry, backoff.currentAttempt, env[i..])
      {
        var e := env[i];
        assert env[i..][0] == e && env[i..][1..] == env[i + 1..];
        var put := store.PutCreate(key, payload, e);
        i := i + 1;
        match put
        case Failed(Generic(true)) =>
          var can := backoff.CanAttempt();
          if can {
            var _ := backoff.AwaitAttempt(e.jitter);
          } else {
            return Some(put);
          }
        case Failed(Generic(false)) =>
        case _ =>
          return Some(put);
      }
      return None;
    }

    /** `get_head`. Transient listing errors are skipped whether or not the budget allows it. */
    method GetHead(items: seq<ListItem>, jitter: Jitter) returns (head: Head)
      ensures head == HeadFound(items)
    {
      var backoff := new BackoffCounter(retry);
      for i := 0 to |items|
        invariant backoff.Valid() && fresh(backoff) && backoff.options == retry
        invariant HeadFound(items) == HeadFound(items[i..])
      {
        match items[i]
        case ListFailed(f) =>
          if f.Transient() {
            var can := backoff.CanAttempt();
            if can {
              var _ := backoff.AwaitAttempt(jitter);
            }
          } else {
            return HeadFailed(f);
          }
        case Listed(key) =>
          var number := HeadNumber(key);
          if number.Some? {
            return HeadAt(number.value);
          } else {
            return NotAnIndex(key);
          }
      }
      return NoHead;
    }

    /** `get_at`, run for as long as the environment supplies answers. */
    method GetAt(index: U64, served: seq<ReadEvent<V>>, jitter: Jitter) returns (result: Progress<V>, gets: nat)
      ensures Getting(result, gets) == GetAtRun(retry, Replies(EntryKey(group, index), served))
    {
      var key := LogEntryKey(group, Invert(index));
      ghost var replies := Replies(key, served);
      var backoff := new BackoffCounter(retry);
      gets := 0;
      while gets < |served|
        invariant gets <= |served|
        invariant backoff.Valid() && fresh(backoff) && backoff.options == retry
        invariant GetAtRun(retry, replies[..gets]) == Getting(Running(backoff.currentAttempt), gets)
      {
        var reply := GetReplyOf(key, served[gets]);
        gets := gets + 1;
        assert replies[..gets][..gets - 1] == replies[..gets - 1];
        assert replies == replies[..gets] + replies[gets..];
        match reply
        case Body(v) =>
          GetAtSettled(retry, replies[..gets], replies[gets..]);
          return Fetched(v), gets;
        case BodyFailed(f) =>
          backoff.Reset();
          var can := backoff.CanAttempt();
          if f.Transient() && can {
            var _ := backoff.AwaitAttempt(jitter);
          } else {
            GetAtSettled(retry, replies[..gets], replies[gets..]);
            return GaveUp(f), gets;
          }
        case GetFailed(f) =>
          var can := backoff.CanAttempt();
          if f.Transient() && can {
            var _ := backoff.AwaitAttempt(jitter);
          } else {
            GetAtSettled(retry, replies[..gets], replies[gets..]);
            return GaveUp(f), gets;
          }
      }
      assert replies[..gets] == replies;
      return Running(backoff.currentAttempt), gets;
    }
  }

  // ---------------------------------------------------------------- refinement

  /** The write-once log that the string-keyed store implements for one group. */
  ghost function AbstractLog<V>(objects: Objects<V>, group: string): imap<U64, V> {
    imap i: U64 | EntryKey(group, i) in objects :: objects[EntryKey(group, i)]
  }

  /** A create-only put of an entry refines a write-once insert at its index and touches no other
      index, for every group id and every index. */
  lemma PutRefinesInsert<V>(objects: Objects<V>, group: string, index: U64, payload: V)
    ensures var l := AbstractLog(objects, group);
      AbstractLog(Create(objects, EntryKey(group, index), payload), group)
      == if index in l then l else l[index := payload]
  {
    var key := EntryKey(group, index);
    var after := Create(objects, key, payload);
    forall i: U64 | i != index ensures EntryKey(group, i) != key {
      if EntryKey(group, i) == key {
        LogKeysInjective(group, Invert(i), group, Invert(index));
      }
    }
    var l, l' := AbstractLog(objects, group), AbstractLog(after, group);
    assert index !in l ==> l' == l[index := payload];
    assert index in l ==> after == objects;
  }

  /** Entries of other groups and snapshots never show in a group's log. */
  lemma OtherKeysAreInvisible<V>(objects: Objects<V>, group: string, key: string, payload: V)
    requires (exists g: string, n: U64 :: g != group && key == LogEntryKey(g, n)) || (exists g: string :: key == SnapshotKey(g))
    ensures AbstractLog(objects[key := payload], group) == AbstractLog(objects, group)
  {
    forall i: U64 ensures EntryKey(group, i) != key {
      if EntryKey(group, i) == key {
        if g: string, n: U64 :| g != group && key == LogEntryKey(g, n) {
          LogKeysInjective(g, n, group, Invert(i));
        } else {
          var g: string :| key == SnapshotKey(g);
          LogKeysAreNotSnapshots(group, Invert(i), g);
        }
      }
    }
  }

  /** A concurrent `append`, seen through the abstract log: nothing present changes, `Ok` filled
      a free index with exactly the payload, `AlreadyExists` found the index taken. */
  lemma AppendRefinesWriteOnce<V>(
    objects: Objects<V>, group: string, index: U64, payload: V, o: RetryOptions, env: seq<PutEvent<V>>)
    ensures var r := AppendRun(objects, EntryKey(group, index), payload, o, 0, env);
      var l, l' := AbstractLog(objects, group), AbstractLog(r.objects, group);
      && (forall i: U64 :: i in l ==> i in l' && l'[i] == l[i])
      && (r.reply == Some(Ok) ==> index !in l && index in l' && l'[index] == payload)
      && (r.reply == Some(AlreadyExists) ==> index in l')
  {
    AppendMeaning(objects, EntryKey(group, index), payload, o, 0, env);
  }

  // ---------------------------------------------------------------- reading

  datatype ListItem = Listed(key: string) | ListFailed(failure: Failure)
  datatype Head = NoHead | HeadAt(number: U64) | HeadFailed(failure: Failure) | NotAnIndex(key: string)

  predicate SkippedItem(item: ListItem) {
    item.ListFailed? && item.failure.Transient()
  }

  predicate AllSkipped(items: seq<ListItem>) {
    forall k :: 0 <= k < |items| ==> SkippedItem(items[k])
  }

  /** The first item of a listing that is not a transient error. */
  ghost predicate FirstSettled(items: seq<ListItem>, k: nat) {
    k < |items| && !SkippedItem(items[k]) && forall j :: 0 <= j < k ==> SkippedItem(items[j])
  }

  function HeadOf(item: ListItem): Head {
    match item
    case ListFailed(f) => HeadFailed(f)
    case Listed(key) => if HeadNumber(key).Some? then HeadAt(HeadNumber(key).value) else NotAnIndex(key)
  }

  /** `get_head` over a listing. */
  function HeadFound(items: seq<ListItem>): Head {
    if items == [] then NoHead else if SkippedItem(items[0]) then HeadFound(items[1..]) else HeadOf(items[0])
  }

  /** What `get_head` returns: no head exactly when the listing is empty or nothing but transient
      errors; else, by its first settled item, that item's error, the number its name reads as, or a
      panic over a name that is no number. */
  lemma {:induction false} HeadMeaning(items: seq<ListItem>)
    ensures HeadFound(items).NoHead? <==> AllSkipped(items)
    ensures forall k: nat :: FirstSettled(items, k) ==> Tells(items[k], HeadFound(items))
    ensures HeadFound(items).HeadFailed? ==> !HeadFound(items).failure.Transient()
  {
    if items != [] && SkippedItem(items[0]) {
      var rest := items[1..];
      HeadMeaning(rest);
      assert AllSkipped(items) <==> AllSkipped(rest) by {
        assert items == [items[0]] + rest;
      }
      forall k: nat | FirstSettled(items, k) ensures Tells(items[k], HeadFound(items)) {
        assert rest[k - 1] == items[k];
        assert FirstSettled(rest, k - 1);
      }
    }
  }

  ghost predicate Tells(item: ListItem, head: Head) {
    && (forall f :: item == ListFailed(f) ==> head == HeadFailed(f))
    && (item.Listed? ==> forall n: U64 :: HeadNumber(item.key) == Some(n) <==> head == HeadAt(n))
    && (item.Listed? ==> (HeadNumber(item.key).None? <==> head == NotAnIndex(item.key)))
  }

  /** A listing that first shows an entry of any group gives that entry's number. */
  lemma HeadOfEntry(items: seq<ListItem>, k: nat, h: string, number: U64)
    requires FirstSettled(items, k) && items[k] == Listed(LogEntryKey(h, number))
    ensures HeadFound(items) == HeadAt(number)
  {
    HeadMeaning(items);
    HeadNumberOfKey(h, number);
  }

  /** The answer to one `get`, with the answer to reading its body. */
  datatype GetReply<V> = Body(value: V) | BodyFailed(failure: Failure) | GetFailed(failure: Failure)
  {
    predicate Transient() { !Body? && failure.Transient() }
  }

  /** One `get`: what the store holds when it is served, and what goes wrong. A missing object is
      an error that is not transient. */
  datatype ReadFault = NoReadFault | GetFault(failure: Failure) | BodyFault(failure: Failure)
  datatype ReadEvent<V> = ReadEvent(objects: Objects<V>, fault: ReadFault)

  function GetReplyOf<V>(key: string, e: ReadEvent<V>): GetReply<V> {
    if e.fault.GetFault? then GetFailed(e.fault.failure)
    else if key !in e.objects then GetFailed(Fatal)
    else if e.fault.BodyFault? then BodyFailed(e.fault.failure)
    else Body(e.objects[key])
  }

  function Replies<V>(key: string, served: seq<ReadEvent<V>>): seq<GetReply<V>> {
    seq(|served|, k requires 0 <= k < |served| => GetReplyOf(key, served[k]))
  }

  datatype Progress<V> = Running(attempt: U32) | Fetched(value: V) | GaveUp(failure: Failure)
  datatype Getting<V> = Getting(progress: Progress<V>, gets: nat)

  /** One turn of the loop in `get_at`; a successful `get` resets the budget first. */
  function GetAtStep<V>(o: RetryOptions, attempt: U32, reply: GetReply<V>): Progress<V> {
    match reply
    case Body(v) => Fetched(v)
    case BodyFailed(f) => if f.Transient() && MayAttempt(o, 0) then Running(AfterAttempt(o, 0)) else GaveUp(f)
    case GetFailed(f) => if f.Transient() && MayAttempt(o, attempt) then Running(AfterAttempt(o, attempt)) else GaveUp(f)
  }

  /** Where `get_at` stands after these answers, and how many of them it used. */
  function GetAtRun<V>(o: RetryOptions, replies: seq<GetReply<V>>): Getting<V>
    decreases |replies|
  {
    if replies == [] then Getting(Running(0), 0)
    else
      var g := GetAtRun(o, replies[..|replies| - 1]);
      if g.progress.Running?
      then Getting(GetAtStep(o, g.progress.attempt, replies[|replies| - 1]), |replies|)
      else g
  }

  lemma {:induction false} GetAtSettled<V>(o: RetryOptions, replies: seq<GetReply<V>>, more: seq<GetReply<V>>)
    requires !GetAtRun(o, replies).progress.Running?
    ensures GetAtRun(o, replies + more) == GetAtRun(o, replies)
    decreases |more|
  {
    if more == [] {
      assert replies + more == replies;
    } else {
      var front := more[..|more| - 1];
      GetAtSettled(o, replies, front);
      assert (replies + more)[..|replies + more| - 1] == replies + front;
    }
  }

  ghost predicate AllTransient<V>(replies: seq<GetReply<V>>) {
    forall k :: 0 <= k < |replies| ==> replies[k].Transient()
  }

  /** Between `i` and `j` no get succeeded except perhaps the first: the budget was not reset. */
  ghost predicate Unreset<V>(replies: seq<GetReply<V>>, i: nat, j: nat) {
    i < j <= |replies| && forall k :: i < k < j ==> replies[k].GetFailed?
  }

  ghost predicate WithinBudget<V>(replies: seq<GetReply<V>>, budget: nat) {
    forall i: nat, j: nat :: Unreset(replies, i, j) ==> j - i <= budget
  }

  /** The length of the last stretch of answers without a reset. */
  function Stretch<V>(replies: seq<GetReply<V>>): (n: nat)
    ensures n <= |replies|
    decreases |replies|
  {
    if replies == [] then 0
    else if replies[|replies| - 1].GetFailed? then Stretch(replies[..|replies| - 1]) + 1
    else 1
  }

  lemma {:induction false} StretchIsLongest<V>(replies: seq<GetReply<V>>)
    ensures replies != [] ==> Unreset(replies, |replies| - Stretch(replies), |replies|)
    ensures forall i: nat :: Unreset(replies, i, |replies|) ==> |replies| - i <= Stretch(replies)
    decreases |replies|
  {
    if replies != [] && replies[|replies| - 1].GetFailed? {
      var front := replies[..|replies| - 1];
      StretchIsLongest(front);
      forall i: nat | Unreset(replies, i, |replies|) ensures |replies| - i <= Stretch(replies) {
        assert i < |front| ==> Unreset(front, i, |front|);
      }
    }
  }

  lemma WithinBudgetOneMore<V>(replies: seq<GetReply<V>>, budget: nat)
    requires replies != []
    ensures WithinBudget(replies, budget)
       <==> WithinBudget(replies[..|replies| - 1], budget) && Stretch(replies) <= budget
  {
    var front := replies[..|replies| - 1];
    StretchIsLongest(replies);
    forall i: nat, j: nat | j <= |front| ensures Unreset(front, i, j) <==> Unreset(replies, i, j) {
      assert forall k :: 0 <= k < |front| ==> front[k] == replies[k];
    }
  }

  lemma AllTransientOneMore<V>(replies: seq<GetReply<V>>)
    requires replies != []
    ensures AllTransient(replies)
       <==> AllTransient(replies[..|replies| - 1]) && replies[|replies| - 1].Transient()
  {
  }

  /** While it runs, `get_at` has counted the last stretch. */
  lemma {:induction false} GetAtCounts<V>(o: RetryOptions, replies: seq<GetReply<V>>)
    requires Bounded(o) && GetAtRun(o, replies).progress.Running?
    ensures GetAtRun(o, replies).progress.attempt == Stretch(replies) <= o.maxAttempts.value
    decreases |replies|
  {
    if replies != [] {
      GetAtCounts(o, replies[..|replies| - 1]);
      AttemptStep(o, Stretch(replies[..|replies| - 1]));
      AttemptStep(o, 0);
    }
  }

  /** Exactly when `get_at` is still in its loop, for every budget and all answers: they all failed
      transiently and, if the budget is bounded, no stretch of them without a successful `get` is
      longer than it, the successful `get` that opens a stretch included. */
  lemma {:induction false} GetAtRunsOnExactly<V>(o: RetryOptions, replies: seq<GetReply<V>>)
    ensures GetAtRun(o, replies).progress.Running?
       <==> AllTransient(replies) && (Bounded(o) ==> WithinBudget(replies, o.maxAttempts.value))
    decreases |replies|
  {
    if replies != [] {
      var front := replies[..|replies| - 1];
      GetAtRunsOnExactly(o, front);
      AllTransientOneMore(replies);
      var p := GetAtRun(o, front).progress;
      if p.Running? {
        if Bounded(o) {
          WithinBudgetOneMore(replies, o.maxAttempts.value);
          GetAtCounts(o, front);
        }
        AttemptStep(o, p.attempt);
        AttemptStep(o, 0);
      } else if Bounded(o) {
        WithinBudgetOneMore(replies, o.maxAttempts.value);
      }
    }
  }

  /** The answer of `get_at`, exactly: if it is still running before the last of these answers, it
      comes back with that answer's value, or with that answer's failure precisely if the failure
      is not transient or a bounded budget is exceeded. */
  lemma GetAtAnswersExactly<V>(o: RetryOptions, replies: seq<GetReply<V>>, value: V, f: Failure)
    requires replies != [] && GetAtRun(o, replies[..|replies| - 1]).progress.Running?
    ensures var g, last := GetAtRun(o, replies), replies[|replies| - 1];
      && g.gets == |replies|
      && (g.progress == Fetched(value) <==> last == Body(value))
      && (g.progress == GaveUp(f) <==>
            && !last.Body? && last.failure == f
            && (f.Transient() ==> Bounded(o) && !WithinBudget(replies, o.maxAttempts.value)))
  {
    GetAtRunsOnExactly(o, replies);
    GetAtRunsOnExactly(o, replies[..|replies| - 1]);
    AllTransientOneMore(replies);
  }

  /** A body that is read is returned, whatever would come after it. */
  lemma BodyIsFetched<V>(o: RetryOptions, front: seq<GetReply<V>>, value: V, more: seq<GetReply<V>>)
    requires GetAtRun(o, front).progress.Running?
    ensures GetAtRun(o, front + [Body(value)] + more) == Getting(Fetched(value), |front| + 1)
  {
    var replies := front + [Body(value)];
    assert replies[..|front|] == front;
    GetAtAnswersExactly(o, replies, value, Fatal);
    GetAtSettled(o, replies, more);
  }

  ghost predicate NoTransientBody<V>(replies: seq<GetReply<V>>) {
    forall k :: 0 <= k < |replies| ==> !(replies[k].BodyFailed? && replies[k].Transient())
  }

  /** What `get_at` has done: everything before its last get failed transiently, and a value is
      that of its last get. */
  lemma {:induction false} GetAtMeaning<V>(o: RetryOptions, replies: seq<GetReply<V>>)
    ensures var g := GetAtRun(o, replies);
      && g.gets <= |replies|
      && (forall k :: 0 <= k < g.gets - 1 ==> replies[k].Transient())
      && (g.progress.Running? ==> g.gets == |replies| && AllTransient(replies))
      && (!g.progress.Running? ==> g.gets > 0)
      && (g.progress.Fetched? ==> replies[g.gets - 1] == Body(g.progress.value))
      && (g.progress.GaveUp? ==> !replies[g.gets - 1].Body? && replies[g.gets - 1].failure == g.progress.failure)
    decreases |replies|
  {
    if replies != [] {
      GetAtMeaning(o, replies[..|replies| - 1]);
    }
  }

  /** A transient error gets out only when a bounded budget is spent. With such a budget and no
      transient body failure, that takes exactly one get more than the budget, and nothing takes
      longer. */
  lemma {:induction false} GetAtBudget<V>(o: RetryOptions, replies: seq<GetReply<V>>)
    ensures var g := GetAtRun(o, replies);
      && (g.progress.GaveUp? && g.progress.failure.Transient() ==> Bounded(o))
      && (Bounded(o) && NoTransientBody(replies) ==>
            && g.gets <= o.maxAttempts.value + 1
            && (g.progress.GaveUp? && g.progress.failure.Transient() ==> g.gets == o.maxAttempts.value + 1))
    decreases |replies|
  {
    if replies != [] {
      var front := replies[..|replies| - 1];
      GetAtBudget(o, front);
      var p := GetAtRun(o, front).progress;
      if p.Running? {
        GetAtMeaning(o, front);
        if Bounded(o) {
          GetAtCounts(o, front);
          if NoTransientBody(front) {
            OneStretch(front);
          }
        }
        AttemptStep(o, p.attempt);
        AttemptStep(o, 0);
      }
    }
  }

  lemma {:induction false} OneStretch<V>(replies: seq<GetReply<V>>)
    requires AllTransient(replies) && NoTransientBody(replies)
    ensures Stretch(replies) == |replies|
    decreases |replies|
  {
    if replies != [] {
      assert replies[|replies| - 1].Transient();
      OneStretch(replies[..|replies| - 1]);
    }
  }

  ghost predicate Ends<V>(o: RetryOptions, replies: nat -> GetReply<V>) {
    exists n: nat :: !GetAtRun(o, seq(n, replies)).progress.Running?
  }

  /** Transient body failures never exhaust a budget that allows a retry at all. */
  lemma TransientBodiesKeepRunning<V>(o: RetryOptions, replies: seq<GetReply<V>>)
    requires o.maxAttempts != Some(0)
    requires forall k :: 0 <= k < |replies| ==> replies[k] == BodyFailed(Generic(true))
    ensures GetAtRun(o, replies).progress.Running?
  {
    forall i: nat, j: nat | i + 1 < j <= |replies| ensures !Unreset(replies, i, j) {
      assert !replies[i + 1].GetFailed?;
    }
    GetAtRunsOnExactly(o, replies);
  }

  /** `get_at` ends in every environment exactly when no retry at all is allowed. */
  lemma GetAtAlwaysEndsExactly<V(!new)>(o: RetryOptions)
    ensures (forall replies: nat -> GetReply<V> :: Ends(o, replies))
       <==> o.maxAttempts == Some(0)
  {
    if o.maxAttempts == Some(0) {
      forall replies: nat -> GetReply<V> ensures Ends(o, replies) {
        assert seq(1, replies)[..0] == [];
        assert !GetAtRun(o, seq(1, replies)).progress.Running?;
      }
    } else {
      var flaky: nat -> GetReply<V> := _ => BodyFailed(Generic(true));
      forall n: nat ensures GetAtRun(o, seq(n, flaky)).progress.Running? {
        TransientBodiesKeepRunning(o, seq(n, flaky));
      }
      assert !Ends(o, flaky);
    }
  }

  // ---------------------------------------------------------------- discovery

  /** One round of `discover_leader_state`: a listing, and the gets of the head it names. */
  datatype Round<V> = Round(items: seq<ListItem>, served: seq<ReadEvent<V>>)

  datatype Discovery<V> =
    | Discovered(head: U64, entry: V)
    | NoLeader
    | DiscoveryFailed(failure: Failure)
    | DiscoveryPanics(key: string)
    | Undecided

  datatype Discovering<V> = Discovering(result: Discovery<V>, listed: nat, gets: nat)
  {
    predicate FailedTransiently() { result.DiscoveryFailed? && result.failure.Transient() }
  }

  function RoundRun<V>(o: RetryOptions, g: string, r: Round<V>): Discovering<V> {
    match HeadFound(r.items)
    case NoHead => Discovering(NoLeader, 1, 0)
    case NotAnIndex(key) => Discovering(DiscoveryPanics(key), 1, 0)
    case HeadFailed(f) => Discovering(DiscoveryFailed(f), 1, 0)
    case HeadAt(head) =>
      var at := GetAtRun(o, Replies(EntryKey(g, head), r.served));
      match at.progress
      case Running(_) => Discovering(Undecided, 1, at.gets)
      case Fetched(entry) => Discovering(Discovered(head, entry), 1, at.gets)
      case GaveUp(f) => Discovering(DiscoveryFailed(f), 1, at.gets)
  }

  /** `discover_leader_state` over a finite supply of rounds. */
  function DiscoverRun<V>(o: RetryOptions, g: string, attempt: U32, rounds: seq<Round<V>>): Discovering<V>
    decreases |rounds|
  {
    if rounds == [] then Discovering(Undecided, 0, 0)
    else
      var one := RoundRun(o, g, rounds[0]);
      if one.FailedTransiently() && MayAttempt(o, attempt) then
        var rest := DiscoverRun(o, g, AfterAttempt(o, attempt), rounds[1..]);
        Discovering(rest.result, rest.listed + 1, rest.gets + one.gets)
      else one
  }

  /** The number a round's listing shows first, and the entry then read at that number. */
  ghost predicate ReadAtHead<V>(g: string, r: Round<V>, head: U64, entry: V) {
    && HeadFound(r.items) == HeadAt(head)
    && exists k :: 0 <= k < |r.served| && GetReplyOf(EntryKey(g, head), r.served[k]) == Body(entry)
  }

  ghost predicate Retried<V>(o: RetryOptions, g: string, r: Round<V>) {
    RoundRun(o, g, r).FailedTransiently()
  }

  ghost predicate NoTransientBodies<V>(g: string, r: Round<V>) {
    forall head: U64 :: NoTransientBody(Replies(EntryKey(g, head), r.served))
  }

  /** One round: no leader exactly when its listing settled nothing; a panic exactly over a name that
      is no number; an entry only if the store held it under the very number listed; at most `m + 1` gets unless a body failed transiently;
      worth a retry only if it listed a head. */
  lemma RoundMeaning<V>(o: RetryOptions, g: string, r: Round<V>)
    ensures var d := RoundRun(o, g, r);
      && (d.result.NoLeader? <==> AllSkipped(r.items))
      && (forall key :: d.result == DiscoveryPanics(key) <==> HeadFound(r.items) == NotAnIndex(key))
      && (forall f :: HeadFound(r.items) == HeadFailed(f) ==> d.result == DiscoveryFailed(f) && d.gets == 0)
      && (d.result.Undecided? <==>
            && HeadFound(r.items).HeadAt?
            && GetAtRun(o, Replies(EntryKey(g, HeadFound(r.items).number), r.served)).progress.Running?)
      && (d.result.Discovered? ==> ReadAtHead(g, r, d.result.head, d.result.entry))
      && (d.FailedTransiently() ==> Bounded(o) && HeadFound(r.items).HeadAt?)
      && (Bounded(o) && NoTransientBodies(g, r) ==> d.gets <= o.maxAttempts.value + 1)
  {
    HeadMeaning(r.items);
    var head := HeadFound(r.items);
    if head.HeadAt? {
      var replies := Replies(EntryKey(g, head.number), r.served);
      GetAtMeaning(o, replies);
      GetAtBudget(o, replies);
      var at := GetAtRun(o, replies);
      if at.progress.Fetched? {
        assert GetReplyOf(EntryKey(g, head.number), r.served[at.gets - 1]) == Body(at.progress.value);
      }
    }
  }

  /** A round whose listing names a head, and whose first get that does not fail transiently within
      the budget is served from a store holding the entry, discovers exactly that entry. */
  lemma RoundDiscovers<V>(o: RetryOptions, g: string, r: Round<V>, head: U64, k: nat)
    requires HeadFound(r.items) == HeadAt(head) && k < |r.served|
    requires GetAtRun(o, Replies(EntryKey(g, head), r.served[..k])).progress.Running?
    requires r.served[k].fault == NoReadFault && EntryKey(g, head) in r.served[k].objects
    ensures RoundRun(o, g, r) == Discovering(Discovered(head, r.served[k].objects[EntryKey(g, head)]), 1, k + 1)
  {
    var key := EntryKey(g, head);
    var replies, value := Replies(key, r.served), r.served[k].objects[key];
    assert replies == Replies(key, r.served[..k]) + [Body(value)] + replies[k + 1..];
    BodyIsFetched(o, Replies(key, r.served[..k]), value, replies[k + 1..]);
  }

  /** A round in which a get of the head fails for good, or with a transient error beyond the budget,
      fails with that get's error. A missing entry is such a failure. */
  lemma RoundFails<V>(o: RetryOptions, g: string, r: Round<V>, head: U64, k: nat)
    requires HeadFound(r.items) == HeadAt(head) && k < |r.served|
    requires GetAtRun(o, Replies(EntryKey(g, head), r.served[..k])).progress.Running?
    requires var replies := Replies(EntryKey(g, head), r.served[..k + 1]);
      && !replies[k].Body?
      && (replies[k].Transient() ==> Bounded(o) && !WithinBudget(replies, o.maxAttempts.value))
    ensures RoundRun(o, g, r) == Discovering(DiscoveryFailed(GetReplyOf(EntryKey(g, head), r.served[k]).failure), 1, k + 1)
  {
    var key := EntryKey(g, head);
    var replies, upTo := Replies(key, r.served), Replies(key, r.served[..k + 1]);
    assert replies == upTo + replies[k + 1..] && upTo[..k] == Replies(key, r.served[..k]);
    if upTo[k].Transient() {
      GetAtRunsOnExactly(o, upTo);
    }
    GetAtSettled(o, upTo, replies[k + 1..]);
  }

  /** An entry that is not in the store when it is got is an error for good. */
  lemma MissingEntryFails<V>(o: RetryOptions, g: string, r: Round<V>, head: U64)
    requires HeadFound(r.items) == HeadAt(head) && r.served != []
    requires !r.served[0].fault.GetFault? && EntryKey(g, head) !in r.served[0].objects
    ensures RoundRun(o, g, r) == Discovering(DiscoveryFailed(Fatal), 1, 1)
  {
    RoundFails(o, g, r, head, 0);
  }

  /** A round whose every body fails transiently is never decided, whatever the budget, as long as it
      allows a retry at all: each successful get gives the budget back. */
  lemma FlakyBodiesNeverDecide<V>(o: RetryOptions, g: string, r: Round<V>, head: U64)
    requires HeadFound(r.items) == HeadAt(head) && o.maxAttempts != Some(0)
    requires forall k :: 0 <= k < |r.served| ==>
      r.served[k].fault == BodyFault(Generic(true)) && EntryKey(g, head) in r.served[k].objects
    ensures RoundRun(o, g, r).result.Undecided?
  {
    TransientBodiesKeepRunning(o, Replies(EntryKey(g, head), r.served));
  }

  /** A round whose every get fails transiently is given up exactly after one get more than a
      bounded budget. */
  lemma FlakyGetsExhaust<V>(o: RetryOptions, g: string, r: Round<V>, head: U64)
    requires HeadFound(r.items) == HeadAt(head) && Bounded(o) && |r.served| > o.maxAttempts.value
    requires forall k :: 0 <= k < |r.served| ==> r.served[k].fault == GetFault(Generic(true))
    ensures RoundRun(o, g, r) == Discovering(DiscoveryFailed(Generic(true)), 1, o.maxAttempts.value + 1)
  {
    var replies := Replies(EntryKey(g, head), r.served);
    assert forall k :: 0 <= k < |replies| ==> replies[k] == GetFailed(Generic(true));
    assert Unreset(replies, 0, |replies|);
    GetAtRunsOnExactly(o, replies);
    GetAtMeaning(o, replies);
    GetAtBudget(o, replies);
  }

  /** `discover_leader_state`, for every budget and every environment: every round but the last
      failed transiently; it found no leader exactly when its last listing settled nothing; an
      entry was read in the last round under the number listed there. */
  lemma {:induction false} DiscoveryMeaning<V>(o: RetryOptions, g: string, attempt: U32, rounds: seq<Round<V>>)
    ensures var d := DiscoverRun(o, g, attempt, rounds);
      && d.listed <= |rounds|
      && (forall k :: 0 <= k < d.listed - 1 ==> Retried(o, g, rounds[k]))
      && (d.listed == 0 ==> d.result.Undecided?)
      && (d.listed > 0 ==> (d.result.NoLeader? <==> AllSkipped(rounds[d.listed - 1].items)))
      && (d.listed > 0 && d.result.Discovered? ==>
            ReadAtHead(g, rounds[d.listed - 1], d.result.head, d.result.entry))
    decreases |rounds|
  {
    if rounds != [] {
      RoundMeaning(o, g, rounds[0]);
      if Retried(o, g, rounds[0]) && MayAttempt(o, attempt) {
        DiscoveryMeaning(o, g, AfterAttempt(o, attempt), rounds[1..]);
      }
    }
  }

  /** What discovery answers, exactly: after rounds that failed transiently within the budget, the
      first round that did not, or that exceeds the budget, decides it, and nothing after it counts. */
  lemma {:induction false} DiscoveryDecides<V>(o: RetryOptions, g: string, attempt: U32, rounds: seq<Round<V>>, k: nat)
    requires Bounded(o) ==> attempt + k <= o.maxAttempts.value
    requires k < |rounds| && forall j :: 0 <= j < k ==> Retried(o, g, rounds[j])
    requires !Retried(o, g, rounds[k]) || (Bounded(o) && attempt + k == o.maxAttempts.value)
    ensures var d := DiscoverRun(o, g, attempt, rounds);
      d.result == RoundRun(o, g, rounds[k]).result && d.listed == k + 1
    decreases k
  {
    AttemptStep(o, attempt);
    if k > 0 {
      assert Retried(o, g, rounds[0]) && rounds[1..][k - 1] == rounds[k];
      DiscoveryDecides(o, g, AfterAttempt(o, attempt), rounds[1..], k - 1);
    }
  }

  /** A transient error gets out of discovery only when a bounded budget is spent, and no more
      rounds than that are taken. */
  lemma {:induction false} DiscoveryBudget<V>(o: RetryOptions, g: string, attempt: U32, rounds: seq<Round<V>>)
    requires Bounded(o) ==> attempt <= o.maxAttempts.value
    ensures var d := DiscoverRun(o, g, attempt, rounds);
      && (Bounded(o) ==> d.listed <= o.maxAttempts.value - attempt + 1)
      && (d.FailedTransiently() ==> Bounded(o) && d.listed == o.maxAttempts.value - attempt + 1)
    decreases |rounds|
  {
    if rounds != [] {
      RoundMeaning(o, g, rounds[0]);
      AttemptStep(o, attempt);
      if Retried(o, g, rounds[0]) && MayAttempt(o, attempt) {
        DiscoveryBudget(o, g, AfterAttempt(o, attempt), rounds[1..]);
      }
    }
  }

  /** Read through the listing of its own group, a discovered entry is never the one listed, but
      the one at the mirrored index. */
  lemma DiscoveredEntryIsMirrored<V>(g: string, r: Round<V>, k: nat, index: U64, head: U64, entry: V)
    requires FirstSettled(r.items, k) && r.items[k] == Listed(EntryKey(g, index))
    requires ReadAtHead(g, r, head, entry)
    ensures head == Invert(index) && EntryKey(g, head) != EntryKey(g, index)
  {
    HeadMeaning(r.items);
    DiscoveryReadsMirroredEntry(g, index);
  }

  /** With a bounded budget and no transient body failure, discovery takes at most `m + 1`
      gets for each listing, so at most `(m + 1)` squared in all. */
  lemma DiscoveryGets<V>(o: RetryOptions, g: string, attempt: U32, rounds: seq<Round<V>>)
    requires Bounded(o) && attempt <= o.maxAttempts.value
    requires forall k :: 0 <= k < |rounds| ==> NoTransientBodies(g, rounds[k])
    ensures var d, m := DiscoverRun(o, g, attempt, rounds), o.maxAttempts.value;
      d.gets <= (m + 1) * d.listed && d.gets <= (m + 1) * (m + 1)
  {
    var d, m := DiscoverRun(o, g, attempt, rounds), o.maxAttempts.value;
    DiscoveryBudget(o, g, attempt, rounds);
    forall k | 0 <= k < |rounds| ensures RoundRun(o, g, rounds[k]).gets <= m + 1 {
      RoundMeaning(o, g, rounds[k]);
    }
    GetsPerListing(o, g, attempt, rounds, m + 1);
    TimesMonotone(m + 1, d.listed, m + 1);
  }

  lemma {:induction false} GetsPerListing<V>(o: RetryOptions, g: string, attempt: U32, rounds: seq<Round<V>>, most: nat)
    requires forall k :: 0 <= k < |rounds| ==> RoundRun(o, g, rounds[k]).gets <= most
    ensures var d := DiscoverRun(o, g, attempt, rounds); d.gets <= most * d.listed
    decreases |rounds|
  {
    if rounds != [] {
      var rest := DiscoverRun(o, g, AfterAttempt(o, attempt), rounds[1..]);
      GetsPerListing(o, g, AfterAttempt(o, attempt), rounds[1..], most);
      Distribute(most, rest.listed, 1);
    }
  }

  ghost predicate AllRetried<V>(o: RetryOptions, g: string, rounds: seq<Round<V>>) {
    forall k :: 0 <= k < |rounds| ==> Retried(o, g, rounds[k])
  }

  lemma AllRetriedFirst<V>(o: RetryOptions, g: string, rounds: seq<Round<V>>)
    requires rounds != []
    ensures AllRetried(o, g, rounds) <==> Retried(o, g, rounds[0]) && AllRetried(o, g, rounds[1..])
  {
    assert rounds == [rounds[0]] + rounds[1..];
  }

  /** Exactly when discovery is still undecided although each of its gets was decided: every round
      failed transiently, and no more of them than the budget allows. */
  lemma {:induction false} DiscoveryRunsOnExactly<V>(o: RetryOptions, g: string, attempt: U32, rounds: seq<Round<V>>)
    requires Bounded(o) ==> attempt <= o.maxAttempts.value
    requires forall k :: 0 <= k < |rounds| ==> !RoundRun(o, g, rounds[k]).result.Undecided?
    ensures DiscoverRun(o, g, attempt, rounds).result.Undecided?
       <==> AllRetried(o, g, rounds) && (Bounded(o) ==> |rounds| <= o.maxAttempts.value - attempt)
    decreases |rounds|
  {
    if rounds != [] {
      AllRetriedFirst(o, g, rounds);
      AttemptStep(o, attempt);
      if Retried(o, g, rounds[0]) && MayAttempt(o, attempt) {
        DiscoveryRunsOnExactly(o, g, AfterAttempt(o, attempt), rounds[1..]);
      }
    }
  }
}
