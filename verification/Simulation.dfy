/** The source-shaped leadership attempt (`Fsm.AttemptRun`, over `Log.AppendRun`) is what a node of
    the cluster does, in every interleaving: whatever all others do between the sending of each put
    and its effect, and whatever the store answers, the cluster's atomic steps give the same log and
    the same node as the source with a suitable script of other clients' writes. */
module Simulation {
  import opened Words
  import opened Paths
  import opened Backoff
  import opened Log
  import opened Fsm
  import opened Cluster

  type Env = seq<PutEvent<Value>>

  /** One put: what happens between its sending and its effect or loss, and how it is answered. */
  datatype Slot = Slot(meanwhile: seq<Action>, fault: Fault, jitter: Jitter)

  // ---------------------------------------------------------------- what others do meanwhile

  /** Is this neither a move of node `i` nor the arrival of the put it awaits? */
  predicate ByOther(a: Action, i: nat, awaited: Option<nat>) {
    match a
    case Arrives(p) => Some(p) != awaited
    case ForeignWrite(_, _) => true
    case _ => a.i != i
  }

  /** The actions of others, in order. */
  function Others(actions: seq<Action>, i: nat, awaited: Option<nat>): seq<Action> {
    if actions == [] then []
    else
      var front, a := Others(actions[..|actions| - 1], i, awaited), actions[|actions| - 1];
      if ByOther(a, i, awaited) then front + [a] else front
  }

  /** Everything in the one log is in the other. */
  ghost predicate LogExtends(g: string, before: Objects<Value>, after: Objects<Value>) {
    forall index: U64 :: EntryKey(g, index) in before ==>
      EntryKey(g, index) in after && after[EntryKey(g, index)] == before[EntryKey(g, index)]
  }

  ghost predicate SameLog(g: string, a: Objects<Value>, b: Objects<Value>) {
    LogExtends(g, a, b) && LogExtends(g, b, a)
  }

  /** Node `i` is there, and so is the put it awaits, still under way. */
  ghost predicate Waits(s: State, i: nat, awaited: Option<nat>) {
    && i < |s.members|
    && (awaited.Some? ==> awaited.value < |s.puts| && s.puts[awaited.value].status == InFlight)
  }

  ghost predicate Untouched(s: State, s': State, i: nat, awaited: Option<nat>) {
    && Waits(s, i, awaited) && Waits(s', i, awaited)
    && s'.members[i] == s.members[i]
    && (awaited.Some? ==> s'.puts[awaited.value] == s.puts[awaited.value])
  }

  lemma OneOther(g: string, s: State, i: nat, awaited: Option<nat>, a: Action)
    requires Waits(s, i, awaited) && ByOther(a, i, awaited)
    ensures Untouched(s, Cluster.Step(g, s, a), i, awaited)
    ensures LogExtends(g, s.objects, Cluster.Step(g, s, a).objects)
  {
    forall index: U64 | EntryKey(g, index) in s.objects
      ensures Holds(g, Cluster.Step(g, s, a), index, s.objects[EntryKey(g, index)])
    {
      StepWritesOnce(g, s, a, index);
    }
  }

  lemma {:induction false} OthersLeaveAlone(g: string, s: State, i: nat, awaited: Option<nat>, actions: seq<Action>)
    requires Waits(s, i, awaited)
    ensures var s' := Run(g, s, Others(actions, i, awaited));
      Untouched(s, s', i, awaited) && LogExtends(g, s.objects, s'.objects)
  {
    if actions != [] {
      var front, a := actions[..|actions| - 1], actions[|actions| - 1];
      OthersLeaveAlone(g, s, i, awaited, front);
      var before := Others(front, i, awaited);
      if ByOther(a, i, awaited) {
        assert (before + [a])[..|before|] == before;
        OneOther(g, Run(g, s, before), i, awaited, a);
      }
    }
  }

  // ---------------------------------------------------------------- one put

  /** The state in which the put of the slot takes effect or is lost. */
  function AfterOthers(g: string, s: State, i: nat, slot: Slot): State {
    Run(g, Cluster.Step(g, s, Issue(i)), Others(slot.meanwhile, i, Some(|s.puts|)))
  }

  function AnswerTo(i: nat, fault: Fault): Action {
    if fault.NoFault? then Answered(i) else AnswerLost(i, fault.failure)
  }

  /** The steps for one put of node `i`, and those of others in between. */
  function PutActions(s: State, i: nat, slot: Slot): seq<Action> {
    var p := |s.puts|;
    var sent := [Issue(i)] + Others(slot.meanwhile, i, Some(p));
    if slot.fault.Lost? then sent + [AnswerTo(i, slot.fault)] else sent + [Arrives(p), AnswerTo(i, slot.fault)]
  }

  lemma PutRuns(g: string, s: State, i: nat, slot: Slot)
    ensures var s1, answer := AfterOthers(g, s, i, slot), AnswerTo(i, slot.fault);
      Run(g, s, PutActions(s, i, slot))
      == if slot.fault.Lost? then Cluster.Step(g, s1, answer)
         else Cluster.Step(g, Cluster.Step(g, s1, Arrives(|s.puts|)), answer)
  {
    var p, answer := |s.puts|, AnswerTo(i, slot.fault);
    var others := Others(slot.meanwhile, i, Some(p));
    RunFirst(g, s, Issue(i), others);
    RunConcat(g, s, [Issue(i)] + others, if slot.fault.Lost? then [answer] else [Arrives(p), answer]);
    RunOne(g, AfterOthers(g, s, i, slot), answer);
    RunTwo(g, AfterOthers(g, s, i, slot), Arrives(p), answer);
  }

  /** The same put as the source sees it: by then others have made the store what it is. */
  function EventOf(g: string, s: State, i: nat, slot: Slot): PutEvent<Value> {
    PutEvent(AfterOthers(g, s, i, slot).objects, slot.fault, slot.jitter)
  }

  /** The member after the answer to its put. */
  function AfterReply(m: Member, index: U64, epoch: U64, reply: PutReply): Member {
    if reply.Failed? && reply.failure != Fatal then m.(phase := Claiming(index, epoch))
    else Member(OnClaimReply(m.core, index, epoch, reply), Idle)
  }

  ghost predicate Claims(s: State, i: nat, index: U64, epoch: U64) {
    i < |s.members| && s.members[i].phase == Claiming(index, epoch)
  }

  ghost predicate Sent(s: State, i: nat, m: Member, index: U64, epoch: U64, p: nat) {
    && Waits(s, i, Some(p))
    && s.members[i] == m.(phase := Awaiting(index, epoch, p))
    && s.puts[p] == PutRequest(index, Claim(LeaderState(index, epoch, i)), InFlight)
  }

  lemma SentAmongOthers(g: string, s: State, i: nat, index: U64, epoch: U64, slot: Slot)
    requires Claims(s, i, index, epoch)
    ensures Sent(AfterOthers(g, s, i, slot), i, s.members[i], index, epoch, |s.puts|)
    ensures LogExtends(g, s.objects, AfterOthers(g, s, i, slot).objects)
  {
    OthersLeaveAlone(g, Cluster.Step(g, s, Issue(i)), i, Some(|s.puts|), slot.meanwhile);
  }

  lemma Heard(g: string, s: State, i: nat, m: Member, index: U64, epoch: U64, p: nat, fault: Fault)
    requires Sent(s, i, m, index, epoch, p)
    ensures var arrived := if fault.Lost? then s else Cluster.Step(g, s, Arrives(p));
      var s' := Cluster.Step(g, arrived, AnswerTo(i, fault));
      var key, claim := EntryKey(g, index), Claim(LeaderState(index, epoch, i));
      var reply := match fault
        case NoFault => if key in s.objects then AlreadyExists else Ok
        case Lost(f) => Failed(f)
        case Hidden(f) => Failed(f);
      && s'.objects == (if fault.Lost? then s.objects else Create(s.objects, key, claim))
      && i < |s'.members| && s'.members[i] == AfterReply(m, index, epoch, reply)
  {
  }

  lemma SameLogAfterPut(g: string, objects: Objects<Value>, store: Objects<Value>, index: U64, claim: Value, e: PutEvent<Value>)
    requires e.others == store && LogExtends(g, objects, store)
    ensures SameLog(g, ByOthers(objects, e), store)
    ensures SameLog(g, AfterPut(objects, EntryKey(g, index), claim, e),
                    if e.fault.Lost? then store else Create(store, EntryKey(g, index), claim))
  {
  }

  lemma OnePut(g: string, s: State, i: nat, index: U64, epoch: U64, objects: Objects<Value>, slot: Slot)
    requires Claims(s, i, index, epoch) && LogExtends(g, objects, s.objects)
    ensures var s', e := Run(g, s, PutActions(s, i, slot)), EventOf(g, s, i, slot);
      var key, claim := EntryKey(g, index), Claim(LeaderState(index, epoch, i));
      && SameLog(g, AfterPut(objects, key, claim, e), s'.objects)
      && i < |s'.members| && s'.members[i] == AfterReply(s.members[i], index, epoch, Reply(objects, key, e))
  {
    var s1 := AfterOthers(g, s, i, slot);
    PutRuns(g, s, i, slot);
    SentAmongOthers(g, s, i, index, epoch, slot);
    Heard(g, s1, i, s.members[i], index, epoch, |s.puts|, slot.fault);
    assert LogExtends(g, objects, s1.objects);
    SameLogAfterPut(g, objects, s1.objects, index, Claim(LeaderState(index, epoch, i)), EventOf(g, s, i, slot));
  }

  // ---------------------------------------------------------------- append

  /** The cluster's steps, and the script under which the source does the same. */
  datatype Schedule<E> = Schedule(env: seq<E>, actions: seq<Action>)

  function Then<E>(first: seq<Action>, e: E, rest: Schedule<E>): Schedule<E> {
    Schedule([e] + rest.env, first + rest.actions)
  }

  /** Is `append` over after this put? */
  predicate IsLast(slot: Slot, o: RetryOptions, attempt: U32) {
    || slot.fault.NoFault? || slot.fault.failure == Fatal
    || (slot.fault.failure == Generic(true) && !MayAttempt(o, attempt))
  }

  function NextAttempt(slot: Slot, o: RetryOptions, attempt: U32): U32
    requires !slot.fault.NoFault?
  {
    if slot.fault.failure == Generic(false) then attempt else AfterAttempt(o, attempt)
  }

  /** Puts of node `i` until `append` is over or the slots are used up. */
  function AppendSchedule(
    g: string, s: State, i: nat, index: U64, o: RetryOptions, attempt: U32, slots: seq<Slot>): Schedule<PutEvent<Value>>
    decreases |slots|
  {
    if slots == [] then Schedule([], [])
    else
      var e, first := EventOf(g, s, i, slots[0]), PutActions(s, i, slots[0]);
      if IsLast(slots[0], o, attempt) then Schedule([e], first)
      else Then(first, e,
        AppendSchedule(g, Run(g, s, first), i, index, o, NextAttempt(slots[0], o, attempt), slots[1..]))
  }

  /** Where `append` leaves its node: still claiming while it retries or reports a transient
      error, done otherwise. */
  function AfterAppend(m: Member, index: U64, epoch: U64, reply: Option<PutReply>): Member {
    match reply
    case None => m.(phase := Claiming(index, epoch))
    case Some(r) => AfterReply(m, index, epoch, r)
  }

  ghost predicate AppendAgrees(
    g: string, s: State, i: nat, index: U64, epoch: U64, o: RetryOptions, attempt: U32, objects: Objects<Value>,
    plan: Schedule<PutEvent<Value>>)
  {
    var s' := Run(g, s, plan.actions);
    var r := AppendRun(objects, EntryKey(g, index), Claim(LeaderState(index, epoch, i)), o, attempt, plan.env);
    && LogExtends(g, r.objects, s'.objects)
    && (SameLog(g, objects, s.objects) ==> SameLog(g, r.objects, s'.objects))
    && i < |s.members| && i < |s'.members|
    && s'.members[i] == AfterAppend(s.members[i], index, epoch, r.reply)
  }

  lemma AppendOnward(
    g: string, s: State, i: nat, index: U64, epoch: U64, o: RetryOptions, attempt: U32, objects: Objects<Value>,
    slot: Slot, rest: Schedule<PutEvent<Value>>)
    requires Claims(s, i, index, epoch) && LogExtends(g, objects, s.objects)
    requires !IsLast(slot, o, attempt)
    requires var e, first := EventOf(g, s, i, slot), PutActions(s, i, slot);
      var after := AfterPut(objects, EntryKey(g, index), Claim(LeaderState(index, epoch, i)), e);
      AppendAgrees(g, Run(g, s, first), i, index, epoch, o, NextAttempt(slot, o, attempt), after, rest)
    ensures AppendAgrees(g, s, i, index, epoch, o, attempt, objects,
                         Then(PutActions(s, i, slot), EventOf(g, s, i, slot), rest))
  {
    var e, first := EventOf(g, s, i, slot), PutActions(s, i, slot);
    OnePut(g, s, i, index, epoch, objects, slot);
    RunConcat(g, s, first, rest.actions);
    assert ([e] + rest.env)[1..] == rest.env;
  }

  lemma AppendOver(
    g: string, s: State, i: nat, index: U64, epoch: U64, o: RetryOptions, attempt: U32, objects: Objects<Value>, slot: Slot)
    requires Claims(s, i, index, epoch) && LogExtends(g, objects, s.objects)
    requires IsLast(slot, o, attempt)
    ensures AppendAgrees(g, s, i, index, epoch, o, attempt, objects,
                         Schedule([EventOf(g, s, i, slot)], PutActions(s, i, slot)))
  {
    OnePut(g, s, i, index, epoch, objects, slot);
  }

  /** `append` in any company: whatever the others do while each of its puts is under way, the log
      and the node come out as `AppendRun` says for a script of the others' writes. */
  lemma {:induction false} AppendIsRun(
    g: string, s: State, i: nat, index: U64, epoch: U64, o: RetryOptions, attempt: U32, objects: Objects<Value>,
    slots: seq<Slot>)
    requires Claims(s, i, index, epoch) && LogExtends(g, objects, s.objects)
    ensures AppendAgrees(g, s, i, index, epoch, o, attempt, objects, AppendSchedule(g, s, i, index, o, attempt, slots))
    decreases |slots|
  {
    if slots != [] {
      var slot := slots[0];
      if IsLast(slot, o, attempt) {
        AppendOver(g, s, i, index, epoch, o, attempt, objects, slot);
      } else {
        var e, s1 := EventOf(g, s, i, slot), Run(g, s, PutActions(s, i, slot));
        var after := AfterPut(objects, EntryKey(g, index), Claim(LeaderState(index, epoch, i)), e);
        var next := NextAttempt(slot, o, attempt);
        OnePut(g, s, i, index, epoch, objects, slot);
        AppendIsRun(g, s1, i, index, epoch, o, next, after, slots[1..]);
        AppendOnward(g, s, i, index, epoch, o, attempt, objects, slot,
          AppendSchedule(g, s1, i, index, o, next, slots[1..]));
      }
    }
  }

  /** Everybody but node `i` is as before. */
  ghost predicate OnlyMoves(s: State, s': State, i: nat) {
    && |s'.members| == |s.members|
    && forall j :: 0 <= j < |s.members| && j != i ==> s'.members[j] == s.members[j]
  }

  lemma PutAlone(g: string, s: State, i: nat, index: U64, epoch: U64, slot: Slot)
    requires Claims(s, i, index, epoch) && slot.meanwhile == []
    ensures var s', e := Run(g, s, PutActions(s, i, slot)), EventOf(g, s, i, slot);
      && s'.objects == AfterPut(s.objects, EntryKey(g, index), Claim(LeaderState(index, epoch, i)), e)
      && OnlyMoves(s, s', i)
  {
    PutRuns(g, s, i, slot);
    assert ByOthers(s.objects, EventOf(g, s, i, slot)) == s.objects;
  }

  lemma StillClaims(g: string, s: State, i: nat, index: U64, epoch: U64, o: RetryOptions, attempt: U32, slot: Slot)
    requires Claims(s, i, index, epoch) && !IsLast(slot, o, attempt)
    ensures Claims(Run(g, s, PutActions(s, i, slot)), i, index, epoch)
  {
    OnePut(g, s, i, index, epoch, s.objects, slot);
  }

  ghost predicate AloneAgrees(
    g: string, s: State, i: nat, index: U64, epoch: U64, o: RetryOptions, attempt: U32, plan: Schedule<PutEvent<Value>>)
  {
    var s' := Run(g, s, plan.actions);
    && s'.objects == AppendRun(s.objects, EntryKey(g, index), Claim(LeaderState(index, epoch, i)), o, attempt, plan.env).objects
    && OnlyMoves(s, s', i)
  }

  lemma AloneOnward(
    g: string, s: State, i: nat, index: U64, epoch: U64, o: RetryOptions, attempt: U32, slot: Slot,
    rest: Schedule<PutEvent<Value>>)
    requires Claims(s, i, index, epoch) && slot.meanwhile == [] && !IsLast(slot, o, attempt)
    requires AloneAgrees(g, Run(g, s, PutActions(s, i, slot)), i, index, epoch, o, NextAttempt(slot, o, attempt), rest)
    ensures AloneAgrees(g, s, i, index, epoch, o, attempt, Then(PutActions(s, i, slot), EventOf(g, s, i, slot), rest))
  {
    PutAlone(g, s, i, index, epoch, slot);
    RunConcat(g, s, PutActions(s, i, slot), rest.actions);
    assert ([EventOf(g, s, i, slot)] + rest.env)[1..] == rest.env;
  }

  lemma AloneOver(
    g: string, s: State, i: nat, index: U64, epoch: U64, o: RetryOptions, attempt: U32, slot: Slot)
    requires Claims(s, i, index, epoch) && slot.meanwhile == [] && IsLast(slot, o, attempt)
    ensures AloneAgrees(g, s, i, index, epoch, o, attempt, Schedule([EventOf(g, s, i, slot)], PutActions(s, i, slot)))
  {
    PutAlone(g, s, i, index, epoch, slot);
  }

  /** Left alone, the node is the only one that moves, and the whole store comes out the same. */
  lemma {:induction false} AppendAlone(
    g: string, s: State, i: nat, index: U64, epoch: U64, o: RetryOptions, attempt: U32, slots: seq<Slot>)
    requires Claims(s, i, index, epoch) && forall k :: 0 <= k < |slots| ==> slots[k].meanwhile == []
    ensures AloneAgrees(g, s, i, index, epoch, o, attempt, AppendSchedule(g, s, i, index, o, attempt, slots))
    decreases |slots|
  {
    if slots != [] {
      var slot := slots[0];
      if IsLast(slot, o, attempt) {
        AloneOver(g, s, i, index, epoch, o, attempt, slot);
      } else {
        var s1, next := Run(g, s, PutActions(s, i, slot)), NextAttempt(slot, o, attempt);
        StillClaims(g, s, i, index, epoch, o, attempt, slot);
        AppendAlone(g, s1, i, index, epoch, o, next, slots[1..]);
        AloneOnward(g, s, i, index, epoch, o, attempt, slot, AppendSchedule(g, s1, i, index, o, next, slots[1..]));
      }
    }
  }

  // ---------------------------------------------------------------- attempt_leadership

  function ClaimRun(c: Core, g: string, i: nat, o: RetryOptions, objects: Objects<Value>, env: Env): Appending<Value> {
    AppendRun(objects, EntryKey(g, ClaimIndex(c)), ClaimOf<StateRequest>(c, i), o, 0, env)
  }

  /** Rounds of `append` until the attempt is over or the slots are used up. */
  function AttemptSchedule(
    c: Core, g: string, s: State, i: nat, o: RetryOptions, objects: Objects<Value>, rounds: seq<seq<Slot>>): Schedule<Env>
    decreases |rounds|
  {
    if rounds == [] then Schedule([], [])
    else
      var first := AppendSchedule(g, s, i, ClaimIndex(c), o, 0, rounds[0]);
      var r := ClaimRun(c, g, i, o, objects, first.env);
      if r.reply == Some(Failed(Generic(true)))
      then Then(first.actions, first.env,
        AttemptSchedule(c, g, Run(g, s, first.actions), i, o, r.objects, rounds[1..]))
      else Schedule([first.env], first.actions)
  }

  ghost predicate AttemptAgrees(
    c: Core, g: string, s: State, i: nat, o: RetryOptions, objects: Objects<Value>, plan: Schedule<Env>)
  {
    var s' := Run(g, s, plan.actions);
    var a := AttemptRun(c, g, i, o, objects, plan.env);
    && LogExtends(g, a.objects, s'.objects)
    && (SameLog(g, objects, s.objects) ==> AbstractLog(s'.objects, g) == AbstractLog(a.objects, g))
    && i < |s'.members|
    && s'.members[i].core == a.core
    && (a.ending == Returned <==> s'.members[i].phase.Idle?)
  }

  lemma AttemptOnward(
    c: Core, g: string, s: State, i: nat, o: RetryOptions, objects: Objects<Value>,
    first: Schedule<PutEvent<Value>>, rest: Schedule<Env>)
    requires ClaimRun(c, g, i, o, objects, first.env).reply == Some(Failed(Generic(true)))
    requires AppendAgrees(g, s, i, ClaimIndex(c), ClaimEpoch(c), o, 0, objects, first)
    requires AttemptAgrees(c, g, Run(g, s, first.actions), i, o, ClaimRun(c, g, i, o, objects, first.env).objects, rest)
    ensures AttemptAgrees(c, g, s, i, o, objects, Then(first.actions, first.env, rest))
  {
    RunConcat(g, s, first.actions, rest.actions);
    assert ([first.env] + rest.env)[1..] == rest.env;
  }

  lemma AttemptOver(
    c: Core, g: string, s: State, i: nat, o: RetryOptions, objects: Objects<Value>, first: Schedule<PutEvent<Value>>)
    requires Claims(s, i, ClaimIndex(c), ClaimEpoch(c)) && s.members[i].core == c
    requires AppendAgrees(g, s, i, ClaimIndex(c), ClaimEpoch(c), o, 0, objects, first)
    requires ClaimRun(c, g, i, o, objects, first.env).reply != Some(Failed(Generic(true)))
    ensures AttemptAgrees(c, g, s, i, o, objects, Schedule([first.env], first.actions))
  {
    NeverPlainGeneric(objects, EntryKey(g, ClaimIndex(c)), ClaimOf<StateRequest>(c, i), o, 0, first.env);
  }

  /** `attempt_leadership` in any company: for every behaviour of the store and every interleaving
      with other nodes, other clients and its own delayed puts, the cluster reaches the very log and
      fields that `AttemptRun` computes for a script of the others' writes, and the node is back in
      its join loop, or leading, or stopped, exactly when the source has returned. */
  lemma {:induction false} AttemptIsRun(
    c: Core, g: string, s: State, i: nat, o: RetryOptions, objects: Objects<Value>, rounds: seq<seq<Slot>>)
    requires Claims(s, i, ClaimIndex(c), ClaimEpoch(c)) && s.members[i].core == c && LogExtends(g, objects, s.objects)
    ensures AttemptAgrees(c, g, s, i, o, objects, AttemptSchedule(c, g, s, i, o, objects, rounds))
    decreases |rounds|
  {
    if rounds != [] {
      var first := AppendSchedule(g, s, i, ClaimIndex(c), o, 0, rounds[0]);
      AppendIsRun(g, s, i, ClaimIndex(c), ClaimEpoch(c), o, 0, objects, rounds[0]);
      var s1, r := Run(g, s, first.actions), ClaimRun(c, g, i, o, objects, first.env);
      if r.reply == Some(Failed(Generic(true))) {
        AttemptIsRun(c, g, s1, i, o, r.objects, rounds[1..]);
        AttemptOnward(c, g, s, i, o, objects, first, AttemptSchedule(c, g, s1, i, o, r.objects, rounds[1..]));
      } else {
        AttemptOver(c, g, s, i, o, objects, first);
      }
    }
  }
}
