/** One turn of the source's `join` (`Fsm.JoinRun`) is what a node of the cluster does, in any company:
    it lists, gets the entry named, connects and follows, or claims, while all others go on. */
module Joining {
  import opened Words
  import opened Paths
  import opened Backoff
  import opened Log
  import opened Fsm
  import opened Cluster
  import opened Simulation

  /** One get: what others do before it is served, and what goes wrong. */
  datatype Read = Read(meanwhile: seq<Action>, fault: ReadFault)

  /** One turn: the key listed first, if any, the gets of the entry it names, the answers to
      `connect` and `follow`, and the puts of a leadership attempt. */
  datatype Visit = Visit(
    listed: Option<string>, gets: seq<Read>, connect: ClientOutcome, follow: ClientOutcome,
    puts: seq<seq<Slot>>, jitter: Jitter)

  // ---------------------------------------------------------------- reading

  function ReadActions(i: nat, gets: seq<Read>): seq<Action> {
    if gets == [] then []
    else ReadActions(i, gets[..|gets| - 1]) + Others(gets[|gets| - 1].meanwhile, i, None)
  }

  /** What each get is served from: the store at that moment. */
  function Served(g: string, s: State, i: nat, gets: seq<Read>): seq<ReadEvent<Value>> {
    if gets == [] then []
    else
      Served(g, s, i, gets[..|gets| - 1])
      + [ReadEvent(Run(g, s, ReadActions(i, gets)).objects, gets[|gets| - 1].fault)]
  }

  lemma {:induction false} ReadsLeaveAlone(g: string, s: State, i: nat, gets: seq<Read>)
    requires i < |s.members|
    ensures var s' := Run(g, s, ReadActions(i, gets));
      && i < |s'.members| && s'.members[i] == s.members[i] && LogExtends(g, s.objects, s'.objects)
      && |Served(g, s, i, gets)| == |gets|
    decreases |gets|
  {
    if gets != [] {
      var front, last := gets[..|gets| - 1], gets[|gets| - 1];
      ReadsLeaveAlone(g, s, i, front);
      var s1 := Run(g, s, ReadActions(i, front));
      RunConcat(g, s, ReadActions(i, front), Others(last.meanwhile, i, None));
      OthersLeaveAlone(g, s1, i, None, last.meanwhile);
    }
  }

  // ---------------------------------------------------------------- one turn

  /** The listing shows a key of the store, under the group's prefix and named by a number. */
  ghost predicate Shows(g: string, s: State, key: string) {
    key in s.objects && LogPrefix(g) <= key && HeadNumber(key).Some?
  }

  /** The round of discovery that the source goes through. */
  function LookupOf(g: string, s: State, i: nat, v: Visit): Round<Value> {
    match v.listed
    case None => Round([], [])
    case Some(key) => Round([Listed(key)], Served(g, Cluster.Step(g, s, FindHead(i, key)), i, v.gets))
  }

  function RoundOf(g: string, s: State, i: nat, v: Visit, env: seq<Env>): JoinRound<StateRequest> {
    JoinRound([LookupOf(g, s, i, v)], v.connect, v.follow, env, v.jitter)
  }

  /** The node has listed a key and waits for the last of its gets. */
  ghost predicate AtLastGet(g: string, s: State, i: nat, o: RetryOptions, v: Visit) {
    && v.listed.Some? && Shows(g, s, v.listed.value) && v.gets != []
    && i < |s.members|
    && var served := LookupOf(g, s, i, v).served;
    && |served| == |v.gets|
    && GetAtRun(o, Replies(EntryKey(g, HeadNumber(v.listed.value).value), served[..|served| - 1])).progress.Running?
  }

  /** What that get says. */
  ghost function LastReply(g: string, s: State, i: nat, v: Visit): GetReply<Value>
    requires v.listed.Some? && Shows(g, s, v.listed.value) && LookupOf(g, s, i, v).served != []
  {
    var served := LookupOf(g, s, i, v).served;
    GetReplyOf(EntryKey(g, HeadNumber(v.listed.value).value), served[|served| - 1])
  }

  function Looked(i: nat, v: Visit): seq<Action>
    requires v.listed.Some?
  {
    [FindHead(i, v.listed.value)] + ReadActions(i, v.gets)
  }

  /** Does a found claim come to a leadership attempt? */
  predicate Unreached(v: Visit) {
    v.connect == ClientError || (v.connect == Done && v.follow == ClientError)
  }

  /** The steps once a claim is found, up to a leadership attempt if it comes to that. */
  function Found(i: nat, v: Visit): seq<Action> {
    if v.connect == Done && v.follow == Done then [FetchHits(i), Follows(i)]
    else [FetchHits(i), FollowFails(i, Unreached(v))]
  }

  /** The turn in the cluster, and the puts of its attempt as the source sees them. */
  ghost function TurnPlan(
    c: Core, g: string, s: State, i: nat, o: RetryOptions, objects: Objects<Value>, v: Visit): Schedule<Env>
    requires v.listed.Some? ==> Shows(g, s, v.listed.value) && LookupOf(g, s, i, v).served != []
  {
    if v.listed.None? then Claimed([FindNothing(i)], c, g, s, i, o, objects, v)
    else
      var reply, looked := LastReply(g, s, i, v), Looked(i, v);
      if !reply.Body? then Schedule([], looked + [FetchFails(i)])
      else if reply.value.Flushed? then Schedule([], looked)
      else if Unreached(v) then Claimed(looked + Found(i, v), c, g, s, i, o, objects, v)
      else Schedule([], looked + Found(i, v))
  }

  function Claimed(
    before: seq<Action>, c: Core, g: string, s: State, i: nat, o: RetryOptions, objects: Objects<Value>, v: Visit): Schedule<Env>
  {
    var attempt := AttemptSchedule(c, g, Run(g, s, before), i, o, objects, v.puts);
    Schedule(attempt.env, before + attempt.actions)
  }

  /** The node is free to start a turn, and the cluster's log has all that the source knows of. */
  ghost predicate Ready(c: Core, g: string, s: State, i: nat, objects: Objects<Value>) {
    && c.role == NotJoined && i < |s.members| && s.members[i] == Member(c, Idle)
    && LogExtends(g, objects, s.objects)
  }

  /** The cluster's run and the source's turn agree: same fields, nothing of the source's log missing,
      and the node is idle exactly when the source has returned or goes on to its next turn. */
  ghost predicate TurnAgrees(
    c: Core, g: string, s: State, i: nat, o: RetryOptions, objects: Objects<Value>, v: Visit, plan: Schedule<Env>)
  {
    var round := RoundOf(g, s, i, v, plan.env);
    var a, s' := JoinRun(c, g, i, o, objects, [round]), Run(g, s, plan.actions);
    && i < |s'.members| && s'.members[i].core == a.core
    && LogExtends(g, a.objects, s'.objects)
    && (s'.members[i].phase.Idle? <==> a.ending == Returned || PassedAll(c, g, i, o, objects, [round]))
  }

  /** A turn that comes to an attempt at leadership. */
  lemma AttemptTurn(
    c: Core, g: string, s: State, i: nat, o: RetryOptions, objects: Objects<Value>, v: Visit,
    before: seq<Action>, plan: Schedule<Env>)
    requires Ready(c, g, s, i, objects)
    requires TurnOf(o, g, RoundOf(g, s, i, v, plan.env)) == AttemptsLeadership
    requires AttemptAgrees(c, g, Run(g, s, before), i, o, objects, plan)
    ensures TurnAgrees(c, g, s, i, o, objects, v, Schedule(plan.env, before + plan.actions))
  {
    var round := RoundOf(g, s, i, v, plan.env);
    var a := AttemptRun(c, g, i, o, objects, plan.env);
    RunConcat(g, s, before, plan.actions);
    AttemptMeaning(c, g, i, o, objects, plan.env);
    AttemptWaits(c, g, i, o, objects, plan.env);
    assert [round][1..] == [];
  }

  /** A turn that comes to anything else. */
  lemma OtherTurn(
    c: Core, g: string, s: State, i: nat, o: RetryOptions, objects: Objects<Value>, v: Visit, actions: seq<Action>)
    requires Ready(c, g, s, i, objects)
    requires var turn, s' := TurnOf(o, g, RoundOf(g, s, i, v, [])), Run(g, s, actions);
      && turn != AttemptsLeadership
      && i < |s'.members| && LogExtends(g, s.objects, s'.objects)
      && s'.members[i].core == (if turn == BecomesFollower then c.(role := Follower) else c)
      && (s'.members[i].phase.Idle? <==> turn in {BecomesFollower, Leaves, TriesAgain})
    ensures TurnAgrees(c, g, s, i, o, objects, v, Schedule([], actions))
  {
    assert [RoundOf(g, s, i, v, [])][1..] == [];
  }

  /** A node that lists nothing goes on to claim. */
  lemma NothingListedIsRun(
    c: Core, g: string, s: State, i: nat, o: RetryOptions, objects: Objects<Value>, v: Visit)
    requires Ready(c, g, s, i, objects) && v.listed.None?
    ensures TurnAgrees(c, g, s, i, o, objects, v, TurnPlan(c, g, s, i, o, objects, v))
  {
    var s1 := Cluster.Step(g, s, FindNothing(i));
    RunOne(g, s, FindNothing(i));
    var attempt := AttemptSchedule(c, g, s1, i, o, objects, v.puts);
    AttemptIsRun(c, g, s1, i, o, objects, v.puts);
    RoundMeaning(o, g, LookupOf(g, s, i, v));
    DiscoveryDecides(o, g, 0, RoundOf(g, s, i, v, attempt.env).lookups, 0);
    AttemptTurn(c, g, s, i, o, objects, v, [FindNothing(i)], attempt);
  }

  /** The node after listing and getting. */
  lemma AfterLooking(c: Core, g: string, s: State, i: nat, objects: Objects<Value>, v: Visit)
    requires Ready(c, g, s, i, objects) && v.listed.Some? && Shows(g, s, v.listed.value) && v.gets != []
    ensures var s2, served := Run(g, s, Looked(i, v)), LookupOf(g, s, i, v).served;
      && i < |s2.members| && s2.members[i] == Member(c, Fetching(HeadNumber(v.listed.value).value))
      && LogExtends(g, s.objects, s2.objects)
      && |served| == |v.gets| && served[|served| - 1] == ReadEvent(s2.objects, v.gets[|v.gets| - 1].fault)
  {
    var s1 := Cluster.Step(g, s, FindHead(i, v.listed.value));
    RunFirst(g, s, FindHead(i, v.listed.value), ReadActions(i, v.gets));
    ReadsLeaveAlone(g, s1, i, v.gets);
    ReadsLeaveAlone(g, s1, i, v.gets[..|v.gets| - 1]);
  }

  /** What discovery makes of it. */
  lemma Looks(g: string, s: State, i: nat, o: RetryOptions, v: Visit)
    requires AtLastGet(g, s, i, o, v) && !LastReply(g, s, i, v).Transient()
    ensures var d, reply := DiscoverRun(o, g, 0, [LookupOf(g, s, i, v)]).result, LastReply(g, s, i, v);
      d == if reply.Body? then Discovered(HeadNumber(v.listed.value).value, reply.value) else DiscoveryFailed(reply.failure)
  {
    var r, head := LookupOf(g, s, i, v), HeadNumber(v.listed.value).value;
    var k := |r.served| - 1;
    assert r.served[..k + 1] == r.served;
    if LastReply(g, s, i, v).Body? {
      RoundDiscovers(o, g, r, head, k);
    } else {
      RoundFails(o, g, r, head, k);
    }
    DiscoveryDecides(o, g, 0, [r], 0);
  }

  /** A get that fails for good, or an entry that is no claim. */
  lemma NothingFoundIsRun(
    c: Core, g: string, s: State, i: nat, o: RetryOptions, objects: Objects<Value>, v: Visit)
    requires Ready(c, g, s, i, objects) && AtLastGet(g, s, i, o, v)
    requires !LastReply(g, s, i, v).Transient()
    requires !LastReply(g, s, i, v).Body? || LastReply(g, s, i, v).value.Flushed?
    ensures TurnAgrees(c, g, s, i, o, objects, v, TurnPlan(c, g, s, i, o, objects, v))
  {
    AfterLooking(c, g, s, i, objects, v);
    Looks(g, s, i, o, v);
    var actions := Looked(i, v);
    if !LastReply(g, s, i, v).Body? {
      RunConcat(g, s, actions, [FetchFails(i)]);
      RunOne(g, Run(g, s, actions), FetchFails(i));
      actions := actions + [FetchFails(i)];
    }
    OtherTurn(c, g, s, i, o, objects, v, actions);
  }

  lemma AfterFound(g: string, s: State, i: nat, c: Core, head: U64, v: Visit)
    requires i < |s.members| && s.members[i] == Member(c, Fetching(head))
    requires EntryKey(g, head) in s.objects && s.objects[EntryKey(g, head)].Claim?
    ensures var s' := Run(g, s, Found(i, v));
      && s'.objects == s.objects && i < |s'.members|
      && s'.members[i] ==
         if v.connect == Done && v.follow == Done then Member(c.(role := Follower), Idle)
         else if Unreached(v)
         then Member(c, Claiming(ClaimIndex(c), ClaimEpoch(c)))
         else Member(c, Idle)
  {
    var b := Found(i, v)[1];
    RunTwo(g, s, FetchHits(i), b);
    var s1 := Cluster.Step(g, s, FetchHits(i));
    assert s1.members[i] == Member(c, Connecting) && s1.objects == s.objects;
  }

  /** A claim that is found. */
  lemma FoundIsRun(
    c: Core, g: string, s: State, i: nat, o: RetryOptions, objects: Objects<Value>, v: Visit)
    requires Ready(c, g, s, i, objects) && AtLastGet(g, s, i, o, v)
    requires LastReply(g, s, i, v).Body? && LastReply(g, s, i, v).value.Claim?
    ensures TurnAgrees(c, g, s, i, o, objects, v, TurnPlan(c, g, s, i, o, objects, v))
  {
    AfterLooking(c, g, s, i, objects, v);
    Looks(g, s, i, o, v);
    var s2, head := Run(g, s, Looked(i, v)), HeadNumber(v.listed.value).value;
    var actions := Looked(i, v) + Found(i, v);
    AfterFound(g, s2, i, c, head, v);
    RunConcat(g, s, Looked(i, v), Found(i, v));
    var s3 := Run(g, s, actions);
    if Unreached(v) {
      var attempt := AttemptSchedule(c, g, s3, i, o, objects, v.puts);
      AttemptIsRun(c, g, s3, i, o, objects, v.puts);
      AttemptTurn(c, g, s, i, o, objects, v, actions, attempt);
    } else {
      OtherTurn(c, g, s, i, o, objects, v, actions);
    }
  }

  /** Every turn of `join` that reaches a decision is a run of the cluster: whatever is listed, whatever
      the gets, `connect`, `follow` and the puts answer, and whatever all others do meanwhile. A turn
      without a listed key goes on to claim; one with a key ends with the last of its gets, which does
      not fail transiently. */
  lemma JoinTurnIsRun(
    c: Core, g: string, s: State, i: nat, o: RetryOptions, objects: Objects<Value>, v: Visit)
    requires Ready(c, g, s, i, objects)
    requires v.listed.Some? ==> AtLastGet(g, s, i, o, v) && !LastReply(g, s, i, v).Transient()
    ensures TurnAgrees(c, g, s, i, o, objects, v, TurnPlan(c, g, s, i, o, objects, v))
  {
    if v.listed.None? {
      NothingListedIsRun(c, g, s, i, o, objects, v);
    } else if LastReply(g, s, i, v).Body? && LastReply(g, s, i, v).value.Claim? {
      FoundIsRun(c, g, s, i, o, objects, v);
    } else {
      NothingFoundIsRun(c, g, s, i, o, objects, v);
    }
  }
}
