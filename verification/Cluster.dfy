/** A group of nodes electing a leader over one shared object store: the interleavings of `start`,
    `join`, `attempt_leadership` and the flushes of `leader_loop` (src/fsm.rs) with the puts of
    `append` (src/log.rs).

    Each action is one atomic step of one node, of the store, or of the environment. A put travels
    to the store on its own: its sender may be told of an error, retry, or restart, and the put
    can still take effect at any later time. Actions that are not enabled change nothing, so every
    sequence of actions is a run. */
module Cluster {
  import opened Words
  import opened Paths
  import opened Log
  import opened Fsm

  type StateRequest = seq<Byte>
  type Value = Payload<StateRequest>

  const NO_VALUE: Value := Flushed([])

  /** Where a node stands inside `join`. */
  datatype Phase =
    | Idle
    | Fetching(head: U64)
    | Connecting
    | Claiming(index: U64, epoch: U64)
    | Awaiting(index: U64, epoch: U64, put: nat)

  datatype Member = Member(core: Core, phase: Phase)

  datatype Status = InFlight | Created | Refused
  datatype PutRequest = PutRequest(index: U64, value: Value, status: Status)

  /** Recorded when a node enters LEADER. */
  datatype Election = Election(node: NodeId, index: U64, epoch: U64, put: nat)

  datatype State = State(
    objects: Objects<Value>, members: seq<Member>, puts: seq<PutRequest>, elections: seq<Election>)

  datatype Action =
    | FindNothing(i: nat)
    | FindHead(i: nat, key: string)
    | FetchFails(i: nat)
    | FetchHits(i: nat)
    | Follows(i: nat)
    | FollowFails(i: nat, claim: bool)
    | Issue(i: nat)
    | Arrives(p: nat)
    | Answered(i: nat)
    | AnswerLost(i: nat, failure: Failure)
    | HeartbeatsMissed(i: nat)
    | Flush(i: nat, entries: seq<StateRequest>)
    | Restart(i: nat)
    /** Any other client writes any key that is not an entry of the group, listed under the
        group's prefix or not. */
    | ForeignWrite(key: string, value: Value)

  function StartClaim(m: Member): Member {
    m.(phase := Claiming(ClaimIndex(m.core), ClaimEpoch(m.core)))
  }

  /** The actions of a node that concern only itself and what it reads from the store. */
  function MemberStep(g: string, objects: Objects<Value>, m: Member, a: Action): Member {
    match a
    case FindNothing(_) => if m.core.role == NotJoined && m.phase.Idle? then StartClaim(m) else m
    case FindHead(_, key) =>
      if m.core.role == NotJoined && m.phase.Idle? && key in objects && LogPrefix(g) <= key && HeadNumber(key).Some?
      then m.(phase := Fetching(HeadNumber(key).value)) else m
    case FetchFails(_) => if m.phase.Fetching? then m.(phase := Idle) else m
    case FetchHits(_) =>
      if m.phase.Fetching? && EntryKey(g, m.phase.head) in objects && objects[EntryKey(g, m.phase.head)].Claim?
      then m.(phase := Connecting) else m
    case Follows(_) => if m.phase.Connecting? then Member(m.core.(role := Follower), Idle) else m
    case FollowFails(_, claim) =>
      if !m.phase.Connecting? then m else if claim then StartClaim(m) else m.(phase := Idle)
    case AnswerLost(_, f) =>
      if !m.phase.Awaiting? then m
      else if f == Fatal
      then Member(OnClaimReply(m.core, m.phase.index, m.phase.epoch, Failed(f)), Idle)
      else m.(phase := Claiming(m.phase.index, m.phase.epoch))
    case HeartbeatsMissed(_) => if m.core.role == Follower then m.(core := m.core.(role := NotJoined)) else m
    case Restart(_) => Member(FRESH, Idle)
    case _ => m
  }

  function Step(g: string, s: State, a: Action): State {
    match a
    case Issue(i) =>
      if i < |s.members| && s.members[i].phase.Claiming? then
        var ph := s.members[i].phase;
        s.(members := s.members[i := s.members[i].(phase := Awaiting(ph.index, ph.epoch, |s.puts|))],
           puts := s.puts + [PutRequest(ph.index, Claim(LeaderState(ph.index, ph.epoch, i)), InFlight)])
      else s
    case Arrives(p) =>
      if p < |s.puts| && s.puts[p].status == InFlight then
        var r := s.puts[p];
        var key := EntryKey(g, r.index);
        s.(objects := Create(s.objects, key, r.value),
           puts := s.puts[p := r.(status := if key in s.objects then Refused else Created)])
      else s
    case Answered(i) =>
      if i < |s.members| && s.members[i].phase.Awaiting? && s.members[i].phase.put < |s.puts| then
        var m := s.members[i];
        var ph := m.phase;
        match s.puts[ph.put].status
        case InFlight => s
        case Refused => s.(members := s.members[i := Member(OnClaimReply(m.core, ph.index, ph.epoch, AlreadyExists), Idle)])
        case Created =>
          s.(members := s.members[i := Member(OnClaimReply(m.core, ph.index, ph.epoch, Ok), Idle)],
             elections := s.elections + [Election(i, ph.index, ph.epoch, ph.put)])
      else s
    case Flush(i, entries) =>
      if i < |s.members| && s.members[i].core.role == Leader
      then s.(puts := s.puts + [PutRequest(s.members[i].core.commitIndex, Flushed(entries), InFlight)])
      else s
    case ForeignWrite(key, value) =>
      if IsEntryKey(g, key) then s else s.(objects := s.objects[key := value])
    case _ =>
      if a.i < |s.members|
      then s.(members := s.members[a.i := MemberStep(g, s.objects, s.members[a.i], a)])
      else s
  }

  function Run(g: string, s: State, actions: seq<Action>): State {
    if actions == [] then s
    else Step(g, Run(g, s, actions[..|actions| - 1]), actions[|actions| - 1])
  }

  lemma {:induction false} RunConcat(g: string, s: State, a: seq<Action>, b: seq<Action>)
    ensures Run(g, s, a + b) == Run(g, Run(g, s, a), b)
  {
    if b == [] {
      assert a + b == a;
    } else {
      var front := b[..|b| - 1];
      RunConcat(g, s, a, front);
      assert (a + b)[..|a + b| - 1] == a + front;
    }
  }

  lemma RunOne(g: string, s: State, a: Action)
    ensures Run(g, s, [a]) == Step(g, s, a)
  {
    assert [a][..0] == [];
  }

  lemma RunTwo(g: string, s: State, a: Action, b: Action)
    ensures Run(g, s, [a, b]) == Step(g, Step(g, s, a), b)
  {
    assert [a, b][..1] == [a];
    RunOne(g, s, a);
  }

  lemma RunFour(g: string, s: State, a: Action, b: Action, c: Action, d: Action)
    ensures Run(g, s, [a, b, c, d]) == Step(g, Step(g, Step(g, Step(g, s, a), b), c), d)
  {
    assert [a, b, c, d] == [a, b] + [c, d];
    RunConcat(g, s, [a, b], [c, d]);
    RunTwo(g, s, a, b);
    RunTwo(g, Run(g, s, [a, b]), c, d);
  }

  lemma RunFirst(g: string, s: State, a: Action, rest: seq<Action>)
    ensures Run(g, s, [a] + rest) == Run(g, Step(g, s, a), rest)
  {
    RunConcat(g, s, [a], rest);
    RunOne(g, s, a);
  }

  // ---------------------------------------------------------------- invariant

  ghost predicate MemberOk(s: State, i: nat, m: Member) {
    && m.core.epoch == m.core.commitIndex
    && (!m.phase.Idle? ==> m.core.role == NotJoined)
    && (m.phase.Claiming? ==> m.phase.index == m.phase.epoch)
    && (m.phase.Awaiting? ==>
          && m.phase.index == m.phase.epoch
          && m.phase.put < |s.puts|
          && s.puts[m.phase.put].index == m.phase.index
          && s.puts[m.phase.put].value == Claim(LeaderState(m.phase.index, m.phase.epoch, i)))
  }

  ghost predicate Holds(g: string, s: State, index: U64, value: Value) {
    EntryKey(g, index) in s.objects && s.objects[EntryKey(g, index)] == value
  }

  ghost predicate PutOk(g: string, s: State, r: PutRequest) {
    && (r.status == Created ==> Holds(g, s, r.index, r.value))
    && (r.status == Refused ==> EntryKey(g, r.index) in s.objects)
  }

  ghost predicate ElectionOk(s: State, e: Election) {
    && e.put < |s.puts|
    && s.puts[e.put] == PutRequest(e.index, Claim(LeaderState(e.index, e.epoch, e.node)), Created)
    && e.index == e.epoch
  }

  ghost predicate MembersOk(s: State) {
    forall i :: 0 <= i < |s.members| ==> MemberOk(s, i, s.members[i])
  }

  ghost predicate PutsOk(g: string, s: State) {
    && (forall p :: 0 <= p < |s.puts| ==> PutOk(g, s, s.puts[p]))
    && (forall p, q :: 0 <= p < q < |s.puts| && s.puts[p].status == Created && s.puts[q].status == Created
          ==> s.puts[p].index != s.puts[q].index)
  }

  /** A put is awaited by at most one node, and no longer once it elected one. */
  ghost predicate AwaitsOk(s: State) {
    && (forall i, j :: 0 <= i < j < |s.members| && s.members[i].phase.Awaiting? && s.members[j].phase.Awaiting?
          ==> s.members[i].phase.put != s.members[j].phase.put)
    && (forall i, k :: 0 <= i < |s.members| && 0 <= k < |s.elections| && s.members[i].phase.Awaiting?
          ==> s.members[i].phase.put != s.elections[k].put)
  }

  ghost predicate ElectionsOk(s: State) {
    && (forall k :: 0 <= k < |s.elections| ==> ElectionOk(s, s.elections[k]))
    && (forall k, l :: 0 <= k < l < |s.elections| ==> s.elections[k].put != s.elections[l].put)
  }

  ghost predicate AwaitsCreated(s: State, i: nat) {
    && i < |s.members| && s.members[i].phase.Awaiting?
    && s.members[i].phase.put < |s.puts| && s.puts[s.members[i].phase.put].status == Created
  }

  ghost predicate LeadersOk(g: string, s: State) {
    forall i :: 0 <= i < |s.members| && s.members[i].core.role == Leader ==>
      Holds(g, s, s.members[i].core.commitIndex,
            Claim(LeaderState(s.members[i].core.commitIndex, s.members[i].core.epoch, i)))
  }

  ghost predicate Inv(g: string, s: State) {
    MembersOk(s) && PutsOk(g, s) && AwaitsOk(s) && ElectionsOk(s) && LeadersOk(g, s)
  }

  /** What a step may do to the log: fill free indices, nothing else. */
  lemma StepWritesOnce(g: string, s: State, a: Action, index: U64)
    requires EntryKey(g, index) in s.objects
    ensures Holds(g, Step(g, s, a), index, s.objects[EntryKey(g, index)])
  {
    EntryKeyIsOne(g, index);
  }

  lemma MemberStepKeeps(g: string, s: State, a: Action, i: nat)
    requires i < |s.members| && MemberOk(s, i, s.members[i])
    ensures var m := MemberStep(g, s.objects, s.members[i], a);
      && MemberOk(s, i, m)
      && (m.phase.Awaiting? ==> m.phase == s.members[i].phase)
      && (m.core.role == Leader ==> m.core == s.members[i].core)
  {
  }

  lemma ArrivalKeeps(g: string, s: State, p: nat)
    requires Inv(g, s)
    ensures Inv(g, Step(g, s, Arrives(p)))
  {
    if p < |s.puts| && s.puts[p].status == InFlight {
      var s' := Step(g, s, Arrives(p));
      forall q | 0 <= q < |s.puts| && s.puts[q].status == Created
        ensures Holds(g, s', s.puts[q].index, s.puts[q].value)
      {
        StepWritesOnce(g, s, Arrives(p), s.puts[q].index);
      }
      forall i | 0 <= i < |s.members| && s.members[i].core.role == Leader
        ensures Holds(g, s', s.members[i].core.commitIndex,
                      Claim(LeaderState(s.members[i].core.commitIndex, s.members[i].core.epoch, i)))
      {
        StepWritesOnce(g, s, Arrives(p), s.members[i].core.commitIndex);
      }
    }
  }

  lemma IssueKeeps(g: string, s: State, i: nat)
    requires Inv(g, s)
    ensures Inv(g, Step(g, s, Issue(i)))
  {
  }

  lemma FlushKeeps(g: string, s: State, i: nat, entries: seq<StateRequest>)
    requires Inv(g, s)
    ensures Inv(g, Step(g, s, Flush(i, entries)))
  {
    var s' := Step(g, s, Flush(i, entries));
    assert forall p :: 0 <= p < |s.puts| ==> s'.puts[p] == s.puts[p];
  }

  lemma ForeignWriteKeeps(g: string, s: State, key: string, value: Value)
    requires Inv(g, s)
    ensures Inv(g, Step(g, s, ForeignWrite(key, value)))
  {
    var s' := Step(g, s, ForeignWrite(key, value));
    forall index: U64 | EntryKey(g, index) in s.objects
      ensures Holds(g, s', index, s.objects[EntryKey(g, index)])
    {
      StepWritesOnce(g, s, ForeignWrite(key, value), index);
    }
  }

  predicate Local(a: Action) {
    !a.Arrives? && !a.Issue? && !a.Answered? && !a.Flush? && !a.ForeignWrite?
  }

  lemma ReplaceMemberKeeps(g: string, s: State, i: nat, m: Member)
    requires Inv(g, s) && i < |s.members| && MemberOk(s, i, m)
    requires m.phase.Awaiting? ==> m.phase == s.members[i].phase
    requires m.core.role == Leader ==> m.core == s.members[i].core
    ensures Inv(g, s.(members := s.members[i := m]))
  {
  }

  lemma ElectionKeeps(g: string, s: State, i: nat)
    requires Inv(g, s) && AwaitsCreated(s, i)
    ensures Inv(g, Step(g, s, Answered(i)))
  {
    var s' := Step(g, s, Answered(i));
    var ph := s.members[i].phase;
    assert MemberOk(s, i, s.members[i]) && PutOk(g, s, s.puts[ph.put]);
    assert forall j :: 0 <= j < |s.members| && j != i ==> s'.members[j] == s.members[j];
    assert MembersOk(s') by {
      forall j | 0 <= j < |s.members| ensures MemberOk(s', j, s'.members[j]) {
        assert MemberOk(s, j, s.members[j]);
      }
    }
    assert ElectionsOk(s') by {
      forall k | 0 <= k < |s'.elections| ensures ElectionOk(s', s'.elections[k]) {
        assert k < |s.elections| ==> ElectionOk(s, s.elections[k]);
      }
    }
    assert PutsOk(g, s') by {
      forall p | 0 <= p < |s.puts| ensures PutOk(g, s', s.puts[p]) {
        assert PutOk(g, s, s.puts[p]);
      }
    }
  }

  lemma AnswerKeeps(g: string, s: State, i: nat)
    requires Inv(g, s)
    ensures Inv(g, Step(g, s, Answered(i)))
  {
    if AwaitsCreated(s, i) {
      ElectionKeeps(g, s, i);
    } else if Step(g, s, Answered(i)) != s {
      assert MemberOk(s, i, s.members[i]);
      ReplaceMemberKeeps(g, s, i, s.members[i].(phase := Idle));
    }
  }

  lemma LocalKeeps(g: string, s: State, a: Action)
    requires Inv(g, s) && Local(a)
    ensures Inv(g, Step(g, s, a))
  {
    if a.i < |s.members| {
      MemberStepKeeps(g, s, a, a.i);
      ReplaceMemberKeeps(g, s, a.i, MemberStep(g, s.objects, s.members[a.i], a));
    }
  }

  lemma StepKeepsInv(g: string, s: State, a: Action)
    requires Inv(g, s)
    ensures Inv(g, Step(g, s, a))
  {
    match a
    case Arrives(p) => ArrivalKeeps(g, s, p);
    case Issue(i) => IssueKeeps(g, s, i);
    case Answered(i) => AnswerKeeps(g, s, i);
    case Flush(i, entries) => FlushKeeps(g, s, i, entries);
    case ForeignWrite(key, value) => ForeignWriteKeeps(g, s, key, value);
    case _ => LocalKeeps(g, s, a);
  }

  // ---------------------------------------------------------------- elections

  /** Any store and any nodes that are not leading yet, as long as each node's epoch is its
      commit index. */
  ghost predicate Init(s: State) {
    && s.puts == [] && s.elections == []
    && forall i :: 0 <= i < |s.members| ==>
      && s.members[i].phase.Idle? && s.members[i].core.role != Leader
      && s.members[i].core.epoch == s.members[i].core.commitIndex
  }

  lemma {:induction false} RunKeepsInv(g: string, s: State, actions: seq<Action>)
    requires Inv(g, s)
    ensures Inv(g, Run(g, s, actions))
  {
    if actions != [] {
      RunKeepsInv(g, s, actions[..|actions| - 1]);
      StepKeepsInv(g, Run(g, s, actions[..|actions| - 1]), actions[|actions| - 1]);
    }
  }

  /** For any number of nodes, any store and any interleaving: no index elects twice, so no epoch
      does; and a node that leads does so under its own claim, stored at its own commit index. */
  lemma ElectionSafety(g: string, s0: State, actions: seq<Action>)
    requires Init(s0)
    ensures var s := Run(g, s0, actions);
      && (forall k, l :: 0 <= k < l < |s.elections| ==>
            s.elections[k].index != s.elections[l].index && s.elections[k].epoch != s.elections[l].epoch)
      && (forall i :: 0 <= i < |s.members| ==> s.members[i].core.epoch == s.members[i].core.commitIndex)
      && LeadersOk(g, s)
      && (forall i, j :: 0 <= i < j < |s.members| && s.members[i].core.role == Leader && s.members[j].core.role == Leader
            ==> s.members[i].core.epoch != s.members[j].core.epoch)
  {
    RunKeepsInv(g, s0, actions);
    var s := Run(g, s0, actions);
    forall k, l | 0 <= k < l < |s.elections| ensures s.elections[k].index != s.elections[l].index {
      assert ElectionOk(s, s.elections[k]) && ElectionOk(s, s.elections[l]);
    }
    forall k | 0 <= k < |s.elections| ensures s.elections[k].index == s.elections[k].epoch {
      assert ElectionOk(s, s.elections[k]);
    }
    forall i | 0 <= i < |s.members| ensures s.members[i].core.epoch == s.members[i].core.commitIndex {
      assert MemberOk(s, i, s.members[i]);
    }
  }

  // ---------------------------------------------------------------- roles

  /** Exactly when a step changes the role of a node: it follows when the leader it found takes it on,
      leads when it hears that its claim was stored, stops when its claim fails for good, and is back
      to joining after a restart or, as a follower, after too many missed heartbeats. */
  lemma RoleChangesExactly(g: string, s: State, a: Action, i: nat)
    requires Inv(g, s) && i < |s.members|
    ensures |Step(g, s, a).members| == |s.members|
    ensures var m, role := s.members[i], s.members[i].core.role;
      var role' := Step(g, s, a).members[i].core.role;
      && (role != Follower ==> (role' == Follower <==> a == Follows(i) && m.phase.Connecting?))
      && (role != Leader ==> (role' == Leader <==> a == Answered(i) && AwaitsCreated(s, i)))
      && (role != Stopped ==> (role' == Stopped <==> a == AnswerLost(i, Fatal) && m.phase.Awaiting?))
      && (role != NotJoined ==>
            (role' == NotJoined <==> a == Restart(i) || (a == HeartbeatsMissed(i) && role == Follower)))
  {
    assert MemberOk(s, i, s.members[i]);
  }

  /** The elections recorded are exactly those that happen: one more when a node hears that its claim
      was stored, with the index and epoch it then leads at, and none otherwise. */
  lemma ElectionsAreRecorded(g: string, s: State, a: Action)
    requires Inv(g, s)
    ensures var s' := Step(g, s, a);
      if a.Answered? && AwaitsCreated(s, a.i) then
        && Leads(s', a.i)
        && s'.elections == s.elections
             + [Election(a.i, s'.members[a.i].core.commitIndex, s'.members[a.i].core.epoch, s.members[a.i].phase.put)]
      else s'.elections == s.elections
  {
  }

  /** A node whose claim is refused is where it was before it claimed. */
  lemma RefusedGoesOn(g: string, s: State, i: nat)
    requires i < |s.members| && s.members[i].phase.Awaiting? && s.members[i].phase.put < |s.puts|
    requires s.puts[s.members[i].phase.put].status == Refused
    ensures Step(g, s, Answered(i)) == s.(members := s.members[i := Member(s.members[i].core, Idle)])
  {
  }

  /** Only a fatal error ever stops a node. */
  lemma {:induction false} StoppedOnlyByFatalError(g: string, s0: State, actions: seq<Action>, i: nat)
    requires Init(s0) && i < |s0.members| && s0.members[i].core.role != Stopped
    ensures |Run(g, s0, actions).members| == |s0.members|
    ensures Run(g, s0, actions).members[i].core.role == Stopped ==> AnswerLost(i, Fatal) in actions
  {
    if actions != [] {
      var front, a := actions[..|actions| - 1], actions[|actions| - 1];
      StoppedOnlyByFatalError(g, s0, front, i);
      RunKeepsInv(g, s0, front);
      RoleChangesExactly(g, Run(g, s0, front), a, i);
    }
  }

  /** The whole run refines a write-once log: whatever is in the log stays there unchanged. */
  lemma {:induction false} LogIsWriteOnce(g: string, s: State, actions: seq<Action>)
    ensures var l, l' := AbstractLog(s.objects, g), AbstractLog(Run(g, s, actions).objects, g);
      forall i: U64 :: i in l ==> i in l' && l'[i] == l[i]
  {
    if actions != [] {
      var front := Run(g, s, actions[..|actions| - 1]);
      LogIsWriteOnce(g, s, actions[..|actions| - 1]);
      forall i: U64 | EntryKey(g, i) in front.objects
        ensures Holds(g, Run(g, s, actions), i, front.objects[EntryKey(g, i)])
      {
        StepWritesOnce(g, front, actions[|actions| - 1], i);
      }
    }
  }

  /** Every flushed batch was sent to an index that is occupied, and is not stored there. */
  ghost predicate FlushesOk(g: string, s: State) {
    forall p :: 0 <= p < |s.puts| && s.puts[p].value.Flushed? ==>
      s.puts[p].status != Created && EntryKey(g, s.puts[p].index) in s.objects
  }

  lemma StepKeepsFlushesOk(g: string, s: State, a: Action)
    requires Inv(g, s) && FlushesOk(g, s)
    ensures FlushesOk(g, Step(g, s, a))
  {
    var s' := Step(g, s, a);
    forall p | 0 <= p < |s'.puts| && s'.puts[p].value.Flushed?
      ensures s'.puts[p].status != Created && EntryKey(g, s'.puts[p].index) in s'.objects
    {
      if p < |s.puts| {
        StepWritesOnce(g, s, a, s.puts[p].index);
      }
    }
  }

  /** What a leader flushes is sent to its own commit index, and refused there on arrival. */
  lemma FlushIsRefused(g: string, s: State, i: nat, entries: seq<StateRequest>)
    requires Inv(g, s) && i < |s.members| && s.members[i].core.role == Leader
    ensures var p := |s.puts|;
      var s' := Step(g, Step(g, s, Flush(i, entries)), Arrives(p));
      && s'.objects == s.objects && s'.members == s.members
      && s'.puts == s.puts + [PutRequest(s.members[i].core.commitIndex, Flushed(entries), Refused)]
  {
  }

  /** In no group, fresh or not, is a flushed batch ever stored: a leader flushes to the index its
      own claim occupies, and the store refuses it. */
  lemma {:induction false} FlushesAreRefused(g: string, s0: State, actions: seq<Action>)
    requires Init(s0)
    ensures FlushesOk(g, Run(g, s0, actions))
  {
    if actions != [] {
      var front := actions[..|actions| - 1];
      FlushesAreRefused(g, s0, front);
      RunKeepsInv(g, s0, front);
      StepKeepsFlushesOk(g, Run(g, s0, front), actions[|actions| - 1]);
    }
  }

  // ---------------------------------------------------------------- groups of fresh nodes

  /** A group as the program creates it: fresh nodes, and no entry in the group's log. */
  ghost predicate FreshInit(g: string, s: State) {
    && s.puts == [] && s.elections == []
    && (forall index: U64 :: EntryKey(g, index) !in s.objects)
    && forall i :: 0 <= i < |s.members| ==> s.members[i] == Member(FRESH, Idle)
  }

  ghost predicate FreshMemberOk(m: Member) {
    && m.core.commitIndex == (if m.core.role == Leader then 1 else 0)
    && (m.phase.Claiming? || m.phase.Awaiting? ==> m.phase.index == 1)
  }

  ghost predicate FreshPutOk(g: string, s: State, r: PutRequest) {
    && r.index == 1
    && (r.value.Flushed? ==> r.status != Created && EntryKey(g, 1) in s.objects)
  }

  /** The only entry ever in the log is a claim at index 1. */
  ghost predicate FreshLogOk(g: string, s: State) {
    forall index: U64 :: EntryKey(g, index) in s.objects ==> index == 1 && s.objects[EntryKey(g, index)].Claim?
  }

  ghost predicate FreshParts(g: string, s: State) {
    && FreshLogOk(g, s)
    && (forall i :: 0 <= i < |s.members| ==> FreshMemberOk(s.members[i]))
    && (forall p :: 0 <= p < |s.puts| ==> FreshPutOk(g, s, s.puts[p]))
  }

  ghost predicate FreshInv(g: string, s: State) {
    Inv(g, s) && FreshParts(g, s)
  }

  /** Discovery in such a group: from the group's own entries it always lists the mirror image of
      the only one, and the entry it then fetches is never there. */
  lemma DiscoveryMisses(g: string, s: State, key: string)
    requires FreshLogOk(g, s)
    ensures key in s.objects && IsEntryKey(g, key) ==> HeadNumber(key) == Some(Invert(1))
    ensures EntryKey(g, Invert(1)) !in s.objects
  {
    if key in s.objects && IsEntryKey(g, key) {
      IsEntryKeyExactly(g, key);
      HeadNumberOfKey(g, Invert(1));
    }
  }

  lemma FreshMemberStep(g: string, s: State, a: Action, i: nat)
    requires i < |s.members| && FreshMemberOk(s.members[i]) && MemberOk(s, i, s.members[i])
    ensures FreshMemberOk(MemberStep(g, s.objects, s.members[i], a))
  {
    var m := s.members[i];
    assert m.core.role == NotJoined ==> ClaimIndex(m.core) == 1;
  }

  lemma FreshArrival(g: string, s: State, p: nat)
    requires FreshInv(g, s)
    ensures FreshParts(g, Step(g, s, Arrives(p)))
  {
    forall index: U64 | EntryKey(g, index) == EntryKey(g, 1) ensures index == 1 {
      LogKeysInjective(g, Invert(index), g, Invert(1));
    }
  }

  lemma FreshIssue(g: string, s: State, i: nat)
    requires FreshInv(g, s)
    ensures FreshParts(g, Step(g, s, Issue(i)))
  {
  }

  lemma FreshAnswer(g: string, s: State, i: nat)
    requires FreshInv(g, s)
    ensures FreshParts(g, Step(g, s, Answered(i)))
  {
    var s' := Step(g, s, Answered(i));
    assert s'.objects == s.objects && s'.puts == s.puts;
    if s' != s {
      assert FreshMemberOk(s.members[i]) && MemberOk(s, i, s.members[i]);
    }
  }

  lemma FreshFlush(g: string, s: State, i: nat, entries: seq<StateRequest>)
    requires FreshInv(g, s)
    ensures FreshParts(g, Step(g, s, Flush(i, entries)))
  {
  }

  lemma FreshStep(g: string, s: State, a: Action)
    requires FreshInv(g, s)
    ensures FreshInv(g, Step(g, s, a))
  {
    StepKeepsInv(g, s, a);
    match a
    case Arrives(p) => FreshArrival(g, s, p);
    case Issue(i) => FreshIssue(g, s, i);
    case Answered(i) => FreshAnswer(g, s, i);
    case Flush(i, entries) => FreshFlush(g, s, i, entries);
    case ForeignWrite(key, value) => FreshForeignWrite(g, s, key, value);
    case _ => FreshLocal(g, s, a);
  }

  lemma FreshForeignWrite(g: string, s: State, key: string, value: Value)
    requires FreshInv(g, s)
    ensures FreshParts(g, Step(g, s, ForeignWrite(key, value)))
  {
    forall index: U64 ensures IsEntryKey(g, EntryKey(g, index)) {
      EntryKeyIsOne(g, index);
    }
  }

  lemma FreshLocal(g: string, s: State, a: Action)
    requires FreshInv(g, s) && Local(a)
    ensures FreshParts(g, Step(g, s, a))
  {
    var s' := Step(g, s, a);
    assert s'.objects == s.objects && s'.puts == s.puts;
    if a.i < |s.members| {
      assert MemberOk(s, a.i, s.members[a.i]);
      FreshMemberStep(g, s, a, a.i);
    }
  }

  lemma {:induction false} FreshRun(g: string, s: State, actions: seq<Action>)
    requires FreshInv(g, s)
    ensures FreshInv(g, Run(g, s, actions))
  {
    if actions != [] {
      FreshRun(g, s, actions[..|actions| - 1]);
      FreshStep(g, Run(g, s, actions[..|actions| - 1]), actions[|actions| - 1]);
    }
  }

  ghost predicate Leads(s: State, i: nat) {
    i < |s.members| && s.members[i].core.role == Leader
  }

  ghost predicate HasLeader(s: State) {
    exists i: nat :: Leads(s, i)
  }

  /** In every reachable state of a group of fresh nodes, restarts included: at most one node
      leads, at epoch and commit index 1, and the log entry there is its own claim; over the whole
      run there has been at most one election. */
  lemma SingleLeader(g: string, s0: State, actions: seq<Action>)
    requires FreshInit(g, s0)
    ensures var s := Run(g, s0, actions);
      && (forall i: nat, j: nat :: Leads(s, i) && Leads(s, j) ==> i == j)
      && (forall i: nat :: Leads(s, i) ==>
            && s.members[i].core.commitIndex == s.members[i].core.epoch == 1
            && Holds(g, s, 1, Claim(LeaderState(1, 1, i))))
      && |s.elections| <= 1
  {
    FreshRun(g, s0, actions);
    ElectionSafety(g, s0, actions);
    var s := Run(g, s0, actions);
    forall i: nat | Leads(s, i)
      ensures s.members[i].core.commitIndex == s.members[i].core.epoch == 1
      ensures Holds(g, s, 1, Claim(LeaderState(1, 1, i)))
    {
      assert FreshMemberOk(s.members[i]);
    }
    if |s.elections| >= 2 {
      ElectionAtOne(g, s, 0);
      ElectionAtOne(g, s, 1);
    }
  }

  lemma ElectionAtOne(g: string, s: State, k: nat)
    requires FreshInv(g, s) && k < |s.elections|
    ensures s.elections[k].index == 1
  {
  }

  /** Nothing but the first claim ever reaches the log of such a group: no flushed batch is ever
      stored, and no second index is ever written. */
  lemma LogHoldsOnlyTheFirstClaim(g: string, s0: State, actions: seq<Action>)
    requires FreshInit(g, s0)
    ensures var s := Run(g, s0, actions);
      && (forall i: U64 :: i in AbstractLog(s.objects, g) ==> i == 1 && AbstractLog(s.objects, g)[i].Claim?)
      && FlushesOk(g, s)
  {
    FreshRun(g, s0, actions);
    FlushesAreRefused(g, s0, actions);
  }

  // ---------------------------------------------------------------- when a node can follow

  ghost predicate HasFollower(s: State) {
    exists i :: 0 <= i < |s.members| && s.members[i].core.role == Follower
  }

  /** Whatever is stored outside the group's own entries is under one of these keys. */
  ghost predicate ForeignWithin(g: string, s: State, keys: iset<string>) {
    forall k :: k in s.objects && !IsEntryKey(g, k) ==> k in keys
  }

  ghost predicate WritesWithin(actions: seq<Action>, keys: iset<string>) {
    forall k :: 0 <= k < |actions| && actions[k].ForeignWrite? ==> actions[k].key in keys
  }

  ghost predicate MisleadsNobody(g: string, keys: iset<string>) {
    forall k :: k in keys ==> !Misleads(g, k)
  }

  ghost predicate NeverFinds(m: Member) {
    m.core.role != Follower && !m.phase.Connecting? && (m.phase.Fetching? ==> m.phase.head != 1)
  }

  ghost predicate NobodyFinds(s: State) {
    forall i :: 0 <= i < |s.members| ==> NeverFinds(s.members[i])
  }

  lemma LocalNeverFinds(g: string, s: State, a: Action, i: nat, keys: iset<string>)
    requires FreshInv(g, s) && ForeignWithin(g, s, keys) && MisleadsNobody(g, keys)
    requires i < |s.members| && NeverFinds(s.members[i])
    ensures NeverFinds(MemberStep(g, s.objects, s.members[i], a))
  {
    if a.FindHead? {
      DiscoveryMisses(g, s, a.key);
    }
  }

  lemma StepNeverFinds(g: string, s: State, a: Action, keys: iset<string>)
    requires FreshInv(g, s) && ForeignWithin(g, s, keys) && MisleadsNobody(g, keys) && NobodyFinds(s)
    requires a.ForeignWrite? ==> a.key in keys
    ensures NobodyFinds(Step(g, s, a))
    ensures ForeignWithin(g, Step(g, s, a), keys)
  {
    if Local(a) && a.i < |s.members| {
      LocalNeverFinds(g, s, a, a.i, keys);
    } else if a.Arrives? && a.p < |s.puts| {
      EntryKeyIsOne(g, s.puts[a.p].index);
    }
  }

  lemma {:induction false} RunNeverFinds(g: string, s: State, actions: seq<Action>, keys: iset<string>)
    requires FreshInv(g, s) && ForeignWithin(g, s, keys) && MisleadsNobody(g, keys) && NobodyFinds(s)
    requires WritesWithin(actions, keys)
    ensures NobodyFinds(Run(g, s, actions)) && ForeignWithin(g, Run(g, s, actions), keys)
  {
    if actions != [] {
      var front := actions[..|actions| - 1];
      RunNeverFinds(g, s, front, keys);
      FreshRun(g, s, front);
      StepNeverFinds(g, Run(g, s, front), actions[|actions| - 1], keys);
    }
  }

  /** A node makes the first claim and is restarted. */
  lemma ClaimedAndRestarted(g: string, s: State) returns (actions: seq<Action>)
    requires FreshInit(g, s) && s.members != []
    ensures forall k :: 0 <= k < |actions| ==> !actions[k].ForeignWrite?
    ensures var s' := Run(g, s, actions);
      && s'.members != [] && s'.members[0] == Member(FRESH, Idle)
      && Holds(g, s', 1, Claim(LeaderState(1, 1, 0)))
  {
    actions := [FindNothing(0), Issue(0), Arrives(0), Restart(0)];
    RunFour(g, s, FindNothing(0), Issue(0), Arrives(0), Restart(0));
    var s2 := Step(g, Step(g, s, FindNothing(0)), Issue(0));
    assert s2.puts == [PutRequest(1, Claim(LeaderState(1, 1, 0)), InFlight)];
    assert Holds(g, Step(g, s2, Arrives(0)), 1, Claim(LeaderState(1, 1, 0)));
  }

  /** A misleading key then shows it its own old claim. */
  lemma MisledNodeFollows(g: string, s: State, key: string) returns (actions: seq<Action>)
    requires s.members != [] && s.members[0] == Member(FRESH, Idle)
    requires Holds(g, s, 1, Claim(LeaderState(1, 1, 0))) && Misleads(g, key)
    ensures forall k :: 0 <= k < |actions| && actions[k].ForeignWrite? ==> actions[k].key == key
    ensures HasFollower(Run(g, s, actions))
  {
    actions := [ForeignWrite(key, NO_VALUE), FindHead(0, key), FetchHits(0), Follows(0)];
    RunFour(g, s, ForeignWrite(key, NO_VALUE), FindHead(0, key), FetchHits(0), Follows(0));
    EntryKeyIsOne(g, 1);
    var s2 := Step(g, Step(g, s, ForeignWrite(key, NO_VALUE)), FindHead(0, key));
    assert s2.members[0].phase == Fetching(1);
    var s3 := Step(g, s2, FetchHits(0));
    assert s3.members[0].phase == Connecting;
    assert Step(g, s3, Follows(0)).members[0].core.role == Follower;
  }

  ghost predicate SomeRunFollows(g: string, s: State, keys: iset<string>) {
    exists actions: seq<Action> :: WritesWithin(actions, keys) && HasFollower(Run(g, s, actions))
  }

  /** Exactly when a node of a fresh group can ever become a follower: somebody else may write a
      key under the group's log prefix that reads as number 1. Without such a key discovery only
      ever looks at the mirrored entry, and nobody follows. */
  lemma FollowerPossibleExactly(g: string, s0: State, keys: iset<string>)
    requires FreshInit(g, s0) && s0.members != [] && ForeignWithin(g, s0, keys)
    ensures SomeRunFollows(g, s0, keys) <==> !MisleadsNobody(g, keys)
  {
    if MisleadsNobody(g, keys) {
      forall actions: seq<Action> | WritesWithin(actions, keys) ensures !HasFollower(Run(g, s0, actions)) {
        RunNeverFinds(g, s0, actions, keys);
        assert NobodyFinds(Run(g, s0, actions));
      }
    } else {
      var key :| key in keys && Misleads(g, key);
      var a := ClaimedAndRestarted(g, s0);
      var b := MisledNodeFollows(g, Run(g, s0, a), key);
      RunConcat(g, s0, a, b);
      assert WritesWithin(a + b, keys) && HasFollower(Run(g, s0, a + b));
    }
  }

  /** In particular nobody follows while others write snapshots, first entries of any group, or
      any entries of groups without a slash in their id, which covers all that fresh groups write. */
  lemma NobodyFollows(g: string, s0: State, actions: seq<Action>)
    requires FreshInit(g, s0)
    requires ForeignWithin(g, s0, iset k | Ordinary(k)) && WritesWithin(actions, iset k | Ordinary(k))
    ensures !HasFollower(Run(g, s0, actions))
  {
    var keys := iset k | Ordinary(k);
    forall k | k in keys ensures !Misleads(g, k) {
      OrdinaryKeysMisleadNobody(g, k);
    }
    RunNeverFinds(g, s0, actions, keys);
    assert NobodyFinds(Run(g, s0, actions));
  }

  // ---------------------------------------------------------------- when a leader is still possible

  /** The claim is free and there is a node to make it, or the answer to the put that took it is
      still under way to its sender, or somebody leads already. */
  ghost predicate LeaderPossible(g: string, s: State) {
    || (EntryKey(g, 1) !in s.objects && s.members != [])
    || (exists i: nat :: AwaitsCreated(s, i))
    || HasLeader(s)
  }

  lemma NobodyNew(g: string, s: State, a: Action, i: nat)
    requires FreshInv(g, s) && i < |s.members| && EntryKey(g, 1) in s.objects
    requires !AwaitsCreated(s, i) && !Leads(s, i)
    ensures !AwaitsCreated(Step(g, s, a), i) && !Leads(Step(g, s, a), i)
  {
    var m := s.members[i];
    assert MemberOk(s, i, m) && FreshMemberOk(m);
    if Local(a) && a.i == i {
      MemberStepKeeps(g, s, a, i);
    } else if a.Arrives? && a.p < |s.puts| {
      assert FreshPutOk(g, s, s.puts[a.p]);
    }
  }

  /** Once the claim is taken by a put nobody is waiting for any more, it stays that way. */
  lemma ImpossibleStaysImpossible(g: string, s: State, a: Action)
    requires FreshInv(g, s) && !LeaderPossible(g, s)
    ensures !LeaderPossible(g, Step(g, s, a))
  {
    if s.members != [] {
      StepWritesOnce(g, s, a, 1);
      forall i: nat | i < |s.members| ensures !AwaitsCreated(Step(g, s, a), i) && !Leads(Step(g, s, a), i) {
        NobodyNew(g, s, a, i);
      }
    }
  }

  lemma {:induction false} ImpossibleForEver(g: string, s: State, actions: seq<Action>)
    requires FreshInv(g, s) && !LeaderPossible(g, s)
    ensures !LeaderPossible(g, Run(g, s, actions))
  {
    if actions != [] {
      var front := actions[..|actions| - 1];
      ImpossibleForEver(g, s, front);
      FreshRun(g, s, front);
      ImpossibleStaysImpossible(g, Run(g, s, front), actions[|actions| - 1]);
    }
  }

  lemma AwaitedAnswerElects(g: string, s: State, i: nat) returns (future: seq<Action>)
    requires AwaitsCreated(s, i)
    ensures HasLeader(Run(g, s, future))
  {
    future := [Answered(i)];
    RunOne(g, s, Answered(i));
    assert Leads(Step(g, s, Answered(i)), i);
  }

  lemma FreePutElects(g: string, s: State, p: nat) returns (future: seq<Action>)
    requires s.members != [] && s.members[0].phase == Awaiting(1, 1, p)
    requires p < |s.puts| && s.puts[p].index == 1 && s.puts[p].status == InFlight && EntryKey(g, 1) !in s.objects
    ensures HasLeader(Run(g, s, future))
  {
    var s' := Step(g, s, Arrives(p));
    assert AwaitsCreated(s', 0);
    var rest := AwaitedAnswerElects(g, s', 0);
    RunFirst(g, s, Arrives(p), rest);
    future := [Arrives(p)] + rest;
  }

  lemma FreeClaimingElects(g: string, s: State) returns (future: seq<Action>)
    requires s.members != [] && s.members[0].phase == Claiming(1, 1) && EntryKey(g, 1) !in s.objects
    ensures HasLeader(Run(g, s, future))
  {
    var rest := FreePutElects(g, Step(g, s, Issue(0)), |s.puts|);
    RunFirst(g, s, Issue(0), rest);
    future := [Issue(0)] + rest;
  }

  /** From a free claim, node 0 can be restarted and elected. */
  lemma FreeClaimElects(g: string, s: State) returns (future: seq<Action>)
    requires EntryKey(g, 1) !in s.objects && s.members != []
    ensures HasLeader(Run(g, s, future))
  {
    var s' := Step(g, s, Restart(0));
    assert s'.members[0] == Member(FRESH, Idle);
    var rest := FreeClaimingElects(g, Step(g, s', FindNothing(0)));
    RunTwo(g, s, Restart(0), FindNothing(0));
    future := [Restart(0), FindNothing(0)] + rest;
    RunConcat(g, s, [Restart(0), FindNothing(0)], rest);
  }

  lemma PossibleElects(g: string, s: State) returns (future: seq<Action>)
    requires LeaderPossible(g, s)
    ensures HasLeader(Run(g, s, future))
  {
    if HasLeader(s) {
      future := [];
    } else if EntryKey(g, 1) !in s.objects && s.members != [] {
      future := FreeClaimElects(g, s);
    } else {
      var i: nat :| AwaitsCreated(s, i);
      future := AwaitedAnswerElects(g, s, i);
    }
  }

  ghost predicate SomeFutureHasLeader(g: string, s: State) {
    exists future: seq<Action> :: HasLeader(Run(g, s, future))
  }

  /** In every reachable state of a group of fresh nodes, some continuation has a leader exactly
      when the claim is free, its answer is still awaited, or there is a leader. So a put hidden
      behind an error, or a leader that restarts, leaves the group without a leader for ever. */
  lemma LeaderPossibleExactly(g: string, s0: State, past: seq<Action>)
    requires FreshInit(g, s0)
    ensures var s := Run(g, s0, past);
      LeaderPossible(g, s) <==> SomeFutureHasLeader(g, s)
  {
    var s := Run(g, s0, past);
    FreshRun(g, s0, past);
    if LeaderPossible(g, s) {
      var future := PossibleElects(g, s);
    } else {
      forall future: seq<Action> ensures !HasLeader(Run(g, s, future)) {
        ImpossibleForEver(g, s, future);
      }
    }
  }

  /** A node is told of a transient error although its put took effect: its claim is in the log,
      and from then on nobody can ever lead. */
  lemma HiddenPutLosesTheGroup(g: string, s: State, i: nat)
    requires FreshInv(g, s) && AwaitsCreated(s, i)
    ensures var s' := Step(g, s, AnswerLost(i, Generic(true)));
      Holds(g, s', 1, Claim(LeaderState(1, 1, i))) && !LeaderPossible(g, s')
  {
  }
}
