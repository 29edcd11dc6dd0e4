/** One node: the fields of `FSM` in src/fsm.rs, its leadership attempt and its follower loop. */
module Fsm {
  import opened Words
  import opened Paths
  import opened Backoff
  import opened Log
  import opened Queue

  /** `NodeIdentity`, compared for equality only. */
  type NodeId = nat

  datatype Role = NotJoined | Follower | Leader | Stopped
  datatype Core = Core(role: Role, commitIndex: U64, epoch: U64, missed: U32)

  datatype LeaderState = LeaderState(commitIndex: U64, epoch: U64, node: NodeId)

  /** What is stored in the log: a claim (`LogEntry` with an empty batch and a leader state), or
      a flushed `Batch`. Encodings are injective, so the value stands for its bytes. */
  datatype Payload<R> = Claim(leader: LeaderState) | Flushed(entries: seq<R>)

  const FRESH := Core(NotJoined, 0, 0, 0)

  // ---------------------------------------------------------------- leadership

  function ClaimIndex(c: Core): U64 {
    if c.commitIndex > 0 then Wrap64(c.commitIndex + 1) else 1
  }

  function ClaimEpoch(c: Core): U64 {
    if c.commitIndex > 0 then Wrap64(c.epoch + 1) else 1
  }

  function ClaimOf<R>(c: Core, node: NodeId): Payload<R> {
    Claim(LeaderState(ClaimIndex(c), ClaimEpoch(c), node))
  }

  /** A node claims the index after its own and, since its epoch is its commit index, the epoch
      after its own, and signs the claim. */
  lemma ClaimsNext<R>(c: Core, node: NodeId)
    requires c.epoch == c.commitIndex
    ensures var index, epoch := Wrap64(c.commitIndex + 1), Wrap64(c.epoch + 1);
      ClaimIndex(c) == index && ClaimEpoch(c) == epoch && ClaimOf<R>(c, node) == Claim(LeaderState(index, epoch, node))
  {
  }

  /** How `attempt_leadership` takes the answer of `append` for a claim at `index`, `epoch`. */
  function OnClaimReply(c: Core, index: U64, epoch: U64, reply: PutReply): Core {
    match reply
    case Ok => c.(role := Leader, commitIndex := index, epoch := epoch)
    case AlreadyExists => c
    case Failed(f) => if f.Transient() then c else c.(role := Stopped)
  }

  /** How a call stands: over, in need of further answers, or dead of a panic. */
  datatype Ending = Returned | Waiting | Panicked

  datatype Attempt<R> = Attempt(core: Core, objects: Objects<Payload<R>>, ending: Ending)

  /** `attempt_leadership` against any environment: round `r` of its loop runs `append` with the
      answers `env[r]`. It has returned, or the supplied answers are used up. */
  function AttemptRun<R>(
    c: Core, g: string, node: NodeId, o: RetryOptions, objects: Objects<Payload<R>>,
    env: seq<seq<PutEvent<Payload<R>>>>): Attempt<R>
    decreases |env|
  {
    if env == [] then Attempt(c, objects, Waiting)
    else
      var r := AppendRun(objects, EntryKey(g, ClaimIndex(c)), ClaimOf(c, node), o, 0, env[0]);
      match r.reply
      case None => Attempt(c, r.objects, Waiting)
      case Some(reply) =>
        if reply.Failed? && reply.failure.Transient() then AttemptRun(c, g, node, o, r.objects, env[1..])
        else Attempt(OnClaimReply(c, ClaimIndex(c), ClaimEpoch(c), reply), r.objects, Returned)
  }

  /** Whatever other clients and the store do: a node that comes out as leader found the index
      free and left its own claim there; one that is refused finds the index occupied; nothing
      already stored is touched, and no other field of the node changes on the way. */
  lemma {:induction false} AttemptMeaning<R>(
    c: Core, g: string, node: NodeId, o: RetryOptions, objects: Objects<Payload<R>>,
    env: seq<seq<PutEvent<Payload<R>>>>)
    requires c.role == NotJoined
    ensures var a := AttemptRun(c, g, node, o, objects, env);
      var key := EntryKey(g, ClaimIndex(c));
      && Extends(objects, a.objects)
      && (a.core.role == Leader ==>
            && a.ending == Returned && a.core == c.(role := Leader, commitIndex := ClaimIndex(c), epoch := ClaimEpoch(c))
            && key !in objects && key in a.objects && a.objects[key] == ClaimOf(c, node))
      && (a.core.role == NotJoined ==> a.core == c && (a.ending == Returned ==> key in a.objects))
      && (a.core.role == Stopped ==> a.core == c.(role := Stopped))
      && a.core.role != Follower
    decreases |env|
  {
    if env != [] {
      var key, payload := EntryKey(g, ClaimIndex(c)), ClaimOf(c, node);
      AppendMeaning(objects, key, payload, o, 0, env[0]);
      var r := AppendRun(objects, key, payload, o, 0, env[0]);
      if r.reply.Some? && r.reply.value.Failed? && r.reply.value.failure.Transient() {
        AttemptMeaning(c, g, node, o, r.objects, env[1..]);
      }
    }
  }

  /** The puts of each round are used up, and every round before the last failed transiently. */
  ghost predicate AtLastPut<R>(
    c: Core, g: string, node: NodeId, o: RetryOptions, objects: Objects<Payload<R>>, env: seq<seq<PutEvent<Payload<R>>>>)
    decreases |env|
  {
    var key, claim := EntryKey(g, ClaimIndex(c)), ClaimOf(c, node);
    && env != [] && env[0] != []
    && AppendRun(objects, key, claim, o, 0, env[0][..|env[0]| - 1]).reply.None?
    && (|env| > 1 ==>
          var r := AppendRun(objects, key, claim, o, 0, env[0]);
          r.reply == Some(Failed(Generic(true))) && AtLastPut(c, g, node, o, r.objects, env[1..]))
  }

  lemma {:induction false} LastPutExists<R>(
    c: Core, g: string, node: NodeId, o: RetryOptions, objects: Objects<Payload<R>>, env: seq<seq<PutEvent<Payload<R>>>>)
    requires AtLastPut(c, g, node, o, objects, env)
    ensures env != [] && env[|env| - 1] != []
    decreases |env|
  {
    if |env| > 1 {
      var r := AppendRun(objects, EntryKey(g, ClaimIndex(c)), ClaimOf(c, node), o, 0, env[0]);
      LastPutExists(c, g, node, o, r.objects, env[1..]);
    }
  }

  /** The fault, if any, of the very last put. */
  ghost function LastFault<R>(
    c: Core, g: string, node: NodeId, o: RetryOptions, objects: Objects<Payload<R>>, env: seq<seq<PutEvent<Payload<R>>>>): Fault
    requires AtLastPut(c, g, node, o, objects, env)
  {
    LastPutExists(c, g, node, o, objects, env);
    var last := env[|env| - 1];
    last[|last| - 1].fault
  }

  ghost predicate Taken<R>(key: string, objects: Objects<Payload<R>>, env: seq<seq<PutEvent<Payload<R>>>>) {
    key in objects || exists r :: 0 <= r < |env| && Occupied(key, env[r])
  }

  lemma TakenFirst<R>(
    key: string, objects: Objects<Payload<R>>, after: Objects<Payload<R>>, env: seq<seq<PutEvent<Payload<R>>>>)
    requires env != [] && (key in after <==> key in objects || Occupied(key, env[0]))
    ensures Taken(key, objects, env) <==> Taken(key, after, env[1..])
  {
    if r :| 0 <= r < |env| && Occupied(key, env[r]) && r > 0 {
      assert Occupied(key, env[1..][r - 1]);
    }
    if r :| 0 <= r < |env[1..]| && Occupied(key, env[1..][r]) {
      assert Occupied(key, env[r + 1]);
    }
  }

  /** How a leadership attempt ends, exactly, by its last put: with a put that succeeds the node leads
      if the index was free, and is as before if anybody, itself included, had taken it; a fatal
      error stops it; any other error keeps it trying. */
  lemma {:induction false} AttemptAnswersExactly<R>(
    c: Core, g: string, node: NodeId, o: RetryOptions, objects: Objects<Payload<R>>, env: seq<seq<PutEvent<Payload<R>>>>)
    requires c.role == NotJoined && AtLastPut(c, g, node, o, objects, env)
    ensures var a, last := AttemptRun(c, g, node, o, objects, env), LastFault(c, g, node, o, objects, env);
      var taken := Taken(EntryKey(g, ClaimIndex(c)), objects, env);
      && (a.core.role == Leader <==> last.NoFault? && !taken)
      && (a.core == c && a.ending == Returned <==> last.NoFault? && taken)
      && (a.core == c.(role := Stopped) <==> !last.NoFault? && last.failure == Fatal)
      && (a.core == c && a.ending == Waiting <==> !last.NoFault? && last.failure.Generic?)
    decreases |env|
  {
    var key, claim := EntryKey(g, ClaimIndex(c)), ClaimOf(c, node);
    var r := AppendRun(objects, key, claim, o, 0, env[0]);
    AppendAnswersExactly(objects, key, claim, o, 0, env[0]);
    AppendLast(objects, key, claim, o, 0, env[0]);
    AppendOccupies(objects, key, claim, o, 0, env[0]);
    if |env| > 1 {
      TakenFirst(key, objects, r.objects, env);
      AttemptAnswersExactly(c, g, node, o, r.objects, env[1..]);
    }
  }

  /** Nothing but a fatal error stops a node: one whose claim is refused stays NOT_JOINED. */
  lemma {:induction false} OnlyFatalErrorsStop<R>(
    c: Core, g: string, node: NodeId, o: RetryOptions, objects: Objects<Payload<R>>, env: seq<seq<PutEvent<Payload<R>>>>)
    requires c.role == NotJoined && forall r :: 0 <= r < |env| ==> NoFatal(env[r])
    ensures AttemptRun(c, g, node, o, objects, env).core.role in {NotJoined, Leader}
    decreases |env|
  {
    if env != [] {
      var key, claim := EntryKey(g, ClaimIndex(c)), ClaimOf(c, node);
      var r := AppendRun(objects, key, claim, o, 0, env[0]);
      AppendNotFatal(objects, key, claim, o, 0, env[0]);
      NeverPlainGeneric(objects, key, claim, o, 0, env[0]);
      if r.reply == Some(Failed(Generic(true))) {
        OnlyFatalErrorsStop(c, g, node, o, r.objects, env[1..]);
      }
    }
  }

  // ---------------------------------------------------------------- joining

  /** Outcomes of `connect` and `follow`; `WrongState` stands for `Closed` and `NotConnected`. */
  datatype ClientOutcome = Done | WrongState | ClientError

  /** What one turn of the loop in `join` meets: the listings and gets of discovery, the answers
      to `connect` and `follow`, and the puts of a leadership attempt. */
  datatype JoinRound<R> = JoinRound(
    lookups: seq<Round<Payload<R>>>, connect: ClientOutcome, follow: ClientOutcome,
    env: seq<seq<PutEvent<Payload<R>>>>, jitter: Jitter)

  /** What such a turn comes to. A discovered entry without a leader state is a panic. */
  datatype JoinTurn = BecomesFollower | AttemptsLeadership | Leaves | TriesAgain | Panics | StillDiscovering

  function TurnOf<R>(o: RetryOptions, g: string, round: JoinRound<R>): JoinTurn {
    match DiscoverRun<Payload<R>>(o, g, 0, round.lookups).result
    case Discovered(_, Claim(_)) =>
      (match round.connect
       case Done =>
         (match round.follow
          case Done => BecomesFollower
          case WrongState => TriesAgain
          case ClientError => AttemptsLeadership)
       case WrongState => Leaves
       case ClientError => AttemptsLeadership)
    case Discovered(_, Flushed(_)) => Panics
    case NoLeader => AttemptsLeadership
    case DiscoveryFailed(f) => if f.Transient() then TriesAgain else Leaves
    case DiscoveryPanics(_) => Panics
    case Undecided => StillDiscovering
  }

  /** `join` over a finite supply of rounds. */
  function JoinRun<R>(
    c: Core, g: string, node: NodeId, o: RetryOptions, objects: Objects<Payload<R>>, rounds: seq<JoinRound<R>>): Attempt<R>
    decreases |rounds|
  {
    if c.role != NotJoined then Attempt(c, objects, Returned)
    else if rounds == [] then Attempt(c, objects, Waiting)
    else
      match TurnOf(o, g, rounds[0])
      case BecomesFollower => Attempt(c.(role := Follower), objects, Returned)
      case Leaves => Attempt(c, objects, Returned)
      case Panics => Attempt(c, objects, Panicked)
      case StillDiscovering => Attempt(c, objects, Waiting)
      case TriesAgain => JoinRun(c, g, node, o, objects, rounds[1..])
      case AttemptsLeadership =>
        var a := AttemptRun(c, g, node, o, objects, rounds[0].env);
        if a.ending == Returned then JoinRun(a.core, g, node, o, a.objects, rounds[1..]) else a
  }

  /** Some lookup of the round read a claim at the number it listed, and the node was then taken
      on as a follower. */
  ghost predicate FollowsClaim<R>(g: string, round: JoinRound<R>) {
    && round.connect == Done && round.follow == Done
    && exists l, head: U64, leader :: 0 <= l < |round.lookups| && ReadAtHead(g, round.lookups[l], head, Claim(leader))
  }

  ghost predicate SomeRoundFollows<R>(g: string, rounds: seq<JoinRound<R>>) {
    exists k :: 0 <= k < |rounds| && FollowsClaim(g, rounds[k])
  }

  lemma FollowerHasRead<R>(o: RetryOptions, g: string, round: JoinRound<R>)
    requires TurnOf(o, g, round) == BecomesFollower
    ensures FollowsClaim(g, round)
  {
    var d := DiscoverRun(o, g, 0, round.lookups);
    DiscoveryMeaning(o, g, 0, round.lookups);
    assert ReadAtHead(g, round.lookups[d.listed - 1], d.result.head, Claim(d.result.entry.leader));
  }

  /** However often it tries and whatever the others do, a node leaves `join` as leader only with
      its own claim at an index it found free, as follower only after it read a claim at the very
      number a listing showed and was taken on, and otherwise with its commit index and epoch as
      they were. */
  lemma {:induction false} JoinMeaning<R>(
    c: Core, g: string, node: NodeId, o: RetryOptions, objects: Objects<Payload<R>>, rounds: seq<JoinRound<R>>)
    requires c.role == NotJoined
    ensures var a := JoinRun(c, g, node, o, objects, rounds);
      var key := EntryKey(g, ClaimIndex(c));
      && Extends(objects, a.objects)
      && (a.core.role == Leader ==>
            && a.core == c.(role := Leader, commitIndex := ClaimIndex(c), epoch := ClaimEpoch(c))
            && key !in objects && key in a.objects && a.objects[key] == ClaimOf(c, node))
      && (a.core.role != Leader ==> a.core == c.(role := a.core.role))
      && (a.core.role == Follower ==> SomeRoundFollows(g, rounds))
    decreases |rounds|
  {
    if rounds != [] {
      match TurnOf(o, g, rounds[0])
      case BecomesFollower =>
        FollowerHasRead(o, g, rounds[0]);
      case TriesAgain =>
        JoinMeaning(c, g, node, o, objects, rounds[1..]);
        LaterRoundFollows(g, rounds);
      case AttemptsLeadership =>
        AttemptMeaning(c, g, node, o, objects, rounds[0].env);
        var a := AttemptRun(c, g, node, o, objects, rounds[0].env);
        JoinMeaning(c, g, node, o, a.objects, rounds[1..]);
        LaterRoundFollows(g, rounds);
      case _ =>
    }
  }

  /** Every round was gone through and left the node to try again. */
  ghost predicate PassedAll<R>(
    c: Core, g: string, node: NodeId, o: RetryOptions, objects: Objects<Payload<R>>, rounds: seq<JoinRound<R>>)
    decreases |rounds|
  {
    rounds == [] ||
    match TurnOf(o, g, rounds[0])
    case TriesAgain => PassedAll(c, g, node, o, objects, rounds[1..])
    case AttemptsLeadership =>
      var a := AttemptRun(c, g, node, o, objects, rounds[0].env);
      a.ending == Returned && a.core == c && PassedAll(c, g, node, o, a.objects, rounds[1..])
    case _ => false
  }

  /** Was no leader discovered, or could the discovered one not be reached? */
  ghost predicate MustAttempt<R>(d: Discovery<Payload<R>>, connect: ClientOutcome, follow: ClientOutcome) {
    || d.NoLeader?
    || (d.Discovered? && d.entry.Claim? && (connect == ClientError || (connect == Done && follow == ClientError)))
  }

  /** What one round of `join` comes to. The node follows exactly if a claim was discovered and
      `connect` and `follow` took it; it attempts leadership exactly if no leader was discovered or
      the discovered one could not be reached, and the attempt then decides; it returns as it was
      exactly over a discovered claim whose client is in the wrong state or a discovery that failed
      for good; it panics exactly over a name or an entry that does not parse. */
  ghost predicate ComesTo<R>(
    c: Core, g: string, node: NodeId, o: RetryOptions, objects: Objects<Payload<R>>, round: JoinRound<R>, a: Attempt<R>)
  {
    var d := DiscoverRun(o, g, 0, round.lookups).result;
    var found := d.Discovered? && d.entry.Claim?;
    && (a.core.role == Follower <==> found && round.connect == Done && round.follow == Done)
    && (a.ending == Panicked <==> d.DiscoveryPanics? || (d.Discovered? && d.entry.Flushed?))
    && (a.ending == Returned && a.core.role == NotJoined <==>
          (found && round.connect == WrongState) || (d.DiscoveryFailed? && !d.failure.Transient()))
    && (if MustAttempt(d, round.connect, round.follow) then
          var attempt := AttemptRun(c, g, node, o, objects, round.env);
          a.core == attempt.core && a.objects == attempt.objects
        else
          a.core == c.(role := a.core.role) && a.core.role in {NotJoined, Follower} && a.objects == objects)
  }

  lemma OneRoundExactly<R>(
    c: Core, g: string, node: NodeId, o: RetryOptions, objects: Objects<Payload<R>>, round: JoinRound<R>)
    requires c.role == NotJoined
    ensures ComesTo(c, g, node, o, objects, round, JoinRun(c, g, node, o, objects, [round]))
  {
    assert [round][1..] == [];
    if TurnOf(o, g, round) == AttemptsLeadership {
      AttemptMeaning(c, g, node, o, objects, round.env);
      AttemptWaits(c, g, node, o, objects, round.env);
    }
  }

  /** `join`, exactly: after any rounds that left the node to try again, one more round comes to
      exactly what `ComesTo` says. */
  lemma {:induction false} JoinAnswersExactly<R>(
    c: Core, g: string, node: NodeId, o: RetryOptions, objects: Objects<Payload<R>>, front: seq<JoinRound<R>>,
    round: JoinRound<R>)
    requires c.role == NotJoined && PassedAll(c, g, node, o, objects, front)
    ensures var before := JoinRun(c, g, node, o, objects, front);
      && before.core == c && before.ending == Waiting
      && ComesTo(c, g, node, o, before.objects, round, JoinRun(c, g, node, o, objects, front + [round]))
    decreases |front|
  {
    if front == [] {
      assert front + [round] == [round];
      OneRoundExactly(c, g, node, o, objects, round);
    } else {
      var rest := front[1..];
      assert (front + [round])[0] == front[0] && (front + [round])[1..] == rest + [round];
      if TurnOf(o, g, front[0]) == TriesAgain {
        JoinAnswersExactly(c, g, node, o, objects, rest, round);
      } else {
        JoinAnswersExactly(c, g, node, o, AttemptRun(c, g, node, o, objects, front[0].env).objects, rest, round);
      }
    }
  }

  /** A node that lists an empty log leads as soon as its put succeeds at a free index. */
  lemma JoinLeads<R>(
    c: Core, g: string, node: NodeId, o: RetryOptions, objects: Objects<Payload<R>>, round: JoinRound<R>)
    requires c.role == NotJoined && round.lookups != [] && AllSkipped(round.lookups[0].items)
    requires AtLastPut(c, g, node, o, objects, round.env) && LastFault(c, g, node, o, objects, round.env).NoFault?
    requires !Taken(EntryKey(g, ClaimIndex(c)), objects, round.env)
    ensures JoinRun(c, g, node, o, objects, [round]).core.role == Leader
    ensures JoinRun(c, g, node, o, objects, [round]).ending == Returned
  {
    RoundMeaning(o, g, round.lookups[0]);
    DiscoveryDecides(o, g, 0, round.lookups, 0);
    AttemptAnswersExactly(c, g, node, o, objects, round.env);
    AttemptMeaning(c, g, node, o, objects, round.env);
    assert [round][1..] == [];
  }

  /** A node that is served a claim under the number its listing shows, and is taken on, follows. */
  lemma JoinFollows<R>(
    c: Core, g: string, node: NodeId, o: RetryOptions, objects: Objects<Payload<R>>, round: JoinRound<R>, head: U64)
    requires c.role == NotJoined && round.lookups != [] && round.connect == Done && round.follow == Done
    requires var look, key := round.lookups[0], EntryKey(g, head);
      && HeadFound(look.items) == HeadAt(head) && look.served != [] && look.served[0].fault == NoReadFault
      && key in look.served[0].objects && look.served[0].objects[key].Claim?
    ensures JoinRun(c, g, node, o, objects, [round]) == Attempt(c.(role := Follower), objects, Returned)
  {
    RoundDiscovers(o, g, round.lookups[0], head, 0);
    DiscoveryDecides(o, g, 0, round.lookups, 0);
  }

  lemma LaterRoundFollows<R>(g: string, rounds: seq<JoinRound<R>>)
    requires rounds != []
    ensures SomeRoundFollows(g, rounds[1..]) ==> SomeRoundFollows(g, rounds)
  {
    if SomeRoundFollows(g, rounds[1..]) {
      var k :| 0 <= k < |rounds[1..]| && FollowsClaim(g, rounds[1..][k]);
      assert FollowsClaim(g, rounds[k + 1]);
    }
  }

  // ---------------------------------------------------------------- follower inputs

  datatype Body<B> = Replicate(request: Request<B>) | StateRequestOrFollow | OtherBody | NoBody
  datatype Input<B> = TimedOut | Received(correlationId: string, body: Body<B>) | ChannelClosed
  datatype Response = ReplicateResponse(correlationId: string, applyIndex: U64) | NotLeaderError(correlationId: string)

  datatype Node<B> = Node(core: Core, intake: Intake<B>)
  datatype Options = Options(maxMissedHeartbeats: U32, queueSize: nat)

  /** One turn of `follower_loop`. */
  function OnInput<B>(o: Options, n: Node<B>, i: Input<B>): Node<B> {
    match i
    case TimedOut =>
      var missed := Wrap32(n.core.missed + 1);
      n.(core := n.core.(missed := missed, role := if missed >= o.maxMissedHeartbeats then NotJoined else n.core.role))
    case Received(_, Replicate(r)) =>
      Node(n.core.(missed := 0), Offer(n.intake, o.queueSize, r))
    case _ => n
  }

  /** The answer to an input, given the node after it. */
  function Answer<B>(n: Node<B>, i: Input<B>): seq<Response> {
    match i
    case Received(id, Replicate(_)) => [ReplicateResponse(id, n.intake.last)]
    case Received(id, StateRequestOrFollow) => [NotLeaderError(id)]
    case _ => []
  }

  /** The node, its responses, how many inputs it handled, and whether the loop is over. */
  datatype FollowerOutcome<B> = FollowerOutcome(node: Node<B>, responses: seq<Response>, handled: nat, over: bool)

  /** The outcome of a loop that first gave these responses to this many inputs. */
  function After<B>(responses: seq<Response>, handled: nat, rest: FollowerOutcome<B>): FollowerOutcome<B> {
    rest.(responses := responses + rest.responses, handled := handled + rest.handled)
  }

  lemma AfterBoth<B>(a: seq<Response>, j: nat, b: seq<Response>, k: nat, rest: FollowerOutcome<B>)
    ensures After(a, j, After(b, k, rest)) == After(a + b, j + k, rest)
  {
    Associative(a, b, rest.responses);
  }

  /** `follower_loop` over a finite supply of inputs. */
  function FollowerRun<B>(o: Options, n: Node<B>, inputs: seq<Input<B>>): (r: FollowerOutcome<B>)
    ensures r.handled <= |inputs|
    decreases |inputs|
  {
    if inputs == [] then FollowerOutcome(n, [], 0, false)
    else if inputs[0].ChannelClosed? then FollowerOutcome(n, [], 0, true)
    else
      var n' := OnInput(o, n, inputs[0]);
      var answer := Answer(n', inputs[0]);
      if n'.core.role == NotJoined then FollowerOutcome(n', answer, 1, true)
      else After(answer, 1, FollowerRun(o, n', inputs[1..]))
  }

  lemma OfferKeepsOrder<B>(o: Options, n: Node<B>, i: Input<B>)
    requires InOrder(n.intake)
    ensures InOrder(OnInput(o, n, i).intake)
    ensures n.intake.Accepted() <= OnInput(o, n, i).intake.Accepted()
  {
    if i.Received? && i.body.Replicate? {
      StepAccepts(n.intake, o.queueSize, Arrive(i.body.request));
    }
  }

  /** The acknowledged indices lie between `lo` and `hi` and never decrease. */
  ghost predicate AcksClimb(responses: seq<Response>, lo: nat, hi: nat) {
    && (forall k :: 0 <= k < |responses| && responses[k].ReplicateResponse? ==> lo <= responses[k].applyIndex <= hi)
    && (forall j, k :: 0 <= j < k < |responses| && responses[j].ReplicateResponse? && responses[k].ReplicateResponse?
          ==> responses[j].applyIndex <= responses[k].applyIndex)
  }

  lemma AcksClimbOn(a: seq<Response>, b: seq<Response>, lo: nat, mid: nat, hi: nat)
    requires lo <= mid <= hi && AcksClimb(a, lo, mid) && AcksClimb(b, mid, hi)
    ensures AcksClimb(a + b, lo, hi)
  {
  }

  lemma AnswerClimbs<B>(o: Options, n: Node<B>, i: Input<B>)
    requires InOrder(n.intake)
    requires |OnInput(o, n, i).intake.Accepted()| <= U64_MAX
    ensures var n' := OnInput(o, n, i);
      AcksClimb(Answer(n', i), |n.intake.Accepted()|, |n'.intake.Accepted()|)
  {
  }

  /** Acknowledgements of a follower loop never decrease and never exceed what has been accepted
      at its end; what each of them says when it is sent is `EachAckIsTheCount`. */
  lemma {:induction false} AcknowledgementsAreHonest<B>(o: Options, n: Node<B>, inputs: seq<Input<B>>)
    requires InOrder(n.intake)
    requires |FollowerRun(o, n, inputs).node.intake.Accepted()| <= U64_MAX
    ensures var r := FollowerRun(o, n, inputs);
      && InOrder(r.node.intake)
      && n.intake.Accepted() <= r.node.intake.Accepted()
      && AcksClimb(r.responses, |n.intake.Accepted()|, |r.node.intake.Accepted()|)
    decreases |inputs|
  {
    if inputs != [] && !inputs[0].ChannelClosed? {
      var n' := OnInput(o, n, inputs[0]);
      OfferKeepsOrder(o, n, inputs[0]);
      if n'.core.role == NotJoined {
        AnswerClimbs(o, n, inputs[0]);
      } else {
        var rest := FollowerRun(o, n', inputs[1..]);
        AcknowledgementsAreHonest(o, n', inputs[1..]);
        AnswerClimbs(o, n, inputs[0]);
        AcksClimbOn(Answer(n', inputs[0]), rest.responses,
          |n.intake.Accepted()|, |n'.intake.Accepted()|, |rest.node.intake.Accepted()|);
      }
    }
  }

  lemma Associative<T>(a: seq<T>, b: seq<T>, c: seq<T>)
    ensures a + (b + c) == a + b + c
  {
  }

  /** A request that wants an answer: its correlation id, and whether it is to replicate. */
  datatype Question = Question(correlationId: string, replicate: bool)

  function Questions<B>(inputs: seq<Input<B>>): seq<Question>
    decreases |inputs|
  {
    if inputs == [] then []
    else
      (match inputs[0]
       case Received(id, Replicate(_)) => [Question(id, true)]
       case Received(id, StateRequestOrFollow) => [Question(id, false)]
       case _ => [])
      + Questions(inputs[1..])
  }

  function Answered(responses: seq<Response>): seq<Question> {
    seq(|responses|, k requires 0 <= k < |responses| =>
      Question(responses[k].correlationId, responses[k].ReplicateResponse?))
  }

  lemma AnsweredBoth(a: seq<Response>, b: seq<Response>)
    ensures Answered(a + b) == Answered(a) + Answered(b)
  {
  }

  lemma OneAnswered<B>(n: Node<B>, inputs: seq<Input<B>>)
    requires inputs != []
    ensures Questions(inputs) == Answered(Answer(n, inputs[0])) + Questions(inputs[1..])
  {
    match inputs[0] {
      case Received(id, Replicate(_)) => assert Answered(Answer(n, inputs[0])) == [Question(id, true)];
      case Received(id, StateRequestOrFollow) => assert Answered(Answer(n, inputs[0])) == [Question(id, false)];
      case _ => assert Answered(Answer(n, inputs[0])) == [];
    }
  }

  /** A follower loop answers each request it handles exactly once, in order and under its own
      correlation id: replicate requests with an acknowledgement, requests for the leader with an
      error, and nothing else at all. */
  lemma {:induction false} EachRequestIsAnswered<B>(o: Options, n: Node<B>, inputs: seq<Input<B>>)
    ensures var r := FollowerRun(o, n, inputs); Answered(r.responses) == Questions(inputs[..r.handled])
    decreases |inputs|
  {
    if inputs != [] && !inputs[0].ChannelClosed? {
      var n', k := OnInput(o, n, inputs[0]), FollowerRun(o, n, inputs).handled;
      OneAnswered(n', inputs[..k]);
      if n'.core.role == NotJoined {
        assert inputs[..k][1..] == [];
      } else {
        EachRequestIsAnswered(o, n', inputs[1..]);
        assert inputs[..k][1..] == inputs[1..][..k - 1];
        AnsweredBoth(Answer(n', inputs[0]), FollowerRun(o, n', inputs[1..]).responses);
      }
    }
  }

  /** When the loop of a follower is over, exactly: it has lost its role, on a timeout, or it met a
      closed channel. Until then it handles every input. */
  lemma {:induction false} FollowerOverExactly<B>(o: Options, n: Node<B>, inputs: seq<Input<B>>)
    requires n.core.role == Follower
    ensures var r := FollowerRun(o, n, inputs);
      var closed := r.handled < |inputs| && inputs[r.handled].ChannelClosed?;
      && r.node.core.role in {Follower, NotJoined}
      && (r.over <==> r.node.core.role == NotJoined || closed)
      && (!r.over ==> r.handled == |inputs|)
      && (r.node.core.role == NotJoined ==> r.handled > 0 && inputs[r.handled - 1].TimedOut?)
      && (forall k :: 0 <= k < r.handled ==> !inputs[k].ChannelClosed?)
    decreases |inputs|
  {
    if inputs != [] && !inputs[0].ChannelClosed? {
      var n' := OnInput(o, n, inputs[0]);
      if n'.core.role == Follower {
        FollowerOverExactly(o, n', inputs[1..]);
      }
    }
  }

  /** One more input of a loop that is not over. */
  lemma {:induction false} FollowerRunOneMore<B>(o: Options, n: Node<B>, inputs: seq<Input<B>>, i: Input<B>)
    requires !FollowerRun(o, n, inputs).over && !i.ChannelClosed?
    ensures var before, after := FollowerRun(o, n, inputs), FollowerRun(o, n, inputs + [i]);
      && after.node == OnInput(o, before.node, i)
      && after.responses == before.responses + Answer(after.node, i)
    decreases |inputs|
  {
    if inputs == [] {
      assert [i][1..] == [];
    } else {
      var n', rest := OnInput(o, n, inputs[0]), inputs[1..];
      FollowerRunOneMore(o, n', rest, i);
      assert (inputs + [i])[1..] == rest + [i];
      Associative(Answer(n', inputs[0]), FollowerRun(o, n', rest).responses, Answer(FollowerRun(o, n', rest + [i]).node, i));
    }
  }

  lemma {:induction false} FollowerRunKeepsOrder<B>(o: Options, n: Node<B>, inputs: seq<Input<B>>)
    requires InOrder(n.intake)
    ensures InOrder(FollowerRun(o, n, inputs).node.intake)
    decreases |inputs|
  {
    if inputs != [] && !inputs[0].ChannelClosed? {
      OfferKeepsOrder(o, n, inputs[0]);
      FollowerRunKeepsOrder(o, OnInput(o, n, inputs[0]), inputs[1..]);
    }
  }

  /** Every replicate request a follower loop handles is acknowledged with exactly the number of
      requests accepted at that moment, itself included if it was accepted (modulo 2^64). */
  lemma EachAckIsTheCount<B>(o: Options, n: Node<B>, inputs: seq<Input<B>>, id: string, r: Request<B>)
    requires InOrder(n.intake) && !FollowerRun(o, n, inputs).over
    ensures var before, after := FollowerRun(o, n, inputs), FollowerRun(o, n, inputs + [Received(id, Replicate(r))]);
      after.responses == before.responses + [ReplicateResponse(id, Wrap64(|after.node.intake.Accepted()|))]
  {
    FollowerRunOneMore(o, n, inputs, Received(id, Replicate(r)));
    FollowerRunKeepsOrder(o, n, inputs + [Received(id, Replicate(r))]);
  }

  // ---------------------------------------------------------------- whole lives of a node

  /** What can happen to a node between its creation and its end: follower inputs, the acceptance
      of its `Follow` in `join`, an answer to its leadership claim, and pops from its queue. */
  datatype Event<B> = InputArrives(input: Input<B>) | FollowAccepted | ClaimAnswered(reply: PutReply) | QueuePopped

  predicate Heard<B>(n: Node<B>, e: Event<B>) {
    n.core.role == Follower && e.InputArrives?
  }

  function Step<B>(o: Options, n: Node<B>, e: Event<B>): Node<B> {
    match e
    case InputArrives(i) => if n.core.role == Follower then OnInput(o, n, i) else n
    case FollowAccepted => if n.core.role == NotJoined then n.(core := n.core.(role := Follower)) else n
    case ClaimAnswered(reply) =>
      if n.core.role == NotJoined
      then n.(core := OnClaimReply(n.core, ClaimIndex(n.core), ClaimEpoch(n.core), reply)) else n
    case QueuePopped => n.(intake := AfterPop(n.intake))
  }

  function Life<B>(o: Options, events: seq<Event<B>>): Node<B> {
    if events == [] then Node(FRESH, EmptyIntake())
    else Step(o, Life(o, events[..|events| - 1]), events[|events| - 1])
  }

  /** The inputs the node has handled as a follower, across all joins and rejoins. */
  function HeardInputs<B>(o: Options, events: seq<Event<B>>): seq<Input<B>> {
    if events == [] then []
    else
      var front, e := events[..|events| - 1], events[|events| - 1];
      HeardInputs(o, front) + if Heard(Life(o, front), e) then [e.input] else []
  }

  function TimeoutsSinceReplicate<B>(inputs: seq<Input<B>>): nat {
    if inputs == [] then 0
    else
      match inputs[|inputs| - 1]
      case TimedOut => TimeoutsSinceReplicate(inputs[..|inputs| - 1]) + 1
      case Received(_, Replicate(_)) => 0
      case _ => TimeoutsSinceReplicate(inputs[..|inputs| - 1])
  }

  lemma InputCounts<B>(o: Options, n: Node<B>, i: Input<B>, h: seq<Input<B>>)
    requires n.core.missed == Wrap32(TimeoutsSinceReplicate(h))
    ensures OnInput(o, n, i).core.missed == Wrap32(TimeoutsSinceReplicate(h + [i]))
  {
    assert (h + [i])[..|h|] == h && (h + [i])[|h|] == i;
    WrapNext32(TimeoutsSinceReplicate(h));
  }

  /** `missed_heartbeats` counts the timeouts since the last replicate request over the whole life
      of the node, across all joins and rejoins. */
  lemma {:induction false} MissedHeartbeats<B>(o: Options, events: seq<Event<B>>)
    ensures Life(o, events).core.missed == Wrap32(TimeoutsSinceReplicate(HeardInputs(o, events)))
  {
    if events != [] {
      var front, e := events[..|events| - 1], events[|events| - 1];
      MissedHeartbeats(o, front);
      var n, h := Life(o, front), HeardInputs(o, front);
      if Heard(n, e) {
        InputCounts(o, n, e.input, h);
      } else {
        assert h + [] == h;
        assert Step(o, n, e).core.missed == n.core.missed;
      }
    }
  }

  /** Over the whole life of a node its epoch equals its commit index, and what its queue has
      accepted stays in commit order, however often it rejoins. */
  lemma {:induction false} LifeInvariant<B>(o: Options, events: seq<Event<B>>)
    ensures Life(o, events).core.epoch == Life(o, events).core.commitIndex
    ensures InOrder(Life(o, events).intake)
  {
    if events != [] {
      var n, e := Life(o, events[..|events| - 1]), events[|events| - 1];
      LifeInvariant(o, events[..|events| - 1]);
      assert Step(o, n, e).core.epoch == Step(o, n, e).core.commitIndex;
      PopKeepsAccepted(n.intake);
      if Heard(n, e) {
        OfferKeepsOrder(o, n, e.input);
      }
    }
  }

  /** The same over the whole life of a node, across pops and rejoins: a replicate request that
      reaches a follower is acknowledged with the number of requests accepted so far. */
  lemma AckIsTheCount<B>(o: Options, events: seq<Event<B>>, id: string, r: Request<B>)
    requires Life(o, events).core.role == Follower
    ensures var input := Received(id, Replicate(r));
      var n := Life(o, events + [InputArrives(input)]);
      Answer(n, input) == [ReplicateResponse(id, Wrap64(|n.intake.Accepted()|))]
  {
    LifeInvariant(o, events + [InputArrives(Received(id, Replicate(r)))]);
  }

  /** A follower leaves its role exactly on a timeout that brings the count to the maximum, and
      then always to rejoin. */
  lemma LeavingFollower<B>(o: Options, events: seq<Event<B>>, e: Event<B>)
    requires Life(o, events).core.role == Follower
    ensures var role' := Life(o, events + [e]).core.role;
      && (role' != Follower <==>
            && e == InputArrives(TimedOut)
            && Wrap32(TimeoutsSinceReplicate(HeardInputs(o, events)) + 1) >= o.maxMissedHeartbeats)
      && (role' == Follower || role' == NotJoined)
  {
    OneMore(o, events, e);
    MissedHeartbeats(o, events);
    WrapNext32(TimeoutsSinceReplicate(HeardInputs(o, events)));
  }

  /** How a node leaves NOT_JOINED, exactly: to FOLLOWER when its `Follow` is accepted, to LEADER when
      its claim is stored, to STOPPED when its claim fails for good, and in no other way. */
  lemma LeavingNotJoined<B>(o: Options, events: seq<Event<B>>, e: Event<B>)
    requires Life(o, events).core.role == NotJoined
    ensures var role' := Life(o, events + [e]).core.role;
      && (role' == Follower <==> e == FollowAccepted)
      && (role' == Leader <==> e == ClaimAnswered(Ok))
      && (role' == Stopped <==> e.ClaimAnswered? && e.reply.Failed? && !e.reply.failure.Transient())
  {
    OneMore(o, events, e);
  }

  /** Pops take the accepted requests from the front over the whole life of a node, whatever its
      role, and change nothing else. */
  lemma PopsInLife<B>(o: Options, events: seq<Event<B>>)
    ensures var n, n' := Life(o, events), Life(o, events + [QueuePopped]);
      && n'.core == n.core && n'.intake.Accepted() == n.intake.Accepted()
      && |n'.intake.popped| == Min(|n.intake.popped| + 1, |n.intake.Accepted()|)
  {
    OneMore(o, events, QueuePopped);
    PopKeepsAccepted(Life(o, events).intake);
  }

  lemma OneMore<B>(o: Options, events: seq<Event<B>>, e: Event<B>)
    ensures Life(o, events + [e]) == Step(o, Life(o, events), e)
  {
  }

  lemma DroppedAgain<B>(o: Options, n: Node<B>)
    requires n.core.role == Follower && n.core.missed + 2 <= U32_MAX
    requires OnInput(o, n, TimedOut).core.role == NotJoined
    ensures var rejoined := Step(o, OnInput(o, n, TimedOut), FollowAccepted);
      rejoined.core.role == Follower && OnInput(o, rejoined, TimedOut).core.role == NotJoined
  {
  }

  /** The count survives a rejoin: a follower that was dropped and rejoins is dropped again by its
      very first timeout. */
  lemma RejoinedFollowerIsDroppedAtOnce<B>(o: Options, events: seq<Event<B>>)
    requires Life(o, events).core.role == Follower
    requires TimeoutsSinceReplicate(HeardInputs(o, events)) + 2 <= U32_MAX
    requires Life(o, events + [InputArrives(TimedOut)]).core.role == NotJoined
    ensures Life(o, events + [InputArrives(TimedOut)] + [FollowAccepted]).core.role == Follower
    ensures Life(o, events + [InputArrives(TimedOut)] + [FollowAccepted] + [InputArrives(TimedOut)]).core.role == NotJoined
  {
    var once := events + [InputArrives(TimedOut)];
    var again := once + [FollowAccepted];
    OneMore(o, events, InputArrives(TimedOut));
    OneMore(o, once, FollowAccepted);
    OneMore(o, again, InputArrives(TimedOut));
    assert Life(o, events).core.missed + 2 <= U32_MAX by {
      MissedHeartbeats(o, events);
    }
    DroppedAgain(o, Life(o, events));
  }

  /** LEADER and STOPPED are never left. */
  lemma {:induction false} TerminalRoles<B>(o: Options, events: seq<Event<B>>, more: seq<Event<B>>)
    requires Life(o, events).core.role in {Leader, Stopped}
    ensures Life(o, events + more).core == Life(o, events).core
  {
    if more == [] {
      assert events + more == events;
    } else {
      var front := more[..|more| - 1];
      TerminalRoles(o, events, front);
      assert (events + more)[..|events + more| - 1] == events + front;
    }
  }

  // ---------------------------------------------------------------- start

  /** What one turn of `start` meets, should it join or follow. */
  datatype Stage<R, B> = Stage(rounds: seq<JoinRound<R>>, inputs: seq<Input<B>>)

  /** Where the node and the store stand, what was answered, and which inputs were handled. */
  datatype Started<R, B> = Started(
    node: Node<B>, objects: Objects<Payload<R>>, responses: seq<Response>, heard: seq<Input<B>>, ending: Ending)

  /** One turn of `start`: the loop the role calls for. The leader's loop touches none of these. */
  function StageRun<R, B>(
    o: Options, g: string, id: NodeId, retry: RetryOptions, n: Node<B>, objects: Objects<Payload<R>>,
    stage: Stage<R, B>): Started<R, B>
  {
    match n.core.role
    case NotJoined =>
      var a := JoinRun(n.core, g, id, retry, objects, stage.rounds);
      Started(n.(core := a.core), a.objects, [], [], a.ending)
    case Follower =>
      var f := FollowerRun(o, n, stage.inputs);
      Started(f.node, objects, f.responses, stage.inputs[..f.handled], if f.over then Returned else Waiting)
    case _ => Started(n, objects, [], [], Returned)
  }

  function Resumed<R, B>(responses: seq<Response>, heard: seq<Input<B>>, rest: Started<R, B>): Started<R, B> {
    rest.(responses := responses + rest.responses, heard := heard + rest.heard)
  }

  lemma ResumedBoth<R, B>(
    a: seq<Response>, h: seq<Input<B>>, b: seq<Response>, i: seq<Input<B>>, rest: Started<R, B>)
    ensures Resumed(a, h, Resumed(b, i, rest)) == Resumed(a + b, h + i, rest)
  {
    Associative(a, b, rest.responses);
    Associative(h, i, rest.heard);
  }

  /** `start` over a finite supply of stages, until the node is stopped. */
  function StartRun<R, B>(
    o: Options, g: string, id: NodeId, retry: RetryOptions, n: Node<B>, objects: Objects<Payload<R>>,
    stages: seq<Stage<R, B>>): Started<R, B>
    decreases |stages|
  {
    if n.core.role == Stopped then Started(n, objects, [], [], Returned)
    else if stages == [] then Started(n, objects, [], [], Waiting)
    else
      var one := StageRun(o, g, id, retry, n, objects, stages[0]);
      if one.ending == Returned
      then Resumed(one.responses, one.heard, StartRun(o, g, id, retry, one.node, one.objects, stages[1..]))
      else one
  }

  lemma NothingMore<B>(o: Options, past: seq<Event<B>>)
    ensures Life(o, past + []) == Life(o, past) && HeardInputs(o, past + []) == HeardInputs(o, past)
  {
    assert past + [] == past;
  }

  lemma JoinedCore<R>(
    c: Core, g: string, id: NodeId, retry: RetryOptions, objects: Objects<Payload<R>>, rounds: seq<JoinRound<R>>)
    requires c.role == NotJoined
    ensures var c' := JoinRun(c, g, id, retry, objects, rounds).core;
      c' == if c'.role == Leader then OnClaimReply(c, ClaimIndex(c), ClaimEpoch(c), Ok) else c.(role := c'.role)
  {
    JoinMeaning(c, g, id, retry, objects, rounds);
  }

  lemma OutcomeIsLife<B>(o: Options, past: seq<Event<B>>, c': Core) returns (events: seq<Event<B>>)
    requires Life(o, past).core.role == NotJoined
    requires var c := Life(o, past).core;
      c' == if c'.role == Leader then OnClaimReply(c, ClaimIndex(c), ClaimEpoch(c), Ok) else c.(role := c'.role)
    ensures Life(o, past + events) == Life(o, past).(core := c')
    ensures HeardInputs(o, past + events) == HeardInputs(o, past)
  {
    match c'.role
    case NotJoined => events := []; NothingMore(o, past);
    case Follower => events := [FollowAccepted]; NotHeard(o, past, FollowAccepted);
    case Leader => events := [ClaimAnswered(Ok)]; NotHeard(o, past, ClaimAnswered(Ok));
    case Stopped => events := [ClaimAnswered(Failed(Fatal))]; NotHeard(o, past, ClaimAnswered(Failed(Fatal)));
  }

  lemma JoinIsLife<R, B>(
    o: Options, past: seq<Event<B>>, g: string, id: NodeId, retry: RetryOptions, objects: Objects<Payload<R>>,
    rounds: seq<JoinRound<R>>) returns (events: seq<Event<B>>)
    requires Life(o, past).core.role == NotJoined
    ensures Life(o, past + events)
         == Life(o, past).(core := JoinRun(Life(o, past).core, g, id, retry, objects, rounds).core)
    ensures HeardInputs(o, past + events) == HeardInputs(o, past)
  {
    var c := Life(o, past).core;
    JoinedCore(c, g, id, retry, objects, rounds);
    events := OutcomeIsLife(o, past, JoinRun(c, g, id, retry, objects, rounds).core);
  }

  lemma NotHeard<B>(o: Options, past: seq<Event<B>>, e: Event<B>)
    requires !e.InputArrives?
    ensures Life(o, past + [e]) == Step(o, Life(o, past), e)
    ensures HeardInputs(o, past + [e]) == HeardInputs(o, past)
  {
    OneMore(o, past, e);
  }

  /** Two spells of a life, one after the other. */
  lemma Chained<B>(
    o: Options, past: seq<Event<B>>, a: seq<Event<B>>, b: seq<Event<B>>, h: seq<Input<B>>, i: seq<Input<B>>)
    requires HeardInputs(o, past + a) == HeardInputs(o, past) + h
    requires HeardInputs(o, past + a + b) == HeardInputs(o, past + a) + i
    ensures Life(o, past + (a + b)) == Life(o, past + a + b)
    ensures HeardInputs(o, past + (a + b)) == HeardInputs(o, past) + (h + i)
  {
    Associative(past, a, b);
    Associative(HeardInputs(o, past), h, i);
  }

  lemma OneHeard<B>(o: Options, past: seq<Event<B>>, i: Input<B>)
    requires Life(o, past).core.role == Follower
    ensures Life(o, past + [InputArrives(i)]) == OnInput(o, Life(o, past), i)
    ensures HeardInputs(o, past + [InputArrives(i)]) == HeardInputs(o, past) + [i]
  {
    OneMore(o, past, InputArrives(i));
  }

  lemma FirstOf<T>(s: seq<T>, k: nat)
    requires k < |s|
    ensures [s[0]] + s[1..][..k] == s[..k + 1]
  {
  }

  lemma {:induction false} FollowerIsLife<B>(o: Options, past: seq<Event<B>>, inputs: seq<Input<B>>)
    returns (events: seq<Event<B>>)
    requires Life(o, past).core.role == Follower
    ensures var f := FollowerRun(o, Life(o, past), inputs);
      && Life(o, past + events) == f.node
      && HeardInputs(o, past + events) == HeardInputs(o, past) + inputs[..f.handled]
    decreases |inputs|
  {
    if inputs == [] || inputs[0].ChannelClosed? {
      events := [];
      NothingMore(o, past);
    } else {
      events := [InputArrives(inputs[0])];
      OneHeard(o, past, inputs[0]);
      var n' := Life(o, past + events);
      assert n'.core.role in {Follower, NotJoined};
      if n'.core.role == Follower {
        var more := FollowerIsLife(o, past + events, inputs[1..]);
        var k := FollowerRun(o, n', inputs[1..]).handled;
        Chained(o, past, events, more, [inputs[0]], inputs[1..][..k]);
        FirstOf(inputs, k);
        events := events + more;
      }
    }
  }

  lemma StageIsLife<R, B>(
    o: Options, past: seq<Event<B>>, g: string, id: NodeId, retry: RetryOptions, objects: Objects<Payload<R>>,
    stage: Stage<R, B>) returns (events: seq<Event<B>>)
    ensures var r := StageRun(o, g, id, retry, Life(o, past), objects, stage);
      && Life(o, past + events) == r.node
      && HeardInputs(o, past + events) == HeardInputs(o, past) + r.heard
  {
    match Life(o, past).core.role
    case NotJoined => events := JoinIsLife(o, past, g, id, retry, objects, stage.rounds);
    case Follower => events := FollowerIsLife(o, past, stage.inputs);
    case _ => events := []; NothingMore(o, past);
  }

  /** Whatever `start` does is a life of the node, in which it hears exactly the inputs its
      follower loops handle: all that is proved of lives holds of the running program. */
  lemma {:induction false} StartIsLife<R, B>(
    o: Options, past: seq<Event<B>>, g: string, id: NodeId, retry: RetryOptions, objects: Objects<Payload<R>>,
    stages: seq<Stage<R, B>>) returns (events: seq<Event<B>>)
    ensures var r := StartRun(o, g, id, retry, Life(o, past), objects, stages);
      && Life(o, past + events) == r.node
      && HeardInputs(o, past + events) == HeardInputs(o, past) + r.heard
    decreases |stages|
  {
    if Life(o, past).core.role == Stopped || stages == [] {
      events := [];
      NothingMore(o, past);
    } else {
      events := StageIsLife(o, past, g, id, retry, objects, stages[0]);
      var one := StageRun(o, g, id, retry, Life(o, past), objects, stages[0]);
      if one.ending == Returned {
        var more := StartIsLife(o, past + events, g, id, retry, one.objects, stages[1..]);
        Chained(o, past, events, more, one.heard, StartRun(o, g, id, retry, one.node, one.objects, stages[1..]).heard);
        events := events + more;
      }
    }
  }

  /** `start` returns exactly when the node is stopped. */
  lemma {:induction false} StartReturnsExactly<R, B>(
    o: Options, g: string, id: NodeId, retry: RetryOptions, n: Node<B>, objects: Objects<Payload<R>>, stages: seq<Stage<R, B>>)
    ensures var r := StartRun(o, g, id, retry, n, objects, stages);
      r.ending == Returned <==> r.node.core.role == Stopped
    decreases |stages|
  {
    if n.core.role != Stopped && stages != [] {
      var one := StageRun(o, g, id, retry, n, objects, stages[0]);
      if one.ending == Returned {
        StartReturnsExactly(o, g, id, retry, one.node, one.objects, stages[1..]);
      } else if n.core.role == NotJoined {
        JoinWaits(n.core, g, id, retry, objects, stages[0].rounds);
      } else if n.core.role == Follower {
        FollowerOverExactly(o, n, stages[0].inputs);
      }
    }
  }

  lemma {:induction false} JoinWaits<R>(
    c: Core, g: string, node: NodeId, o: RetryOptions, objects: Objects<Payload<R>>, rounds: seq<JoinRound<R>>)
    requires c.role == NotJoined
    ensures var a := JoinRun(c, g, node, o, objects, rounds); a.ending == Returned || a.core == c
    decreases |rounds|
  {
    if rounds != [] {
      match TurnOf(o, g, rounds[0])
      case TriesAgain => JoinWaits(c, g, node, o, objects, rounds[1..]);
      case AttemptsLeadership =>
        AttemptMeaning(c, g, node, o, objects, rounds[0].env);
        var a := AttemptRun(c, g, node, o, objects, rounds[0].env);
        AttemptWaits(c, g, node, o, objects, rounds[0].env);
        if a.core == c {
          JoinWaits(c, g, node, o, a.objects, rounds[1..]);
        }
      case _ =>
    }
  }

  lemma {:induction false} AttemptWaits<R>(
    c: Core, g: string, node: NodeId, o: RetryOptions, objects: Objects<Payload<R>>, env: seq<seq<PutEvent<Payload<R>>>>)
    requires c.role == NotJoined
    ensures var a := AttemptRun(c, g, node, o, objects, env);
      a.ending == Returned || (a.ending == Waiting && a.core == c)
    decreases |env|
  {
    if env != [] {
      var r := AppendRun(objects, EntryKey(g, ClaimIndex(c)), ClaimOf(c, node), o, 0, env[0]);
      AttemptWaits(c, g, node, o, r.objects, env[1..]);
    }
  }

  /** A node started on an empty log, with a put that succeeds at a free index, leads and stays so,
      with its own claim stored. */
  lemma StartLeads<R, B>(
    o: Options, g: string, id: NodeId, retry: RetryOptions, n: Node<B>, objects: Objects<Payload<R>>,
    round: JoinRound<R>, inputs: seq<Input<B>>, more: seq<Stage<R, B>>)
    requires n.core.role == NotJoined && round.lookups != [] && AllSkipped(round.lookups[0].items)
    requires AtLastPut(n.core, g, id, retry, objects, round.env) && LastFault(n.core, g, id, retry, objects, round.env).NoFault?
    requires !Taken(EntryKey(g, ClaimIndex(n.core)), objects, round.env)
    ensures var r := StartRun(o, g, id, retry, n, objects, [Stage([round], inputs)] + more);
      var key := EntryKey(g, ClaimIndex(n.core));
      r.node.core.role == Leader && key in r.objects && r.objects[key] == ClaimOf(n.core, id)
  {
    var c := n.core;
    JoinLeads(c, g, id, retry, objects, round);
    JoinMeaning(c, g, id, retry, objects, [round]);
    var a := JoinRun(c, g, id, retry, objects, [round]);
    assert ([Stage([round], inputs)] + more)[1..] == more;
    LeaderStays(o, g, id, retry, n.(core := a.core), a.objects, more);
  }

  lemma {:induction false} LeaderStays<R, B>(
    o: Options, g: string, id: NodeId, retry: RetryOptions, n: Node<B>, objects: Objects<Payload<R>>, stages: seq<Stage<R, B>>)
    requires n.core.role == Leader
    ensures StartRun(o, g, id, retry, n, objects, stages) == Started(n, objects, [], [], Waiting)
    decreases |stages|
  {
    if stages != [] {
      LeaderStays(o, g, id, retry, n, objects, stages[1..]);
    }
  }

  /** A node that joins as a follower hears and answers its inputs as one. */
  lemma StartFollows<R, B>(
    o: Options, g: string, id: NodeId, retry: RetryOptions, n: Node<B>, objects: Objects<Payload<R>>,
    rounds: seq<JoinRound<R>>, inputs: seq<Input<B>>)
    requires n.core.role == NotJoined
    requires JoinRun(n.core, g, id, retry, objects, rounds) == Attempt(n.core.(role := Follower), objects, Returned)
    ensures var r := StartRun(o, g, id, retry, n, objects, [Stage(rounds, []), Stage([], inputs)]);
      var f := FollowerRun(o, n.(core := n.core.(role := Follower)), inputs);
      r.node == f.node && r.responses == f.responses && r.heard == inputs[..f.handled]
  {
    var stages := [Stage(rounds, []), Stage([], inputs)];
    var n' := n.(core := n.core.(role := Follower));
    assert stages[1..] == [Stage([], inputs)] && stages[1..][1..] == [];
    assert stages[0].rounds == rounds && stages[1..][0].inputs == inputs;
    var f := FollowerRun(o, n', inputs);
    FollowerOverExactly(o, n', inputs);
    assert StageRun(o, g, id, retry, n, objects, stages[0]) == Started(n', objects, [], [], Returned);
    assert StartRun(o, g, id, retry, f.node, objects, stages[1..][1..]) == Started(f.node, objects, [], [], Waiting);
  }

  lemma FromTheStart<B>(o: Options, heard: seq<Input<B>>)
    ensures Life<B>(o, []) == Node(FRESH, EmptyIntake()) && HeardInputs(o, []) + heard == heard
  {
  }

  /** So for a new node, whatever its environment does: it has missed as many heartbeats as it met
      timeouts since the last replicate request, its epoch is its commit index, and its queue is
      in commit order. */
  lemma StartedNode<R, B>(
    o: Options, g: string, id: NodeId, retry: RetryOptions, objects: Objects<Payload<R>>, stages: seq<Stage<R, B>>)
    ensures var r := StartRun(o, g, id, retry, Node(FRESH, EmptyIntake()), objects, stages);
      && r.node.core.missed == Wrap32(TimeoutsSinceReplicate(r.heard))
      && r.node.core.epoch == r.node.core.commitIndex
      && InOrder(r.node.intake)
  {
    var none: seq<Event<B>> := [];
    var events := StartIsLife(o, none, g, id, retry, objects, stages);
    MissedHeartbeats(o, none + events);
    LifeInvariant(o, none + events);
    FromTheStart(o, StartRun(o, g, id, retry, Life(o, none), objects, stages).heard);
  }

  // ---------------------------------------------------------------- the object

  class FSM<R, B> {
    var state: Role
    var commitIndex: U64
    var epoch: U64
    var missedHeartbeats: U32
    const syncQueue: ReplicateQueue<B>
    const s2cLog: S2cLog<Payload<R>>
    const nodeIdentity: NodeId
    const maxMissedHeartbeats: U32

    ghost function View(): Core reads this {
      Core(state, commitIndex, epoch, missedHeartbeats)
    }

    ghost function NodeView(): Node<B> reads this, syncQueue {
      Node(View(), syncQueue.View())
    }

    ghost function OptionsView(): Options {
      Options(maxMissedHeartbeats, syncQueue.size)
    }

    constructor (log: S2cLog<Payload<R>>, id: NodeId, maxMissed: U32, queueSize: nat)
      ensures View() == FRESH && syncQueue.View() == EmptyIntake() && fresh(syncQueue)
      ensures s2cLog == log && nodeIdentity == id && OptionsView() == Options(maxMissed, queueSize)
    {
      state, commitIndex, epoch, missedHeartbeats := NotJoined, 0, 0, 0;
      s2cLog, nodeIdentity, maxMissedHeartbeats := log, id, maxMissed;
      syncQueue := new ReplicateQueue(queueSize);
    }

    /** `discover_leader_state` over a finite supply of rounds. */
    method DiscoverLeaderState(rounds: seq<Round<Payload<R>>>, jitter: Jitter)
      returns (result: Discovery<Payload<R>>, listed: nat, gets: nat)
      ensures Discovering(result, listed, gets) == DiscoverRun(s2cLog.retry, s2cLog.group, 0, rounds)
    {
      var backoff := new BackoffCounter(s2cLog.retry);
      listed, gets := 0, 0;
      while listed < |rounds|
        invariant listed <= |rounds|
        invariant backoff.Valid() && fresh(backoff) && backoff.options == s2cLog.retry
        invariant var rest := DiscoverRun(s2cLog.retry, s2cLog.group, backoff.currentAttempt, rounds[listed..]);
          DiscoverRun(s2cLog.retry, s2cLog.group, 0, rounds) == Discovering(rest.result, listed + rest.listed, gets + rest.gets)
      {
        var round := rounds[listed];
        assert rounds[listed..][0] == round && rounds[listed..][1..] == rounds[listed + 1..];
        var n;
        result, n := DiscoverOnce(round, jitter);
        listed, gets := listed + 1, gets + n;
        var can := backoff.CanAttempt();
        if result.DiscoveryFailed? && result.failure.Transient() && can {
          var _ := backoff.AwaitAttempt(jitter);
        } else {
          return;
        }
      }
      result := Undecided;
    }

    /** One listing and, if it names a head, the `get_at` of that head. */
    method DiscoverOnce(round: Round<Payload<R>>, jitter: Jitter) returns (result: Discovery<Payload<R>>, gets: nat)
      ensures Discovering(result, 1, gets) == RoundRun(s2cLog.retry, s2cLog.group, round)
    {
      var head := s2cLog.GetHead(round.items, jitter);
      match head
      case NoHead =>
        return NoLeader, 0;
      case NotAnIndex(key) =>
        return DiscoveryPanics(key), 0;
      case HeadFailed(f) =>
        return DiscoveryFailed(f), 0;
      case HeadAt(number) =>
        var got, n := s2cLog.GetAt(number, round.served, jitter);
        match got {
          case Running(_) => result := Undecided;
          case Fetched(entry) => result := Discovered(number, entry);
          case GaveUp(f) => result := DiscoveryFailed(f);
        }
        gets := n;
    }

    /** `attempt_leadership`; see `AttemptRun` for the environment. */
    method AttemptLeadership(env: seq<seq<PutEvent<Payload<R>>>>) returns (ending: Ending)
      requires state == NotJoined
      modifies this, s2cLog.store
      ensures Attempt(View(), s2cLog.store.objects, ending)
           == AttemptRun(old(View()), s2cLog.group, nodeIdentity, s2cLog.retry, old(s2cLog.store.objects), env)
    {
      var index, claimEpoch := 1, 1;
      if commitIndex > 0 {
        index, claimEpoch := Wrap64(commitIndex + 1), Wrap64(epoch + 1);
      }
      var payload := Claim(LeaderState(index, claimEpoch, nodeIdentity));
      var r := 0;
      while r < |env|
        invariant r <= |env|
        invariant View() == old(View())
        invariant AttemptRun(old(View()), s2cLog.group, nodeIdentity, s2cLog.retry, old(s2cLog.store.objects), env)
               == AttemptRun(View(), s2cLog.group, nodeIdentity, s2cLog.retry, s2cLog.store.objects, env[r..])
      {
        assert env[r..][0] == env[r] && env[r..][1..] == env[r + 1..];
        var reply := s2cLog.Append(index, payload, env[r]);
        r := r + 1;
        match reply
        case None =>
          return Waiting;
        case Some(Ok) =>
          state, commitIndex, epoch := Leader, index, claimEpoch;
          return Returned;
        case Some(AlreadyExists) =>
          return Returned;
        case Some(Failed(f)) =>
          if !f.Transient() {
            state := Stopped;
            return Returned;
          }
      }
      return Waiting;
    }

    /** The body of the loop in `join` up to what it does to the node. */
    method Meet(round: JoinRound<R>, backoff: BackoffCounter) returns (turn: JoinTurn)
      requires backoff.Valid()
      modifies backoff
      ensures backoff.Valid() && turn == TurnOf(s2cLog.retry, s2cLog.group, round)
    {
      var discovery, _, _ := DiscoverLeaderState(round.lookups, round.jitter);
      match discovery
      case Discovered(_, Claim(_)) =>
        match round.connect {
          case Done =>
            match round.follow {
              case Done => return BecomesFollower;
              case WrongState => return TriesAgain;
              case ClientError => return AttemptsLeadership;
            }
          case WrongState => return Leaves;
          case ClientError => return AttemptsLeadership;
        }
      case Discovered(_, Flushed(_)) => return Panics;
      case NoLeader => return AttemptsLeadership;
      case DiscoveryFailed(f) =>
        if !f.Transient() {
          return Leaves;
        }
        var can := backoff.CanAttempt();
        if can {
          var _ := backoff.AwaitAttempt(round.jitter);
        } else {
          backoff.Reset();
        }
        return TriesAgain;
      case DiscoveryPanics(_) => return Panics;
      case Undecided => return StillDiscovering;
    }

    /** `join`; see `JoinRun` for the environment. */
    method Join(rounds: seq<JoinRound<R>>) returns (ending: Ending)
      requires state == NotJoined
      modifies this, s2cLog.store
      ensures Attempt(View(), s2cLog.store.objects, ending)
           == JoinRun(old(View()), s2cLog.group, nodeIdentity, s2cLog.retry, old(s2cLog.store.objects), rounds)
    {
      var backoff := new BackoffCounter(s2cLog.retry);
      var r := 0;
      while state == NotJoined && r < |rounds|
        invariant r <= |rounds|
        invariant backoff.Valid() && fresh(backoff)
        invariant JoinRun(old(View()), s2cLog.group, nodeIdentity, s2cLog.retry, old(s2cLog.store.objects), rounds)
               == JoinRun(View(), s2cLog.group, nodeIdentity, s2cLog.retry, s2cLog.store.objects, rounds[r..])
        decreases |rounds| - r
      {
        var round := rounds[r];
        assert rounds[r..][0] == round && rounds[r..][1..] == rounds[r + 1..];
        r := r + 1;
        var turn := Meet(round, backoff);
        match turn
        case BecomesFollower => state := Follower;
        case Leaves => return Returned;
        case Panics => return Panicked;
        case StillDiscovering => return Waiting;
        case TriesAgain =>
        case AttemptsLeadership =>
          ending := AttemptLeadership(round.env);
          if ending != Returned {
            return;
          }
      }
      ending := if state != NotJoined then Returned else Waiting;
    }

    /** What `follower_loop` does with one timeout or message. */
    method HandleInput(input: Input<B>) returns (answer: seq<Response>)
      modifies this`state, this`missedHeartbeats, syncQueue
      ensures NodeView() == OnInput(OptionsView(), old(NodeView()), input)
      ensures answer == Answer(NodeView(), input)
    {
      answer := [];
      match input
      case TimedOut =>
        missedHeartbeats := Wrap32(missedHeartbeats + 1);
        if missedHeartbeats >= maxMissedHeartbeats {
          state := NotJoined;
        }
      case Received(id, Replicate(request)) =>
        missedHeartbeats := 0;
        if request.commitIndex == Wrap64(syncQueue.lastReceivedIndex + 1) {
          syncQueue.Put(request);
        }
        answer := [ReplicateResponse(id, syncQueue.lastReceivedIndex)];
      case Received(id, StateRequestOrFollow) =>
        answer := [NotLeaderError(id)];
      case Received(_, _) =>
      case ChannelClosed =>
    }

    /** `follower_loop` over a finite supply of inputs. */
    method FollowerLoop(inputs: seq<Input<B>>) returns (responses: seq<Response>, handled: nat, over: bool)
      requires state == Follower
      modifies this`state, this`missedHeartbeats, syncQueue
      ensures FollowerOutcome(NodeView(), responses, handled, over) == FollowerRun(OptionsView(), old(NodeView()), inputs)
    {
      responses, handled := [], 0;
      while handled < |inputs|
        invariant handled <= |inputs|
        invariant FollowerRun(OptionsView(), old(NodeView()), inputs)
               == After(responses, handled, FollowerRun(OptionsView(), NodeView(), inputs[handled..]))
      {
        var input := inputs[handled];
        assert inputs[handled..][0] == input && inputs[handled..][1..] == inputs[handled + 1..];
        if input.ChannelClosed? {
          return responses, handled, true;
        }
        var answer := HandleInput(input);
        AfterBoth(responses, handled, answer, 1, FollowerRun(OptionsView(), NodeView(), inputs[handled + 1..]));
        responses, handled := responses + answer, handled + 1;
        if state == NotJoined {
          return responses, handled, true;
        }
      }
      over := false;
    }

    /** One turn of `start`. */
    method Turn(stage: Stage<R, B>) returns (responses: seq<Response>, heard: seq<Input<B>>, ending: Ending)
      modifies this, syncQueue, s2cLog.store
      ensures Started(NodeView(), s2cLog.store.objects, responses, heard, ending)
           == StageRun(OptionsView(), s2cLog.group, nodeIdentity, s2cLog.retry, old(NodeView()), old(s2cLog.store.objects), stage)
    {
      responses, heard, ending := [], [], Returned;
      match state
      case NotJoined =>
        ending := Join(stage.rounds);
      case Follower =>
        var answers, handled, over := FollowerLoop(stage.inputs);
        responses, heard, ending := answers, stage.inputs[..handled], if over then Returned else Waiting;
      case _ =>
    }

    /** `start` over a finite supply of stages. If the node was at some point of a life, it is now
        at a later point of one, having heard exactly what its follower loops handled. */
    method Start(stages: seq<Stage<R, B>>, ghost past: seq<Event<B>>)
      returns (responses: seq<Response>, heard: seq<Input<B>>, ending: Ending, ghost events: seq<Event<B>>)
      requires NodeView() == Life(OptionsView(), past)
      modifies this, syncQueue, s2cLog.store
      ensures Started(NodeView(), s2cLog.store.objects, responses, heard, ending)
           == StartRun(OptionsView(), s2cLog.group, nodeIdentity, s2cLog.retry, old(NodeView()), old(s2cLog.store.objects), stages)
      ensures NodeView() == Life(OptionsView(), past + events)
      ensures HeardInputs(OptionsView(), past + events) == HeardInputs(OptionsView(), past) + heard
    {
      events := StartIsLife(OptionsView(), past, s2cLog.group, nodeIdentity, s2cLog.retry, s2cLog.store.objects, stages);
      responses, heard := [], [];
      var k := 0;
      while state != Stopped && k < |stages|
        invariant k <= |stages|
        invariant StartRun(OptionsView(), s2cLog.group, nodeIdentity, s2cLog.retry, old(NodeView()), old(s2cLog.store.objects), stages)
          == Resumed(responses, heard,
               StartRun(OptionsView(), s2cLog.group, nodeIdentity, s2cLog.retry, NodeView(), s2cLog.store.objects, stages[k..]))
        decreases |stages| - k
      {
        assert stages[k..][0] == stages[k] && stages[k..][1..] == stages[k + 1..];
        var answers, inputs;
        answers, inputs, ending := Turn(stages[k]);
        k := k + 1;
        ResumedBoth(responses, heard, answers, inputs,
          StartRun(OptionsView(), s2cLog.group, nodeIdentity, s2cLog.retry, NodeView(), s2cLog.store.objects, stages[k..]));
        responses, heard := responses + answers, heard + inputs;
        if ending != Returned {
          return;
        }
      }
      ending := if state == Stopped then Returned else Waiting;
    }
  }
}
