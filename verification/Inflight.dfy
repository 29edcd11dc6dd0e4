/** The table of requests awaiting a response (src/network/inflight.rs) and its users in
    src/network/client.rs: `send_and_await_response` and `drain_in`. */
module Inflight {
  import opened Words

  datatype ServerError = SlowDown | OtherServerError
  datatype Message<B> = Message(correlationId: string, error: Option<ServerError>, body: B)
  datatype ClientError = ClientClosed | ReadError | ConnectTimeout | NotConnected | RequestTimeout

  /** How the one-shot receiver of a request was resolved. The last three drop its sender. */
  datatype Resolution<B> =
    | Responded(message: Message<B>)
    | FailedWith(error: ClientError)
    | Discarded
    | Replaced
    | Cleared

  /** Receivers are numbered in the order of their `add`; `ids[rx]` is the correlation id. */
  datatype Table<B> = Table(requests: map<string, nat>, ids: seq<string>, resolved: map<nat, Resolution<B>>)

  function EmptyTable<B>(): Table<B> {
    Table(map[], [], map[])
  }

  function Resolve<B>(t: Table<B>, id: string, r: Resolution<B>): Table<B> {
    if id in t.requests
    then t.(requests := t.requests - {id}, resolved := t.resolved[t.requests[id] := r])
    else t
  }

  function ResolveAll<B>(t: Table<B>, r: Resolution<B>): Table<B> {
    t.(requests := map[], resolved := t.resolved + map rx | rx in t.requests.Values :: r)
  }

  function AfterAdd<B>(t: Table<B>, id: string): Table<B> {
    var t' := Resolve(t, id, Replaced);
    t'.(requests := t'.requests[id := |t.ids|], ids := t.ids + [id])
  }

  class InflightRequests<B> {
    /** Each pending correlation id with the number of its sender. */
    var requests: map<string, nat>
    var next: nat
    ghost var ids: seq<string>
    ghost var resolved: map<nat, Resolution<B>>

    ghost function View(): Table<B> reads this {
      Table(requests, ids, resolved)
    }

    ghost predicate Valid() reads this {
      Inv(View()) && next == |ids|
    }

    constructor ()
      ensures Valid() && View() == EmptyTable()
    {
      requests, next, ids, resolved := map[], 0, [], map[];
    }

    method Add(id: string) returns (receiver: nat)
      requires Valid()
      modifies this
      ensures Valid() && View() == AfterAdd(old(View()), id)
      ensures receiver == |old(ids)| && Pending(View(), receiver) && ids == old(ids) + [id]
    {
      AddKeeps(View(), id);
      resolved := Resolve(View(), id, Replaced).resolved;
      requests := requests[id := next];
      assert requests == AfterAdd(old(View()), id).requests;
      ids := ids + [id];
      receiver := next;
      next := next + 1;
    }

    method Respond(message: Message<B>)
      requires Valid()
      modifies this
      ensures Valid() && View() == Resolve(old(View()), message.correlationId, Responded(message))
      ensures message.correlationId in old(requests) ==>
        && message.correlationId !in requests
        && resolved == old(resolved)[old(requests)[message.correlationId] := Responded(message)]
    {
      ResolveKeeps(View(), message.correlationId, Responded(message));
      if message.correlationId in requests {
        resolved := resolved[requests[message.correlationId] := Responded(message)];
        requests := requests - {message.correlationId};
      }
    }

    method Discard(id: string)
      requires Valid()
      modifies this
      ensures Valid() && View() == Resolve(old(View()), id, Discarded)
      ensures requests == old(requests) - {id}
    {
      ResolveKeeps(View(), id, Discarded);
      resolved := Resolve(View(), id, Discarded).resolved;
      requests := requests - {id};
      assert id !in old(requests) ==> requests == old(requests);
    }

    method FailAll(err: ClientError)
      requires Valid()
      modifies this
      ensures Valid() && View() == ResolveAll(old(View()), FailedWith(err))
      ensures requests == map[]
      ensures forall rx: nat :: old(Pending(View(), rx)) ==> rx in resolved && resolved[rx] == FailedWith(err)
    {
      ResolveAllKeeps(View(), FailedWith(err));
      resolved := ResolveAll(View(), FailedWith(err)).resolved;
      requests := map[];
    }

    method Clear()
      requires Valid()
      modifies this
      ensures Valid() && View() == ResolveAll(old(View()), Cleared)
      ensures requests == map[]
    {
      ResolveAllKeeps(View(), Cleared);
      resolved := ResolveAll(View(), Cleared).resolved;
      requests := map[];
    }

    /** `size`: adds minus resolutions. */
    method Size() returns (n: nat)
      requires Valid()
      ensures n == |requests| && n + |resolved| == |ids|
    {
      n := |requests|;
      Conservation(View());
    }
  }

  // ---------------------------------------------------------------- invariant

  ghost predicate Pending<B>(t: Table<B>, rx: nat) {
    rx < |t.ids| && t.ids[rx] in t.requests && t.requests[t.ids[rx]] == rx
  }

  /** Every receiver is pending or resolved, never both, and a response reaches only the receiver
      with its own correlation id. */
  ghost predicate Inv<B>(t: Table<B>) {
    && (forall id :: id in t.requests ==> t.requests[id] < |t.ids| && t.ids[t.requests[id]] == id)
    && (forall rx: nat :: rx in t.resolved ==> rx < |t.ids|)
    && (forall rx: nat :: rx < |t.ids| ==> (Pending(t, rx) <==> rx !in t.resolved))
    && (forall rx: nat :: rx in t.resolved && t.resolved[rx].Responded? ==>
          t.resolved[rx].message.correlationId == t.ids[rx])
  }

  /** A resolution, once there, never changes. */
  ghost predicate Keeps<B>(t: Table<B>, t': Table<B>) {
    && t.ids <= t'.ids
    && forall rx: nat :: rx in t.resolved ==> rx in t'.resolved && t'.resolved[rx] == t.resolved[rx]
  }

  lemma ResolveKeeps<B>(t: Table<B>, id: string, r: Resolution<B>)
    requires Inv(t) && (r.Responded? ==> r.message.correlationId == id)
    ensures Inv(Resolve(t, id, r)) && Keeps(t, Resolve(t, id, r))
  {
  }

  lemma ResolveAllKeeps<B>(t: Table<B>, r: Resolution<B>)
    requires Inv(t) && !r.Responded?
    ensures Inv(ResolveAll(t, r)) && Keeps(t, ResolveAll(t, r))
  {
  }

  lemma AddKeeps<B>(t: Table<B>, id: string)
    requires Inv(t)
    ensures Inv(AfterAdd(t, id)) && Keeps(t, AfterAdd(t, id))
  {
    ResolveKeeps(t, id, Replaced);
    var m, t' := Resolve(t, id, Replaced), AfterAdd(t, id);
    assert id !in m.requests;
    forall rx: nat | rx < |t'.ids| ensures Pending(t', rx) <==> rx !in t'.resolved {
      if rx < |t.ids| {
        assert Pending(m, rx) <==> rx !in m.resolved;
      }
    }
  }

  /** The receiver pending under an id is resolved as told and no longer pending; nothing happens to
      any other, and nothing at all if none is pending. */
  lemma OneIsResolved<B>(t: Table<B>, id: string, r: Resolution<B>, rx: nat)
    requires Inv(t) && rx < |t.ids|
    ensures var t' := Resolve(t, id, r);
      if Pending(t, rx) && t.ids[rx] == id
      then !Pending(t', rx) && rx in t'.resolved && t'.resolved[rx] == r
      else (Pending(t', rx) <==> Pending(t, rx)) && (rx in t'.resolved <==> rx in t.resolved)
  {
  }

  /** Every pending receiver is resolved as told, and none is left. */
  lemma AllAreResolved<B>(t: Table<B>, r: Resolution<B>, rx: nat)
    requires Inv(t)
    ensures var t' := ResolveAll(t, r);
      !Pending(t', rx) && (Pending(t, rx) ==> rx in t'.resolved && t'.resolved[rx] == r)
  {
  }

  /** A new receiver is pending under its id; the one pending under it before is dropped, and no
      other is touched. */
  lemma AddedIsPending<B>(t: Table<B>, id: string, rx: nat)
    requires Inv(t) && rx < |t.ids|
    ensures var t' := AfterAdd(t, id);
      && t'.ids == t.ids + [id] && Pending(t', |t.ids|)
      && (Pending(t, rx) && t.ids[rx] == id ==> rx in t'.resolved && t'.resolved[rx] == Replaced)
      && (t.ids[rx] != id ==> (Pending(t', rx) <==> Pending(t, rx)))
  {
    OneIsResolved(t, id, Replaced, rx);
  }

  // ---------------------------------------------------------------- conservation

  function Range(n: nat): set<nat> {
    if n == 0 then {} else Range(n - 1) + {n - 1}
  }

  lemma {:induction false} RangeSize(n: nat)
    ensures |Range(n)| == n && forall k: nat :: k in Range(n) <==> k < n
  {
    if n > 0 {
      RangeSize(n - 1);
    }
  }

  lemma {:induction false} InjectiveSize(m: map<string, nat>)
    requires forall a, b :: a in m && b in m && m[a] == m[b] ==> a == b
    ensures |m.Values| == |m|
    decreases |m|
  {
    if m != map[] {
      var id :| id in m;
      var rest := m - {id};
      InjectiveSize(rest);
      assert m.Values == rest.Values + {m[id]} by {
        forall v | v in m.Values ensures v in rest.Values + {m[id]} {
          var a :| a in m && m[a] == v;
          assert a == id || a in rest;
        }
      }
      assert m[id] !in rest.Values;
      assert m.Keys == rest.Keys + {id};
    }
  }

  datatype Kind = ByResponse | ByFailure | ByDiscard | ByReplacement | ByClear

  function KindOf<B>(r: Resolution<B>): Kind {
    match r
    case Responded(_) => ByResponse
    case FailedWith(_) => ByFailure
    case Discarded => ByDiscard
    case Replaced => ByReplacement
    case Cleared => ByClear
  }

  function ResolvedBy<B>(t: Table<B>, k: Kind): set<nat> {
    set rx | rx in t.resolved && KindOf(t.resolved[rx]) == k
  }

  lemma PendingValues<B>(t: Table<B>)
    requires Inv(t)
    ensures Range(|t.ids|) == t.requests.Values + t.resolved.Keys
    ensures t.requests.Values !! t.resolved.Keys
  {
    RangeSize(|t.ids|);
    forall rx: nat ensures rx in t.requests.Values <==> rx < |t.ids| && rx !in t.resolved {
      if rx < |t.ids| {
        assert Pending(t, rx) <==> rx !in t.resolved;
      }
    }
    forall rx | rx in Range(|t.ids|) ensures rx in t.requests.Values + t.resolved.Keys {
    }
    forall rx | rx in t.requests.Values + t.resolved.Keys ensures rx in Range(|t.ids|) {
    }
  }

  lemma KindsPartition<B>(t: Table<B>)
    ensures |t.resolved| == |ResolvedBy(t, ByResponse)| + |ResolvedBy(t, ByFailure)| + |ResolvedBy(t, ByDiscard)|
                          + |ResolvedBy(t, ByReplacement)| + |ResolvedBy(t, ByClear)|
  {
    FiveParts(t.resolved.Keys, ResolvedBy(t, ByResponse), ResolvedBy(t, ByFailure), ResolvedBy(t, ByDiscard),
      ResolvedBy(t, ByReplacement), ResolvedBy(t, ByClear));
    assert |t.resolved| == |t.resolved.Keys|;
  }

  lemma FiveParts(all: set<nat>, a: set<nat>, b: set<nat>, c: set<nat>, d: set<nat>, e: set<nat>)
    requires all == a + b + c + d + e && a !! b !! c !! d !! e
    ensures |all| == |a| + |b| + |c| + |d| + |e|
  {
  }

  /** adds = pending + responded + failed + discarded + replaced + cleared. */
  lemma Conservation<B>(t: Table<B>)
    requires Inv(t)
    ensures |t.ids| == |t.requests| + |t.resolved|
    ensures |t.ids| == |t.requests| + |ResolvedBy(t, ByResponse)| + |ResolvedBy(t, ByFailure)|
                     + |ResolvedBy(t, ByDiscard)| + |ResolvedBy(t, ByReplacement)| + |ResolvedBy(t, ByClear)|
  {
    KindsPartition(t);
    RangeSize(|t.ids|);
    InjectiveSize(t.requests);
    PendingValues(t);
    assert |t.resolved| == |t.resolved.Keys|;
  }

  // ---------------------------------------------------------------- the client

  datatype Outcome<B> = Response(message: Message<B>) | Error(error: ClientError)

  /** A call of `send_and_await_response`; the `k`-th call holds receiver `k`. */
  datatype Phase<B> = Sending | Awaiting | Discarding(outcome: Outcome<B>) | Returned(outcome: Outcome<B>)
  datatype Call<B> = Call(id: string, phase: Phase<B>)

  datatype Client<B> = Client(table: Table<B>, calls: seq<Call<B>>, throttle: bool)

  datatype Action<B> =
    | Begins(id: string)
    | Sends(c: nat, ok: bool)
    | Wakes(c: nat)
    | TimesOut(c: nat)
    | Discards(c: nat)
    | Incoming(message: Message<B>)
    | ReadFails
    | Clears

  function OnReceived<B>(r: Resolution<B>): Phase<B> {
    match r
    case Responded(m) => Returned(Response(m))
    case FailedWith(e) => Discarding(Error(e))
    case _ => Discarding(Error(NotConnected))
  }

  function CallStep<B>(t: Table<B>, c: nat, call: Call<B>, a: Action<B>): Call<B> {
    match (a, call.phase)
    case (Sends(_, ok), Sending) => call.(phase := if ok then Awaiting else Returned(Error(NotConnected)))
    case (Wakes(_), Awaiting) => if c in t.resolved then call.(phase := OnReceived(t.resolved[c])) else call
    case (TimesOut(_), Awaiting) => call.(phase := Discarding(Error(RequestTimeout)))
    case (Discards(_), Discarding(outcome)) => call.(phase := Returned(outcome))
    case _ => call
  }

  function Step<B>(s: Client<B>, a: Action<B>): Client<B> {
    match a
    case Begins(id) => s.(table := AfterAdd(s.table, id), calls := s.calls + [Call(id, Sending)])
    case Incoming(m) =>
      if m.error.Some? then s.(throttle := s.throttle || m.error.value == SlowDown)
      else s.(table := Resolve(s.table, m.correlationId, Responded(m)))
    case ReadFails => s.(table := ResolveAll(s.table, FailedWith(ReadError)))
    case Clears => s.(table := ResolveAll(s.table, Cleared))
    case _ =>
      if a.c < |s.calls| then
        var call := s.calls[a.c];
        Client(
          if a.Discards? && call.phase.Discarding? then Resolve(s.table, call.id, Discarded) else s.table,
          s.calls[a.c := CallStep(s.table, a.c, call, a)],
          s.throttle)
      else s
  }

  function Run<B>(actions: seq<Action<B>>): Client<B> {
    if actions == [] then Client(EmptyTable(), [], false)
    else Step(Run(actions[..|actions| - 1]), actions[|actions| - 1])
  }

  ghost predicate OwnResponse<B>(call: Call<B>, m: Message<B>) {
    m.correlationId == call.id && m.error.None?
  }

  ghost predicate CallOk<B>(call: Call<B>) {
    && (call.phase.Returned? && call.phase.outcome.Response? ==> OwnResponse(call, call.phase.outcome.message))
    && (call.phase.Discarding? ==> call.phase.outcome.Error?)
  }

  ghost predicate ClientInv<B>(s: Client<B>) {
    && Inv(s.table)
    && CallsOk(s)
    && NoErrors(s.table)
  }

  ghost predicate CallsOk<B>(s: Client<B>) {
    && |s.calls| == |s.table.ids|
    && forall c :: 0 <= c < |s.calls| ==> s.calls[c].id == s.table.ids[c] && CallOk(s.calls[c])
  }

  lemma TableStep<B>(s: Client<B>, a: Action<B>)
    requires Inv(s.table)
    ensures Inv(Step(s, a).table) && Keeps(s.table, Step(s, a).table)
  {
    match a
    case Begins(id) => AddKeeps(s.table, id);
    case Incoming(m) => ResolveKeeps(s.table, m.correlationId, Responded(m));
    case ReadFails => ResolveAllKeeps(s.table, FailedWith(ReadError));
    case Clears => ResolveAllKeeps(s.table, Cleared);
    case Discards(c) => if c < |s.calls| { ResolveKeeps(s.table, s.calls[c].id, Discarded); }
    case _ =>
  }

  ghost predicate NoErrors<B>(t: Table<B>) {
    forall rx: nat :: rx in t.resolved && t.resolved[rx].Responded? ==> t.resolved[rx].message.error.None?
  }

  lemma CallStepOk<B>(t: Table<B>, c: nat, call: Call<B>, a: Action<B>)
    requires Inv(t) && NoErrors(t) && c < |t.ids| && call.id == t.ids[c] && CallOk(call)
    ensures CallOk(CallStep(t, c, call, a)) && CallStep(t, c, call, a).id == call.id
  {
  }

  lemma NoErrorsStep<B>(s: Client<B>, a: Action<B>)
    requires NoErrors(s.table)
    ensures NoErrors(Step(s, a).table)
  {
  }

  predicate OfCall<B>(a: Action<B>) {
    a.Sends? || a.Wakes? || a.TimesOut? || a.Discards?
  }

  lemma ClientStep<B>(s: Client<B>, a: Action<B>)
    requires ClientInv(s)
    ensures ClientInv(Step(s, a))
  {
    TableStep(s, a);
    NoErrorsStep(s, a);
    var s' := Step(s, a);
    assert CallsOk(s') by {
      forall c | 0 <= c < |s'.calls| ensures s'.calls[c].id == s'.table.ids[c] && CallOk(s'.calls[c]) {
        if OfCall(a) && a.c == c {
          CallStepOk(s.table, c, s.calls[c], a);
        }
      }
    }
  }

  lemma {:induction false} RunInv<B>(actions: seq<Action<B>>)
    ensures ClientInv(Run(actions))
  {
    if actions != [] {
      RunInv(actions[..|actions| - 1]);
      ClientStep(Run(actions[..|actions| - 1]), actions[|actions| - 1]);
    }
  }

  /** In every interleaving of calls, timeouts, responses and read failures, every response a call
      returns carries the call's own correlation id and no error. */
  lemma EveryResponseIsOwn<B>(actions: seq<Action<B>>, c: nat)
    requires c < |Run(actions).calls|
    ensures var call := Run(actions).calls[c];
      call.phase.Returned? && call.phase.outcome.Response? ==> OwnResponse(call, call.phase.outcome.message)
  {
    RunInv(actions);
    assert CallOk(Run(actions).calls[c]);
  }

  /** Over every run, adds = pending + responded + failed + discarded + replaced + cleared. */
  lemma EveryRunBalances<B>(actions: seq<Action<B>>)
    ensures var t := Run(actions).table;
      |t.ids| == |t.requests| + |ResolvedBy(t, ByResponse)| + |ResolvedBy(t, ByFailure)|
               + |ResolvedBy(t, ByDiscard)| + |ResolvedBy(t, ByReplacement)| + |ResolvedBy(t, ByClear)|
  {
    RunInv(actions);
    Conservation(Run(actions).table);
  }

  /** Each receiver is resolved at most once: later steps never touch a resolution. */
  lemma {:induction false} ResolvedOnce<B>(actions: seq<Action<B>>, more: seq<Action<B>>)
    ensures Keeps(Run(actions).table, Run(actions + more).table)
  {
    if more == [] {
      assert actions + more == actions;
    } else {
      var front, a := more[..|more| - 1], more[|more| - 1];
      ResolvedOnce(actions, front);
      assert actions + more == (actions + front) + [a];
      OneMoreAction(actions + front, a);
      RunInv(actions + front);
      TableStep(Run(actions + front), a);
      KeepsTwice(Run(actions).table, Run(actions + front).table, Run(actions + more).table);
    }
  }

  lemma KeepsTwice<B>(a: Table<B>, b: Table<B>, c: Table<B>)
    requires Keeps(a, b) && Keeps(b, c)
    ensures Keeps(a, c)
  {
  }

  // ---------------------------------------------------------------- what a call gets

  lemma OneMoreAction<B>(actions: seq<Action<B>>, a: Action<B>)
    ensures Run(actions + [a]) == Step(Run(actions), a)
  {
    assert (actions + [a])[..|actions|] == actions;
  }

  ghost predicate NotOf<B>(actions: seq<Action<B>>, c: nat) {
    forall k :: 0 <= k < |actions| && OfCall(actions[k]) ==> actions[k].c != c
  }

  lemma {:induction false} CallUntouched<B>(actions: seq<Action<B>>, more: seq<Action<B>>, c: nat)
    requires c < |Run(actions).calls| && NotOf(more, c)
    ensures c < |Run(actions + more).calls| && Run(actions + more).calls[c] == Run(actions).calls[c]
  {
    if more == [] {
      assert actions + more == actions;
    } else {
      var front := more[..|more| - 1];
      CallUntouched(actions, front, c);
      assert (actions + more)[..|actions + more| - 1] == actions + front;
    }
  }

  /** How its receiver is resolved is what an awaiting call returns, however much later it wakes: a
      response as it is, a failure as it is, a dropped sender as a lost connection. */
  lemma ResolutionReachesCall<B>(actions: seq<Action<B>>, more: seq<Action<B>>, c: nat)
    requires c < |Run(actions).calls| && Run(actions).calls[c].phase == Awaiting
    requires c in Run(actions).table.resolved && NotOf(more, c)
    ensures var r, woken := Run(actions).table.resolved[c], Run(actions + more + [Wakes(c)]);
      && c < |woken.calls|
      && (forall m :: r == Responded(m) ==> woken.calls[c].phase == Returned(Response(m)))
      && (forall e :: r == FailedWith(e) ==> woken.calls[c].phase == Discarding(Error(e)))
      && (!r.Responded? && !r.FailedWith? ==> woken.calls[c].phase == Discarding(Error(NotConnected)))
  {
    CallUntouched(actions, more, c);
    ResolvedOnce(actions, more);
    OneMoreAction(actions + more, Wakes(c));
  }

  /** A response without an error, arriving while its call is awaiting it, is what the call returns,
      whatever happens between its arrival and the call's waking. */
  lemma ResponseReachesCall<B>(actions: seq<Action<B>>, m: Message<B>, more: seq<Action<B>>, c: nat)
    requires c < |Run(actions).calls| && Run(actions).calls[c] == Call(m.correlationId, Awaiting)
    requires Pending(Run(actions).table, c) && m.error.None? && NotOf(more, c)
    ensures var woken := Run(actions + [Incoming(m)] + more + [Wakes(c)]);
      c < |woken.calls| && woken.calls[c].phase == Returned(Response(m))
  {
    RunInv(actions);
    OneMoreAction(actions, Incoming(m));
    OneIsResolved(Run(actions).table, m.correlationId, Responded(m), c);
    ResolutionReachesCall(actions + [Incoming(m)], more, c);
  }

  /** A new call awaits its response once its request is sent, and fails at once if it cannot be. */
  lemma SendDecides<B>(actions: seq<Action<B>>, id: string, ok: bool)
    ensures var c := |Run(actions).calls|;
      var sent := Run(actions + [Begins(id)] + [Sends(c, ok)]);
      && c < |sent.calls| && Pending(sent.table, c)
      && sent.calls[c] == Call(id, if ok then Awaiting else Returned(Error(NotConnected)))
  {
    RunInv(actions);
    RunInv(actions + [Begins(id)]);
    OneMoreAction(actions, Begins(id));
    OneMoreAction(actions + [Begins(id)], Sends(|Run(actions).calls|, ok));
  }

  /** From end to end: a call that is begun and sent, and whose response comes in before its id is
      used again, returns exactly that response. */
  lemma CallGetsItsResponse<B>(actions: seq<Action<B>>, m: Message<B>, more: seq<Action<B>>)
    requires m.error.None? && NotOf(more, |Run(actions).calls|)
    ensures var c := |Run(actions).calls|;
      var woken := Run(actions + [Begins(m.correlationId)] + [Sends(c, true)] + [Incoming(m)] + more + [Wakes(c)]);
      c < |woken.calls| && woken.calls[c].phase == Returned(Response(m))
  {
    var c := |Run(actions).calls|;
    SendDecides(actions, m.correlationId, true);
    ResponseReachesCall(actions + [Begins(m.correlationId)] + [Sends(c, true)], m, more, c);
  }

  /** A call that times out returns that error after discarding, and leaves nothing pending under
      its id. */
  lemma TimeoutReturns<B>(actions: seq<Action<B>>, c: nat)
    requires c < |Run(actions).calls| && Run(actions).calls[c].phase == Awaiting
    ensures var after := Run(actions + [TimesOut(c)] + [Discards(c)]);
      && c < |after.calls| && after.calls[c].phase == Returned(Error(RequestTimeout))
      && after.calls[c].id !in after.table.requests
  {
    OneMoreAction(actions, TimesOut(c));
    DiscardReturns(actions + [TimesOut(c)], c);
  }

  lemma DiscardReturns<B>(actions: seq<Action<B>>, c: nat)
    requires c < |Run(actions).calls| && Run(actions).calls[c].phase.Discarding?
    ensures var after := Run(actions + [Discards(c)]);
      && c < |after.calls| && after.calls[c].phase == Returned(Run(actions).calls[c].phase.outcome)
      && after.calls[c].id !in after.table.requests
  {
    OneMoreAction(actions, Discards(c));
  }

  lemma PendingIsResolved<B>(actions: seq<Action<B>>, a: Action<B>, c: nat)
    requires (a.ReadFails? || a.Clears?) && Pending(Run(actions).table, c)
    ensures var s, s' := Run(actions), Run(actions + [a]);
      && s'.calls == s.calls && c in s'.table.resolved
      && s'.table.resolved[c] == if a.ReadFails? then FailedWith(ReadError) else Cleared
  {
    RunInv(actions);
    OneMoreAction(actions, a);
    AllAreResolved(Run(actions).table, if a.ReadFails? then FailedWith(ReadError) else Cleared, c);
  }

  /** A read error fails every call that is pending. */
  lemma ReadErrorReachesCall<B>(actions: seq<Action<B>>, more: seq<Action<B>>, c: nat)
    requires c < |Run(actions).calls| && Run(actions).calls[c].phase == Awaiting
    requires Pending(Run(actions).table, c) && NotOf(more, c)
    ensures var woken := Run(actions + [ReadFails] + more + [Wakes(c)]);
      c < |woken.calls| && woken.calls[c].phase == Discarding(Error(ReadError))
  {
    PendingIsResolved(actions, ReadFails, c);
    ResolutionReachesCall(actions + [ReadFails], more, c);
  }

  /** Clearing the table leaves every pending call with a lost connection. */
  lemma ClearReachesCall<B>(actions: seq<Action<B>>, more: seq<Action<B>>, c: nat)
    requires c < |Run(actions).calls| && Run(actions).calls[c].phase == Awaiting
    requires Pending(Run(actions).table, c) && NotOf(more, c)
    ensures var woken := Run(actions + [Clears] + more + [Wakes(c)]);
      c < |woken.calls| && woken.calls[c].phase == Discarding(Error(NotConnected))
  {
    PendingIsResolved(actions, Clears, c);
    ResolutionReachesCall(actions + [Clears], more, c);
  }

  /** Every response a receiver holds came in over the connection. */
  lemma {:induction false} ResponsesCameIn<B>(actions: seq<Action<B>>, rx: nat)
    requires rx in Run(actions).table.resolved && Run(actions).table.resolved[rx].Responded?
    ensures Incoming(Run(actions).table.resolved[rx].message) in actions
  {
    var front, a := actions[..|actions| - 1], actions[|actions| - 1];
    assert actions == front + [a];
    if rx in Run(front).table.resolved {
      RunInv(front);
      TableStep(Run(front), a);
      ResponsesCameIn(front, rx);
    }
  }

  /** The client is throttled exactly when it has been told to slow down. */
  lemma {:induction false} ThrottledExactly<B>(actions: seq<Action<B>>)
    ensures Run(actions).throttle <==>
      exists k :: 0 <= k < |actions| && actions[k].Incoming? && actions[k].message.error == Some(SlowDown)
  {
    if actions != [] {
      ThrottledExactly(actions[..|actions| - 1]);
      assert actions == actions[..|actions| - 1] + [actions[|actions| - 1]];
    }
  }

  // ---------------------------------------------------------------- distinct correlation ids

  /** The correlation ids of the calls begun, in order. */
  function Begun<B>(actions: seq<Action<B>>): seq<string> {
    if actions == [] then []
    else
      var front, a := actions[..|actions| - 1], actions[|actions| - 1];
      if a.Begins? then Begun(front) + [a.id] else Begun(front)
  }

  predicate Distinct(ids: seq<string>) {
    forall i, j :: 0 <= i < j < |ids| ==> ids[i] != ids[j]
  }

  lemma {:induction false} IdsAreBegun<B>(actions: seq<Action<B>>)
    ensures Run(actions).table.ids == Begun(actions)
  {
    if actions != [] {
      IdsAreBegun(actions[..|actions| - 1]);
    }
  }

  ghost predicate Isolated<B>(s: Client<B>) {
    forall rx: nat :: rx in s.table.resolved && rx < |s.calls| ==>
      && s.table.resolved[rx] != Replaced
      && (s.table.resolved[rx] == Discarded ==> s.calls[rx].phase.Returned?)
  }

  lemma IsolatedBegin<B>(s: Client<B>, id: string)
    requires ClientInv(s) && Isolated(s) && id !in s.table.ids
    ensures Isolated(Step(s, Begins(id)))
  {
  }

  lemma IsolatedDiscard<B>(s: Client<B>, c: nat)
    requires ClientInv(s) && Isolated(s) && Distinct(s.table.ids)
    ensures Isolated(Step(s, Discards(c)))
  {
  }

  lemma IsolatedShared<B>(s: Client<B>, a: Action<B>)
    requires Isolated(s) && (a.Incoming? || a.ReadFails? || a.Clears?)
    ensures Isolated(Step(s, a))
  {
  }

  lemma IsolatedCall<B>(s: Client<B>, a: Action<B>)
    requires Isolated(s) && (a.Sends? || a.Wakes? || a.TimesOut?)
    ensures Isolated(Step(s, a))
  {
  }

  lemma IsolatedStep<B>(s: Client<B>, a: Action<B>)
    requires ClientInv(s) && Isolated(s) && Distinct(s.table.ids)
    requires a.Begins? ==> a.id !in s.table.ids
    ensures Isolated(Step(s, a))
  {
    match a
    case Begins(id) => IsolatedBegin(s, id);
    case Discards(c) => IsolatedDiscard(s, c);
    case Incoming(_) => IsolatedShared(s, a);
    case ReadFails => IsolatedShared(s, a);
    case Clears => IsolatedShared(s, a);
    case _ => IsolatedCall(s, a);
  }

  /** With distinct correlation ids no call disturbs another: no receiver is ever replaced, and one
      is discarded only by its own call, on its way out. */
  lemma {:induction false} DistinctIdsIsolateCalls<B>(actions: seq<Action<B>>)
    requires Distinct(Begun(actions))
    ensures Isolated(Run(actions))
  {
    if actions != [] {
      var front, a := actions[..|actions| - 1], actions[|actions| - 1];
      assert Distinct(Begun(front)) && (a.Begins? ==> a.id !in Begun(front)) by {
        assert a.Begins? ==> Begun(actions)[|Begun(front)|] == a.id;
        assert forall k :: 0 <= k < |Begun(front)| ==> Begun(actions)[k] == Begun(front)[k];
      }
      DistinctIdsIsolateCalls(front);
      RunInv(front);
      IdsAreBegun(front);
      IsolatedStep(Run(front), a);
    }
  }

  lemma DiscardIsOwn<B>(s: Client<B>, a: Action<B>, rx: nat)
    requires ClientInv(s) && Distinct(s.table.ids) && rx !in s.table.resolved
    requires rx in Step(s, a).table.resolved && Step(s, a).table.resolved[rx] == Discarded
    ensures a == Discards(rx)
  {
  }

  /** The step that discards a receiver is the discard of its own call, and of no other. */
  lemma DiscardedByOwnCall<B>(actions: seq<Action<B>>, a: Action<B>, rx: nat)
    requires Distinct(Begun(actions))
    requires rx !in Run(actions).table.resolved
    requires rx in Run(actions + [a]).table.resolved && Run(actions + [a]).table.resolved[rx] == Discarded
    ensures a == Discards(rx)
  {
    assert (actions + [a])[..|actions|] == actions;
    RunInv(actions);
    IdsAreBegun(actions);
    DiscardIsOwn(Run(actions), a, rx);
  }

  /** With distinct ids a call that returns leaves its receiver pending exactly when its request
      could not be sent: that entry stays in the table. */
  lemma LeftPendingExactly<B>(actions: seq<Action<B>>, a: Action<B>, c: nat)
    requires Distinct(Begun(actions)) && c < |Run(actions).calls| && !Run(actions).calls[c].phase.Returned?
    requires c < |Run(actions + [a]).calls| && Run(actions + [a]).calls[c].phase.Returned?
    ensures Pending(Run(actions + [a]).table, c) <==> a == Sends(c, false) && Pending(Run(actions).table, c)
  {
    OneMoreAction(actions, a);
    RunInv(actions);
    IdsAreBegun(actions);
    ReturnLeavesPending(Run(actions), a, c);
  }

  lemma ReturnLeavesPending<B>(s: Client<B>, a: Action<B>, c: nat)
    requires ClientInv(s) && Distinct(s.table.ids) && c < |s.calls| && !s.calls[c].phase.Returned?
    requires c < |Step(s, a).calls| && Step(s, a).calls[c].phase.Returned?
    ensures Pending(Step(s, a).table, c) <==> a == Sends(c, false) && Pending(s.table, c)
  {
    if a.Discards? {
      OneIsResolved(s.table, s.calls[c].id, Discarded, c);
    }
  }
}
