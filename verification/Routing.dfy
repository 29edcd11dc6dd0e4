/** Responses on their way to clients: registration in `handle_client` and the drain loop with its
    local sender cache in src/network/group_server.rs. */
module Routing {
  import opened Words

  datatype Envelope<I, M> = Envelope(to: I, message: M)

  /** What has happened so far: a client was registered, or a message was routed. */
  datatype Event<I, M> = Registered(id: I) | Routed(envelope: Envelope<I, M>)

  /** `clients` is the map shared with `handle_client`, `cache` the drain loop's own; both map a
      client to the number of its sender, and `inboxes[n]` is what sender `n` was handed. `received`
      is a message taken from the queue and not looked up yet. */
  datatype State<I, M> = State(
    clients: map<I, nat>, cache: map<I, nat>, inboxes: seq<seq<M>>,
    received: Option<Envelope<I, M>>, history: seq<Event<I, M>>)

  datatype Action<I, M> = Register(id: I) | Receive(envelope: Envelope<I, M>) | LookUp

  function Initial<I, M>(): State<I, M> {
    State(map[], map[], [], None, [])
  }

  /** `handle_client`: a client that is already registered is left alone. */
  function AfterRegister<I, M>(s: State<I, M>, id: I): State<I, M> {
    if id in s.clients then s
    else s.(clients := s.clients[id := |s.inboxes|], inboxes := s.inboxes + [[]], history := s.history + [Registered(id)])
  }

  /** One turn of `inner_drain_out` for a received message: a cached sender gets it; otherwise the
      cache is filled from the shared map, and the message itself goes nowhere. */
  function AfterRoute<I, M>(s: State<I, M>, e: Envelope<I, M>): State<I, M> {
    var s' := s.(received := None, history := s.history + [Routed(e)]);
    if e.to in s.cache then
      if s.cache[e.to] < |s.inboxes|
      then s'.(inboxes := s.inboxes[s.cache[e.to] := s.inboxes[s.cache[e.to]] + [e.message]])
      else s'
    else if e.to in s.clients then s'.(cache := s.cache[e.to := s.clients[e.to]])
    else s'
  }

  function Step<I, M>(s: State<I, M>, a: Action<I, M>): State<I, M> {
    match a
    case Register(id) => AfterRegister(s, id)
    case Receive(e) => if s.received.None? then s.(received := Some(e)) else s
    case LookUp => if s.received.Some? then AfterRoute(s, s.received.value) else s
  }

  function Run<I, M>(actions: seq<Action<I, M>>): State<I, M> {
    if actions == [] then Initial()
    else Step(Run(actions[..|actions| - 1]), actions[|actions| - 1])
  }

  // ---------------------------------------------------------------- what a client should get

  predicate RoutedTo<I(==), M>(e: Event<I, M>, id: I) {
    e.Routed? && e.envelope.to == id
  }

  /** A message to `id` was routed after `id` had been registered. */
  ghost predicate Filled<I, M>(h: seq<Event<I, M>>, id: I) {
    exists i, j :: 0 <= i < j < |h| && h[i] == Registered(id) && RoutedTo(h[j], id)
  }

  /** The messages addressed to `id` after the first one routed since its registration. */
  ghost function Expected<I, M>(h: seq<Event<I, M>>, id: I): seq<M> {
    if h == [] then []
    else
      var front, e := h[..|h| - 1], h[|h| - 1];
      if RoutedTo(e, id) && Filled(front, id) then Expected(front, id) + [e.envelope.message] else Expected(front, id)
  }

  lemma FilledOneMore<I, M>(h: seq<Event<I, M>>, e: Event<I, M>, id: I)
    ensures Filled(h + [e], id) <==> Filled(h, id) || (RoutedTo(e, id) && Registered(id) in h)
    ensures Expected(h + [e], id)
         == if RoutedTo(e, id) && Filled(h, id) then Expected(h, id) + [e.envelope.message] else Expected(h, id)
  {
    var all := h + [e];
    assert all[..|h|] == h;
    if Filled(h, id) {
      var i, j :| 0 <= i < j < |h| && h[i] == Registered(id) && RoutedTo(h[j], id);
      assert all[i] == Registered(id) && RoutedTo(all[j], id);
    }
    if RoutedTo(e, id) && Registered(id) in h {
      var i :| 0 <= i < |h| && h[i] == Registered(id);
      assert all[i] == Registered(id) && RoutedTo(all[|h|], id);
    }
    if Filled(all, id) {
      var i, j :| 0 <= i < j < |all| && all[i] == Registered(id) && RoutedTo(all[j], id);
      assert h[i] == Registered(id);
      assert j < |h| ==> h[j] == all[j];
    }
  }

  lemma {:induction false} NothingBeforeRegistration<I, M>(h: seq<Event<I, M>>, id: I)
    requires Registered(id) !in h
    ensures Expected(h, id) == [] && !Filled(h, id)
  {
    if h != [] {
      NothingBeforeRegistration(h[..|h| - 1], id);
    }
  }

  // ---------------------------------------------------------------- what has happened

  /** The message taken from the queue and not looked up yet: the first one received since the
      last look-up. */
  function Held<I, M>(actions: seq<Action<I, M>>): Option<Envelope<I, M>> {
    if actions == [] then None
    else
      var held := Held(actions[..|actions| - 1]);
      match actions[|actions| - 1]
      case Register(_) => held
      case Receive(e) => if held.Some? then held else Some(e)
      case LookUp => None
  }

  /** First registrations and look-ups of held messages, in the order of the actions. */
  function Happened<I(==), M(==)>(actions: seq<Action<I, M>>): seq<Event<I, M>> {
    if actions == [] then []
    else
      var front := actions[..|actions| - 1];
      var before := Happened(front);
      match actions[|actions| - 1]
      case Register(id) => if Registered(id) in before then before else before + [Registered(id)]
      case Receive(_) => before
      case LookUp => if Held(front).Some? then before + [Routed(Held(front).value)] else before
  }

  lemma {:induction false} RegisteredExactly<I, M>(actions: seq<Action<I, M>>, id: I)
    ensures Registered(id) in Happened(actions) <==> Register(id) in actions
  {
    if actions != [] {
      RegisteredExactly(actions[..|actions| - 1], id);
      assert actions == actions[..|actions| - 1] + [actions[|actions| - 1]];
    }
  }

  lemma {:induction false} HistoryIsWhatHappened<I(!new), M>(actions: seq<Action<I, M>>)
    ensures Run(actions).history == Happened(actions) && Run(actions).received == Held(actions)
  {
    if actions != [] {
      var front := actions[..|actions| - 1];
      HistoryIsWhatHappened(front);
      RunInv(front);
      if actions[|actions| - 1].Register? {
        assert ClientOk(Run(front), actions[|actions| - 1].id);
      }
    }
  }

  // ---------------------------------------------------------------- invariant

  ghost predicate ClientOk<I, M>(s: State<I, M>, id: I) {
    && (id in s.clients <==> Registered(id) in s.history)
    && (id in s.cache <==> Filled(s.history, id))
    && (id in s.cache ==> id in s.clients && s.cache[id] == s.clients[id])
    && (id in s.clients ==> s.clients[id] < |s.inboxes| && s.inboxes[s.clients[id]] == Expected(s.history, id))
  }

  ghost predicate Inv<I(!new), M>(s: State<I, M>) {
    && (forall id: I :: ClientOk(s, id))
    && (forall a: I, b: I :: a in s.clients && b in s.clients && s.clients[a] == s.clients[b] ==> a == b)
  }

  lemma RegisterKeeps<I(!new), M>(s: State<I, M>, id: I)
    requires Inv(s)
    ensures Inv(AfterRegister(s, id))
  {
    var s' := AfterRegister(s, id);
    if s' != s {
      assert ClientOk(s, id);
      NothingBeforeRegistration(s.history, id);
      forall other: I ensures ClientOk(s', other) {
        assert ClientOk(s, other);
        FilledOneMore(s.history, Registered(id), other);
      }
      forall other: I | other in s.clients ensures s.clients[other] < |s.inboxes| {
        assert ClientOk(s, other);
      }
    }
  }

  lemma RouteKeeps<I(!new), M>(s: State<I, M>, e: Envelope<I, M>)
    requires Inv(s)
    ensures Inv(AfterRoute(s, e))
  {
    var s' := AfterRoute(s, e);
    assert ClientOk(s, e.to);
    forall id: I ensures ClientOk(s', id) {
      assert ClientOk(s, id);
      FilledOneMore(s.history, Routed(e), id);
    }
  }

  lemma {:induction false} RunInv<I(!new), M>(actions: seq<Action<I, M>>)
    ensures Inv(Run(actions))
  {
    if actions == [] {
      var s: State<I, M> := Run(actions);
      forall id: I ensures ClientOk(s, id) {
        NothingBeforeRegistration(s.history, id);
      }
    } else {
      var s := Run(actions[..|actions| - 1]);
      RunInv(actions[..|actions| - 1]);
      match actions[|actions| - 1]
      case Register(id) => RegisterKeeps(s, id);
      case Receive(e) =>
        forall id: I ensures ClientOk(Run(actions), id) {
          assert ClientOk(s, id);
        }
      case LookUp =>
        if s.received.Some? {
          RouteKeeps(s, s.received.value);
        }
    }
  }

  /** In every interleaving of registration and draining: exactly the clients that registered are
      known, a cached sender is the registered one, and a registered client has been handed, in
      order, exactly the messages addressed to it and looked up after the one that filled its cache
      entry. What was looked up when is read off the actions themselves. */
  lemma ClientsGetExactly<I(!new), M>(actions: seq<Action<I, M>>, id: I)
    ensures var s, h := Run(actions), Happened(actions);
      && (id in s.clients <==> Register(id) in actions)
      && (id in s.cache <==> Filled(h, id))
      && (id in s.cache ==> id in s.clients && s.cache[id] == s.clients[id])
      && (id in s.clients ==> s.clients[id] < |s.inboxes| && s.inboxes[s.clients[id]] == Expected(h, id))
      && (id !in s.clients ==> Expected(h, id) == [])
  {
    RunInv(actions);
    HistoryIsWhatHappened(actions);
    RegisteredExactly(actions, id);
    var s := Run(actions);
    assert ClientOk(s, id);
    if id !in s.clients {
      NothingBeforeRegistration(s.history, id);
    }
  }

  /** No two clients share an inbox. */
  lemma OwnInboxes<I(!new), M>(actions: seq<Action<I, M>>, a: I, b: I)
    requires Register(a) in actions && Register(b) in actions && a != b
    ensures var s := Run(actions); a in s.clients && b in s.clients && s.clients[a] != s.clients[b]
  {
    RunInv(actions);
    ClientsGetExactly(actions, a);
    ClientsGetExactly(actions, b);
  }

  /** Without registrations nothing is ever handed to anybody. As the program is wired this is what
      happens: the future of `handle_client` is dropped unpolled. */
  lemma {:induction false} NobodyRegistered<I, M>(actions: seq<Action<I, M>>)
    requires forall k :: 0 <= k < |actions| ==> !actions[k].Register?
    ensures var s := Run(actions); s.clients == map[] && s.cache == map[] && s.inboxes == []
  {
    if actions != [] {
      NobodyRegistered(actions[..|actions| - 1]);
    }
  }

  /** The message that fills the cache is lost: the first message routed to a registered client
      reaches nobody. */
  lemma FirstMessageIsLost<I(!new), M>(actions: seq<Action<I, M>>, id: I, m: M)
    requires var s := Run(actions); s.received == Some(Envelope(id, m)) && id in s.clients && id !in s.cache
    ensures var s, s' := Run(actions), Run(actions + [LookUp]);
      s'.inboxes == s.inboxes && id in s'.cache && s'.history == s.history + [Routed(Envelope(id, m))]
  {
  }

  // ---------------------------------------------------------------- the object

  class GroupServer<I(==), M> {
    var clientsIns: map<I, nat>
    var localClientIns: map<I, nat>
    /** What each sender has been handed. */
    var inboxes: seq<seq<M>>
    ghost var history: seq<Event<I, M>>

    ghost function View(): State<I, M> reads this {
      State(clientsIns, localClientIns, inboxes, None, history)
    }

    constructor ()
      ensures View() == Initial()
    {
      clientsIns, localClientIns, inboxes, history := map[], map[], [], [];
    }

    method HandleClient(id: I)
      modifies this
      ensures View() == AfterRegister(old(View()), id)
    {
      if id in clientsIns {
        return;
      }
      clientsIns := clientsIns[id := |inboxes|];
      inboxes := inboxes + [[]];
      history := history + [Registered(id)];
    }

    method RouteOut(e: Envelope<I, M>)
      modifies this
      ensures View() == AfterRoute(old(View()), e)
    {
      history := history + [Routed(e)];
      if e.to in localClientIns {
        var sender := localClientIns[e.to];
        if sender < |inboxes| {
          inboxes := inboxes[sender := inboxes[sender] + [e.message]];
        }
      } else if e.to in clientsIns {
        localClientIns := localClientIns[e.to := clientsIns[e.to]];
      }
    }
  }
}
