/** `leader_loop` of src/fsm.rs: draining the two request channels, batching and flushing. */
module Leader {
  import opened Words
  import opened Fsm

  datatype Channel = Local | Remote
  datatype Message<R> = State(request: R) | Follow(node: Option<NodeId>) | OtherMessage | EmptyBody
  datatype Envelope<R> = Envelope(channel: Channel, message: Message<R>)

  /** The messages of one channel, in order. */
  function Of<R>(es: seq<Envelope<R>>, c: Channel): seq<Message<R>> {
    if es == [] then []
    else
      var front, e := es[..|es| - 1], es[|es| - 1];
      if e.channel == c then Of(front, c) + [e.message] else Of(front, c)
  }

  /** The state requests among some messages, in order. */
  function Requests<R>(ms: seq<Message<R>>): seq<R> {
    if ms == [] then []
    else
      var front, m := ms[..|ms| - 1], ms[|ms| - 1];
      if m.State? then Requests(front) + [m.request] else Requests(front)
  }

  function Messages<R>(es: seq<Envelope<R>>): seq<Message<R>> {
    if es == [] then [] else Messages(es[..|es| - 1]) + [es[|es| - 1].message]
  }

  function Followers<R>(ms: seq<Message<R>>): seq<NodeId> {
    if ms == [] then []
    else
      var front, m := ms[..|ms| - 1], ms[|ms| - 1];
      if m.Follow? && m.node.Some? then Followers(front) + [m.node.value] else Followers(front)
  }

  /** What leaves `acc`: a batch handed to `append`, or what is dropped with `acc` when the loop
      ends over a closed channel. */
  datatype Parcel<R> = HandedOff(entries: seq<R>) | Dropped(entries: seq<R>)

  /** All requests that left `acc`, in order; those handed off; and those dropped. */
  function Contents<R>(ps: seq<Parcel<R>>): seq<R> {
    if ps == [] then [] else Contents(ps[..|ps| - 1]) + ps[|ps| - 1].entries
  }

  function HandedOffIn<R>(ps: seq<Parcel<R>>): seq<R> {
    if ps == [] then []
    else
      var front, p := ps[..|ps| - 1], ps[|ps| - 1];
      if p.HandedOff? then HandedOffIn(front) + p.entries else HandedOffIn(front)
  }

  function DroppedIn<R>(ps: seq<Parcel<R>>): seq<R> {
    if ps == [] then []
    else
      var front, p := ps[..|ps| - 1], ps[|ps| - 1];
      if p.Dropped? then DroppedIn(front) + p.entries else DroppedIn(front)
  }

  lemma OneMoreOf<R>(es: seq<Envelope<R>>, e: Envelope<R>, c: Channel)
    ensures Of(es + [e], c) == if e.channel == c then Of(es, c) + [e.message] else Of(es, c)
  {
  }

  lemma {:induction false} MessagesConcat<R>(a: seq<Envelope<R>>, b: seq<Envelope<R>>)
    ensures Messages(a + b) == Messages(a) + Messages(b)
  {
    if b == [] {
      assert a + b == a;
    } else {
      var front := b[..|b| - 1];
      MessagesConcat(a, front);
      assert (a + b)[..|a + b| - 1] == a + front;
    }
  }

  lemma {:induction false} OfConcat<R>(a: seq<Envelope<R>>, b: seq<Envelope<R>>, c: Channel)
    ensures Of(a + b, c) == Of(a, c) + Of(b, c)
  {
    if b == [] {
      assert a + b == a;
    } else {
      var front := b[..|b| - 1];
      OfConcat(a, front, c);
      assert (a + b)[..|a + b| - 1] == a + front;
    }
  }

  lemma OneMoreRequest<R>(ms: seq<Message<R>>, m: Message<R>)
    ensures Requests(ms + [m]) == if m.State? then Requests(ms) + [m.request] else Requests(ms)
    ensures Followers(ms + [m]) == if m.Follow? && m.node.Some? then Followers(ms) + [m.node.value] else Followers(ms)
  {
  }

  lemma {:induction false} MessageIn<R>(es: seq<Envelope<R>>, i: nat)
    requires i < |es|
    ensures es[i].message in Messages(es)
  {
    if i < |es| - 1 {
      MessageIn(es[..|es| - 1], i);
    }
  }

  lemma OneMoreParcel<R>(ps: seq<Parcel<R>>, p: Parcel<R>)
    ensures Contents(ps + [p]) + [] == Contents(ps) + p.entries
    ensures DroppedIn(ps + [p]) == if p.Dropped? then DroppedIn(ps) + p.entries else DroppedIn(ps)
  {
  }

  lemma {:induction false} EitherHandedOffOrDropped<R>(ps: seq<Parcel<R>>)
    ensures multiset(Contents(ps)) == multiset(HandedOffIn(ps)) + multiset(DroppedIn(ps))
    decreases |ps|
  {
    if ps != [] {
      EitherHandedOffOrDropped(ps[..|ps| - 1]);
    }
  }

  // ---------------------------------------------------------------- the books

  type Queues<R> = map<Channel, seq<Message<R>>>

  /** The channels after one more message, and after several. */
  function Posted<R>(q: Queues<R>, e: Envelope<R>): Queues<R> {
    q[e.channel := (if e.channel in q then q[e.channel] else []) + [e.message]]
  }

  function PostedAll<R>(q: Queues<R>, es: seq<Envelope<R>>): Queues<R> {
    if es == [] then q else Posted(PostedAll(q, es[..|es| - 1]), es[|es| - 1])
  }

  lemma OneMorePosted<R>(q: Queues<R>, es: seq<Envelope<R>>, k: nat)
    requires k < |es|
    ensures PostedAll(q, es[..k + 1]) == Posted(PostedAll(q, es[..k]), es[k])
  {
    assert es[..k + 1][..k] == es[..k];
  }

  lemma {:induction false} PostedConcat<R>(q: Queues<R>, a: seq<Envelope<R>>, b: seq<Envelope<R>>)
    ensures PostedAll(q, a + b) == PostedAll(PostedAll(q, a), b)
  {
    if b == [] {
      assert a + b == a;
    } else {
      var front := b[..|b| - 1];
      PostedConcat(q, a, front);
      assert (a + b)[..|a + b| - 1] == a + front;
    }
  }

  lemma {:induction false} PostedGrows<R>(q: Queues<R>, es: seq<Envelope<R>>, c: Channel)
    requires c in q
    ensures c in PostedAll(q, es) && q[c] <= PostedAll(q, es)[c]
  {
    if es != [] {
      PostedGrows(q, es[..|es| - 1], c);
    }
  }

  /** A channel is FIFO: what was sent is what was taken from it, then what still waits. */
  ghost predicate Fifo<R>(sent: Queues<R>, waiting: Queues<R>, taken: seq<Envelope<R>>, c: Channel) {
    c in sent && c in waiting && sent[c] == Of(taken, c) + waiting[c]
  }

  /** Both channels are FIFO, and every state request taken so far is, in the order taken, in a
      parcel or in `acc`. */
  ghost predicate Balanced<R>(
    sent: Queues<R>, waiting: Queues<R>, taken: seq<Envelope<R>>, parcels: seq<Parcel<R>>, acc: seq<R>)
  {
    && (forall c: Channel :: Fifo(sent, waiting, taken, c))
    && Contents(parcels) + acc == Requests(Messages(taken))
  }

  lemma {:induction false} RequestsConcat<R>(a: seq<Message<R>>, b: seq<Message<R>>)
    ensures Requests(a + b) == Requests(a) + Requests(b)
  {
    if b == [] {
      assert a + b == a;
    } else {
      var front := b[..|b| - 1];
      RequestsConcat(a, front);
      assert (a + b)[..|a + b| - 1] == a + front;
    }
  }

  lemma AddToEither<R>(all: seq<R>, a: seq<R>, b: seq<R>, more: R)
    requires multiset(all) == multiset(a) + multiset(b)
    ensures multiset(all + [more]) == multiset(a + [more]) + multiset(b)
    ensures multiset(all + [more]) == multiset(a) + multiset(b + [more])
  {
  }

  lemma OneMoreTaken<R>(m: Message<R>, all: seq<Message<R>>, mine: seq<Message<R>>, other: seq<Message<R>>)
    requires multiset(Requests(all)) == multiset(Requests(mine)) + multiset(Requests(other))
    ensures multiset(Requests(all + [m])) == multiset(Requests(mine + [m])) + multiset(Requests(other))
  {
    OneMoreRequest(all, m);
    OneMoreRequest(mine, m);
    if m.State? {
      AddToEither(Requests(all), Requests(mine), Requests(other), m.request);
    }
  }

  lemma {:induction false} TakenByChannel<R>(taken: seq<Envelope<R>>)
    ensures multiset(Requests(Messages(taken)))
         == multiset(Requests(Of(taken, Local))) + multiset(Requests(Of(taken, Remote)))
  {
    if taken != [] {
      var front, e := taken[..|taken| - 1], taken[|taken| - 1];
      TakenByChannel(front);
      if e.channel == Local {
        OneMoreTaken(e.message, Messages(front), Of(front, Local), Of(front, Remote));
      } else {
        OneMoreTaken(e.message, Messages(front), Of(front, Remote), Of(front, Local));
      }
    }
  }

  /** Conservation: every state request ever sent is still waiting in its channel, was handed off
      in a batch, was dropped with `acc`, or is in `acc`, exactly once. */
  lemma NothingUnaccounted<R>(
    sent: Queues<R>, waiting: Queues<R>, taken: seq<Envelope<R>>, parcels: seq<Parcel<R>>, acc: seq<R>)
    requires Balanced(sent, waiting, taken, parcels, acc)
    ensures Fifo(sent, waiting, taken, Local) && Fifo(sent, waiting, taken, Remote)
    ensures multiset(Requests(sent[Local])) + multiset(Requests(sent[Remote]))
         == multiset(HandedOffIn(parcels)) + multiset(DroppedIn(parcels)) + multiset(acc)
          + multiset(Requests(waiting[Local])) + multiset(Requests(waiting[Remote]))
  {
    TakenByChannel(taken);
    assert Fifo(sent, waiting, taken, Local) && Fifo(sent, waiting, taken, Remote);
    RequestsConcat(Of(taken, Local), waiting[Local]);
    RequestsConcat(Of(taken, Remote), waiting[Remote]);
    EitherHandedOffOrDropped(parcels);
  }

  ghost predicate EveryDropEmpty<R>(ps: seq<Parcel<R>>) {
    forall k :: 0 <= k < |ps| && ps[k].Dropped? ==> ps[k].entries == []
  }

  lemma {:induction false} NothingDroppedExactly<R>(ps: seq<Parcel<R>>)
    ensures DroppedIn(ps) == [] <==> EveryDropEmpty(ps)
    decreases |ps|
  {
    if ps != [] {
      var front, p := ps[..|ps| - 1], ps[|ps| - 1];
      NothingDroppedExactly(front);
      assert EveryDropEmpty(ps) <==> EveryDropEmpty(front) && (p.Dropped? ==> p.entries == []) by {
        assert ps == front + [p];
      }
    }
  }

  /** Exactly when no state request is lost before hand-off: every time the loop ended over a
      closed channel, `acc` was empty. */
  lemma NothingLostExactly<R>(
    sent: Queues<R>, waiting: Queues<R>, taken: seq<Envelope<R>>, parcels: seq<Parcel<R>>, acc: seq<R>)
    requires Balanced(sent, waiting, taken, parcels, acc)
    ensures Fifo(sent, waiting, taken, Local) && Fifo(sent, waiting, taken, Remote)
    ensures multiset(Requests(sent[Local])) + multiset(Requests(sent[Remote]))
         == multiset(HandedOffIn(parcels)) + multiset(acc)
          + multiset(Requests(waiting[Local])) + multiset(Requests(waiting[Remote]))
       <==> EveryDropEmpty(parcels)
  {
    NothingUnaccounted(sent, waiting, taken, parcels, acc);
    NothingDroppedExactly(parcels);
    var kept := multiset(HandedOffIn(parcels)) + multiset(acc)
      + multiset(Requests(waiting[Local])) + multiset(Requests(waiting[Remote]));
    var dropped := multiset(DroppedIn(parcels));
    assert multiset(Requests(sent[Local])) + multiset(Requests(sent[Remote])) == kept + dropped;
    assert |kept + dropped| == |kept| + |dropped| && |dropped| == |DroppedIn(parcels)|;
  }

  // ---------------------------------------------------------------- the loop

  /** What `select!` yields at the head of an iteration; a closed channel yields nothing and ends
      the loop. */
  datatype First = FromLocal | FromRemote | TimeoutFirst | ChannelIsClosed

  /** How an iteration ends: the loop goes on, is over, or the source panics. */
  datatype Next = GoesOn | LoopOver | Dies

  /** The order within one iteration: what `select!` yields, then the local channel, then the
      remote one. */
  ghost predicate InTurn<R>(first: First, due: seq<Envelope<R>>) {
    exists k: nat :: SplitsAt(first, due, k)
  }

  ghost predicate SplitsAt<R>(first: First, due: seq<Envelope<R>>, k: nat) {
    var start := if first in {FromLocal, FromRemote} then 1 else 0;
    && start <= k <= |due|
    && (first == FromLocal ==> due[0].channel == Local)
    && (first == FromRemote ==> due[0].channel == Remote)
    && (forall i :: start <= i < k ==> due[i].channel == Local)
    && (forall i :: k <= i < |due| ==> due[i].channel == Remote)
  }

  lemma AccAfter<R>(out: seq<R>, acc: seq<R>, acc': seq<R>, handled: seq<Message<R>>, more: seq<Message<R>>)
    requires out + acc == Requests(handled)
    requires out + acc' == Requests(handled + more)
    ensures acc' == acc + Requests(more)
  {
    RequestsConcat(handled, more);
    assert out + acc' == out + (acc + Requests(more));
    assert acc' == (out + acc')[|out|..] && acc + Requests(more) == (out + (acc + Requests(more)))[|out|..];
  }

  /** The books of the loop. */
  datatype Ledger<R> = Ledger(
    sent: Queues<R>, waiting: Queues<R>, taken: seq<Envelope<R>>, parcels: seq<Parcel<R>>, acc: seq<R>)

  /** What was sent meanwhile is a beginning of `arrivals`, then a beginning of `later`. */
  ghost predicate Arrived<R>(before: Queues<R>, after: Queues<R>, arrivals: seq<Envelope<R>>, later: seq<Envelope<R>>) {
    exists j, k :: 0 <= j <= |arrivals| && 0 <= k <= |later| && ArrivedUpTo(before, after, arrivals, j, later, k)
  }

  ghost predicate ArrivedUpTo<R>(
    before: Queues<R>, after: Queues<R>, arrivals: seq<Envelope<R>>, j: nat, later: seq<Envelope<R>>, k: nat)
  {
    j <= |arrivals| && k <= |later| && after == PostedAll(PostedAll(before, arrivals[..j]), later[..k])
  }

  /** Everything that waited in a channel is among what is due, in order and before anything else of
      that channel. */
  ghost predicate TakesAll<R>(waiting: Queues<R>, due: seq<Envelope<R>>) {
    forall c: Channel :: c in waiting && waiting[c] <= Of(due, c)
  }

  lemma TakesChannel<R>(
    sent: Queues<R>, waiting: Queues<R>, taken: seq<Envelope<R>>, sent': Queues<R>, waiting': Queues<R>,
    due: seq<Envelope<R>>, c: Channel)
    requires Fifo(sent, waiting, taken, c) && Fifo(sent', waiting', taken + due, c)
    requires sent[c] <= sent'[c] && waiting'[c] == []
    ensures waiting[c] <= Of(due, c)
  {
    OfConcat(taken, due, c);
    assert Of(taken, c) + waiting[c] <= Of(taken, c) + Of(due, c);
    var n := |Of(taken, c)|;
    assert (Of(taken, c) + Of(due, c))[n..] == Of(due, c) && (Of(taken, c) + waiting[c])[n..] == waiting[c];
  }

  /** Both drains together take everything that waited before them. */
  lemma TakesBoth<R>(
    a: Ledger<R>, sent1: Queues<R>, waiting1: Queues<R>, sent2: Queues<R>, waiting2: Queues<R>,
    due: seq<Envelope<R>>, more: seq<Envelope<R>>, arrivals: seq<Envelope<R>>, later: seq<Envelope<R>>)
    requires forall c: Channel :: Fifo(a.sent, a.waiting, a.taken, c)
    requires Fifo(sent1, waiting1, a.taken + due, Local) && waiting1[Local] == []
    requires Fifo(sent2, waiting2, a.taken + (due + more), Remote) && waiting2[Remote] == []
    requires sent1 == PostedAll(a.sent, arrivals) && sent2 == PostedAll(sent1, later)
    ensures TakesAll(a.waiting, due + more)
  {
    forall c: Channel ensures c in a.waiting && a.waiting[c] <= Of(due + more, c) {
      assert Fifo(a.sent, a.waiting, a.taken, c);
      PostedGrows(a.sent, arrivals, c);
      PostedGrows(sent1, later, c);
      if c == Local {
        TakesChannel(a.sent, a.waiting, a.taken, sent1, waiting1, due, Local);
        OfConcat(due, more, Local);
      } else {
        TakesChannel(a.sent, a.waiting, a.taken, sent2, waiting2, due + more, Remote);
      }
    }
  }

  /** What one iteration does. A closed channel ends the loop and drops `acc`. Otherwise everything
      that waited is taken, the selected message first, then the local and the remote channel, until
      the remote channel is empty; the requests among it join `acc`, which is handed off exactly when
      the interval is over or it exceeds the batch size. The source panics exactly over a `Follow`
      without a node identity. */
  ghost predicate Iterated<R>(
    min: nat, first: First, arrivals: seq<Envelope<R>>, later: seq<Envelope<R>>, intervalOver: bool,
    a: Ledger<R>, b: Ledger<R>, next: Next)
  {
    if first == ChannelIsClosed then
      next == LoopOver && b == a.(acc := [], parcels := a.parcels + [Dropped(a.acc)])
    else
      && a.taken <= b.taken
      && Arrived(a.sent, b.sent, arrivals, later)
      && var due := b.taken[|a.taken|..];
      && InTurn(first, due) && TakesAll(a.waiting, due)
      && Remote in b.waiting && b.waiting[Remote] == []
      && (next == Dies <==> Follow(None) in Messages(due)) && next != LoopOver
      && (next == GoesOn ==>
            var all := a.acc + Requests(Messages(due));
            if intervalOver || |all| > min
            then b.parcels == a.parcels + [HandedOff(all)] && b.acc == []
            else b.parcels == a.parcels && b.acc == all)
  }

  /** What the environment does around one iteration. */
  datatype Turn<R> = Turn(
    before: seq<Envelope<R>>, first: First, arrivals: seq<Envelope<R>>, later: seq<Envelope<R>>, intervalOver: bool)

  /** The books once the messages before the turn are sent. */
  ghost function Before<R>(t: Turn<R>, a: Ledger<R>): Ledger<R> {
    a.(sent := PostedAll(a.sent, t.before), waiting := PostedAll(a.waiting, t.before))
  }

  /** `select!` yields nothing from an empty channel before the timeout. */
  function Yielded<R>(t: Turn<R>, waiting: Queues<R>): First {
    var c := if t.first == FromRemote then Remote else Local;
    if t.first in {FromLocal, FromRemote} && (c !in waiting || waiting[c] == []) then TimeoutFirst else t.first
  }

  ghost predicate TurnDone<R>(min: nat, t: Turn<R>, a: Ledger<R>, b: Ledger<R>, next: Next) {
    var mid := Before(t, a);
    Iterated(min, Yielded(t, mid.waiting), t.arrivals, t.later, t.intervalOver, mid, b, next)
  }

  ghost predicate TurnsDone<R>(min: nat, turns: seq<Turn<R>>, books: seq<Ledger<R>>) {
    |books| <= |turns| + 1 && forall i :: 0 <= i < |books| - 1 ==>
      TurnDone(min, turns[i], books[i], books[i + 1], if turns[i].first == ChannelIsClosed then LoopOver else GoesOn)
  }

  class LeaderLoop<R> {
    /** What waits in each channel. */
    var waiting: Queues<R>
    var acc: seq<R>
    var followers: seq<NodeId>
    const batchMinCount: nat
    ghost var sent: Queues<R>
    /** Everything taken from the channels, and the part of it processed so far. */
    ghost var taken: seq<Envelope<R>>
    ghost var handled: seq<Message<R>>
    /** What has left `acc`, and how. */
    ghost var parcels: seq<Parcel<R>>

    ghost function View(): Ledger<R> reads this {
      Ledger(sent, waiting, taken, parcels, acc)
    }

    ghost predicate Channels() reads this {
      forall c: Channel :: Fifo(sent, waiting, taken, c)
    }

    ghost predicate Books() reads this {
      Contents(parcels) + acc == Requests(handled) && followers == Followers(handled)
    }

    /** Holds at the head of the loop. */
    ghost predicate Valid() reads this {
      && Balanced(sent, waiting, taken, parcels, acc)
      && handled == Messages(taken)
      && followers == Followers(handled)
      && |acc| <= batchMinCount
      && Follow(None) !in Messages(taken)
    }

    constructor (batchMinCount: nat)
      ensures Valid() && this.batchMinCount == batchMinCount
      ensures sent == map[Local := [], Remote := []] && taken == [] && parcels == []
    {
      waiting, acc, followers, this.batchMinCount := map[Local := [], Remote := []], [], [], batchMinCount;
      sent, taken, handled, parcels := map[Local := [], Remote := []], [], [], [];
      new;
      forall c: Channel ensures Fifo(sent, waiting, taken, c) {
        match c case Local => case Remote =>
      }
    }

    /** A sender puts a message into a channel. */
    method Send(e: Envelope<R>)
      requires Channels()
      modifies this`waiting, this`sent
      ensures Channels()
      ensures sent == Posted(old(sent), e) && waiting == Posted(old(waiting), e)
    {
      var c := e.channel;
      assert Fifo(sent, waiting, taken, c);
      assert sent[c] + [e.message] == Of(taken, c) + (waiting[c] + [e.message]);
      sent, waiting := sent[c := sent[c] + [e.message]], waiting[c := waiting[c] + [e.message]];
      forall d: Channel ensures Fifo(sent, waiting, taken, d) {
        assert Fifo(old(sent), old(waiting), taken, d);
      }
    }

    /** `recv` / `try_recv` of a non-empty channel. */
    method Receive(c: Channel) returns (e: Envelope<R>)
      requires Channels() && c in waiting && waiting[c] != []
      modifies this`waiting, this`taken
      ensures Channels() && e.channel == c
      ensures taken == old(taken) + [e]
      ensures waiting == old(waiting)[c := old(waiting)[c][1..]]
    {
      e := Envelope(c, waiting[c][0]);
      ghost var before := taken;
      taken, waiting := taken + [e], waiting[c := waiting[c][1..]];
      forall d: Channel ensures Fifo(sent, waiting, taken, d) {
        assert Fifo(sent, old(waiting), before, d);
        OneMoreOf(before, e, d);
        if d == c {
          assert Of(before, c) + old(waiting)[c] == (Of(before, c) + [e.message]) + waiting[c];
        }
      }
    }

    /** `while let Ok(msg) = ...try_recv()`: takes what waits, and what arrives meanwhile. */
    method Drain(c: Channel, arrivals: seq<Envelope<R>>) returns (due: seq<Envelope<R>>, ghost arrived: nat)
      requires Channels()
      modifies this`waiting, this`sent, this`taken
      ensures Channels() && taken == old(taken) + due
      ensures forall i :: 0 <= i < |due| ==> due[i].channel == c
      ensures c in waiting && waiting[c] == []
      ensures arrived <= |arrivals| && sent == PostedAll(old(sent), arrivals[..arrived])
    {
      due := [];
      var k := 0;
      assert Fifo(sent, waiting, taken, c);
      while true
        invariant k <= |arrivals| && Channels() && taken == old(taken) + due && c in waiting
        invariant forall i :: 0 <= i < |due| ==> due[i].channel == c
        invariant sent == PostedAll(old(sent), arrivals[..k])
        decreases |arrivals| - k, |waiting[c]|
      {
        if k < |arrivals| {
          OneMorePosted(old(sent), arrivals, k);
          Send(arrivals[k]);
          k := k + 1;
        }
        if waiting[c] == [] {
          arrived := k;
          return;
        }
        var e := Receive(c);
        due := due + [e];
      }
    }

    /** What the loop does with one message. `false` when the source panics, over a `Follow`
        without a node identity. */
    method Handle(m: Message<R>) returns (goesOn: bool)
      requires Books()
      modifies this`acc, this`followers, this`handled
      ensures Books()
      ensures goesOn <==> m != Follow(None)
      ensures goesOn ==> handled == old(handled) + [m]
    {
      OneMoreRequest(handled, m);
      goesOn := m != Follow(None);
      if goesOn {
        match m {
          case State(request) =>
            assert Contents(parcels) + (acc + [request]) == (Contents(parcels) + acc) + [request];
            acc := acc + [request];
          case Follow(node) =>
            followers := followers + [node.value];
          case _ =>
        }
        handled := handled + [m];
      }
    }

    method Process(due: seq<Envelope<R>>) returns (goesOn: bool)
      requires Books()
      modifies this`acc, this`followers, this`handled
      ensures Books()
      ensures goesOn <==> Follow(None) !in Messages(due)
      ensures goesOn ==> handled == old(handled) + Messages(due)
      ensures goesOn ==> acc == old(acc) + Requests(Messages(due))
    {
      for i := 0 to |due|
        invariant Books() && handled == old(handled) + Messages(due[..i])
        invariant Follow(None) !in Messages(due[..i])
      {
        assert due[..i + 1][..i] == due[..i];
        MessageIn(due, i);
        var ok := Handle(due[i].message);
        if !ok {
          return false;
        }
      }
      assert due[..|due|] == due;
      AccAfter(Contents(parcels), old(acc), acc, old(handled), Messages(due));
      return true;
    }

    method FlushIfDue(intervalOver: bool)
      requires Books()
      modifies this`acc, this`parcels
      ensures Books() && |acc| <= batchMinCount
      ensures intervalOver || |old(acc)| > batchMinCount ==> parcels == old(parcels) + [HandedOff(old(acc))] && acc == []
      ensures !intervalOver && |old(acc)| <= batchMinCount ==> parcels == old(parcels) && acc == old(acc)
    {
      if intervalOver || |acc| > batchMinCount {
        OneMoreParcel(parcels, HandedOff(acc));
        parcels, acc := parcels + [HandedOff(acc)], [];
      }
    }

    /** The loop ends over a closed channel: `acc` is dropped with it, and `start` enters the loop
        again with an empty one. What is lost is exactly what `acc` held. */
    method Leave()
      requires Books()
      modifies this`acc, this`parcels
      ensures Books() && acc == [] && parcels == old(parcels) + [Dropped(old(acc))]
      ensures DroppedIn(parcels) == DroppedIn(old(parcels)) + old(acc)
    {
      OneMoreParcel(parcels, Dropped(acc));
      parcels, acc := parcels + [Dropped(acc)], [];
    }

    /** One iteration of the loop: what `select!` yields, what senders add while the channels are
        drained, and whether the flush interval is over are up to the environment. */
    method Iterate(first: First, arrivals: seq<Envelope<R>>, later: seq<Envelope<R>>, intervalOver: bool)
      returns (next: Next)
      requires Valid()
      requires first == FromLocal ==> Local in waiting && waiting[Local] != []
      requires first == FromRemote ==> Remote in waiting && waiting[Remote] != []
      modifies this
      ensures next != Dies ==> Valid()
      ensures Iterated(batchMinCount, first, arrivals, later, intervalOver, old(View()), View(), next)
      ensures next == Dies ==> Follow(None) in Messages(taken)
    {
      if first == ChannelIsClosed {
        Leave();
        return LoopOver;
      }
      var due := Gather(first, arrivals, later);
      assert taken[|old(taken)|..] == due;
      MessagesConcat(old(taken), due);
      var ok := Process(due);
      if !ok {
        return Dies;
      }
      FlushIfDue(intervalOver);
      return GoesOn;
    }

    /** Everything that is due in this iteration. */
    method Gather(first: First, arrivals: seq<Envelope<R>>, later: seq<Envelope<R>>) returns (due: seq<Envelope<R>>)
      requires Channels()
      requires first == FromLocal ==> Local in waiting && waiting[Local] != []
      requires first == FromRemote ==> Remote in waiting && waiting[Remote] != []
      modifies this`waiting, this`sent, this`taken
      ensures Channels() && taken == old(taken) + due && InTurn(first, due)
      ensures TakesAll(old(waiting), due) && Remote in waiting && waiting[Remote] == []
      ensures Arrived(old(sent), sent, arrivals, later)
    {
      due := [];
      if first in {FromLocal, FromRemote} {
        var e := Receive(if first == FromLocal then Local else Remote);
        due := [e];
      }
      ghost var start := |due|;
      var locals, j := Drain(Local, arrivals);
      due := due + locals;
      assert taken == old(taken) + due && Fifo(sent, waiting, taken, Local);
      ghost var due1, sent1, waiting1 := due, sent, waiting;
      var remotes, k := Drain(Remote, later);
      due := due + remotes;
      assert taken == old(taken) + due && Fifo(sent, waiting, taken, Remote);
      assert SplitsAt(first, due, start + |locals|);
      assert ArrivedUpTo(old(sent), sent, arrivals, j, later, k);
      TakesBoth(old(View()), sent1, waiting1, sent, waiting, due1, remotes, arrivals[..j], later[..k]);
    }

    /** The loop, entered again by `start` whenever it ends, over any finite supply of turns. Each
        turn does what `Iterated` says, until the source panics, which it does exactly over a `Follow`
        without a node identity. At the end every state request ever sent waits, was handed off, is in
        `acc`, or was dropped, exactly once; and none was dropped exactly when `acc` was empty each
        time the loop ended. */
    method Run(turns: seq<Turn<R>>) returns (alive: bool, ghost books: seq<Ledger<R>>)
      requires Valid()
      modifies this
      ensures books != [] && books[0] == old(View()) && TurnsDone(batchMinCount, turns, books)
      ensures alive <==> Follow(None) !in Messages(taken)
      ensures alive ==> |books| == |turns| + 1 && books[|turns|] == View()
      ensures alive ==>
        && Valid() && Local in sent && Remote in sent && Local in waiting && Remote in waiting
        && multiset(Requests(sent[Local])) + multiset(Requests(sent[Remote]))
        == multiset(HandedOffIn(parcels)) + multiset(DroppedIn(parcels)) + multiset(acc)
         + multiset(Requests(waiting[Local])) + multiset(Requests(waiting[Remote]))
      ensures alive ==> (DroppedIn(parcels) == [] <==> EveryDropEmpty(parcels))
    {
      books := [View()];
      for i := 0 to |turns|
        invariant Valid() && |books| == i + 1 && books[0] == old(View()) && books[i] == View()
        invariant TurnsDone(batchMinCount, turns, books)
      {
        var t := turns[i];
        SendAll(t.before);
        assert Fifo(sent, waiting, taken, Local) && Fifo(sent, waiting, taken, Remote);
        var next := Iterate(Yielded(t, waiting), t.arrivals, t.later, t.intervalOver);
        if next == Dies {
          return false, books;
        }
        books := books + [View()];
      }
      NothingUnaccounted(sent, waiting, taken, parcels, acc);
      NothingDroppedExactly(parcels);
      return true, books;
    }

    method SendAll(es: seq<Envelope<R>>)
      requires Valid()
      modifies this`waiting, this`sent
      ensures Valid()
      ensures sent == PostedAll(old(sent), es) && waiting == PostedAll(old(waiting), es)
    {
      for i := 0 to |es|
        invariant Valid()
        invariant sent == PostedAll(old(sent), es[..i]) && waiting == PostedAll(old(waiting), es[..i])
      {
        OneMorePosted(old(sent), es, i);
        OneMorePosted(old(waiting), es, i);
        Send(es[i]);
      }
      assert es[..|es|] == es;
    }
  }
}
