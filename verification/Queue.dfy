/** The follower's intake queue: src/sync_queue.rs and the admission test of `follower_loop`. */
module Queue {
  import opened Words

  datatype Request<B> = Request(commitIndex: U64, batch: B)

  /** The queue together with what has already been popped from it. */
  datatype Intake<B> = Intake(popped: seq<Request<B>>, queued: seq<Request<B>>, last: U64)
  {
    /** Everything ever accepted, in order. */
    function Accepted(): seq<Request<B>> { popped + queued }
  }

  function EmptyIntake<B>(): Intake<B> {
    Intake([], [], 0)
  }

  /** `put`: stores only when the queue already holds at least `size` requests. */
  function AfterPut<B>(q: Intake<B>, size: nat, r: Request<B>): Intake<B> {
    if |q.queued| >= size then q.(queued := q.queued + [r], last := r.commitIndex) else q
  }

  function AfterPop<B>(q: Intake<B>): Intake<B> {
    if q.queued == [] then q else q.(popped := q.popped + [q.queued[0]], queued := q.queued[1..])
  }

  /** `follower_loop`: only the request after the last received one is offered to the queue. */
  function Offer<B>(q: Intake<B>, size: nat, r: Request<B>): Intake<B> {
    if r.commitIndex == Wrap64(q.last + 1) then AfterPut(q, size, r) else q
  }

  class ReplicateQueue<B> {
    var queue: seq<Request<B>>
    const size: nat
    var lastReceivedIndex: U64
    ghost var popped: seq<Request<B>>

    ghost function View(): Intake<B> reads this {
      Intake(popped, queue, lastReceivedIndex)
    }

    constructor (size: nat)
      ensures View() == EmptyIntake() && this.size == size
    {
      queue, this.size, lastReceivedIndex, popped := [], size, 0, [];
    }

    method Put(r: Request<B>)
      modifies this
      ensures View() == AfterPut(old(View()), size, r)
    {
      if |queue| >= size {
        lastReceivedIndex := r.commitIndex;
        queue := queue + [r];
      }
    }

    method Pop() returns (r: Option<Request<B>>)
      modifies this
      ensures View() == AfterPop(old(View()))
      ensures r == if old(queue) == [] then None else Some(old(queue)[0])
      ensures View().Accepted() == old(View().Accepted())
    {
      if queue == [] {
        return None;
      }
      PopKeepsAccepted(View());
      r := Some(queue[0]);
      popped := popped + [queue[0]];
      queue := queue[1..];
    }
  }

  lemma PopKeepsAccepted<B>(q: Intake<B>)
    ensures AfterPop(q).Accepted() == q.Accepted()
  {
  }

  // ---------------------------------------------------------------- runs

  datatype Event<B> = Arrive(request: Request<B>) | PopOne

  function Step<B>(q: Intake<B>, size: nat, e: Event<B>): Intake<B> {
    match e
    case Arrive(r) => Offer(q, size, r)
    case PopOne => AfterPop(q)
  }

  function Run<B>(size: nat, events: seq<Event<B>>): Intake<B> {
    if events == [] then EmptyIntake()
    else Step(Run(size, events[..|events| - 1]), size, events[|events| - 1])
  }

  ghost predicate InOrder<B>(q: Intake<B>) {
    && q.last == Wrap64(|q.Accepted()|)
    && forall k :: 0 <= k < |q.Accepted()| ==> q.Accepted()[k].commitIndex == Wrap64(k + 1)
  }

  /** What one event adds to the accepted requests. */
  lemma StepAccepts<B>(q: Intake<B>, size: nat, e: Event<B>)
    requires InOrder(q)
    ensures var q', a := Step(q, size, e), q.Accepted();
      if e.Arrive? && e.request.commitIndex == Wrap64(|a| + 1) && |q.queued| >= size
      then q'.Accepted() == a + [e.request] && q'.last == Wrap64(|a| + 1)
      else q'.Accepted() == a && q'.last == q.last
  {
    PopKeepsAccepted(q);
    WrapNext64(|q.Accepted()|);
    if e.Arrive? {
      assert q.popped + (q.queued + [e.request]) == q.Accepted() + [e.request];
    }
  }

  /** Over every run of arrivals, duplicates, refusals and pops, the accepted requests carry the
      commit indices 1, 2, 3, ... in order and the acknowledged index is their number (modulo
      2^64, where the counter wraps). */
  lemma {:induction false} AcceptedInOrder<B>(size: nat, events: seq<Event<B>>)
    ensures InOrder(Run(size, events))
  {
    if events != [] {
      AcceptedInOrder(size, events[..|events| - 1]);
      StepAccepts(Run(size, events[..|events| - 1]), size, events[|events| - 1]);
    }
  }

  /** One more event never takes anything back. */
  lemma AcceptedOnlyGrows<B>(size: nat, events: seq<Event<B>>, e: Event<B>)
    ensures Run(size, events).Accepted() <= Run(size, events + [e]).Accepted()
  {
  }

  /** Pops take the accepted requests from the front, one at a time and as long as there are any. */
  lemma PopsExactly<B>(size: nat, events: seq<Event<B>>)
    ensures var q, q' := Run(size, events), Run(size, events + [PopOne]);
      && q'.Accepted() == q.Accepted()
      && |q'.popped| == Min(|q.popped| + 1, |q.Accepted()|)
      && q'.popped == q.Accepted()[..|q'.popped|] && q'.queued == q.Accepted()[|q'.popped|..]
  {
    assert (events + [PopOne])[..|events|] == events;
    PopKeepsAccepted(Run(size, events));
  }

  // ---------------------------------------------------------------- which requests are accepted

  /** The requests of `events` that continue the sequence 1, 2, 3, ... */
  function Greedy<B>(events: seq<Event<B>>): seq<Request<B>> {
    if events == [] then []
    else
      var taken, e := Greedy(events[..|events| - 1]), events[|events| - 1];
      if e.Arrive? && e.request.commitIndex == Wrap64(|taken| + 1) then taken + [e.request] else taken
  }

  /** A queue created with a positive size never accepts anything; one of size zero accepts
      exactly the requests that continue the sequence. */
  lemma {:induction false} AcceptedExactly<B>(size: nat, events: seq<Event<B>>)
    ensures Run(size, events).Accepted() == if size == 0 then Greedy(events) else []
  {
    if events != [] {
      var front, e := events[..|events| - 1], events[|events| - 1];
      AcceptedExactly(size, front);
      AcceptedInOrder(size, front);
      StepAccepts(Run(size, front), size, e);
    }
  }

  /** `at` picks, in order, arrivals with commit indices 1 to |at|. */
  ghost predicate IsChain<B>(events: seq<Event<B>>, at: seq<nat>) {
    && (forall k :: 0 <= k < |at| ==> at[k] < |events| && events[at[k]].Arrive?)
    && (forall k :: 0 <= k < |at| ==> events[at[k]].request.commitIndex == Wrap64(k + 1))
    && (forall j, k :: 0 <= j < k < |at| ==> at[j] < at[k])
  }

  /** Nothing is missed: the greedy choice is at least as long as any in-order chain of arrivals. */
  lemma {:induction false} GreedyIsLongest<B>(events: seq<Event<B>>, at: seq<nat>)
    requires IsChain(events, at)
    ensures |at| <= |Greedy(events)|
  {
    if at != [] {
      var n := |at|;
      assert at[n - 1] < |events|;
      var front := events[..|events| - 1];
      if at[n - 1] == |events| - 1 {
        GreedyIsLongest(front, at[..n - 1]);
      } else {
        GreedyIsLongest(front, at);
      }
    }
  }

  // ---------------------------------------------------------------- two followers

  /** Every request for index `i` carries the batch the log holds at `i`. */
  ghost predicate Faithful<B>(events: seq<Event<B>>, log: U64 -> B) {
    forall k :: 0 <= k < |events| && events[k].Arrive? ==> events[k].request.batch == log(events[k].request.commitIndex)
  }

  ghost predicate FollowsLog<B>(a: seq<Request<B>>, log: U64 -> B) {
    forall k :: 0 <= k < |a| ==> a[k].commitIndex == Wrap64(k + 1) && a[k].batch == log(Wrap64(k + 1))
  }

  lemma {:induction false} AcceptedFollowsLog<B>(size: nat, events: seq<Event<B>>, log: U64 -> B)
    requires Faithful(events, log)
    ensures FollowsLog(Run(size, events).Accepted(), log)
  {
    if events != [] {
      var front, e := events[..|events| - 1], events[|events| - 1];
      AcceptedFollowsLog(size, front, log);
      AcceptedInOrder(size, front);
      StepAccepts(Run(size, front), size, e);
    }
  }

  /** Two followers of one log agree: whatever is lost, repeated or reordered on the way to each,
      one accepted sequence is a prefix of the other. */
  lemma FollowersAgree<B>(size: nat, events: seq<Event<B>>, size': nat, events': seq<Event<B>>, log: U64 -> B)
    requires Faithful(events, log) && Faithful(events', log)
    ensures var a, b := Run(size, events).Accepted(), Run(size', events').Accepted(); a <= b || b <= a
  {
    AcceptedFollowsLog(size, events, log);
    AcceptedFollowsLog(size', events', log);
    var a, b := Run(size, events).Accepted(), Run(size', events').Accepted();
    forall k | 0 <= k < |a| && k < |b| ensures a[k] == b[k] {
    }
    if |a| <= |b| {
      assert a == b[..|a|];
    } else {
      assert b == a[..|b|];
    }
  }
}
