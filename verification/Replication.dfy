/** Followers of one group over the shared log: what the leader's log holds at the time of sending
    is what every follower accepts, whenever it is sent. */
module Replication {
  import opened Words
  import opened Log
  import C = Cluster
  import Q = Queue

  /** Every arrival at index `i` carries what the log held at `i` at some moment of the run. */
  ghost predicate SentFromLog(g: string, s0: C.State, run: seq<C.Action>, events: seq<Q.Event<C.Value>>) {
    forall k :: 0 <= k < |events| && events[k].Arrive? ==> ReadAtSomeTime(g, s0, run, events[k].request)
  }

  ghost predicate ReadAtSomeTime(g: string, s0: C.State, run: seq<C.Action>, r: Q.Request<C.Value>) {
    exists t: nat :: t <= |run| && HeldAt(g, s0, run[..t], r)
  }

  ghost predicate HeldAt(g: string, s0: C.State, past: seq<C.Action>, r: Q.Request<C.Value>) {
    var l := AbstractLog(C.Run(g, s0, past).objects, g);
    r.commitIndex in l && l[r.commitIndex] == r.batch
  }

  lemma {:induction false} HeldForGood(g: string, s0: C.State, past: seq<C.Action>, more: seq<C.Action>, r: Q.Request<C.Value>)
    requires HeldAt(g, s0, past, r)
    ensures HeldAt(g, s0, past + more, r)
  {
    if more == [] {
      assert past + more == past;
    } else {
      var front, a := more[..|more| - 1], more[|more| - 1];
      HeldForGood(g, s0, past, front, r);
      assert (past + more)[..|past + more| - 1] == past + front;
      C.StepWritesOnce(g, C.Run(g, s0, past + front), a, r.commitIndex);
    }
  }

  /** The log at the end of a run, as a total function. */
  ghost function FinalLog(g: string, s0: C.State, run: seq<C.Action>): U64 -> C.Value {
    var l := AbstractLog(C.Run(g, s0, run).objects, g);
    (i: U64) => if i in l then l[i] else C.NO_VALUE
  }

  /** The environment assumption of the queue follows from the write-once log. */
  lemma SentFromLogIsFaithful(g: string, s0: C.State, run: seq<C.Action>, events: seq<Q.Event<C.Value>>)
    requires SentFromLog(g, s0, run, events)
    ensures Q.Faithful(events, FinalLog(g, s0, run))
  {
    forall k | 0 <= k < |events| && events[k].Arrive?
      ensures events[k].request.batch == FinalLog(g, s0, run)(events[k].request.commitIndex)
    {
      var r := events[k].request;
      assert ReadAtSomeTime(g, s0, run, r);
      var t: nat :| t <= |run| && HeldAt(g, s0, run[..t], r);
      HeldForGood(g, s0, run[..t], run[t..], r);
      assert run[..t] + run[t..] == run;
    }
  }

  /** For every run of the group and any two followers, whatever is lost, repeated, reordered or
      sent at different times: one accepted sequence is a prefix of the other. */
  lemma FollowersOfOneLogAgree(
    g: string, s0: C.State, run: seq<C.Action>,
    size: nat, events: seq<Q.Event<C.Value>>, size': nat, events': seq<Q.Event<C.Value>>)
    requires SentFromLog(g, s0, run, events) && SentFromLog(g, s0, run, events')
    ensures var a, b := Q.Run(size, events).Accepted(), Q.Run(size', events').Accepted(); a <= b || b <= a
  {
    SentFromLogIsFaithful(g, s0, run, events);
    SentFromLogIsFaithful(g, s0, run, events');
    Q.FollowersAgree(size, events, size', events', FinalLog(g, s0, run));
  }
}
