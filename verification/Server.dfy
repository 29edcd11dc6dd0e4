/** Who may bind and accept: the atomic state word of src/network/server.rs and every interleaving
    of `start`, `do_serve` and `close` over it. */
module Server {
  import opened Words

  datatype ServerState = NotBound | Binding | Ready | Closed

  function Encode(w: ServerState): Byte {
    match w
    case NotBound => 0
    case Binding => 1
    case Ready => 2
    case Closed => 3
  }

  function Decode(b: Byte): ServerState {
    if b == 0 then NotBound else if b == 1 then Binding else if b == 2 then Ready else Closed
  }

  /** `compare_exchange`: whether it succeeds, and the state afterwards. */
  function Exchange(word: ServerState, current: ServerState, new_: ServerState): (bool, ServerState) {
    if word == current then (true, new_) else (false, word)
  }

  class AtomicServerState {
    var word: Byte

    ghost predicate Valid() reads this {
      Encode(Decode(word)) == word
    }

    constructor ()
      ensures Valid() && Decode(word) == NotBound
    {
      word := Encode(NotBound);
    }

    method Load() returns (w: ServerState)
      requires Valid()
      ensures w == Decode(word) && word == Encode(w)
    {
      w := Decode(word);
    }

    method Store(w: ServerState)
      modifies this
      ensures Valid() && Decode(word) == w
    {
      word := Encode(w);
    }

    method CompareAndExchange(current: ServerState, new_: ServerState) returns (ok: bool)
      requires Valid()
      modifies this
      ensures Valid()
      ensures (ok, Decode(word)) == Exchange(Decode(old(word)), current, new_)
    {
      ok := word == Encode(current);
      if ok {
        word := Encode(new_);
      }
    }
  }

  // ---------------------------------------------------------------- interleavings

  /** Where a call of `start`, its serving task, or a call of `close` stands. */
  datatype Task =
    | StartBinding      // start: exchanged NotBound for Binding, waiting for the listener
    | StartBound        // start: has the listener, has not stored Ready
    | Accepting         // do_serve: in its accept loop
    | AcceptEnded       // do_serve: accept loop over, Ready not yet exchanged
    | Released          // do_serve: exchanged Ready for NotBound
    | Rebinding         // do_serve: exchanged NotBound for Binding again
    | Rebound           // do_serve: has the new listener, has not stored Ready
    | RebindFailed      // do_serve: has not stored Closed yet
    | Closing           // close: has seen a state other than Closed
    | Finished

  datatype State = State(word: ServerState, tasks: seq<Task>)

  datatype Action =
    | CallStart
    | CallClose
    | BindSucceeds(t: nat)
    | BindFails(t: nat)
    | StoresReady(t: nat)
    | StoresClosed(t: nat)
    | AcceptEnds(t: nat)
    | Releases(t: nat)
    | Reacquires(t: nat)
    | Cancelled(t: nat)

  const INITIAL := State(NotBound, [])

  /** The task and the word after one step of a task. A task is dropped only where it awaits: in
      a bind or in the accept loop. */
  function TaskStep(word: ServerState, task: Task, a: Action): (Task, ServerState) {
    match (a, task)
    case (BindSucceeds(_), StartBinding) => (StartBound, word)
    case (BindSucceeds(_), Rebinding) => (Rebound, word)
    case (BindFails(_), StartBinding) => (Finished, word)
    case (BindFails(_), Rebinding) => (RebindFailed, word)
    case (StoresReady(_), StartBound) => (Accepting, Ready)
    case (StoresReady(_), Rebound) => (Accepting, Ready)
    case (StoresClosed(_), RebindFailed) => (Finished, Closed)
    case (StoresClosed(_), Closing) => (Finished, Closed)
    case (AcceptEnds(_), Accepting) => (AcceptEnded, word)
    case (Releases(_), AcceptEnded) =>
      var (ok, after) := Exchange(word, Ready, NotBound);
      (if ok then Released else Finished, after)
    case (Reacquires(_), Released) =>
      var (ok, after) := Exchange(word, NotBound, Binding);
      (if ok then Rebinding else Finished, after)
    case (Cancelled(_), StartBinding) => (Finished, word)
    case (Cancelled(_), Accepting) => (Finished, word)
    case (Cancelled(_), Rebinding) => (Finished, word)
    case _ => (task, word)
  }

  function Step(s: State, a: Action): State {
    match a
    case CallStart =>
      var (ok, word) := Exchange(s.word, NotBound, Binding);
      State(word, if ok then s.tasks + [StartBinding] else s.tasks)
    case CallClose => if s.word == Closed then s else s.(tasks := s.tasks + [Closing])
    case _ =>
      if a.t < |s.tasks| then
        var (task, word) := TaskStep(s.word, s.tasks[a.t], a);
        State(word, s.tasks[a.t := task])
      else s
  }

  function Run(s: State, actions: seq<Action>): State {
    if actions == [] then s else Step(Run(s, actions[..|actions| - 1]), actions[|actions| - 1])
  }

  // ---------------------------------------------------------------- what each step does to the word

  ghost predicate At(s: State, t: nat, where: set<Task>) {
    t < |s.tasks| && s.tasks[t] in where
  }

  /** Exactly when a step gives the word each of its values: `Binding` is taken from `NotBound`, by
      a start or by a task that rebinds; `Ready` is stored by a task that has bound; `NotBound` is
      given back from `Ready` by a task whose accept loop ended; `Closed` is stored by a close or
      after a failed rebind. Every other step leaves the word alone. */
  lemma WordChangesExactly(s: State, a: Action)
    ensures var word' := Step(s, a).word;
      var binds := s.word == NotBound && (a.CallStart? || (a.Reacquires? && At(s, a.t, {Released})));
      var stores := a.StoresReady? && At(s, a.t, {StartBound, Rebound});
      var releases := s.word == Ready && a.Releases? && At(s, a.t, {AcceptEnded});
      var closes := a.StoresClosed? && At(s, a.t, {RebindFailed, Closing});
      && (binds ==> word' == Binding) && (stores ==> word' == Ready)
      && (releases ==> word' == NotBound) && (closes ==> word' == Closed)
      && (!binds && !stores && !releases && !closes ==> word' == s.word)
  {
  }

  lemma {:induction false} RunConcat(s: State, a: seq<Action>, b: seq<Action>)
    ensures Run(s, a + b) == Run(Run(s, a), b)
  {
    if b == [] {
      assert a + b == a;
    } else {
      var front := b[..|b| - 1];
      RunConcat(s, a, front);
      assert (a + b)[..|a + b| - 1] == a + front;
    }
  }

  lemma RunOne(s: State, a: Action)
    ensures Run(s, [a]) == Step(s, a)
  {
    assert [a][..0] == [];
  }

  /** A start on a free word, with a bind that succeeds, ends up accepting under `Ready`. */
  lemma StartServes(s: State)
    requires s.word == NotBound
    ensures var t := |s.tasks|;
      Step(Step(Step(s, CallStart), BindSucceeds(t)), StoresReady(t)) == State(Ready, s.tasks + [Accepting])
  {
  }

  /** When the accept loop of a serving task ends, the task gives the word back and takes it again. */
  lemma ServingTaskRebinds(s: State, t: nat)
    requires s.word == Ready && At(s, t, {Accepting})
    ensures Step(Step(Step(s, AcceptEnds(t)), Releases(t)), Reacquires(t)) == State(Binding, s.tasks[t := Rebinding])
  {
    assert Step(s, AcceptEnds(t)) == State(Ready, s.tasks[t := AcceptEnded]);
    assert Step(Step(s, AcceptEnds(t)), Releases(t)) == State(NotBound, s.tasks[t := Released]);
  }

  /** It then serves again if the bind succeeds, and closes the server if it fails. */
  lemma RebindDecides(s: State, t: nat)
    requires At(s, t, {Rebinding})
    ensures Step(Step(s, BindSucceeds(t)), StoresReady(t)) == State(Ready, s.tasks[t := Accepting])
    ensures Step(Step(s, BindFails(t)), StoresClosed(t)) == State(Closed, s.tasks[t := Finished])
  {
  }

  /** A task can be dropped exactly where it awaits, and leaves the word as it is: a bind that is
      dropped leaves `Binding` behind. */
  lemma DroppedExactly(s: State, t: nat)
    requires t < |s.tasks| && s.tasks[t] != Finished
    ensures var s' := Step(s, Cancelled(t));
      && s'.word == s.word && |s'.tasks| == |s.tasks|
      && (s'.tasks[t] == Finished <==> s.tasks[t] in {StartBinding, Accepting, Rebinding})
      && (forall u :: 0 <= u < |s.tasks| && u != t ==> s'.tasks[u] == s.tasks[u])
  {
  }

  lemma {:induction false} ClosingStays(s: State, t: nat, more: seq<Action>)
    requires At(s, t, {Closing}) && StoresClosed(t) !in more
    ensures At(Run(s, more), t, {Closing})
  {
    if more != [] {
      ClosingStays(s, t, more[..|more| - 1]);
    }
  }

  /** A close that found the server open stores `Closed`, whatever others do in between. */
  lemma CloseCloses(s: State, more: seq<Action>)
    requires s.word != Closed && StoresClosed(|s.tasks|) !in more
    ensures Run(s, [CallClose] + more + [StoresClosed(|s.tasks|)]).word == Closed
  {
    var t, s1 := |s.tasks|, Step(s, CallClose);
    assert [CallClose][..0] == [];
    RunConcat(s, [CallClose], more);
    ClosingStays(s1, t, more);
    var before := [CallClose] + more;
    assert (before + [StoresClosed(t)])[..|before|] == before;
  }

  // ---------------------------------------------------------------- one binder or acceptor

  predicate BindsOrAccepts(task: Task) {
    task in {StartBinding, StartBound, Accepting, Rebinding, Rebound}
  }

  predicate Owns(task: Task) {
    BindsOrAccepts(task) || task in {AcceptEnded, RebindFailed}
  }

  ghost predicate OneOwner(s: State) {
    && (forall t, u :: 0 <= t < u < |s.tasks| ==> !(Owns(s.tasks[t]) && Owns(s.tasks[u])))
    && (s.word == NotBound ==> forall t :: 0 <= t < |s.tasks| ==> !Owns(s.tasks[t]))
  }

  lemma TaskStepOwnership(word: ServerState, task: Task, a: Action)
    requires word == NotBound ==> !Owns(task)
    ensures var (task', word') := TaskStep(word, task, a);
      && (Owns(task') ==> Owns(task) || word == NotBound)
      && (word' == NotBound ==> !Owns(task') && (word == NotBound || Owns(task)))
  {
  }

  lemma StepKeepsOneOwner(s: State, a: Action)
    requires OneOwner(s)
    ensures OneOwner(Step(s, a))
  {
    if !a.CallStart? && !a.CallClose? && a.t < |s.tasks| {
      TaskStepOwnership(s.word, s.tasks[a.t], a);
      var s' := Step(s, a);
      assert forall u :: 0 <= u < |s.tasks| && u != a.t ==> s'.tasks[u] == s.tasks[u];
    }
  }

  lemma {:induction false} RunKeepsOneOwner(s: State, actions: seq<Action>)
    requires OneOwner(s)
    ensures OneOwner(Run(s, actions))
  {
    if actions != [] {
      RunKeepsOneOwner(s, actions[..|actions| - 1]);
      StepKeepsOneOwner(Run(s, actions[..|actions| - 1]), actions[|actions| - 1]);
    }
  }

  /** At most one task is ever binding or accepting, in every interleaving of starts, failed binds,
      rebinds, cancellations and closes, and even after `Ready` has overwritten `Closed`. */
  lemma OneBinderOrAcceptor(actions: seq<Action>, t: nat, u: nat)
    requires t < |Run(INITIAL, actions).tasks| && BindsOrAccepts(Run(INITIAL, actions).tasks[t])
    requires u < |Run(INITIAL, actions).tasks| && BindsOrAccepts(Run(INITIAL, actions).tasks[u])
    ensures t == u
  {
    RunKeepsOneOwner(INITIAL, actions);
  }

  // ---------------------------------------------------------------- can the server still serve

  lemma RunFirst(s: State, a: Action, rest: seq<Action>)
    ensures Run(s, [a] + rest) == Run(Step(s, a), rest)
  {
    RunConcat(s, [a], rest);
    assert [a][..0] == [];
  }

  predicate MayAcceptLater(word: ServerState, task: Task) {
    BindsOrAccepts(task) || (task == AcceptEnded && word == Ready)
  }

  ghost predicate Serviceable(s: State) {
    s.word == NotBound || exists t: nat :: t < |s.tasks| && MayAcceptLater(s.word, s.tasks[t])
  }

  ghost predicate Accepts(s: State) {
    Accepting in s.tasks
  }

  ghost predicate SomeFutureAccepts(s: State) {
    exists future: seq<Action> :: Accepts(Run(s, future))
  }

  lemma DeadStaysDead(s: State, a: Action)
    requires !Serviceable(s)
    ensures !Serviceable(Step(s, a))
  {
  }

  lemma {:induction false} DeadForEver(s: State, actions: seq<Action>)
    requires !Serviceable(s)
    ensures !Serviceable(Run(s, actions))
  {
    if actions != [] {
      DeadForEver(s, actions[..|actions| - 1]);
      DeadStaysDead(Run(s, actions[..|actions| - 1]), actions[|actions| - 1]);
    }
  }

  lemma Prepend(s: State, a: Action, rest: seq<Action>)
    requires Accepts(Run(Step(s, a), rest))
    ensures SomeFutureAccepts(s)
  {
    RunFirst(s, a, rest);
    assert Accepts(Run(s, [a] + rest));
  }

  lemma BoundTaskAccepts(s: State, t: nat)
    requires t < |s.tasks| && s.tasks[t] in {StartBound, Rebound}
    ensures SomeFutureAccepts(s)
  {
    var s' := Step(s, StoresReady(t));
    assert s'.tasks[t] == Accepting;
    assert Run(s', []) == s';
    Prepend(s, StoresReady(t), []);
  }

  lemma BindingTaskAccepts(s: State, t: nat)
    requires t < |s.tasks| && s.tasks[t] in {StartBinding, Rebinding}
    ensures SomeFutureAccepts(s)
  {
    BoundTaskAccepts(Step(s, BindSucceeds(t)), t);
    var rest: seq<Action> :| Accepts(Run(Step(s, BindSucceeds(t)), rest));
    Prepend(s, BindSucceeds(t), rest);
  }

  lemma FreeWordAccepts(s: State)
    requires s.word == NotBound
    ensures SomeFutureAccepts(s)
  {
    BindingTaskAccepts(Step(s, CallStart), |s.tasks|);
    var rest: seq<Action> :| Accepts(Run(Step(s, CallStart), rest));
    Prepend(s, CallStart, rest);
  }

  /** Exactly when a server can ever accept again: its word is free, or a task is binding, bound,
      accepting, or about to give a `Ready` word back. In particular a first bind that fails (or is
      cancelled) leaves `Binding` behind for good, and no later `start` gets through. */
  lemma ServiceableExactly(s: State)
    ensures Serviceable(s) <==> SomeFutureAccepts(s)
  {
    if !Serviceable(s) {
      forall future: seq<Action> ensures !Accepts(Run(s, future)) {
        DeadForEver(s, future);
      }
    } else if s.word == NotBound {
      FreeWordAccepts(s);
    } else {
      var t: nat :| t < |s.tasks| && MayAcceptLater(s.word, s.tasks[t]);
      match s.tasks[t]
      case StartBinding => BindingTaskAccepts(s, t);
      case Rebinding => BindingTaskAccepts(s, t);
      case StartBound => BoundTaskAccepts(s, t);
      case Rebound => BoundTaskAccepts(s, t);
      case Accepting =>
        assert Accepts(Run(s, []));
      case AcceptEnded =>
        FreeWordAccepts(Step(s, Releases(t)));
        var rest: seq<Action> :| Accepts(Run(Step(s, Releases(t)), rest));
        Prepend(s, Releases(t), rest);
    }
  }

  lemma FailedFirstBindIsFinal()
    ensures !SomeFutureAccepts(Step(Step(INITIAL, CallStart), BindFails(0)))
  {
    ServiceableExactly(Step(Step(INITIAL, CallStart), BindFails(0)));
  }

  // ---------------------------------------------------------------- Closed can be overwritten

  predicate WillStoreReady(task: Task) {
    task in {StartBinding, StartBound, Rebinding, Rebound}
  }

  ghost predicate AlwaysClosed(s: State) {
    forall future: seq<Action> :: Run(s, future).word == Closed
  }

  ghost predicate NoBinder(s: State) {
    forall t :: 0 <= t < |s.tasks| ==> !WillStoreReady(s.tasks[t])
  }

  lemma {:induction false} ClosedWithoutBinder(s: State, actions: seq<Action>)
    requires s.word == Closed && NoBinder(s)
    ensures Run(s, actions).word == Closed && NoBinder(Run(s, actions))
  {
    if actions != [] {
      ClosedWithoutBinder(s, actions[..|actions| - 1]);
    }
  }

  /** `Closed` is final exactly when nobody is between taking `Binding` and storing `Ready`. */
  lemma ClosedIsFinalExactly(s: State)
    requires s.word == Closed
    ensures AlwaysClosed(s) <==> NoBinder(s)
  {
    if NoBinder(s) {
      forall future: seq<Action> ensures Run(s, future).word == Closed {
        ClosedWithoutBinder(s, future);
      }
    } else {
      var t: nat :| t < |s.tasks| && WillStoreReady(s.tasks[t]);
      if s.tasks[t] in {StartBound, Rebound} {
        RunOne(s, StoresReady(t));
      } else {
        var s' := Step(s, BindSucceeds(t));
        RunOne(s', StoresReady(t));
        RunFirst(s, BindSucceeds(t), [StoresReady(t)]);
      }
    }
  }
}
