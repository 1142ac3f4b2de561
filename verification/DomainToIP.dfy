/**
 * The worker of src/mg/net/DomainToIP.cpp: requests which are posted, cancelled, dropped, timed out and
 * processed in any order, their callbacks, and the references which keep them.
 */
module DomainToIP {
  /** `handle` is the user's DomainToIPRequest, `index` says whether myIndex >= 0, `fired` counts the callbacks. */
  datatype Context = Context(handle: bool, isCancelled: bool, refs: int, index: bool, fired: nat)

  datatype Worker =
    | Main                     // In PrivProcessMain().
    | Firing(c: nat)           // Taken from the main queue, before the callback.
    | Fired(c: nat)            // Before the reference of the queue is dropped.
    | Asleep                   // On the condition variable.
    | Moving                   // Before the lists of the callers are taken.
    | Accepting                // In the loops over the taken lists.
    | CancelFiring(c: nat)
    | CancelFired(c: nat)
    | CancelUnref(c: nat)      // Before the reference of the cancel entry is dropped.

  /** `posting` and `cancelling` are in the hands of callers, before the lock. */
  datatype State = State(
    contexts: seq<Context>, posting: seq<nat>, cancelling: seq<nat>,
    front: seq<nat>, frontCancel: seq<nat>, accepted: seq<nat>, cancelled: seq<nat>,
    main: seq<nat>, heap: set<nat>, worker: Worker)

  datatype Action =
    | Post | PostAppend(i: nat)
    | Cancel(c: nat) | CancelAppend(i: nat)
    | Drop(c: nat)
    | Expire(i: nat) | Process | Fire | Unref
    | FrontStart | Wake | Take | Accept | CancelNext | FrontEnd

  predicate Init(s: State) {
    && s.contexts == [] && s.posting == [] && s.cancelling == [] && s.front == [] && s.frontCancel == []
    && s.accepted == [] && s.cancelled == [] && s.main == [] && s.heap == {} && s.worker == Main
  }

  function Without(q: seq<nat>, i: nat): seq<nat>
    requires i < |q|
  {
    q[..i] + q[i + 1..]
  }

  predicate Holds(s: State, c: nat) {
    c < |s.contexts| && s.contexts[c].handle && c !in s.posting
  }

  predicate Enabled(s: State, a: Action) {
    match a
    case Post => true
    case PostAppend(i) => i < |s.posting|
    case Cancel(c) => Holds(s, c)
    case CancelAppend(i) => i < |s.cancelling|
    case Drop(c) => Holds(s, c)
    case Expire(i) => s.worker == Main && i < |s.main|
    case Process => s.worker == Main && s.main != []
    case Fire => s.worker.Firing? || s.worker.CancelFiring?
    case Unref => s.worker.Fired? || s.worker.CancelFired? || s.worker.CancelUnref?
    case FrontStart => s.worker == Main
    case Wake => s.worker == Asleep
    case Take => s.worker == Moving
    case Accept => s.worker == Accepting && s.accepted != []
    case CancelNext => s.worker == Accepting && s.accepted == [] && s.cancelled != []
    case FrontEnd => s.worker == Accepting && s.accepted == [] && s.cancelled == []
  }

  function Set(s: State, c: nat, x: Context): State
    requires c < |s.contexts|
  {
    s.(contexts := s.contexts[c := x])
  }

  /** The context leaves the heap and the main list; `i` is its place there. */
  function Remove(s: State, i: nat): State
    requires i < |s.main|
  {
    var c := s.main[i];
    var t := s.(main := Without(s.main, i), heap := s.heap - {c});
    if c < |s.contexts| then Set(t, c, s.contexts[c].(index := false)) else t
  }

  function Position(q: seq<nat>, c: nat): (i: nat)
    ensures i <= |q| && (c in q <==> i < |q|) && (i < |q| ==> q[i] == c)
  {
    if q == [] || q[0] == c then 0 else 1 + Position(q[1..], c)
  }

  /** A signal of the condition variable. */
  function Signal(w: Worker, wasEmpty: bool): Worker {
    if wasEmpty && w == Asleep then Moving else w
  }

  function DoFire(s: State): State
    requires s.worker.Firing? || s.worker.CancelFiring?
  {
    var c := s.worker.c;
    var t := s.(worker := if s.worker.Firing? then Fired(c) else CancelFired(c));
    if c < |s.contexts| then Set(t, c, s.contexts[c].(fired := s.contexts[c].fired + 1)) else t
  }

  function DoUnref(s: State): State
    requires s.worker.Fired? || s.worker.CancelFired? || s.worker.CancelUnref?
  {
    var c := s.worker.c;
    var next := if s.worker.Fired? then Main else if s.worker.CancelFired? then CancelUnref(c) else Accepting;
    var t := s.(worker := next);
    if c < |s.contexts| then Set(t, c, s.contexts[c].(refs := s.contexts[c].refs - 1)) else t
  }

  function Do(s: State, a: Action): State
    requires Enabled(s, a)
  {
    match a
    case Post =>
      s.(contexts := s.contexts + [Context(true, false, 2, false, 0)], posting := s.posting + [|s.contexts|])
    case PostAppend(i) =>
      s.(posting := Without(s.posting, i), front := s.front + [s.posting[i]], worker := Signal(s.worker, s.front == []))
    case Cancel(c) =>
      Set(s, c, s.contexts[c].(handle := false, isCancelled := true)).(cancelling := s.cancelling + [c])
    case CancelAppend(i) =>
      s.(cancelling := Without(s.cancelling, i), frontCancel := s.frontCancel + [s.cancelling[i]],
         worker := Signal(s.worker, s.frontCancel == []))
    case Drop(c) => Set(s, c, s.contexts[c].(handle := false, refs := s.contexts[c].refs - 1))
    case Expire(i) => Remove(s, i).(worker := Firing(s.main[i]))
    case Process => Remove(s, 0).(worker := Firing(s.main[0]))
    case Fire => DoFire(s)
    case Unref => DoUnref(s)
    case FrontStart =>
      s.(worker := if s.main == [] && s.front == [] && s.frontCancel == [] then Asleep else Moving)
    case Wake => s.(worker := Moving)
    case Take =>
      s.(accepted := s.front, cancelled := s.frontCancel, front := [], frontCancel := [], worker := Accepting)
    case Accept =>
      var c := s.accepted[0];
      var t := s.(accepted := s.accepted[1..], main := s.main + [c], heap := s.heap + {c});
      if c < |s.contexts| then Set(t, c, s.contexts[c].(index := true)) else t
    case CancelNext =>
      var c := s.cancelled[0];
      var t := s.(cancelled := s.cancelled[1..]);
      if c < |s.contexts| && s.contexts[c].index && c in s.main then
        Remove(t, Position(s.main, c)).(worker := CancelFiring(c))
      else t.(worker := CancelUnref(c))
    case FrontEnd => s.(worker := Main)
  }

  // ------------------------------------------------------------------
  // The invariant

  function Count(q: seq<nat>, c: nat): nat {
    multiset(q)[c]
  }

  function One(b: bool): nat {
    if b then 1 else 0
  }

  /** Entries of the worker's queues, on their way or in the worker's hands. */
  function QueueRefs(s: State, c: nat): nat {
    Count(s.posting, c) + Count(s.front, c) + Count(s.accepted, c) + Count(s.main, c)
    + One(s.worker == Firing(c) || s.worker == Fired(c) || s.worker == CancelFiring(c) || s.worker == CancelFired(c))
  }

  /** Entries of the cancel queues, on their way or in the worker's hands. */
  function CancelRefs(s: State, c: nat): nat {
    Count(s.cancelling, c) + Count(s.frontCancel, c) + Count(s.cancelled, c)
    + One(s.worker == CancelFiring(c) || s.worker == CancelFired(c) || s.worker == CancelUnref(c))
  }

  predicate ContextOk(s: State, c: nat)
    requires c < |s.contexts|
  {
    var x := s.contexts[c];
    && x.refs == QueueRefs(s, c) + CancelRefs(s, c) + One(x.handle)
    && QueueRefs(s, c) <= 1 && CancelRefs(s, c) + One(x.handle) <= 1
    && (x.isCancelled ==> !x.handle)
    && (CancelRefs(s, c) > 0 ==> x.isCancelled && Count(s.posting, c) == 0)
    && (Count(s.cancelled, c) > 0 ==> Count(s.front, c) == 0)
    && x.fired == (if QueueRefs(s, c) == 0 || s.worker == Fired(c) || s.worker == CancelFired(c) then 1 else 0)
    && (x.index <==> c in s.heap) && (c in s.heap <==> c in s.main)
  }

  predicate NoStrangers(s: State, c: nat) {
    QueueRefs(s, c) > 0 || CancelRefs(s, c) > 0 || c in s.heap ==> c < |s.contexts|
  }

  ghost predicate Inv(s: State) {
    && (forall c {:trigger ContextOk(s, c)} :: 0 <= c < |s.contexts| ==> ContextOk(s, c))
    && (forall c: nat {:trigger NoStrangers(s, c)} :: NoStrangers(s, c))
    && (s.worker != Accepting && !s.worker.CancelFiring? && !s.worker.CancelFired? && !s.worker.CancelUnref? ==>
          s.accepted == [] && s.cancelled == [])
    && (s.worker.CancelFiring? || s.worker.CancelFired? || s.worker.CancelUnref? ==> s.accepted == [])
    && (s.worker == Asleep ==> s.main == [] && s.front == [] && s.frontCancel == [])
  }

  /** The context a step works with. */
  function Subject(s: State, a: Action): int
    requires Enabled(s, a)
  {
    match a
    case Post => |s.contexts|
    case PostAppend(i) => s.posting[i]
    case Cancel(c) => c
    case CancelAppend(i) => s.cancelling[i]
    case Drop(c) => c
    case Expire(i) => s.main[i]
    case Process => s.main[0]
    case Fire => s.worker.c
    case Unref => s.worker.c
    case Accept => s.accepted[0]
    case CancelNext => s.cancelled[0]
    case _ => -1
  }

  lemma CountWithout(q: seq<nat>, i: nat, c: nat)
    requires i < |q|
    ensures Count(q, c) == Count(Without(q, i), c) + One(c == q[i])
  {
    assert q == q[..i] + [q[i]] + q[i + 1..];
  }

  lemma CountFirst(q: seq<nat>, c: nat)
    requires q != []
    ensures Count(q, c) == Count(q[1..], c) + One(c == q[0])
  {
    assert q == [q[0]] + q[1..];
  }

  lemma CountIn(q: seq<nat>, c: nat)
    ensures c in q <==> Count(q, c) > 0
  {
    assert c in q <==> c in multiset(q);
  }

  lemma SubjectKnown(s: State, a: Action)
    requires Inv(s) && Enabled(s, a) && !a.Post? && Subject(s, a) >= 0
    ensures Subject(s, a) < |s.contexts| && ContextOk(s, Subject(s, a))
  {
    var c: nat := Subject(s, a);
    CountIn(s.posting, c);
    CountIn(s.cancelling, c);
    CountIn(s.main, c);
    CountIn(s.accepted, c);
    CountIn(s.cancelled, c);
    assert NoStrangers(s, c);
    assert ContextOk(s, c);
  }

  /** What a step does to the queues, in numbers. */
  lemma Counts(s: State, a: Action, c: nat)
    requires Inv(s) && Enabled(s, a)
    ensures a.PostAppend? ==> Count(s.posting, c) == Count(Without(s.posting, a.i), c) + One(c == s.posting[a.i])
    ensures a.CancelAppend? ==>
              Count(s.cancelling, c) == Count(Without(s.cancelling, a.i), c) + One(c == s.cancelling[a.i])
    ensures a.Expire? ==> Count(s.main, c) == Count(Without(s.main, a.i), c) + One(c == s.main[a.i])
    ensures a.Process? ==> Count(s.main, c) == Count(Without(s.main, 0), c) + One(c == s.main[0])
    ensures a.Accept? ==> Count(s.accepted, c) == Count(s.accepted[1..], c) + One(c == s.accepted[0])
    ensures a.CancelNext? ==> Count(s.cancelled, c) == Count(s.cancelled[1..], c) + One(c == s.cancelled[0])
    ensures a.CancelNext? && s.cancelled[0] in s.main ==>
              var i := Position(s.main, s.cancelled[0]);
              Count(s.main, c) == Count(Without(s.main, i), c) + One(c == s.main[i])
    ensures c in s.main <==> Count(s.main, c) > 0
    ensures c in Do(s, a).main <==> Count(Do(s, a).main, c) > 0
  {
    CountIn(s.main, c);
    CountIn(Do(s, a).main, c);
    match a
    case PostAppend(i) => CountWithout(s.posting, i, c);
    case CancelAppend(i) => CountWithout(s.cancelling, i, c);
    case Expire(i) => CountWithout(s.main, i, c);
    case Process => CountWithout(s.main, 0, c);
    case Accept => CountFirst(s.accepted, c);
    case CancelNext =>
      CountFirst(s.cancelled, c);
      if s.cancelled[0] in s.main {
        CountWithout(s.main, Position(s.main, s.cancelled[0]), c);
      }
    case _ =>
  }

  lemma PostKeeps(s: State, a: Action, c: nat)
    requires Inv(s) && Enabled(s, a) && c < |Do(s, a).contexts| && (a.Post? || a.PostAppend?)
    ensures ContextOk(Do(s, a), c)
  {
    Counts(s, a, c);
    assert NoStrangers(s, c);
    if c < |s.contexts| {
      assert ContextOk(s, c);
    }
    if a.PostAppend? {
      SubjectKnown(s, a);
    }
  }

  lemma CancelKeeps(s: State, a: Action, c: nat)
    requires Inv(s) && Enabled(s, a) && c < |Do(s, a).contexts| && a.CancelAppend?
    ensures ContextOk(Do(s, a), c)
  {
    Counts(s, a, c);
    assert ContextOk(s, c);
    SubjectKnown(s, a);
  }

  lemma HandleKeeps(s: State, a: Action, c: nat)
    requires Inv(s) && Enabled(s, a) && c < |Do(s, a).contexts| && (a.Cancel? || a.Drop?)
    ensures ContextOk(Do(s, a), c)
  {
    Counts(s, a, c);
    assert ContextOk(s, c);
    SubjectKnown(s, a);
  }

  lemma TakenKeeps(s: State, a: Action, c: nat)
    requires Inv(s) && Enabled(s, a) && c < |Do(s, a).contexts| && a.Expire?
    ensures ContextOk(Do(s, a), c)
  {
    Counts(s, a, c);
    assert ContextOk(s, c);
    SubjectKnown(s, a);
  }

  lemma ProcessKeeps(s: State, a: Action, c: nat)
    requires Inv(s) && Enabled(s, a) && c < |Do(s, a).contexts| && a.Process?
    ensures ContextOk(Do(s, a), c)
  {
    Counts(s, a, c);
    assert ContextOk(s, c);
    SubjectKnown(s, a);
  }

  lemma FireKeeps(s: State, a: Action, c: nat)
    requires Inv(s) && Enabled(s, a) && c < |Do(s, a).contexts| && a.Fire?
    ensures ContextOk(Do(s, a), c)
  {
    Counts(s, a, c);
    assert ContextOk(s, c);
    SubjectKnown(s, a);
  }

  lemma UnrefKeeps(s: State, a: Action, c: nat)
    requires Inv(s) && Enabled(s, a) && c < |Do(s, a).contexts| && a.Unref?
    ensures ContextOk(Do(s, a), c)
  {
    Counts(s, a, c);
    assert ContextOk(s, c);
    SubjectKnown(s, a);
  }

  lemma AcceptKeeps(s: State, a: Action, c: nat)
    requires Inv(s) && Enabled(s, a) && c < |Do(s, a).contexts| && (a.Accept?)
    ensures ContextOk(Do(s, a), c)
  {
    Counts(s, a, c);
    assert ContextOk(s, c);
    SubjectKnown(s, a);
  }

  lemma CancelNextKeeps(s: State, a: Action, c: nat)
    requires Inv(s) && Enabled(s, a) && c < |Do(s, a).contexts| && (a.CancelNext?)
    ensures ContextOk(Do(s, a), c)
  {
    Counts(s, a, c);
    assert ContextOk(s, c);
    SubjectKnown(s, a);
  }

  lemma FrontKeeps(s: State, a: Action, c: nat)
    requires Inv(s) && Enabled(s, a) && c < |Do(s, a).contexts| && (a.FrontStart? || a.Wake? || a.Take? || a.FrontEnd?)
    ensures ContextOk(Do(s, a), c)
  {
    Counts(s, a, c);
    assert ContextOk(s, c);
  }

  lemma ContextKept(s: State, a: Action, c: nat)
    requires Inv(s) && Enabled(s, a) && c < |Do(s, a).contexts|
    ensures ContextOk(Do(s, a), c)
  {
    match a
    case Post => PostKeeps(s, a, c);
    case PostAppend(_) => PostKeeps(s, a, c);
    case Cancel(_) => HandleKeeps(s, a, c);
    case CancelAppend(_) => CancelKeeps(s, a, c);
    case Drop(_) => HandleKeeps(s, a, c);
    case Expire(_) => TakenKeeps(s, a, c);
    case Process => ProcessKeeps(s, a, c);
    case Fire => FireKeeps(s, a, c);
    case Unref => UnrefKeeps(s, a, c);
    case Accept => AcceptKeeps(s, a, c);
    case CancelNext => CancelNextKeeps(s, a, c);
    case _ => FrontKeeps(s, a, c);
  }

  lemma CallerStrangers(s: State, a: Action, c: nat)
    requires Inv(s) && Enabled(s, a) && (a.Post? || a.PostAppend? || a.Cancel? || a.CancelAppend? || a.Drop?)
    ensures NoStrangers(Do(s, a), c)
  {
    Counts(s, a, c);
    assert NoStrangers(s, c);
    if !a.Post? && Subject(s, a) >= 0 {
      SubjectKnown(s, a);
    }
  }

  lemma MainStrangers(s: State, a: Action, c: nat)
    requires Inv(s) && Enabled(s, a) && (a.Expire? || a.Process? || a.Fire? || a.Unref?)
    ensures NoStrangers(Do(s, a), c)
  {
    Counts(s, a, c);
    assert NoStrangers(s, c);
    if !a.Post? && Subject(s, a) >= 0 {
      SubjectKnown(s, a);
    }
  }

  lemma CancelStrangers(s: State, a: Action, c: nat)
    requires Inv(s) && Enabled(s, a) && (a.CancelNext?)
    ensures NoStrangers(Do(s, a), c)
  {
    Counts(s, a, c);
    assert NoStrangers(s, c);
    if !a.Post? && Subject(s, a) >= 0 {
      SubjectKnown(s, a);
    }
  }

  lemma FrontStrangers(s: State, a: Action, c: nat)
    requires Inv(s) && Enabled(s, a) && (a.Accept? || a.FrontStart? || a.Wake? || a.Take? || a.FrontEnd?)
    ensures NoStrangers(Do(s, a), c)
  {
    Counts(s, a, c);
    assert NoStrangers(s, c);
    if !a.Post? && Subject(s, a) >= 0 {
      SubjectKnown(s, a);
    }
  }

  lemma StepKeeps(s: State, a: Action)
    requires Inv(s) && Enabled(s, a)
    ensures Inv(Do(s, a))
  {
    var n := Do(s, a);
    forall c | 0 <= c < |n.contexts|
      ensures ContextOk(n, c)
    {
      ContextKept(s, a, c);
    }
    forall c: nat
      ensures NoStrangers(n, c)
    {
      if a.Post? || a.PostAppend? || a.Cancel? || a.CancelAppend? || a.Drop? {
        CallerStrangers(s, a, c);
      } else if a.Expire? || a.Process? || a.Fire? || a.Unref? {
        MainStrangers(s, a, c);
      } else if a.CancelNext? {
        CancelStrangers(s, a, c);
      } else {
        FrontStrangers(s, a, c);
      }
    }
  }

  // ------------------------------------------------------------------
  // Runs

  ghost predicate StepAt(states: seq<State>, actions: seq<Action>, n: nat)
    requires |states| == |actions| + 1 && n < |actions|
  {
    Enabled(states[n], actions[n]) && states[n + 1] == Do(states[n], actions[n])
  }

  ghost predicate IsRun(states: seq<State>, actions: seq<Action>) {
    && |states| == |actions| + 1
    && Init(states[0])
    && forall n {:trigger StepAt(states, actions, n)} :: 0 <= n < |actions| ==> StepAt(states, actions, n)
  }

  lemma {:induction false} RunInv(states: seq<State>, actions: seq<Action>, n: nat)
    requires IsRun(states, actions) && n < |states|
    ensures Inv(states[n])
  {
    if n > 0 {
      RunInv(states, actions, n - 1);
      assert StepAt(states, actions, n - 1);
      StepKeeps(states[n - 1], actions[n - 1]);
    }
  }

  /** The worker has nothing of the request any more. */
  predicate IsOver(s: State, c: nat) {
    QueueRefs(s, c) == 0
  }

  /** The callback of a request fires at most once, and has fired when the worker is done with the request. */
  lemma FiredOnce(states: seq<State>, actions: seq<Action>, n: nat, c: nat)
    requires IsRun(states, actions) && n < |states| && c < |states[n].contexts|
    ensures states[n].contexts[c].fired <= 1
    ensures IsOver(states[n], c) ==> states[n].contexts[c].fired == 1
    ensures states[n].contexts[c].fired == 1 ==>
              IsOver(states[n], c) || states[n].worker == Fired(c) || states[n].worker == CancelFired(c)
  {
    RunInv(states, actions, n);
    assert ContextOk(states[n], c);
  }

  /** The main list and the heap have the same requests, each of them once, and they know it. */
  lemma MainIsHeap(states: seq<State>, actions: seq<Action>, n: nat, c: nat)
    requires IsRun(states, actions) && n < |states|
    ensures c in states[n].heap <==> c in states[n].main
    ensures Count(states[n].main, c) <= 1
    ensures c < |states[n].contexts| ==> (states[n].contexts[c].index <==> c in states[n].heap)
  {
    var s := states[n];
    RunInv(states, actions, n);
    CountIn(s.main, c);
    assert NoStrangers(s, c);
    if c < |s.contexts| {
      assert ContextOk(s, c);
    }
  }

  /** The references are those of the user, or of the cancel entry, and of the worker's queue entry. */
  lemma RefsCounted(states: seq<State>, actions: seq<Action>, n: nat, c: nat)
    requires IsRun(states, actions) && n < |states| && c < |states[n].contexts|
    ensures var s := states[n];
      && s.contexts[c].refs == One(s.contexts[c].handle) + CancelRefs(s, c) + QueueRefs(s, c)
      && One(s.contexts[c].handle) + CancelRefs(s, c) <= 1 && QueueRefs(s, c) <= 1
  {
    RunInv(states, actions, n);
    assert ContextOk(states[n], c);
  }

  /** No step works with a request which was freed, that is one whose references had gone down to 0. */
  lemma NeverFreedInUse(states: seq<State>, actions: seq<Action>, n: nat)
    requires IsRun(states, actions) && n < |actions| && !actions[n].Post?
    requires Enabled(states[n], actions[n]) && Subject(states[n], actions[n]) >= 0
    ensures var c := Subject(states[n], actions[n]);
      c < |states[n].contexts| && states[n].contexts[c].refs > 0
  {
    var s := states[n];
    RunInv(states, actions, n);
    SubjectKnown(s, actions[n]);
    var c: nat := Subject(s, actions[n]);
    Counts(s, actions[n], c);
  }

  /** The assertions of Cancel() and of the Return functions. */
  lemma AssertionsHold(states: seq<State>, actions: seq<Action>, n: nat)
    requires IsRun(states, actions) && n < |actions| && Enabled(states[n], actions[n])
    ensures actions[n].Cancel? ==>
              actions[n].c < |states[n].contexts| && !states[n].contexts[actions[n].c].isCancelled
    ensures actions[n] == Fire ==>
              var c := Subject(states[n], Fire); 0 <= c < |states[n].contexts| && !states[n].contexts[c].index
  {
    var s := states[n];
    RunInv(states, actions, n);
    assert StepAt(states, actions, n);
    if actions[n].Cancel? || actions[n] == Fire {
      SubjectKnown(s, actions[n]);
      var c: nat := Subject(s, actions[n]);
      CountIn(s.main, c);
    }
  }

  /** A cancellation which is looked at finds its request in the main list, or over already. */
  lemma CancelFindsIt(states: seq<State>, actions: seq<Action>, n: nat)
    requires IsRun(states, actions) && n < |actions|
    requires actions[n] == CancelNext && Enabled(states[n], CancelNext)
    ensures var s, c := states[n], Subject(states[n], CancelNext);
      && 0 <= c < |s.contexts|
      && (if c in s.main then states[n + 1].worker == CancelFiring(c) else s.contexts[c].fired == 1)
  {
    var s := states[n];
    RunInv(states, actions, n);
    assert StepAt(states, actions, n);
    SubjectKnown(s, CancelNext);
    var c: nat := Subject(s, CancelNext);
    CountIn(s.main, c);
    CountIn(s.cancelled, c);
  }

  /** The worker does not sleep while a caller's list has something. */
  lemma NoSleepOnRequests(states: seq<State>, actions: seq<Action>, n: nat)
    requires IsRun(states, actions) && n < |states| && states[n].worker == Asleep
    ensures states[n].front == [] && states[n].frontCancel == [] && states[n].main == [] && states[n].heap == {}
  {
    RunInv(states, actions, n);
    forall c: nat
      ensures c in states[n].heap ==> c in states[n].main
    {
      HeapInMain(states[n], c);
    }
  }

  lemma HeapInMain(s: State, c: nat)
    requires Inv(s)
    ensures c in s.heap ==> c in s.main
  {
    assert NoStrangers(s, c);
    if c in s.heap {
      assert ContextOk(s, c);
    }
  }

  lemma OthersUntouched(s: State, a: Action, c: nat)
    requires Enabled(s, a) && c < |s.contexts| && Subject(s, a) != c
    ensures c < |Do(s, a).contexts| && Do(s, a).contexts[c] == s.contexts[c]
  {
  }

  lemma FreedStep(s: State, a: Action, c: nat)
    requires Inv(s) && Enabled(s, a) && c < |s.contexts| && s.contexts[c].refs == 0
    ensures c < |Do(s, a).contexts| && Do(s, a).contexts[c] == s.contexts[c]
  {
    if !a.Post? && Subject(s, a) >= 0 {
      SubjectKnown(s, a);
      Counts(s, a, Subject(s, a));
    }
    OthersUntouched(s, a, c);
  }

  /** A freed request stays freed. */
  lemma {:induction false} FreedForGood(states: seq<State>, actions: seq<Action>, m: nat, n: nat, c: nat)
    requires IsRun(states, actions) && m <= n < |states|
    requires c < |states[m].contexts| && states[m].contexts[c].refs == 0
    ensures c < |states[n].contexts| && states[n].contexts[c].refs == 0
    ensures states[n].contexts[c].fired == 1 && !states[n].contexts[c].handle
  {
    if m < n {
      FreedForGood(states, actions, m, n - 1, c);
      RunInv(states, actions, n - 1);
      assert StepAt(states, actions, n - 1);
      FreedStep(states[n - 1], actions[n - 1], c);
    } else {
      RunInv(states, actions, n);
      assert ContextOk(states[n], c);
    }
  }
}
