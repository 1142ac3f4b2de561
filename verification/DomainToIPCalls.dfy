/** What the calls and the worker of the name lookup have done when they return. */
module DomainToIPCalls {
  import opened DomainToIP

  // ------------------------------------------------------------------
  // The order of the requests

  /** The requests the worker has to process, oldest first. */
  function Requests(s: State): seq<nat> {
    s.main + s.accepted + s.front
  }

  predicate Before(q: seq<nat>, c: nat, d: nat) {
    exists i, j :: 0 <= i < j < |q| && q[i] == c && q[j] == d
  }

  lemma RequestsOnce(s: State, c: nat)
    requires Inv(s)
    ensures Count(Requests(s), c) <= 1
  {
    assert NoStrangers(s, c);
    if c < |s.contexts| {
      assert ContextOk(s, c);
    }
    assert multiset(Requests(s)) == multiset(s.main) + multiset(s.accepted) + multiset(s.front);
  }

  /** Dropping another element keeps the order. */
  lemma WithoutBefore(q: seq<nat>, r: nat, c: nat, d: nat)
    requires r < |q| && Before(q, c, d) && q[r] != c && q[r] != d
    ensures Before(Without(q, r), c, d)
  {
    var i, j :| 0 <= i < j < |q| && q[i] == c && q[j] == d;
    var t := Without(q, r);
    assert t[if i < r then i else i - 1] == c && t[if j < r then j else j - 1] == d;
  }

  lemma LongerBefore(q: seq<nat>, x: nat, c: nat, d: nat)
    requires Before(q, c, d)
    ensures Before(q + [x], c, d)
  {
    var i, j :| 0 <= i < j < |q| && q[i] == c && q[j] == d;
    assert (q + [x])[i] == c && (q + [x])[j] == d;
  }

  /** Where a step takes a request away, if it does. */
  function TakenAt(s: State, a: Action): int
    requires Enabled(s, a)
  {
    match a
    case Expire(i) => i
    case Process => 0
    case CancelNext =>
      var c := s.cancelled[0];
      if c < |s.contexts| && s.contexts[c].index && c in s.main then Position(s.main, c) else -1
    case _ => -1
  }

  lemma TakenStep(s: State, a: Action)
    requires Inv(s) && Enabled(s, a) && TakenAt(s, a) >= 0
    ensures TakenAt(s, a) < |s.main| && Requests(Do(s, a)) == Without(Requests(s), TakenAt(s, a))
  {
    WithoutFirst(s.main, s.accepted, s.front, TakenAt(s, a));
  }

  lemma AddedStep(s: State, a: Action)
    requires Enabled(s, a) && a.PostAppend?
    ensures Requests(Do(s, a)) == Requests(s) + [s.posting[a.i]]
  {
    assert s.main + s.accepted + (s.front + [s.posting[a.i]]) == Requests(s) + [s.posting[a.i]];
  }

  lemma AcceptStep(s: State)
    requires Enabled(s, Accept)
    ensures Requests(Do(s, Accept)) == Requests(s)
  {
    assert s.accepted == [s.accepted[0]] + s.accepted[1..];
  }

  lemma RequestsStep(s: State, a: Action)
    requires Inv(s) && Enabled(s, a)
    ensures
      if a.PostAppend? then Requests(Do(s, a)) == Requests(s) + [s.posting[a.i]]
      else if TakenAt(s, a) >= 0 then
        TakenAt(s, a) < |s.main| && Requests(Do(s, a)) == Without(Requests(s), TakenAt(s, a))
      else Requests(Do(s, a)) == Requests(s)
  {
    if a.PostAppend? {
      AddedStep(s, a);
    } else if a.Accept? {
      AcceptStep(s);
    } else if TakenAt(s, a) >= 0 {
      TakenStep(s, a);
    }
  }

  lemma WithoutFirst(a: seq<nat>, b: seq<nat>, c: seq<nat>, r: nat)
    requires r < |a|
    ensures Without(a, r) + b + c == Without(a + b + c, r)
  {
  }

  lemma OrderStep(s: State, a: Action, c: nat, d: nat)
    requires Inv(s) && Enabled(s, a) && Before(Requests(s), c, d)
    requires c in Requests(Do(s, a)) && d in Requests(Do(s, a))
    ensures Before(Requests(Do(s, a)), c, d)
  {
    RequestsStep(s, a);
    var q, r := Requests(s), TakenAt(s, a);
    if a.PostAppend? {
      LongerBefore(q, s.posting[a.i], c, d);
    } else if r >= 0 {
      Gone(s, r, c);
      Gone(s, r, d);
      WithoutBefore(q, r, c, d);
    }
  }

  /** A request which is still there is not the one taken. */
  lemma Gone(s: State, r: nat, c: nat)
    requires Inv(s) && r < |Requests(s)| && c in Without(Requests(s), r)
    ensures Requests(s)[r] != c
  {
    RequestsOnce(s, c);
    CountWithout(Requests(s), r, c);
    CountIn(Without(Requests(s), r), c);
  }

  predicate HasBoth(s: State, c: nat, d: nat) {
    c in Requests(s) && d in Requests(s)
  }

  /** As long as the worker has two requests they stay in the order in which they came. */
  lemma {:induction false} OrderKept(states: seq<State>, actions: seq<Action>, m: nat, n: nat, c: nat, d: nat)
    requires IsRun(states, actions) && m <= n < |states| && Before(Requests(states[m]), c, d)
    requires forall k {:trigger HasBoth(states[k], c, d)} :: m <= k <= n ==> HasBoth(states[k], c, d)
    ensures Before(Requests(states[n]), c, d)
  {
    if m < n {
      OrderKept(states, actions, m, n - 1, c, d);
      RunInv(states, actions, n - 1);
      assert StepAt(states, actions, n - 1) && HasBoth(states[n], c, d);
      OrderStep(states[n - 1], actions[n - 1], c, d);
    }
  }

  /** A new request has a reference for the user's handle and one for the worker, and is on its way to the worker. */
  lemma RequestReturns(states: seq<State>, actions: seq<Action>, n: nat)
    requires IsRun(states, actions) && n < |actions| && actions[n] == Post
    ensures var c, s := |states[n].contexts|, states[n + 1];
      && |s.contexts| == c + 1 && c in s.posting
      && s.contexts[c].handle && s.contexts[c].refs == 2 && s.contexts[c].fired == 0
  {
    assert StepAt(states, actions, n);
    var c := |states[n].contexts|;
    assert states[n + 1].posting[|states[n].posting|] == c;
  }

  /** Dropping a handle gives up the user's reference, and the request goes on. */
  lemma DropReturns(states: seq<State>, actions: seq<Action>, n: nat, c: nat)
    requires IsRun(states, actions) && n < |actions| && actions[n] == Drop(c)
    ensures c < |states[n].contexts| && c < |states[n + 1].contexts|
    ensures !states[n + 1].contexts[c].handle && states[n + 1].contexts[c].refs == states[n].contexts[c].refs - 1
    ensures Requests(states[n + 1]) == Requests(states[n])
  {
    assert StepAt(states, actions, n);
  }

  /** A request which is posted is the last one, and the worker is awake. */
  lemma PostReturns(states: seq<State>, actions: seq<Action>, n: nat, i: nat)
    requires IsRun(states, actions) && n < |actions| && actions[n] == PostAppend(i)
    ensures i < |states[n].posting| && Requests(states[n + 1]) == Requests(states[n]) + [states[n].posting[i]]
    ensures states[n + 1].worker != Asleep
  {
    RunInv(states, actions, n);
    RunInv(states, actions, n + 1);
    assert StepAt(states, actions, n);
    RequestsStep(states[n], actions[n]);
  }

  /** The worker processes the oldest request: it leaves the queue, and its callback is what the worker does next. */
  lemma ProcessReturns(states: seq<State>, actions: seq<Action>, n: nat)
    requires IsRun(states, actions) && n < |actions| && actions[n] == Process
    ensures Requests(states[n]) != [] && states[n + 1].worker == Firing(Requests(states[n])[0])
    ensures Requests(states[n + 1]) == Requests(states[n])[1..]
  {
    RunInv(states, actions, n);
    assert StepAt(states, actions, n);
    ProcessStep(states[n]);
  }

  lemma ProcessStep(s: State)
    requires Inv(s) && Enabled(s, Process)
    ensures Requests(s) != [] && Do(s, Process).worker == Firing(Requests(s)[0])
    ensures Requests(Do(s, Process)) == Requests(s)[1..]
  {
    RequestsStep(s, Process);
    WithoutHead(Requests(s));
  }

  lemma WithoutHead(q: seq<nat>)
    requires q != []
    ensures Without(q, 0) == q[1..]
  {
  }

  /** A request whose time is over is taken from its place, and its callback is next. */
  lemma TimeoutReturns(states: seq<State>, actions: seq<Action>, n: nat, i: nat)
    requires IsRun(states, actions) && n < |actions| && actions[n] == Expire(i)
    ensures i < |states[n].main| && states[n + 1].worker == Firing(states[n].main[i])
    ensures states[n].main[i] !in Requests(states[n + 1])
  {
    var s := states[n];
    RunInv(states, actions, n);
    assert StepAt(states, actions, n);
    RequestsStep(s, actions[n]);
    if s.main[i] in Requests(states[n + 1]) {
      Gone(s, i, s.main[i]);
    }
  }

  /** Firing calls the callback of the request in the worker's hands, the only time. */
  lemma FireReturns(states: seq<State>, actions: seq<Action>, n: nat)
    requires IsRun(states, actions) && n < |actions| && actions[n] == Fire
    ensures Enabled(states[n], Fire)
    ensures var c := Subject(states[n], Fire);
      && 0 <= c < |states[n].contexts| && c < |states[n + 1].contexts|
      && states[n].contexts[c].fired == 0 && states[n + 1].contexts[c].fired == 1
  {
    RunInv(states, actions, n);
    assert StepAt(states, actions, n);
    SubjectKnown(states[n], Fire);
  }

  // ------------------------------------------------------------------
  // Cancellation

  /** A cancelled request has its cancel entry, or its callback has fired. */
  predicate CancelAt(s: State, c: nat) {
    && c < |s.contexts| && s.contexts[c].isCancelled
    && (CancelRefs(s, c) == 0 || s.worker == CancelUnref(c) ==> s.contexts[c].fired == 1)
  }

  /** The callback of a request does not fire back. */
  lemma FiredStays(s: State, a: Action, c: nat)
    requires Inv(s) && Enabled(s, a) && Inv(Do(s, a)) && c < |s.contexts|
    ensures c < |Do(s, a).contexts| && Do(s, a).contexts[c].fired >= s.contexts[c].fired
    ensures s.contexts[c].isCancelled ==> Do(s, a).contexts[c].isCancelled
  {
    if Subject(s, a) != c {
      OthersUntouched(s, a, c);
    }
  }

  lemma CallerCounts(s: State, a: Action, c: nat)
    requires Inv(s) && Enabled(s, a) && c < |s.contexts| && !ByWorker(a)
    ensures CancelRefs(Do(s, a), c) >= CancelRefs(s, c)
    ensures Do(s, a).worker == CancelUnref(c) ==> s.worker == CancelUnref(c)
  {
    Counts(s, a, c);
  }

  lemma EntryCounts(s: State, c: nat)
    requires Inv(s) && Enabled(s, CancelNext) && c < |s.contexts|
    ensures CancelRefs(Do(s, CancelNext), c) >= CancelRefs(s, c)
    ensures Do(s, CancelNext).worker == CancelUnref(c) ==> s.cancelled[0] == c && c !in s.main
  {
    Counts(s, CancelNext, c);
    SubjectKnown(s, CancelNext);
  }

  lemma UnrefCounts(s: State, c: nat)
    requires Inv(s) && Enabled(s, Unref) && c < |s.contexts|
    ensures CancelRefs(Do(s, Unref), c) >= CancelRefs(s, c) || s.worker == CancelUnref(c)
    ensures Do(s, Unref).worker == CancelUnref(c) ==> s.worker == CancelFired(c)
  {
  }

  lemma WorkerCounts(s: State, a: Action, c: nat)
    requires Inv(s) && Enabled(s, a) && c < |s.contexts| && ByWorker(a) && a != Unref && a != CancelNext
    ensures CancelRefs(Do(s, a), c) >= CancelRefs(s, c)
    ensures Do(s, a).worker != CancelUnref(c)
  {
    if a == Take {
      TakeCounts(s, c);
    }
  }

  lemma TakeCounts(s: State, c: nat)
    requires Inv(s) && Enabled(s, Take)
    ensures CancelRefs(Do(s, Take), c) == CancelRefs(s, c) && Do(s, Take).worker == Accepting
  {
  }

  lemma CancelCounts(s: State, a: Action, c: nat)
    requires Inv(s) && Enabled(s, a) && c < |s.contexts|
    ensures CancelRefs(Do(s, a), c) >= CancelRefs(s, c) || (a == Unref && s.worker == CancelUnref(c))
    ensures Do(s, a).worker == CancelUnref(c) && s.worker != CancelUnref(c) ==>
      (a == CancelNext && s.cancelled[0] == c && c !in s.main) || (a == Unref && s.worker == CancelFired(c))
  {
    if !ByWorker(a) {
      CallerCounts(s, a, c);
    } else if a == CancelNext {
      EntryCounts(s, c);
    } else if a == Unref {
      UnrefCounts(s, c);
    } else {
      WorkerCounts(s, a, c);
    }
  }

  lemma CancelStep(s: State, a: Action, c: nat)
    requires Inv(s) && Enabled(s, a) && CancelAt(s, c)
    ensures CancelAt(Do(s, a), c)
  {
    StepKeeps(s, a);
    FiredStays(s, a, c);
    CancelCounts(s, a, c);
    assert ContextOk(s, c) && ContextOk(Do(s, a), c);
    if a == CancelNext && s.cancelled[0] == c && c !in s.main {
      MissedIsOver(s, c);
    }
  }

  /** The request of a cancel entry which is not in the main list is over. */
  lemma MissedIsOver(s: State, c: nat)
    requires Inv(s) && Enabled(s, CancelNext) && s.cancelled[0] == c && c !in s.main && c < |s.contexts|
    ensures s.contexts[c].fired == 1
  {
    assert ContextOk(s, c);
    CountIn(s.main, c);
    CountIn(s.cancelled, c);
  }

  /** A cancel entry which is posted is the last one, and the worker is awake. */
  lemma CancelPosted(states: seq<State>, actions: seq<Action>, n: nat, i: nat)
    requires IsRun(states, actions) && n < |actions| && actions[n] == CancelAppend(i)
    ensures i < |states[n].cancelling| && states[n + 1].worker != Asleep
    ensures states[n + 1].frontCancel == states[n].frontCancel + [states[n].cancelling[i]]
  {
    RunInv(states, actions, n + 1);
    assert StepAt(states, actions, n);
  }

  lemma {:induction false} CancelStays(states: seq<State>, actions: seq<Action>, m: nat, n: nat, c: nat)
    requires IsRun(states, actions) && m < n < |states| && actions[m] == Cancel(c)
    ensures CancelAt(states[n], c)
  {
    RunInv(states, actions, n - 1);
    assert StepAt(states, actions, n - 1);
    if m + 1 < n {
      CancelStays(states, actions, m, n - 1, c);
      CancelStep(states[n - 1], actions[n - 1], c);
    } else {
      CancelStarts(states[m], c);
    }
  }

  /** From Cancel() on the worker has a cancel entry for the request, or the callback has fired. */
  lemma CancelReturns(states: seq<State>, actions: seq<Action>, m: nat, n: nat, c: nat)
    requires IsRun(states, actions) && m < n < |states| && actions[m] == Cancel(c)
    ensures CancelAt(states[n], c) && !states[n].contexts[c].handle
  {
    CancelStays(states, actions, m, n, c);
    RunInv(states, actions, n);
    assert ContextOk(states[n], c);
  }

  lemma CancelStarts(s: State, c: nat)
    requires Inv(s) && Enabled(s, Cancel(c))
    ensures c < |Do(s, Cancel(c)).contexts| && CancelAt(Do(s, Cancel(c)), c)
  {
    assert ContextOk(s, c);
    assert (s.cancelling + [c])[|s.cancelling|] == c;
    CountIn(s.cancelling + [c], c);
  }

  // ------------------------------------------------------------------
  // The worker

  predicate ByWorker(a: Action) {
    !a.Post? && !a.PostAppend? && !a.Cancel? && !a.CancelAppend? && !a.Drop?
  }

  /** Each step of the worker takes it on. */
  lemma WorkerAdvances(s: State, a: Action)
    requires Enabled(s, a) && ByWorker(a)
    ensures Do(s, a).worker != s.worker || |Do(s, a).accepted| < |s.accepted|
  {
  }

  /** It goes to sleep if and only if it has nothing to do. */
  lemma FrontStartReturns(states: seq<State>, actions: seq<Action>, n: nat)
    requires IsRun(states, actions) && n < |actions| && actions[n] == FrontStart
    ensures states[n + 1].worker == Asleep <==> Requests(states[n]) == [] && states[n].frontCancel == []
  {
    RunInv(states, actions, n);
    assert StepAt(states, actions, n);
  }
}
