/** The signal of src/mg/box/Signal.cpp: any number of senders and receivers, and the destructor. */
module Signal {
  datatype Word = EMPTY | PROBE | SIGNALED

  datatype Pc =
    | Out
    // Send() after its compare-exchange succeeded.
    | SendLock       // Before myLock.Lock().
    | SendSet        // Before the exchange.
    | SendNotify     // Before myCond.Signal().
    | SendUnlock     // Before myLock.Unlock().
    // ReceiveBlocking() and ReceiveTimed() after their first Receive() failed.
    | Lock(timed: bool)      // Before myLock.Lock().
    | Check(timed: bool)     // Before Receive().
    | Sleep(timed: bool)     // Before the wait, after a failed Receive().
    | Asleep(timed: bool)    // On the condition variable, without the lock.
    | Woken(timed: bool)     // Before the lock is taken again.
    | Unlock(got: bool)      // Before myLock.Unlock().
    | Recheck                // Of a timed wait: the Receive() after the wait.
    // The destructor.
    | DestroyLock
    | DestroyUnlock
    | Destroyed

  /** `sent` and `received` count the exchanges to SIGNALED and the successful Receive() calls. */
  datatype State = State(word: Word, lock: int, pcs: seq<Pc>, destroying: bool, sent: nat, received: nat)

  datatype Action =
    | Send(thread: nat)
    | Receive(thread: nat)
    | Blocking(thread: nat, timed: bool)
    | Destroy(thread: nat)
    | Notify(thread: nat, target: nat)
    | Wake(thread: nat)  // Spuriously or by the timeout.
    | Go(thread: nat)    // The next operation of a thread inside.

  predicate Init(s: State) {
    && s.word == EMPTY && s.lock == -1 && !s.destroying && s.sent == 0 && s.received == 0
    && forall t :: 0 <= t < |s.pcs| ==> s.pcs[t] == Out
  }

  predicate IsAsleep(s: State, t: nat) {
    t < |s.pcs| && s.pcs[t].Asleep?
  }

  predicate IsSender(pc: Pc) {
    pc.SendLock? || pc.SendSet? || pc.SendNotify? || pc.SendUnlock?
  }

  predicate Enabled(s: State, a: Action) {
    && a.thread < |s.pcs|
    && var pc := s.pcs[a.thread];
      match a {
        // The object is not used any more once its owner destroys it.
        case Send(_) => pc == Out && !s.destroying
        case Receive(_) => pc == Out && !s.destroying
        case Blocking(_, _) => pc == Out && !s.destroying
        case Destroy(t) =>
          && pc == Out && !s.destroying
          && forall u :: 0 <= u < |s.pcs| ==> s.pcs[u] == Out || IsSender(s.pcs[u])
        // Somebody is woken if there is anybody.
        case Notify(_, u) => pc == SendNotify && (IsAsleep(s, u) || forall v :: 0 <= v < |s.pcs| ==> !IsAsleep(s, v))
        case Wake(_) => pc.Asleep?
        case Go(_) =>
          match pc {
            case SendLock => s.lock == -1
            case Lock(_) => s.lock == -1
            case Woken(_) => s.lock == -1
            case DestroyLock => s.lock == -1
            case SendSet => true
            case SendUnlock => true
            case Check(_) => true
            case Recheck => true
            case Sleep(_) => true
            case Unlock(_) => true
            case DestroyUnlock => true
            case _ => false
          }
      }
  }

  function Set(s: State, t: nat, pc: Pc): State
    requires t < |s.pcs|
  {
    s.(pcs := s.pcs[t := pc])
  }

  /** Receive(): true is the word was SIGNALED. */
  function Take(s: State): State {
    if s.word == SIGNALED then s.(word := EMPTY, received := s.received + 1) else s
  }

  function DoGo(s: State, t: nat): State
    requires Enabled(s, Go(t))
  {
    match s.pcs[t]
    case SendLock => Set(s, t, SendSet).(lock := t)
    case SendSet => Set(s, t, SendNotify).(word := SIGNALED, sent := s.sent + 1)
    case SendUnlock => Set(s, t, Out).(lock := -1)
    case Lock(timed) => Set(s, t, Check(timed)).(lock := t)
    case Check(timed) => Set(Take(s), t, if s.word == SIGNALED then Unlock(true) else Sleep(timed))
    case Sleep(timed) => Set(s, t, Asleep(timed)).(lock := -1)
    case Woken(timed) => Set(s, t, if timed then Recheck else Check(false)).(lock := t)
    case Recheck => Set(Take(s), t, Unlock(s.word == SIGNALED))
    case Unlock(_) => Set(s, t, Out).(lock := -1)
    case DestroyLock => Set(s, t, DestroyUnlock).(lock := t)
    case DestroyUnlock => Set(s, t, Destroyed).(lock := -1)
  }

  function Do(s: State, a: Action): State
    requires Enabled(s, a)
  {
    match a
    case Send(t) => if s.word == EMPTY then Set(s, t, SendLock).(word := PROBE) else s
    case Receive(_) => Take(s)
    case Blocking(t, timed) => if s.word == SIGNALED then Take(s) else Set(s, t, Lock(timed))
    case Destroy(t) => Set(s, t, DestroyLock).(destroying := true)
    case Notify(t, u) =>
      var n := Set(s, t, SendUnlock);
      if IsAsleep(s, u) then Set(n, u, Woken(s.pcs[u].timed)) else n
    case Wake(t) => Set(s, t, Woken(s.pcs[t].timed))
    case Go(t) => DoGo(s, t)
  }

  /** The assertion of Send(). */
  predicate Asserts(s: State, a: Action) {
    a.Go? && a.thread < |s.pcs| && s.pcs[a.thread] == SendSet ==> s.word == PROBE
  }

  // ------------------------------------------------------------------
  // The invariant

  predicate Locks(pc: Pc) {
    pc.SendSet? || pc.SendNotify? || pc.SendUnlock? || pc.Check? || pc.Sleep? || pc.Recheck? || pc.Unlock?
    || pc.DestroyUnlock?
  }

  /** A sender between its two changes of the word. */
  predicate Probes(pc: Pc) {
    pc.SendLock? || pc.SendSet?
  }

  /** Somebody who is going to notice the signal: not waiting any more, or about to notify. */
  predicate Notices(pc: Pc) {
    pc.SendNotify? || pc.Woken? || pc.Check? || pc.Recheck?
  }

  predicate ThreadOk(s: State, t: nat)
    requires t < |s.pcs|
  {
    var pc := s.pcs[t];
    && (s.lock == t <==> Locks(pc))
    && (Probes(pc) ==> s.word == PROBE)
    && (pc.Sleep? ==> s.word != SIGNALED)
    && (pc.DestroyLock? || pc.DestroyUnlock? || pc.Destroyed? ==> s.destroying)
  }

  /** No two senders probe. */
  predicate OneProbe(s: State) {
    forall t, u {:trigger ProbePair(s, t, u)} :: 0 <= t < |s.pcs| && 0 <= u < |s.pcs| ==> ProbePair(s, t, u)
  }

  predicate ProbePair(s: State, t: nat, u: nat)
    requires t < |s.pcs| && u < |s.pcs|
  {
    Probes(s.pcs[t]) && Probes(s.pcs[u]) ==> t == u
  }

  ghost predicate SomeProbe(s: State) {
    exists t :: 0 <= t < |s.pcs| && Probes(s.pcs[t])
  }

  ghost predicate SomeNotices(s: State) {
    exists t :: 0 <= t < |s.pcs| && Notices(s.pcs[t])
  }

  ghost predicate Inv(s: State) {
    && -1 <= s.lock < |s.pcs|
    && (forall t {:trigger ThreadOk(s, t)} :: 0 <= t < |s.pcs| ==> ThreadOk(s, t))
    && OneProbe(s)
    && (s.word == PROBE ==> SomeProbe(s))
    && s.sent == s.received + (if s.word == SIGNALED then 1 else 0)
    && (forall t {:trigger IsAsleep(s, t)} :: s.word == SIGNALED && IsAsleep(s, t) ==> SomeNotices(s))
  }

  lemma ThreadKept(s: State, a: Action, t: nat)
    requires Inv(s) && Enabled(s, a) && t < |s.pcs|
    ensures ThreadOk(Do(s, a), t) && Asserts(s, a)
  {
    assert ThreadOk(s, t) && ThreadOk(s, a.thread);
    assert ProbePair(s, t, a.thread);
    if s.lock >= 0 {
      assert ThreadOk(s, s.lock);
    }
  }

  lemma PairKept(s: State, a: Action, t: nat, u: nat)
    requires Inv(s) && Enabled(s, a) && t < |s.pcs| && u < |s.pcs|
    ensures ProbePair(Do(s, a), t, u)
  {
    assert ThreadOk(s, t) && ThreadOk(s, u) && ProbePair(s, t, u);
  }

  lemma ProbeKept(s: State, a: Action)
    requires Inv(s) && Enabled(s, a) && Do(s, a).word == PROBE
    ensures SomeProbe(Do(s, a))
  {
    var n := Do(s, a);
    assert ThreadOk(s, a.thread);
    if s.word == PROBE {
      var t :| 0 <= t < |s.pcs| && Probes(s.pcs[t]);
      assert ProbePair(s, t, a.thread);
      assert Probes(n.pcs[t]);
    } else {
      assert Probes(n.pcs[a.thread]);
    }
  }

  lemma NoticeKept(s: State, a: Action, t: nat)
    requires Inv(s) && Enabled(s, a) && Do(s, a).word == SIGNALED && IsAsleep(Do(s, a), t)
    ensures SomeNotices(Do(s, a))
  {
    var n := Do(s, a);
    assert ThreadOk(s, a.thread);
    if a.Notify? {
      if IsAsleep(s, a.target) {
        assert Notices(n.pcs[a.target]);
      } else {
        assert IsAsleep(s, t);
      }
    } else if Notices(n.pcs[a.thread]) {
    } else {
      assert s.word == SIGNALED && IsAsleep(s, t);
      var u :| 0 <= u < |s.pcs| && Notices(s.pcs[u]);
      assert Notices(n.pcs[u]);
    }
  }

  lemma StepKeeps(s: State, a: Action)
    requires Inv(s) && Enabled(s, a)
    ensures Inv(Do(s, a))
  {
    var n := Do(s, a);
    assert ThreadOk(s, a.thread);
    forall t | 0 <= t < |n.pcs|
      ensures ThreadOk(n, t)
    {
      ThreadKept(s, a, t);
    }
    forall t, u | 0 <= t < |n.pcs| && 0 <= u < |n.pcs|
      ensures ProbePair(n, t, u)
    {
      PairKept(s, a, t, u);
    }
    if n.word == PROBE {
      ProbeKept(s, a);
    }
    forall t | n.word == SIGNALED && IsAsleep(n, t)
      ensures SomeNotices(n)
    {
      NoticeKept(s, a, t);
    }
  }

  // ------------------------------------------------------------------
  // Runs

  ghost predicate StepAt(states: seq<State>, actions: seq<Action>, n: nat)
    requires |states| == |actions| + 1 && n < |actions|
  {
    Enabled(states[n], actions[n]) && states[n + 1] == Do(states[n], actions[n])
  }

  /** Part of a run, from any state. */
  ghost predicate IsPath(states: seq<State>, actions: seq<Action>) {
    && |states| == |actions| + 1
    && forall n {:trigger StepAt(states, actions, n)} :: 0 <= n < |actions| ==> StepAt(states, actions, n)
  }

  ghost predicate IsRun(states: seq<State>, actions: seq<Action>) {
    IsPath(states, actions) && Init(states[0])
  }

  function Last(states: seq<State>): State
    requires states != []
  {
    states[|states| - 1]
  }

  lemma {:induction false} RunInv(states: seq<State>, actions: seq<Action>, n: nat)
    requires IsRun(states, actions) && n < |states|
    ensures Inv(states[n])
  {
    if n > 0 {
      RunInv(states, actions, n - 1);
      assert StepAt(states, actions, n - 1);
      StepKeeps(states[n - 1], actions[n - 1]);
    }
  }

  /** No assertion of the code fails in any run. */
  lemma AssertionsHold(states: seq<State>, actions: seq<Action>, n: nat)
    requires IsRun(states, actions) && n < |actions|
    ensures Asserts(states[n], actions[n])
  {
    RunInv(states, actions, n);
    assert StepAt(states, actions, n);
    ThreadKept(states[n], actions[n], actions[n].thread);
  }

  /** The word is PROBE if and only if there is one sender which did not set it to SIGNALED yet. */
  lemma ProbeIsOneSender(states: seq<State>, actions: seq<Action>, n: nat)
    requires IsRun(states, actions) && n < |states|
    ensures var s := states[n];
      s.word == PROBE <==>
        exists t :: 0 <= t < |s.pcs| && Probes(s.pcs[t]) && forall u :: 0 <= u < |s.pcs| && Probes(s.pcs[u]) ==> u == t
  {
    RunInv(states, actions, n);
    var s := states[n];
    if s.word == PROBE {
      var t :| 0 <= t < |s.pcs| && Probes(s.pcs[t]);
      forall u | 0 <= u < |s.pcs| && Probes(s.pcs[u])
        ensures u == t
      {
        assert ProbePair(s, t, u);
      }
    }
    forall t | 0 <= t < |s.pcs| && Probes(s.pcs[t])
      ensures s.word == PROBE
    {
      assert ThreadOk(s, t);
    }
  }

  /** While a signal is there and somebody sleeps on it, somebody else is about to notice or to notify. */
  lemma NoLostWakeup(states: seq<State>, actions: seq<Action>, n: nat, t: nat)
    requires IsRun(states, actions) && n < |states|
    requires states[n].word == SIGNALED && IsAsleep(states[n], t)
    ensures exists u :: 0 <= u < |states[n].pcs| && Notices(states[n].pcs[u])
  {
    RunInv(states, actions, n);
  }

  /** Each signal is received once at most, and is not lost before that. */
  lemma ReceivedOnce(states: seq<State>, actions: seq<Action>, n: nat)
    requires IsRun(states, actions) && n < |states|
    ensures states[n].sent == states[n].received + if states[n].word == SIGNALED then 1 else 0
  {
    RunInv(states, actions, n);
  }

  // ------------------------------------------------------------------
  // What a call has done when it returns

  /** The step `k` of thread `t` takes the signal. */
  ghost predicate TakesAt(states: seq<State>, actions: seq<Action>, t: nat, k: nat)
    requires |states| == |actions| + 1 && k < |actions|
  {
    actions[k].thread == t && states[k].word == SIGNALED && states[k + 1].word == EMPTY
  }

  /** The step `k` of thread `t` stores the signal. */
  ghost predicate SetsAt(states: seq<State>, actions: seq<Action>, t: nat, k: nat)
    requires |states| == |actions| + 1 && k < |actions|
  {
    actions[k].thread == t && states[k].word != SIGNALED && states[k + 1].word == SIGNALED
  }

  ghost function Taken(states: seq<State>, actions: seq<Action>, t: nat, from: nat, to: nat): nat
    requires |states| == |actions| + 1 && from <= to <= |actions|
  {
    if from == to then 0
    else Taken(states, actions, t, from, to - 1) + if TakesAt(states, actions, t, to - 1) then 1 else 0
  }

  ghost function Stored(states: seq<State>, actions: seq<Action>, t: nat, from: nat, to: nat): nat
    requires |states| == |actions| + 1 && from <= to <= |actions|
  {
    if from == to then 0
    else Stored(states, actions, t, from, to - 1) + if SetsAt(states, actions, t, to - 1) then 1 else 0
  }

  /** Thread `t` stayed in the call it began with the action `from`. */
  ghost predicate InCall(states: seq<State>, actions: seq<Action>, t: nat, from: nat, to: nat)
    requires |states| == |actions| + 1 && from < to <= |actions|
  {
    forall k :: from < k < to ==> t < |states[k].pcs| && states[k].pcs[t] != Out
  }

  /** The step of the thread which makes a waiting call return true: at once, or with what it got. */
  predicate ReturnsTrue(s: State, a: Action) {
    a.Blocking? || (a.Go? && a.thread < |s.pcs| && s.pcs[a.thread] == Unlock(true))
  }

  /** Where a waiting call may be after `taken` receipts; `result` is its result if it is over. */
  predicate CallAt(pc: Pc, timed: bool, taken: nat, result: bool) {
    match pc
    case Out => taken == (if result then 1 else 0) && (!timed ==> result)
    case Unlock(got) => taken == (if got then 1 else 0) && (!timed ==> got)
    case Recheck => timed && taken == 0
    case Lock(x) => x == timed && taken == 0
    case Check(x) => x == timed && taken == 0
    case Sleep(x) => x == timed && taken == 0
    case Asleep(x) => x == timed && taken == 0
    case Woken(x) => x == timed && taken == 0
    case _ => false
  }

  /** A step of another thread may only wake a thread up. */
  lemma OthersMove(s: State, a: Action, t: nat)
    requires Enabled(s, a) && t < |s.pcs| && a.thread != t
    ensures |Do(s, a).pcs| == |s.pcs|
    ensures Do(s, a).pcs[t] == s.pcs[t] || (s.pcs[t].Asleep? && Do(s, a).pcs[t] == Woken(s.pcs[t].timed))
  {
  }

  lemma CallMoves(s: State, a: Action, t: nat, timed: bool, taken: nat)
    requires Enabled(s, a) && t < |s.pcs| && s.pcs[t] != Out && CallAt(s.pcs[t], timed, taken, false)
    ensures var n := Do(s, a);
      && |n.pcs| == |s.pcs|
      && CallAt(n.pcs[t], timed, taken + if a.thread == t && s.word == SIGNALED && n.word == EMPTY then 1 else 0,
                ReturnsTrue(s, a))
  {
    if a.thread != t {
      OthersMove(s, a, t);
    }
  }

  /**
   * A waiting Receive takes at most one signal. A blocking one returns only with one, a timed one returns true if
   * and only if it took one.
   */
  lemma {:induction false} WaitingReturns(
    states: seq<State>, actions: seq<Action>, from: nat, to: nat, t: nat, timed: bool)
    requires IsRun(states, actions) && from < to <= |actions|
    requires actions[from] == Blocking(t, timed) && InCall(states, actions, t, from, to)
    ensures t < |states[to].pcs|
    ensures CallAt(states[to].pcs[t], timed, Taken(states, actions, t, from, to),
                   ReturnsTrue(states[to - 1], actions[to - 1]))
  {
    assert StepAt(states, actions, to - 1);
    if from + 1 < to {
      assert InCall(states, actions, t, from, to - 1);
      WaitingReturns(states, actions, from, to - 1, t, timed);
      var taken := Taken(states, actions, t, from, to - 1);
      assert CallAt(states[to - 1].pcs[t], timed, taken, false);
      CallMoves(states[to - 1], actions[to - 1], t, timed, taken);
    } else {
      assert Taken(states, actions, t, from, from) == 0;
    }
  }

  /** A waiting Receive which finds a signal takes it at once. */
  lemma WaitingFinds(states: seq<State>, actions: seq<Action>, n: nat, t: nat, timed: bool)
    requires IsRun(states, actions) && n < |actions| && actions[n] == Blocking(t, timed) && states[n].word == SIGNALED
    ensures TakesAt(states, actions, t, n) && t < |states[n + 1].pcs| && states[n + 1].pcs[t] == Out
  {
    assert StepAt(states, actions, n);
  }

  /** The non-blocking Receive takes the signal if and only if there is one. */
  lemma ReceiveReturns(states: seq<State>, actions: seq<Action>, n: nat, t: nat)
    requires IsRun(states, actions) && n < |actions| && actions[n] == Receive(t)
    ensures TakesAt(states, actions, t, n) <==> states[n].word == SIGNALED
    ensures states[n + 1].word != SIGNALED && states[n + 1].pcs == states[n].pcs
  {
    assert StepAt(states, actions, n);
  }

  /** Where a Send() which found EMPTY may be after `stored` stores of the signal. */
  predicate SendAt(pc: Pc, stored: nat) {
    match pc
    case SendLock => stored == 0
    case SendSet => stored == 0
    case SendNotify => stored == 1
    case SendUnlock => stored == 1
    case Out => stored == 1
    case _ => false
  }

  lemma SendMoves(s: State, a: Action, t: nat, stored: nat)
    requires Inv(s) && Enabled(s, a) && t < |s.pcs| && s.pcs[t] != Out && SendAt(s.pcs[t], stored)
    ensures var n := Do(s, a);
      && |n.pcs| == |s.pcs|
      && SendAt(n.pcs[t], stored + if a.thread == t && s.word != SIGNALED && n.word == SIGNALED then 1 else 0)
  {
    assert ThreadOk(s, t);
    if a.thread != t {
      OthersMove(s, a, t);
    }
  }

  /** A Send() which found EMPTY and returned has stored the signal, once. */
  lemma {:induction false} SendReturns(states: seq<State>, actions: seq<Action>, from: nat, to: nat, t: nat)
    requires IsRun(states, actions) && from < to <= |actions| && states[from].word == EMPTY
    requires actions[from] == Send(t) && InCall(states, actions, t, from, to)
    ensures t < |states[to].pcs| && SendAt(states[to].pcs[t], Stored(states, actions, t, from, to))
  {
    assert StepAt(states, actions, to - 1);
    RunInv(states, actions, to - 1);
    if from + 1 < to {
      assert InCall(states, actions, t, from, to - 1);
      SendReturns(states, actions, from, to - 1, t);
      SendMoves(states[to - 1], actions[to - 1], t, Stored(states, actions, t, from, to - 1));
    } else {
      assert Stored(states, actions, t, from, from) == 0;
    }
  }

  /** If the word was not EMPTY then the signal is there already, or its only sender is about to store it. */
  lemma SendSkips(states: seq<State>, actions: seq<Action>, n: nat, t: nat)
    requires IsRun(states, actions) && n < |actions| && actions[n] == Send(t) && states[n].word != EMPTY
    ensures states[n + 1] == states[n] && (states[n].word == SIGNALED || SomeProbe(states[n]))
  {
    RunInv(states, actions, n);
    assert StepAt(states, actions, n);
  }

  predicate Stopped(s: State, t: nat) {
    !Enabled(s, Go(t)) && forall u {:trigger Notify(t, u)} :: 0 <= u < |s.pcs| ==> !Enabled(s, Notify(t, u))
  }

  /** No thread can go on by itself. */
  predicate Quiescent(s: State) {
    forall t {:trigger Stopped(s, t)} :: 0 <= t < |s.pcs| ==> Stopped(s, t)
  }

  /** If nobody can go on, then everybody is outside or sleeps, and nobody sleeps while there is a signal. */
  lemma NoStuckState(states: seq<State>, actions: seq<Action>, n: nat, t: nat)
    requires IsRun(states, actions) && n < |states| && Quiescent(states[n]) && t < |states[n].pcs|
    ensures states[n].lock == -1 && states[n].word != PROBE
    ensures states[n].pcs[t] == Out || states[n].pcs[t] == Destroyed || states[n].pcs[t].Asleep?
    ensures states[n].pcs[t].Asleep? ==> states[n].word == EMPTY
  {
    RunInv(states, actions, n);
    var s := states[n];
    LockIsFree(s);
    forall u | 0 <= u < |s.pcs|
      ensures s.pcs[u] == Out || s.pcs[u] == Destroyed || s.pcs[u].Asleep?
    {
      assert ThreadOk(s, u) && Stopped(s, u);
    }
    assert IsAsleep(s, t) <==> s.pcs[t].Asleep?;
  }

  lemma LockIsFree(s: State)
    requires Inv(s) && Quiescent(s)
    ensures s.lock == -1
  {
    if s.lock >= 0 {
      assert Stopped(s, s.lock);
      OwnerGoesOn(s);
    }
  }

  /** The owner of the lock is never blocked. */
  lemma OwnerGoesOn(s: State)
    requires Inv(s) && s.lock >= 0
    ensures !Stopped(s, s.lock)
  {
    assert ThreadOk(s, s.lock);
    if s.pcs[s.lock] == SendNotify {
      if u :| 0 <= u < |s.pcs| && IsAsleep(s, u) {
        assert Enabled(s, Notify(s.lock, u));
      } else {
        assert Enabled(s, Notify(s.lock, s.lock));
      }
    } else {
      assert Enabled(s, Go(s.lock));
    }
  }

  /** Each operation takes its thread to another place. */
  lemma GoMoves(s: State, t: nat)
    requires Enabled(s, Go(t))
    ensures Do(s, Go(t)).pcs[t] != s.pcs[t]
  {
  }

  // ------------------------------------------------------------------
  // The destructor

  /** A sender which did not take the lock yet: it is going to touch the lock. */
  predicate AtLock(s: State, t: nat) {
    t < |s.pcs| && s.pcs[t] == SendLock
  }

  predicate NoneAtLock(s: State) {
    forall t {:trigger AtLock(s, t)} :: 0 <= t < |s.pcs| ==> !AtLock(s, t)
  }

  /** The destructor of thread `d` is done, and some thread is still inside. */
  predicate LateTouch(s: State, d: nat) {
    d < |s.pcs| && s.pcs[d] == Destroyed && exists t :: 0 <= t < |s.pcs| && t != d && s.pcs[t] != Out
  }

  /** From here nobody is ever inside after the destructor of `d`. */
  ghost predicate Safe(s: State, d: nat) {
    forall states, actions :: IsPath(states, actions) && states[0] == s ==> !LateTouch(Last(states), d)
  }

  /** Nobody is inside the object except the thread which destroys it and, before it got the lock, the lock's owner. */
  predicate Leaving(s: State, d: nat) {
    && d < |s.pcs| && s.destroying
    && (s.pcs[d] == DestroyLock || s.pcs[d] == DestroyUnlock || s.pcs[d] == Destroyed)
    && (forall t :: 0 <= t < |s.pcs| && t != d ==> s.pcs[t] == Out || (s.pcs[d] == DestroyLock && Owns(s.pcs[t])))
  }

  /** A sender with the lock. */
  predicate Owns(pc: Pc) {
    pc == SendSet || pc == SendNotify || pc == SendUnlock
  }

  lemma LeavingStep(s: State, a: Action, d: nat)
    requires Inv(s) && Enabled(s, a) && Leaving(s, d)
    ensures Leaving(Do(s, a), d)
  {
    assert ThreadOk(s, a.thread) && ThreadOk(s, d);
    var n := Do(s, a);
    forall t | 0 <= t < |s.pcs| && t != d
      ensures n.pcs[t] == Out || (n.pcs[d] == DestroyLock && Owns(n.pcs[t]))
    {
      assert ThreadOk(s, t);
    }
  }

  lemma {:induction false} LeavingPath(states: seq<State>, actions: seq<Action>, d: nat)
    requires IsPath(states, actions) && Inv(states[0]) && Leaving(states[0], d)
    ensures Inv(Last(states)) && Leaving(Last(states), d)
  {
    if actions != [] {
      var m := |actions| - 1;
      assert StepAt(states, actions, m);
      var before, earlier := states[..m + 1], actions[..m];
      forall n | 0 <= n < m
        ensures StepAt(before, earlier, n)
      {
        assert StepAt(states, actions, n);
      }
      LeavingPath(before, earlier, d);
      LeavingStep(states[m], actions[m], d);
      StepKeeps(states[m], actions[m]);
    }
  }

  /** The destructor of `d` has started, and `t` waits for the lock. */
  ghost predicate Racing(s: State, d: nat, t: nat) {
    && Inv(s) && d < |s.pcs| && AtLock(s, t)
    && (s.pcs[d] == DestroyLock || s.pcs[d] == DestroyUnlock || s.pcs[d] == Destroyed)
    && forall u :: 0 <= u < |s.pcs| && u != d ==> s.pcs[u] == Out || IsSender(s.pcs[u])
  }

  function StepsToDestroyed(s: State, d: nat): nat
    requires d < |s.pcs|
  {
    match s.pcs[d]
    case Destroyed => 0
    case DestroyUnlock => 1
    case _ =>
      if !(0 <= s.lock < |s.pcs|) then 2 else if s.pcs[s.lock] == SendUnlock then 3 else 4
  }

  /** The threads with the lock leave it, then the destructor goes through, and `t` does not move. */
  lemma {:induction false} RaceLost(s: State, d: nat, t: nat)
      returns (states: seq<State>, actions: seq<Action>)
    requires Racing(s, d, t)
    ensures IsPath(states, actions) && states[0] == s && LateTouch(Last(states), d)
    decreases StepsToDestroyed(s, d)
  {
    if s.pcs[d] == Destroyed {
      states, actions := [s], [];
    } else {
      assert ThreadOk(s, d) && ThreadOk(s, t);
      if s.lock >= 0 {
        assert ThreadOk(s, s.lock) && ProbePair(s, s.lock, t);
      }
      var a :=
        if s.pcs[d] == DestroyUnlock || s.lock < 0 then Go(d)
        else if s.pcs[s.lock] == SendUnlock then Go(s.lock) else Notify(s.lock, s.lock);
      StepKeeps(s, a);
      var rest, more := RaceLost(Do(s, a), d, t);
      states, actions := [s] + rest, [a] + more;
      forall n | 0 <= n < |actions|
        ensures StepAt(states, actions, n)
      {
        if n > 0 {
          assert StepAt(rest, more, n - 1);
        }
      }
    }
  }

  /** In any run: a destructor is safe if and only if no sender is before its lock when the destructor starts. */
  lemma DestructionIsSafe(states: seq<State>, actions: seq<Action>, i: nat)
    requires IsRun(states, actions) && i < |actions| && actions[i].Destroy?
    ensures Safe(states[i + 1], actions[i].thread) <==> NoneAtLock(states[i])
  {
    var s, n, d := states[i], states[i + 1], actions[i].thread;
    RunInv(states, actions, i);
    assert StepAt(states, actions, i);
    StepKeeps(s, actions[i]);
    if NoneAtLock(s) {
      forall t | 0 <= t < |n.pcs| && t != d
        ensures n.pcs[t] == Out || Owns(n.pcs[t])
      {
        assert !AtLock(s, t);
      }
      forall path, moves | IsPath(path, moves) && path[0] == n
        ensures !LateTouch(Last(path), d)
      {
        LeavingPath(path, moves, d);
      }
    } else {
      var t :| 0 <= t < |s.pcs| && AtLock(s, t);
      assert Racing(n, d, t);
      var path, moves := RaceLost(n, d, t);
    }
  }

  /** The condition a caller can check: a word other than PROBE, as after a Receive() of the last Send(). */
  lemma UnprobedIsSafe(states: seq<State>, actions: seq<Action>, i: nat)
    requires IsRun(states, actions) && i < |actions| && actions[i].Destroy?
    requires states[i].word != PROBE
    ensures Safe(states[i + 1], actions[i].thread)
  {
    RunInv(states, actions, i);
    forall t | 0 <= t < |states[i].pcs|
      ensures !AtLock(states[i], t)
    {
      assert ThreadOk(states[i], t);
    }
    DestructionIsSafe(states, actions, i);
  }

  /** The same at each moment: nobody comes later, and nobody is inside once the destructor is done. */
  lemma {:induction false} NoLateTouch(states: seq<State>, actions: seq<Action>, i: nat, n: nat, t: nat)
    requires IsRun(states, actions) && i < n < |states|
    requires actions[i].Destroy? && states[i].word != PROBE
    ensures var d := actions[i].thread;
      && Leaving(states[n], d) && states[n].word != PROBE
      && (states[n].pcs[d] == Destroyed && t < |states[n].pcs| && t != d ==> states[n].pcs[t] == Out)
  {
    var d := actions[i].thread;
    assert StepAt(states, actions, n - 1);
    RunInv(states, actions, n - 1);
    if i + 1 < n {
      NoLateTouch(states, actions, i, n - 1, t);
      LeavingStep(states[n - 1], actions[n - 1], d);
    } else {
      forall u | 0 <= u < |states[i].pcs|
        ensures !Probes(states[i].pcs[u])
      {
        assert ThreadOk(states[i], u);
      }
    }
  }

  // A run of two threads: the sender finds the signal EMPTY, the other thread destroys the signal, and the
  // sender still has to take its lock.

  function EarlyActions(): seq<Action> {
    [Send(0), Destroy(1), Go(1), Go(1)]
  }

  function EarlyStates(): seq<State> {
    [State(EMPTY, -1, [Out, Out], false, 0, 0),
     State(PROBE, -1, [SendLock, Out], false, 0, 0),
     State(PROBE, -1, [SendLock, DestroyLock], true, 0, 0),
     State(PROBE, 1, [SendLock, DestroyUnlock], true, 0, 0),
     State(PROBE, -1, [SendLock, Destroyed], true, 0, 0)]
  }

  lemma EarlyStep(n: nat)
    requires n < 4
    ensures StepAt(EarlyStates(), EarlyActions(), n)
  {
    assert Do(EarlyStates()[n], EarlyActions()[n]).pcs == EarlyStates()[n + 1].pcs;
  }

  lemma DestroyedTooEarly()
    ensures IsRun(EarlyStates(), EarlyActions())
    ensures LateTouch(Last(EarlyStates()), 1) && AtLock(Last(EarlyStates()), 0)
  {
    forall n | 0 <= n < 4
      ensures StepAt(EarlyStates(), EarlyActions(), n)
    {
      EarlyStep(n);
    }
    assert Last(EarlyStates()).pcs[0] != Out;
  }
}
