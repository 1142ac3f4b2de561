/** What the calls of the owner of an io_uring task have done when they return, and where the task ends up. */
module IOUringCalls {
  import opened IOUring

  // ------------------------------------------------------------------
  // What a step keeps

  /** READY, or closing or closed since then, and not given to its owner yet. */
  predicate Awake(s: Task) {
    s.status != PENDING && s.status != WAITING && s.closing == 0
  }

  /** Closing has begun, and the task is not posted again. */
  predicate Guarded(s: Task) {
    s.guard && s.reviving == 0
  }

  /** The steps of the scheduler, of the workers up to the task's body, and of calls which have begun. */
  predicate Internal(a: Action) {
    a.WakerPush? || a.CloseExchange? || a.CloserPush? || a.PopFront? || a.TakePending? || a.FrontCas? || a.FrontClose?
    || a.KernelCas? || a.KernelClose? || a.Flush? || a.Submit? || a.WorkerPop? || a.WorkerExecute? || a.ReuseUnguard?
    || a.ReusePost?
  }

  /** A bound on the number of internal steps before something has to come from outside. */
  function Distance(s: Task): nat {
    12 * s.reviving + 11 * s.reposting + 10 * s.guards + 9 * s.wakers + 9 * s.closers + 8 * s.front + 7 * s.pendingQueue
    + 4 * s.readyList + 3 * s.readyQueue + 2 * s.popped + s.unsubmitted + |s.toSubmit|
    + match s.scheduler
      case Idle => 0
      case Completed(_) => 6
      case Popped => 6
      case Cancelled => 5
      case PoppedClosed => 5
  }

  predicate Moves(s: Task, a: Action, n: Task) {
    && (Awake(s) && a != WorkerExecute ==> Awake(n))
    && (Guarded(s) && a != Reuse ==> Guarded(n))
    && (s.hasSocket && !n.isClosed ==> n.hasSocket)
    && (Internal(a) ==> Distance(n) < Distance(s))
  }

  lemma SchedulerMoves(s: Task, a: Action)
    requires Inv(s) && Enabled(s, a) && ByScheduler(a)
    ensures Moves(s, a, Do(s, a))
  {
  }

  lemma SubmissionMoves(s: Task, a: Action)
    requires Inv(s) && Enabled(s, a) && BySubmission(a)
    ensures Moves(s, a, Do(s, a))
  {
  }

  lemma KernelPhaseMoves(s: Task, a: Action)
    requires Inv(s) && Enabled(s, a) && ByKernelPhase(a)
    ensures Moves(s, a, Do(s, a))
  {
  }

  lemma FrontPhaseMoves(s: Task, a: Action)
    requires Inv(s) && Enabled(s, a) && a.FrontCas?
    ensures Moves(s, a, Do(s, a))
  {
  }

  lemma WorkerMoves(s: Task, a: Action)
    requires Inv(s) && Enabled(s, a) && ByWorker(a)
    ensures Moves(s, a, Do(s, a))
  {
  }

  lemma CloserMoves(s: Task, a: Action)
    requires Inv(s) && Enabled(s, a) && ByCloser(a)
    ensures Moves(s, a, Do(s, a))
  {
  }

  lemma OwnerMoves(s: Task, a: Action)
    requires Inv(s) && Enabled(s, a)
    requires a.Post? || a.ClosedEnd? || a.Reuse? || a.ReuseUnguard? || a.ReusePost?
    ensures Moves(s, a, Do(s, a))
  {
  }

  lemma StepMoves(s: Task, a: Action)
    requires Inv(s) && Enabled(s, a)
    ensures Moves(s, a, Do(s, a))
  {
    if ByScheduler(a) {
      SchedulerMoves(s, a);
    } else if BySubmission(a) {
      SubmissionMoves(s, a);
    } else if ByKernelPhase(a) {
      KernelPhaseMoves(s, a);
    } else if a.FrontCas? {
      FrontPhaseMoves(s, a);
    } else if ByWorker(a) {
      WorkerMoves(s, a);
    } else if ByCloser(a) {
      CloserMoves(s, a);
    } else {
      OwnerMoves(s, a);
    }
  }

  /** A task which is posted, or which its worker is done with, is in the front queue, and in no hands any more. */
  lemma PostReturns(states: seq<Task>, actions: seq<Action>, n: nat)
    requires IsRun(states, actions) && n < |actions|
    requires actions[n].Post? || actions[n].ReusePost? || actions[n] == WorkerReturn
    ensures var s := states[n + 1]; s.front == 1 && s.isInQueues && s.unposted + s.running + s.reposting == 0
  {
    RunInv(states, actions, n);
    RunInv(states, actions, n + 1);
    assert StepAt(states, actions, n);
  }

  /** A closed task is gone, or its owner revives it: PENDING, open and without the guard it may be closed again. */
  lemma ReuseReturns(states: seq<Task>, actions: seq<Action>, n: nat)
    requires IsRun(states, actions) && n < |actions|
    ensures actions[n] == ClosedEnd ==> states[n + 1].gone == 1
    ensures actions[n] == Reuse ==>
      states[n + 1].reviving == 1 && states[n + 1].status == PENDING && !states[n + 1].isClosed
    ensures actions[n] == ReuseUnguard ==> states[n + 1].reposting == 1 && !states[n + 1].guard
  {
    RunInv(states, actions, n);
    assert StepAt(states, actions, n);
  }

  /** A worker has the task and all its ready events, and the task is PENDING: without a new wakeup it may sleep. */
  lemma ExecuteReturns(states: seq<Task>, actions: seq<Action>, n: nat)
    requires IsRun(states, actions) && n < |actions| && actions[n] == WorkerExecute
    ensures states[n + 1].status == if states[n].status == READY then PENDING else states[n].status
    ensures states[n + 1].readyCount == 0
    ensures if states[n].isClosed then states[n + 1].closing == 1 else states[n + 1].running == 1
  {
    RunInv(states, actions, n);
    assert StepAt(states, actions, n);
  }

  // ------------------------------------------------------------------
  // PostWakeup

  /** A wakeup of a sleeping or of a running task makes it READY, and a sleeping one is on its way to the scheduler. */
  lemma WakeupReturns(states: seq<Task>, actions: seq<Action>, n: nat)
    requires IsRun(states, actions) && n < |actions| && actions[n] == Wakeup
    ensures states[n + 1].status == READY
    ensures states[n + 1].wakers == states[n].wakers + if states[n].status == WAITING then 1 else 0
  {
    assert StepAt(states, actions, n);
  }

  /** A READY task neither sleeps nor forgets that before a worker executes it. */
  lemma {:induction false} StaysAwake(states: seq<Task>, actions: seq<Action>, i: nat, j: nat)
    requires IsRun(states, actions) && i <= j < |states| && states[i].status == READY
    requires forall k :: i <= k < j ==> actions[k] != WorkerExecute
    ensures Awake(states[j])
  {
    RunInv(states, actions, i);
    if i < j {
      StaysAwake(states, actions, i, j - 1);
      RunInv(states, actions, j - 1);
      assert StepAt(states, actions, j - 1);
      StepMoves(states[j - 1], actions[j - 1]);
    }
  }

  /** So the front phase gives it to the workers when it comes, unless it has to be closed. */
  lemma WokenIsDispatched(states: seq<Task>, actions: seq<Action>, i: nat, j: nat)
    requires IsRun(states, actions) && i < j < |actions|
    requires actions[i] == Wakeup && actions[j].FrontCas?
    requires forall k :: i < k < j ==> actions[k] != WorkerExecute
    ensures states[j].status == CLOSING || (states[j + 1].status == READY && states[j + 1].readyList == 1)
  {
    WakeupReturns(states, actions, i);
    StaysAwake(states, actions, i + 1, j);
    RunInv(states, actions, j);
    assert StepAt(states, actions, j);
  }

  // ------------------------------------------------------------------
  // PostClose

  lemma {:induction false} CloseStays(states: seq<Task>, actions: seq<Action>, i: nat, j: nat)
    requires IsRun(states, actions) && i < j < |states| && actions[i] == CloseStart
    requires forall k :: i < k < j ==> actions[k] != Reuse
    ensures Guarded(states[j])
  {
    assert StepAt(states, actions, j - 1);
    RunInv(states, actions, j - 1);
    if i + 1 < j {
      CloseStays(states, actions, i, j - 1);
      StepMoves(states[j - 1], actions[j - 1]);
    } else {
      FirstClose(states[i]);
    }
  }

  lemma FirstClose(s: Task)
    requires Inv(s) && Enabled(s, CloseStart)
    ensures Guarded(Do(s, CloseStart))
  {
  }

  lemma GuardedIs(s: Task)
    requires Inv(s) && Guarded(s)
    ensures s.guards == 1 || s.status == CLOSING || s.status == CLOSED
  {
  }

  /** From the first PostClose on the task is closing, inside of that call, or closed, until it is posted again. */
  lemma CloseReturns(states: seq<Task>, actions: seq<Action>, i: nat, j: nat)
    requires IsRun(states, actions) && i < j < |states| && actions[i] == CloseStart
    requires forall k :: i < k < j ==> actions[k] != Reuse
    ensures states[j].guard
    ensures states[j].guards == 1 || states[j].status == CLOSING || states[j].status == CLOSED
  {
    CloseStays(states, actions, i, j);
    RunInv(states, actions, j);
    GuardedIs(states[j]);
  }

  /**
   * The front phase closes a closing task at once if it has no operations but complete ones. Otherwise it queues one
   * cancellation behind them.
   */
  lemma ClosingReturns(states: seq<Task>, actions: seq<Action>, n: nat)
    requires IsRun(states, actions) && n < |actions| && actions[n].FrontCas? && states[n].status == CLOSING
    ensures var s, s' := states[n], states[n + 1];
      if s.operationCount == s.pendingCount then
        s'.scheduler == PoppedClosed && s'.isClosed && !s'.hasSocket && s'.toSubmit == s.toSubmit
      else
        !s'.isClosed && s'.cancelling == 1 && s'.cancelLocked && s'.toSubmit == s.toSubmit + [Cancel]
  {
    RunInv(states, actions, n);
    assert StepAt(states, actions, n);
  }

  // ------------------------------------------------------------------
  // Deadlines

  /** A task which went to sleep with a deadline is in the heap as long as it sleeps. */
  lemma {:induction false} SleeperHasDeadline(
    states: seq<Task>, actions: seq<Action>, i: nat, j: nat, expired: bool)
    requires IsRun(states, actions) && i < j < |states| && actions[i] == FrontCas(expired, true)
    requires forall k :: i < k <= j ==> states[k].status == WAITING
    ensures states[j].inHeap
  {
    assert StepAt(states, actions, j - 1);
    RunInv(states, actions, j - 1);
    if i + 1 < j {
      SleeperHasDeadline(states, actions, i, j - 1, expired);
    }
  }

  /** An expired task is given to the workers, from the heap or from the front queue, and leaves the heap. */
  lemma ExpiredIsDispatched(states: seq<Task>, actions: seq<Action>, n: nat)
    requires IsRun(states, actions) && n < |actions|
    requires actions[n] == Expire || (actions[n].FrontCas? && actions[n].expired && states[n].status != CLOSING)
    ensures !states[n + 1].inHeap
    ensures (actions[n] == Expire && states[n].status != WAITING) ||
            (states[n + 1].status == READY && states[n + 1].readyList == 1)
  {
    RunInv(states, actions, n);
    assert StepAt(states, actions, n);
  }

  // ------------------------------------------------------------------
  // Sockets and operations

  /** A task has the socket it was posted with, or which was attached to it. */
  lemma SocketGiven(states: seq<Task>, actions: seq<Action>, n: nat)
    requires IsRun(states, actions) && n < |actions|
    ensures actions[n].Post? || actions[n].ReusePost? ==> states[n + 1].hasSocket == actions[n].socket
    ensures actions[n] == AttachSocket ==> states[n + 1].hasSocket
  {
    assert StepAt(states, actions, n);
  }

  /** It keeps the socket until it is closed. */
  lemma {:induction false} SocketStays(states: seq<Task>, actions: seq<Action>, i: nat, j: nat)
    requires IsRun(states, actions) && i <= j < |states| && states[i].hasSocket
    requires forall k :: i <= k <= j ==> !states[k].isClosed
    ensures states[j].hasSocket
  {
    if i < j {
      SocketStays(states, actions, i, j - 1);
      RunInv(states, actions, j - 1);
      assert StepAt(states, actions, j - 1);
      StepMoves(states[j - 1], actions[j - 1]);
    }
  }

  function Operations(q: seq<Entry>): nat {
    if q == [] then 0 else Operations(q[..|q| - 1]) + if q[|q| - 1] == Operation then 1 else 0
  }

  lemma OperationsOne(q: seq<Entry>, e: Entry)
    ensures Operations(q + [e]) == Operations(q) + if e == Operation then 1 else 0
  {
    assert (q + [e])[..|q|] == q;
  }

  lemma {:induction false} OperationsMany(q: seq<Entry>, n: nat)
    ensures Operations(q + seq(n, _ => Operation)) == Operations(q) + n
  {
    if n == 0 {
      assert q + seq(n, _ => Operation) == q;
    } else {
      OperationsMany(q, n - 1);
      assert q + seq(n, _ => Operation) == q + seq(n - 1, _ => Operation) + [Operation];
      OperationsOne(q + seq(n - 1, _ => Operation), Operation);
    }
  }

  lemma {:induction false} OperationsFirst(q: seq<Entry>)
    requires q != []
    ensures Operations(q) == Operations(q[1..]) + if q[0] == Operation then 1 else 0
  {
    var m := |q| - 1;
    if m == 0 {
      assert q[..0] == [] && q[1..] == [];
    } else {
      OperationsFirst(q[..m]);
      assert q[..m][1..] == q[1..][..m - 1];
    }
  }

  /** Started, and not complete. */
  function InFlight(s: Task): int {
    s.unsubmitted + Operations(s.toSubmit) + s.kernel - if s.kernelCancel then 1 else 0
  }

  function Started(actions: seq<Action>, n: nat): nat
    requires n <= |actions|
  {
    if n == 0 then 0 else Started(actions, n - 1) + if actions[n - 1] == OperationStart then 1 else 0
  }

  function Completed(actions: seq<Action>, n: nat): nat
    requires n <= |actions|
  {
    if n == 0 then 0 else Completed(actions, n - 1) + if actions[n - 1] == Complete(false) then 1 else 0
  }

  function Change(a: Action): int {
    if a == OperationStart then 1 else if a == Complete(false) then -1 else 0
  }

  lemma SubmissionStep(s: Task, a: Action)
    requires CancelOk(s) && Enabled(s, a) && (a.TakePending? || a.Submit?)
    ensures InFlight(Do(s, a)) == InFlight(s)
  {
    if a.TakePending? {
      OperationsMany(s.toSubmit, s.unsubmitted);
    } else {
      OperationsFirst(s.toSubmit);
    }
  }

  lemma FrontStep(s: Task, a: Action)
    requires Inv(s) && Enabled(s, a) && a.FrontCas?
    ensures InFlight(Do(s, a)) == InFlight(s)
  {
    OperationsOne(s.toSubmit, Cancel);
  }

  lemma InFlightStep(s: Task, a: Action)
    requires Inv(s) && Enabled(s, a)
    ensures InFlight(Do(s, a)) == InFlight(s) + Change(a)
  {
    if a.TakePending? || a.Submit? {
      SubmissionStep(s, a);
    } else if a.FrontCas? {
      FrontStep(s, a);
    }
  }

  lemma CountStep(actions: seq<Action>, n: nat)
    requires n < |actions|
    ensures Started(actions, n + 1) - Completed(actions, n + 1)
         == Started(actions, n) - Completed(actions, n) + Change(actions[n])
  {
  }

  /** Every operation a worker starts is submitted once and completes once: the rest is on its way or in the kernel. */
  lemma {:induction false} OperationsKept(states: seq<Task>, actions: seq<Action>, n: nat)
    requires IsRun(states, actions) && n <= |actions|
    ensures Started(actions, n) == Completed(actions, n) + InFlight(states[n])
  {
    if n > 0 {
      OperationsKept(states, actions, n - 1);
      RunInv(states, actions, n - 1);
      CountStep(actions, n - 1);
      assert StepAt(states, actions, n - 1);
      InFlightStep(states[n - 1], actions[n - 1]);
    }
  }

  // ------------------------------------------------------------------
  // Where a task ends up

  /** Internal steps end. */
  lemma InternalStepsEnd(s: Task, a: Action)
    requires Inv(s) && Enabled(s, a) && Internal(a)
    ensures Distance(Do(s, a)) < Distance(s)
  {
    StepMoves(s, a);
  }

  predicate Stopped(s: Task, a: Action) {
    Internal(a) ==> !Enabled(s, a)
  }

  ghost predicate Quiescent(s: Task) {
    forall a {:trigger Stopped(s, a)} :: Stopped(s, a)
  }

  /**
   * When they ended the task was not posted yet, or its owner has it, or it is gone, or it sleeps without events, or
   * it waits for the kernel to complete its cancelled operations.
   */
  lemma NoStuckState(states: seq<Task>, actions: seq<Action>, n: nat)
    requires IsRun(states, actions) && n < |states| && Quiescent(states[n])
    ensures var s := states[n];
      && s.scheduler == Idle && s.toSubmit == []
      && (|| s.unposted == 1 || s.running == 1 || s.closing == 1 || s.gone == 1
          || (s.status == WAITING && s.pendingCount == 0 && s.readyCount == 0)
          || (s.cancelling == 1 && s.kernel > 0))
  {
    RunInv(states, actions, n);
    NothingMoves(states[n]);
    EndsWell(states[n]);
  }

  lemma SchedulerRests(s: Task)
    requires Quiescent(s)
    ensures s.scheduler == Idle && s.toSubmit == [] && s.front == 0 && s.pendingQueue == 0 && s.readyList == 0
  {
    assert Stopped(s, FrontCas(true, true)) && Stopped(s, FrontClose) && Stopped(s, KernelCas);
    assert Stopped(s, KernelClose);
    assert Stopped(s, PopFront) && Stopped(s, TakePending) && Stopped(s, Flush) && Stopped(s, Submit);
  }

  lemma NothingMoves(s: Task)
    requires Quiescent(s)
    ensures Resting(s)
  {
    SchedulerRests(s);
    assert Stopped(s, WakerPush) && Stopped(s, CloseExchange) && Stopped(s, CloserPush);
    assert Stopped(s, WorkerPop) && Stopped(s, WorkerExecute);
    assert Stopped(s, ReuseUnguard) && Stopped(s, ReusePost(true));
  }

  predicate Resting(s: Task) {
    && s.scheduler == Idle && s.toSubmit == []
    && OnTheWay(s) == 0 && s.guards == 0 && Dispatched(s) == 0 && s.popped == 0 && s.reviving == 0 && s.reposting == 0
  }

  lemma EndsWell(s: Task)
    requires Inv(s) && Resting(s)
    ensures
      || s.unposted == 1 || s.running == 1 || s.closing == 1 || s.gone == 1
      || (s.status == WAITING && s.pendingCount == 0 && s.readyCount == 0)
      || (s.cancelling == 1 && s.kernel > 0)
  {
  }
}
