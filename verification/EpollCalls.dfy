/** What the calls of the owner of an epoll task have done when they return, and where the task ends up. */
module EpollCalls {
  import opened Epoll

  // ------------------------------------------------------------------
  // What a step keeps

  /** READY, or closing or closed since then, and not given to its owner yet. */
  predicate Awake(s: Task) {
    s.status != PENDING && s.status != WAITING && s.closing == 0
  }

  /** Closing has begun, and the task is not posted again. */
  predicate Guarded(s: Task) {
    s.guard && s.reviving == 0
  }

  /** The steps of the scheduler, of the workers up to the task's body, and of calls which have begun. */
  predicate Internal(a: Action) {
    a.WakerPush? || a.CloseExchange? || a.CloserPush? || a.PopFront? || a.TakePending? || a.FrontCas? || a.FrontClose?
    || a.Merge? || a.KernelCas? || a.Flush? || a.WorkerPop? || a.WorkerExecute? || a.ReuseUnguard? || a.ReusePost?
  }

  /** A bound on the number of internal steps before something has to come from outside. */
  function Distance(s: Task): nat {
    12 * s.reviving + 11 * s.reposting + 10 * s.guards + 9 * s.wakers + 9 * s.closers + 8 * s.front + 7 * s.pendingQueue
    + 4 * s.readyList + 3 * s.readyQueue + 2 * s.popped
    + match s.scheduler
      case Idle => 0
      case Collected(_) => 7
      case Merged => 6
      case Popped => 6
      case Closed => 5
  }

  predicate Moves(s: Task, a: Action, n: Task) {
    && (Awake(s) && a != WorkerExecute ==> Awake(n))
    && (Guarded(s) && a != Reuse ==> Guarded(n))
    && (s.registered && !n.isClosed ==> n.registered)
    && (Internal(a) ==> Distance(n) < Distance(s))
    && (a != WorkerExecute && a != FrontClose ==> s.ready <= n.ready)
    && (n.scheduler.Collected? && !a.Collect? ==> n.scheduler == s.scheduler)
    && n.pending + n.ready <= s.pending + s.ready + News(s, a)
  }

  /** The bits which a step brings in: from the kernel, or saved by the owner. */
  function News(s: Task, a: Action): set<Bit> {
    if a == Merge && s.scheduler.Collected? then s.scheduler.mask else if a.SaveEvent? then {a.bit} else {}
  }

  lemma SchedulerMoves(s: Task, a: Action)
    requires Inv(s) && Enabled(s, a) && ByScheduler(a)
    ensures Moves(s, a, Do(s, a))
  {
  }

  lemma CloseMoves(s: Task)
    requires Inv(s) && Enabled(s, FrontClose)
    ensures Moves(s, FrontClose, Do(s, FrontClose))
  {
  }

  lemma EventsMove(s: Task, a: Action)
    requires Inv(s) && Enabled(s, a) && ByEvents(a)
    ensures Moves(s, a, Do(s, a))
  {
  }

  lemma FrontMoves(s: Task, a: Action)
    requires Inv(s) && Enabled(s, a) && a.FrontCas?
    ensures Moves(s, a, Do(s, a))
  {
  }

  lemma WorkerMoves(s: Task, a: Action)
    requires Inv(s) && Enabled(s, a) && ByWorker(a)
    ensures Moves(s, a, Do(s, a))
  {
  }

  lemma TakeMoves(s: Task, a: Action)
    requires Inv(s) && Enabled(s, a) && (a == WorkerPop || a == WorkerExecute)
    ensures Moves(s, a, Do(s, a))
  {
  }

  lemma CloserMoves(s: Task, a: Action)
    requires Inv(s) && Enabled(s, a) && ByCloser(a)
    ensures Moves(s, a, Do(s, a))
  {
  }

  lemma OwnerMoves(s: Task, a: Action)
    requires Inv(s) && Enabled(s, a) && ByOwner(a)
    ensures Moves(s, a, Do(s, a))
  {
  }

  lemma StepMoves(s: Task, a: Action)
    requires Inv(s) && Enabled(s, a)
    ensures Moves(s, a, Do(s, a))
  {
    if ByScheduler(a) {
      SchedulerMoves(s, a);
    } else if a == FrontClose {
      CloseMoves(s);
    } else if ByEvents(a) {
      EventsMove(s, a);
    } else if a.FrontCas? {
      FrontMoves(s, a);
    } else if ByCloser(a) {
      CloserMoves(s, a);
    } else if ByOwner(a) {
      OwnerMoves(s, a);
    } else if ByWorker(a) {
      WorkerMoves(s, a);
    } else {
      TakeMoves(s, a);
    }
  }

  /** A task which is posted, or which its worker is done with, is in the front queue, and in no hands any more. */
  lemma PostReturns(states: seq<Task>, actions: seq<Action>, n: nat)
    requires IsRun(states, actions) && n < |actions|
    requires actions[n].Post? || actions[n].ReusePost? || actions[n] == WorkerReturn
    ensures var s := states[n + 1]; s.front == 1 && s.isInQueues && s.unposted + s.running + s.reposting == 0
  {
    RunInv(states, actions, n);
    RunInv(states, actions, n + 1);
    assert StepAt(states, actions, n);
  }

  /** A closed task is gone, or its owner revives it: PENDING, open and without the guard it may be closed again. */
  lemma ReuseReturns(states: seq<Task>, actions: seq<Action>, n: nat)
    requires IsRun(states, actions) && n < |actions|
    ensures actions[n] == ClosedEnd ==> states[n + 1].gone == 1
    ensures actions[n] == Reuse ==>
      states[n + 1].reviving == 1 && states[n + 1].status == PENDING && !states[n + 1].isClosed
    ensures actions[n] == ReuseUnguard ==> states[n + 1].reposting == 1 && !states[n + 1].guard
  {
    RunInv(states, actions, n);
    assert StepAt(states, actions, n);
  }

  /** A worker has the task and all its ready events, and the task is PENDING: without a new wakeup it may sleep. */
  lemma ExecuteReturns(states: seq<Task>, actions: seq<Action>, n: nat)
    requires IsRun(states, actions) && n < |actions| && actions[n] == WorkerExecute
    ensures states[n + 1].status == if states[n].status == READY then PENDING else states[n].status
    ensures states[n + 1].ready == {}
    ensures if states[n].isClosed then states[n + 1].closing == 1 else states[n + 1].running == 1
  {
    RunInv(states, actions, n);
    assert StepAt(states, actions, n);
  }

  // ------------------------------------------------------------------
  // PostWakeup

  /** A wakeup of a sleeping or of a running task makes it READY, and a sleeping one is on its way to the scheduler. */
  lemma WakeupReturns(states: seq<Task>, actions: seq<Action>, n: nat)
    requires IsRun(states, actions) && n < |actions| && actions[n] == Wakeup
    ensures states[n + 1].status == READY
    ensures states[n + 1].wakers == states[n].wakers + if states[n].status == WAITING then 1 else 0
  {
    assert StepAt(states, actions, n);
  }

  /** A READY task neither sleeps nor forgets that before a worker executes it. */
  lemma {:induction false} StaysAwake(states: seq<Task>, actions: seq<Action>, i: nat, j: nat)
    requires IsRun(states, actions) && i <= j < |states| && states[i].status == READY
    requires forall k :: i <= k < j ==> actions[k] != WorkerExecute
    ensures Awake(states[j])
  {
    RunInv(states, actions, i);
    if i < j {
      StaysAwake(states, actions, i, j - 1);
      RunInv(states, actions, j - 1);
      assert StepAt(states, actions, j - 1);
      StepMoves(states[j - 1], actions[j - 1]);
    }
  }

  /** So the front phase gives it to the workers when it comes, unless it has to be closed. */
  lemma WokenIsDispatched(states: seq<Task>, actions: seq<Action>, i: nat, j: nat)
    requires IsRun(states, actions) && i < j < |actions|
    requires actions[i] == Wakeup && actions[j].FrontCas?
    requires forall k :: i < k < j ==> actions[k] != WorkerExecute
    ensures states[j].status == CLOSING || (states[j + 1].status == READY && states[j + 1].readyList == 1)
  {
    WakeupReturns(states, actions, i);
    StaysAwake(states, actions, i + 1, j);
    RunInv(states, actions, j);
    assert StepAt(states, actions, j);
  }

  // ------------------------------------------------------------------
  // PostClose

  lemma {:induction false} CloseStays(states: seq<Task>, actions: seq<Action>, i: nat, j: nat)
    requires IsRun(states, actions) && i < j < |states| && actions[i] == CloseStart
    requires forall k :: i < k < j ==> actions[k] != Reuse
    ensures Guarded(states[j])
  {
    assert StepAt(states, actions, j - 1);
    RunInv(states, actions, j - 1);
    if i + 1 < j {
      CloseStays(states, actions, i, j - 1);
      StepMoves(states[j - 1], actions[j - 1]);
    } else {
      FirstClose(states[i]);
    }
  }

  lemma FirstClose(s: Task)
    requires Inv(s) && Enabled(s, CloseStart)
    ensures Guarded(Do(s, CloseStart))
  {
  }

  lemma GuardedIs(s: Task)
    requires Inv(s) && Guarded(s)
    ensures s.guards == 1 || s.status == CLOSING || s.status == CLOSED
  {
  }

  /** From the first PostClose on the task is closing, inside of that call, or closed, until it is posted again. */
  lemma CloseReturns(states: seq<Task>, actions: seq<Action>, i: nat, j: nat)
    requires IsRun(states, actions) && i < j < |states| && actions[i] == CloseStart
    requires forall k :: i < k < j ==> actions[k] != Reuse
    ensures states[j].guard
    ensures states[j].guards == 1 || states[j].status == CLOSING || states[j].status == CLOSED
  {
    CloseStays(states, actions, i, j);
    RunInv(states, actions, j);
    GuardedIs(states[j]);
  }

  /** The front phase closes a closing task: the kernel does not watch its socket any more, and its events are gone. */
  lemma ClosingReturns(states: seq<Task>, actions: seq<Action>, n: nat)
    requires IsRun(states, actions) && n < |actions|
    ensures actions[n].FrontCas? && states[n].status == CLOSING ==>
      states[n + 1].scheduler == Closed && states[n + 1].isClosed && !states[n + 1].registered
    ensures actions[n] == FrontClose ==>
      && states[n + 1].status == CLOSED && states[n + 1].readyList == 1
      && states[n + 1].pending + states[n + 1].ready == {}
  {
    RunInv(states, actions, n);
    assert StepAt(states, actions, n);
  }

  // ------------------------------------------------------------------
  // Deadlines

  /** A task which went to sleep with a deadline is in the heap as long as it sleeps. */
  lemma {:induction false} SleeperHasDeadline(
    states: seq<Task>, actions: seq<Action>, i: nat, j: nat, expired: bool)
    requires IsRun(states, actions) && i < j < |states| && actions[i] == FrontCas(expired, true)
    requires forall k :: i < k <= j ==> states[k].status == WAITING
    ensures states[j].inHeap
  {
    assert StepAt(states, actions, j - 1);
    RunInv(states, actions, j - 1);
    if i + 1 < j {
      SleeperHasDeadline(states, actions, i, j - 1, expired);
    }
  }

  /** An expired task is given to the workers, from the heap or from the front queue, and leaves the heap. */
  lemma ExpiredIsDispatched(states: seq<Task>, actions: seq<Action>, n: nat)
    requires IsRun(states, actions) && n < |actions|
    requires actions[n] == Expire || (actions[n].FrontCas? && actions[n].expired && states[n].status != CLOSING)
    ensures !states[n + 1].inHeap
    ensures (actions[n] == Expire && states[n].status != WAITING) ||
            (states[n + 1].status == READY && states[n + 1].readyList == 1)
  {
    RunInv(states, actions, n);
    assert StepAt(states, actions, n);
  }

  // ------------------------------------------------------------------
  // Sockets

  /** The kernel watches the socket a task is posted with, or which is attached to it. */
  lemma SocketGiven(states: seq<Task>, actions: seq<Action>, n: nat)
    requires IsRun(states, actions) && n < |actions|
    ensures actions[n].Post? || actions[n].ReusePost? ==> states[n + 1].registered == actions[n].socket
    ensures actions[n] == AttachSocket ==> states[n + 1].registered
  {
    assert StepAt(states, actions, n);
  }

  /** It does so until the task is closed. */
  lemma {:induction false} SocketStays(states: seq<Task>, actions: seq<Action>, i: nat, j: nat)
    requires IsRun(states, actions) && i <= j < |states| && states[i].registered
    requires forall k :: i <= k <= j ==> !states[k].isClosed
    ensures states[j].registered
  {
    if i < j {
      SocketStays(states, actions, i, j - 1);
      RunInv(states, actions, j - 1);
      assert StepAt(states, actions, j - 1);
      StepMoves(states[j - 1], actions[j - 1]);
    }
  }

  // ------------------------------------------------------------------
  // Events

  /**
   * A bit saved by the owner is ready until a worker is told of it or the task is closed, whatever the kernel,
   * wakeups, deadlines and closing do in between.
   */
  lemma {:induction false} SavedStays(states: seq<Task>, actions: seq<Action>, i: nat, j: nat, bit: Bit)
    requires IsRun(states, actions) && i < j < |states| && actions[i] == SaveEvent(bit)
    requires forall k :: i < k < j ==> actions[k] != WorkerExecute && actions[k] != FrontClose
    ensures bit in states[j].ready
  {
    assert StepAt(states, actions, j - 1);
    if i + 1 < j {
      SavedStays(states, actions, i, j - 1, bit);
      RunInv(states, actions, j - 1);
      StepMoves(states[j - 1], actions[j - 1]);
    }
  }

  /** A worker is told all ready bits, each once. */
  lemma ToldOnce(states: seq<Task>, actions: seq<Action>, n: nat)
    requires IsRun(states, actions) && n < |actions| && actions[n] == WorkerExecute
    ensures states[n + 1].ready == {} && states[n + 1].pending == states[n].pending
  {
    assert StepAt(states, actions, n);
  }

  /** The kernel reported the bit, or the owner saved it, before the state `n`. */
  ghost predicate Happened(actions: seq<Action>, n: nat, bit: Bit)
    requires n <= |actions|
  {
    exists k :: 0 <= k < n && (actions[k] == SaveEvent(bit) || (actions[k].Collect? && bit in actions[k].mask))
  }

  lemma MaskHappened(states: seq<Task>, actions: seq<Action>, n: nat, bit: Bit)
    requires IsRun(states, actions) && n < |states|
    requires states[n].scheduler.Collected? && bit in states[n].scheduler.mask
    ensures Happened(actions, n, bit)
  {
    if n > 0 {
      assert StepAt(states, actions, n - 1);
      if actions[n - 1].Collect? {
        assert bit in actions[n - 1].mask;
      } else {
        RunInv(states, actions, n - 1);
        StepMoves(states[n - 1], actions[n - 1]);
        MaskHappened(states, actions, n - 1, bit);
        var k :| 0 <= k < n - 1 && (actions[k] == SaveEvent(bit) || (actions[k].Collect? && bit in actions[k].mask));
      }
    }
  }

  /** A worker is told of nothing which did not happen. */
  lemma {:induction false} EventsAreReal(states: seq<Task>, actions: seq<Action>, n: nat, bit: Bit)
    requires IsRun(states, actions) && n < |states| && bit in states[n].pending + states[n].ready
    ensures Happened(actions, n, bit)
  {
    if n > 0 {
      RunInv(states, actions, n - 1);
      assert StepAt(states, actions, n - 1);
      StepMoves(states[n - 1], actions[n - 1]);
      if bit in states[n - 1].pending + states[n - 1].ready {
        EventsAreReal(states, actions, n - 1, bit);
        var k :| 0 <= k < n - 1 && (actions[k] == SaveEvent(bit) || (actions[k].Collect? && bit in actions[k].mask));
      } else if actions[n - 1] == Merge {
        MaskHappened(states, actions, n - 1, bit);
        var k :| 0 <= k < n - 1 && (actions[k] == SaveEvent(bit) || (actions[k].Collect? && bit in actions[k].mask));
      } else {
        assert actions[n - 1] == SaveEvent(bit);
      }
    }
  }

  // ------------------------------------------------------------------
  // Where a task ends up

  /** Internal steps end. */
  lemma InternalStepsEnd(s: Task, a: Action)
    requires Inv(s) && Enabled(s, a) && Internal(a)
    ensures Distance(Do(s, a)) < Distance(s)
  {
    StepMoves(s, a);
  }

  predicate Stopped(s: Task, a: Action) {
    Internal(a) ==> !Enabled(s, a)
  }

  ghost predicate Quiescent(s: Task) {
    forall a {:trigger Stopped(s, a)} :: Stopped(s, a)
  }

  predicate Resting(s: Task) {
    && s.scheduler == Idle
    && OnTheWay(s) == 0 && InFront(s) == 0 && s.guards == 0 && Dispatched(s) == 0 && s.reviving == 0 && s.reposting == 0
  }

  lemma SchedulerRests(s: Task)
    requires Quiescent(s)
    ensures s.scheduler == Idle && s.front == 0 && s.pendingQueue == 0 && s.readyList == 0
  {
    assert Stopped(s, FrontCas(true, true)) && Stopped(s, FrontClose) && Stopped(s, Merge) && Stopped(s, KernelCas);
    assert Stopped(s, PopFront) && Stopped(s, TakePending) && Stopped(s, Flush);
  }

  lemma NothingMoves(s: Task)
    requires Quiescent(s)
    ensures Resting(s)
  {
    SchedulerRests(s);
    assert Stopped(s, WakerPush) && Stopped(s, CloseExchange) && Stopped(s, CloserPush);
    assert Stopped(s, WorkerPop) && Stopped(s, WorkerExecute);
    assert Stopped(s, ReuseUnguard) && Stopped(s, ReusePost(true));
  }

  /** When they ended the task was not posted yet, or its owner has it, or it is gone, or it sleeps without events. */
  lemma NoStuckState(states: seq<Task>, actions: seq<Action>, n: nat)
    requires IsRun(states, actions) && n < |states| && Quiescent(states[n])
    ensures var s := states[n];
      && s.scheduler == Idle
      && (|| s.unposted == 1 || s.running == 1 || s.closing == 1 || s.gone == 1
          || (s.status == WAITING && s.pending == {}))
  {
    RunInv(states, actions, n);
    NothingMoves(states[n]);
  }
}
