/** What the operations on tasks and of the task scheduler have done when they return. */
module TaskSchedulerCalls {
  import opened TaskScheduler
  import opened TaskSchedulerSafety
  import opened TaskSchedulerRuns
  import opened TaskSchedulerBatches

  // ------------------------------------------------------------------
  // Signals

  /** PostSignal leaves the task SIGNALED, whatever its status was. */
  lemma PostSignalReturns(states: seq<State>, acts: seq<Action>, n: nat, i: ThreadId, t: Task)
    requires IsRun(states, acts) && n < |acts| && acts[n] == ActPostSignal(i, t)
    ensures HasStatus(states[n + 1], t, SIGNALED)
  {
    assert StepAt(states, acts, n);
  }

  /** A receipt returns true, and takes the signal, if and only if there is one. Without one it changes nothing. */
  ghost predicate ReceiptFinds(s: State, s': State, t: Task) {
    HasStatus(s, t, SIGNALED) && HasStatus(s', t, PENDING)
  }

  lemma ReceiveReturns(states: seq<State>, acts: seq<Action>, n: nat, i: ThreadId, t: Task)
    requires IsRun(states, acts) && n < |acts| && acts[n] == ActReceiveSignal(i, t)
    ensures ReceiptFinds(states[n], states[n + 1], t) <==> HasStatus(states[n], t, SIGNALED)
    ensures !HasStatus(states[n], t, SIGNALED) ==> states[n + 1] == states[n]
  {
    assert StepAt(states, acts, n);
  }

  /** From a PostSignal on the task is SIGNALED up to the first receipt, and that receipt finds the signal. */
  lemma SentIsReceived(states: seq<State>, acts: seq<Action>, n: nat, m: nat, i: ThreadId, t: Task)
    requires IsRun(states, acts) && n < m < |states| && acts[n] == ActPostSignal(i, t)
    requires forall k :: n < k < m ==> !Receives(states[k], acts[k], t)
    ensures HasStatus(states[m], t, SIGNALED)
    ensures m < |acts| && Receives(states[m], acts[m], t) ==> ReceiptFinds(states[m], states[m + 1], t)
  {
    PostSignalReturns(states, acts, n, i, t);
    SignalNotLost(states, acts, n + 1, m, t);
    if m < |acts| && Receives(states[m], acts[m], t) {
      ReceiveReturns(states, acts, m, acts[m].i, t);
    }
  }

  // ------------------------------------------------------------------
  // Deadlines

  /** The deadline after a step. */
  ghost function DeadlineAfter(s: State, a: Action, t: Task): nat
    requires t in s.tasks
  {
    if a.ActSetDeadline? && a.t == t then a.deadline else if Starts(s, a, t) then 0 else s.tasks[t].deadline
  }

  lemma ClientDeadline(s: State, s': State, a: Action, t: Task)
    requires Next(s, s', a) && t in s.tasks && ChangesTasks(a) && ByClient(a)
    ensures t in s'.tasks && s'.tasks[t].deadline == DeadlineAfter(s, a, t)
  {
  }

  lemma WorkerDeadline(s: State, s': State, a: Action, t: Task)
    requires Next(s, s', a) && t in s.tasks && ChangesTasks(a) && !ByClient(a)
    ensures t in s'.tasks && s'.tasks[t].deadline == DeadlineAfter(s, a, t)
  {
  }

  lemma DeadlineStep(s: State, s': State, a: Action, t: Task)
    requires Next(s, s', a) && t in s.tasks
    ensures t in s'.tasks && s'.tasks[t].deadline == DeadlineAfter(s, a, t)
  {
    if !ChangesTasks(a) {
      LeavesTasks(s, s', a);
    } else if ByClient(a) {
      ClientDeadline(s, s', a, t);
    } else {
      WorkerDeadline(s, s', a, t);
    }
  }

  /** A deadline which was set stays until the task is executed or gets another one; an execution resets it. */
  lemma {:induction false} DeadlineKept(states: seq<State>, acts: seq<Action>, n: nat, m: nat, t: Task)
    requires IsRun(states, acts) && n < m < |states| && t in states[n].tasks
    requires (acts[n].ActSetDeadline? && acts[n].t == t) || Starts(states[n], acts[n], t)
    requires forall k :: n < k < m ==> !(acts[k].ActSetDeadline? && acts[k].t == t) && !Starts(states[k], acts[k], t)
    ensures t in states[m].tasks
    ensures states[m].tasks[t].deadline == if acts[n].ActSetDeadline? then acts[n].deadline else 0
  {
    assert StepAt(states, acts, m - 1);
    if n + 1 < m {
      DeadlineKept(states, acts, n, m - 1, t);
    }
    DeadlineStep(states[m - 1], states[m], acts[m - 1], t);
  }

  // ------------------------------------------------------------------
  // Posting

  /** A posted task is in the hands of its poster, which pushes it next, and is in the scheduler. */
  lemma PostReturns(states: seq<State>, acts: seq<Action>, n: nat, i: ThreadId, t: Task)
    requires IsRun(states, acts) && n < |acts| && acts[n] == ActPost(i, t)
    ensures var s := states[n + 1];
      && i in s.threads && s.threads[i].op == Push(t) && t in s.place && s.place[t] == Held(i)
      && t in s.tasks && s.tasks[t].inScheduler
  {
    assert StepAt(states, acts, n);
  }

  lemma ClientKeepsPosted(s: State, s': State, a: Action, t: Task)
    requires Next(s, s', a) && t in s.tasks && s.tasks[t].inScheduler && ChangesTasks(a) && ByClient(a)
    ensures t in s'.tasks && s'.tasks[t].inScheduler
  {
  }

  lemma WorkerKeepsPosted(s: State, s': State, a: Action, t: Task)
    requires Next(s, s', a) && t in s.tasks && s.tasks[t].inScheduler && ChangesTasks(a) && !ByClient(a)
    requires !Starts(s, a, t)
    ensures t in s'.tasks && s'.tasks[t].inScheduler
  {
  }

  /** It stays there until a worker executes it. */
  lemma {:induction false} PostedStays(states: seq<State>, acts: seq<Action>, n: nat, m: nat, i: ThreadId, t: Task)
    requires IsRun(states, acts) && n < m < |states| && acts[n] == ActPost(i, t)
    requires forall k :: n < k < m ==> !Starts(states[k], acts[k], t)
    ensures t in states[m].tasks && states[m].tasks[t].inScheduler
  {
    if n + 1 == m {
      PostReturns(states, acts, n, i, t);
    } else {
      PostedStays(states, acts, n, m - 1, i, t);
      assert StepAt(states, acts, m - 1);
      var a := acts[m - 1];
      if !ChangesTasks(a) {
        LeavesTasks(states[m - 1], states[m], a);
      } else if ByClient(a) {
        ClientKeepsPosted(states[m - 1], states[m], a, t);
      } else {
        WorkerKeepsPosted(states[m - 1], states[m], a, t);
      }
    }
  }

  /** So when nobody can go on, a posted task which was not executed sleeps, in the heap if it has a deadline. */
  lemma PostedIsServed(states: seq<State>, acts: seq<Action>, n: nat, m: nat, i: ThreadId, t: Task)
    requires IsRun(states, acts) && n < m < |states| && acts[n] == ActPost(i, t)
    requires forall k :: n < k < m ==> !Starts(states[k], acts[k], t)
    requires Quiescent(states[m])
    ensures HasStatus(states[m], t, WAITING)
    ensures states[m].tasks[t].deadline != TIME_INFINITE ==> t in states[m].heap
  {
    PostedStays(states, acts, n, m, i, t);
    NoStuckState(states, acts, m);
    RunInv(states, acts, m);
    var s := states[m];
    assert TokenOk(s, t);
  }

  // ------------------------------------------------------------------
  // The order of dispatching and of execution

  /** The task which the step pushes to the front queue. */
  ghost function PushedBy(s: State, a: Action): seq<Task> {
    if a.ActPush? && a.i in s.threads && s.threads[a.i].op.Push? then [s.threads[a.i].op.task] else []
  }

  /** The task which the step takes from the pending queue. */
  ghost function DispatchedBy(s: State, a: Action): seq<Task> {
    if a.ActDispatch? && s.pending != [] then [s.pending[0]] else []
  }

  ghost function Pushed(states: seq<State>, acts: seq<Action>, n: nat): seq<Task>
    requires |states| == |acts| + 1 && n <= |acts|
  {
    if n == 0 then [] else Pushed(states, acts, n - 1) + PushedBy(states[n - 1], acts[n - 1])
  }

  ghost function AllDispatched(states: seq<State>, acts: seq<Action>, n: nat): seq<Task>
    requires |states| == |acts| + 1 && n <= |acts|
  {
    if n == 0 then [] else AllDispatched(states, acts, n - 1) + DispatchedBy(states[n - 1], acts[n - 1])
  }

  lemma ClientLeavesFront(s: State, s': State, a: Action)
    requires Next(s, s', a) && ByClient(a)
    ensures s'.pending == s.pending && s'.front == s.front + PushedBy(s, a)
  {
    ClientLeavesQueues(s, s', a);
    if !IsClientAction(a) {
      LockLeavesFront(s, s', a);
    }
  }

  lemma LockLeavesFront(s: State, s': State, a: Action)
    requires Next(s, s', a) && IsLockAction(a)
    ensures s'.front == s.front
  {
  }

  lemma WorkerMovesFront(s: State, s': State, a: Action)
    requires Next(s, s', a) && !ByClient(a)
    ensures s.pending + s.front == DispatchedBy(s, a) + (s'.pending + s'.front)
  {
    if !IsPassAction(a) {
      RestLeavesFront(s, s', a);
    }
  }

  lemma RestLeavesFront(s: State, s': State, a: Action)
    requires Next(s, s', a) && !ByClient(a) && !IsPassAction(a)
    ensures s'.pending == s.pending && s'.front == s.front
  {
  }

  /** Tasks are dispatched in the order in which they were pushed, each push once, none is lost. */
  lemma {:induction false} DispatchOrder(states: seq<State>, acts: seq<Action>, n: nat)
    requires IsRun(states, acts) && n <= |acts|
    ensures Pushed(states, acts, n) == AllDispatched(states, acts, n) + (states[n].pending + states[n].front)
  {
    if n > 0 {
      DispatchOrder(states, acts, n - 1);
      assert StepAt(states, acts, n - 1);
      var s, s', a := states[n - 1], states[n], acts[n - 1];
      var done := AllDispatched(states, acts, n - 1);
      if ByClient(a) {
        ClientLeavesFront(s, s', a);
        AppendTwice(done, s.pending, s.front, PushedBy(s, a));
      } else {
        WorkerMovesFront(s, s', a);
        AssocTask(done, DispatchedBy(s, a), s'.pending + s'.front);
      }
    }
  }

  lemma AssocTask(a: seq<Task>, b: seq<Task>, c: seq<Task>)
    ensures a + (b + c) == (a + b) + c
  {
  }

  lemma AppendTwice(a: seq<Task>, b: seq<Task>, c: seq<Task>, d: seq<Task>)
    ensures (a + (b + c)) + d == a + (b + (c + d))
  {
  }

  /** The task which becomes ready by the step. */
  ghost function ReadiedBy(s: State, s': State, a: Action): seq<Task> {
    if (a.ActExpire? || a.ActDispatch?) && |s'.local| > |s.local| then [s'.local[|s'.local| - 1]] else []
  }

  /** The task which a worker gets by the step. */
  ghost function GotBy(s': State, a: Action): seq<Task> {
    if a.ActPop? && a.i in s'.threads && s'.threads[a.i].pc.Got? then [s'.threads[a.i].pc.task] else []
  }

  ghost function Readied(states: seq<State>, acts: seq<Action>, n: nat): seq<Task>
    requires |states| == |acts| + 1 && n <= |acts|
  {
    if n == 0 then [] else Readied(states, acts, n - 1) + ReadiedBy(states[n - 1], states[n], acts[n - 1])
  }

  ghost function AllGot(states: seq<State>, acts: seq<Action>, n: nat): seq<Task>
    requires |states| == |acts| + 1 && n <= |acts|
  {
    if n == 0 then [] else AllGot(states, acts, n - 1) + GotBy(states[n], acts[n - 1])
  }

  lemma PassMovesReady(s: State, s': State, a: Action)
    requires Next(s, s', a) && IsPassAction(a)
    ensures (s.ready + s.local) + ReadiedBy(s, s', a) == GotBy(s', a) + (s'.ready + s'.local)
  {
    if a.ActExpire? || a.ActDispatch? {
      TurnMovesReady(s, s', a);
    }
  }

  lemma TurnMovesReady(s: State, s': State, a: Action)
    requires Next(s, s', a) && (a.ActExpire? || a.ActDispatch?)
    ensures s'.ready == s.ready && s'.local == s.local + ReadiedBy(s, s', a)
  {
  }

  lemma WorkerMovesReady(s: State, s': State, a: Action)
    requires Next(s, s', a) && !ByClient(a)
    ensures (s.ready + s.local) + ReadiedBy(s, s', a) == GotBy(s', a) + (s'.ready + s'.local)
  {
    if IsPassAction(a) {
      PassMovesReady(s, s', a);
    }
  }

  /** Workers get the tasks in the order in which they became ready, each once. */
  lemma {:induction false} ExecutionOrder(states: seq<State>, acts: seq<Action>, n: nat)
    requires IsRun(states, acts) && n <= |acts|
    ensures Readied(states, acts, n) == AllGot(states, acts, n) + (states[n].ready + states[n].local)
  {
    if n > 0 {
      ExecutionOrder(states, acts, n - 1);
      assert StepAt(states, acts, n - 1);
      var s, s', a := states[n - 1], states[n], acts[n - 1];
      var done := AllGot(states, acts, n - 1);
      if ByClient(a) {
        ClientLeavesQueues(s, s', a);
      } else {
        WorkerMovesReady(s, s', a);
        AssocTask(done, s.ready + s.local, ReadiedBy(s, s', a));
        AssocTask(done, GotBy(s', a), s'.ready + s'.local);
      }
    }
  }

  // ------------------------------------------------------------------
  // A pass

  /** A dispatched task sleeps if and only if it is not due and nobody woke it or signalled it; else it is ready. */
  lemma DispatchDecides(states: seq<State>, acts: seq<Action>, n: nat, i: ThreadId)
    requires IsRun(states, acts) && n < |acts| && acts[n] == ActDispatch(i)
    ensures var s, s' := states[n], states[n + 1];
      && i in s.threads && s.threads[i].pc.Dispatch? && s.pending != [] && s.pending[0] in s.tasks
      && s.pending[0] in s'.tasks
      && var t := s.pending[0];
        if s.threads[i].pc.ts < s.tasks[t].deadline && s.tasks[t].status == PENDING then
          && s'.tasks[t].status == WAITING && t !in s'.local
          && (t in s'.heap <==> s.tasks[t].deadline != TIME_INFINITE)
        else
          s'.tasks[t].status in {READY, SIGNALED} && t in s'.local && t !in s'.heap
  {
    RunInv(states, acts, n);
    assert StepAt(states, acts, n);
    assert TokenOk(states[n], states[n].pending[0]);
  }

  /** When the loop over the heap ends no due task is left in it, or the batch is full. */
  lemma ExpireReturns(states: seq<State>, acts: seq<Action>, i: ThreadId, from: nat, to: nat)
    requires IsRun(states, acts) && from < to < |acts|
    requires acts[from] == ActReadClock(i) && forall n :: from < n < to ==> acts[n] != ActReadClock(i)
    requires acts[to] == ActExpireEnd(i)
    ensures Expired(acts, i, from, to) == Limit(states[from]) ||
      forall t :: t in states[to].heap ==> t in states[to].tasks && states[to].tasks[t].deadline > states[from].clock
  {
    PassBound(states, acts, i, from, to);
    RunInv(states, acts, to);
    assert StepAt(states, acts, to);
  }

  /** The scheduler thinks of sleeping if and only if it saw no ready task and has no pending one left. */
  lemma CheckReturns(states: seq<State>, acts: seq<Action>, n: nat, i: ThreadId, sawZero: bool)
    requires IsRun(states, acts) && n < |acts| && acts[n] == ActCheck(i, sawZero)
    ensures i in states[n + 1].threads
    ensures states[n + 1].threads[i].pc == if sawZero && states[n].pending == [] then Decide else Unlock
    ensures sawZero ==> states[n].ready == []
  {
    assert StepAt(states, acts, n);
  }

  /** The pass ends in sleep if and only if nothing is due: without a limit, or up to the closest deadline. */
  lemma DecideReturns(states: seq<State>, acts: seq<Action>, n: nat, i: ThreadId)
    requires IsRun(states, acts) && n < |acts| && acts[n] == ActDecide(i)
    ensures i in states[n + 1].threads
    ensures var s, pc := states[n], states[n + 1].threads[i].pc;
      if s.heap == {} then pc == SleepFront
      else if forall t :: t in s.heap && t in s.tasks ==> s.tasks[t].deadline > s.clock then
        pc.SleepTimed? && exists t :: IsTop(s, t) && pc.until == s.tasks[t].deadline
      else pc == Unlock
  {
    assert StepAt(states, acts, n);
  }

  /** A signal which wakes the sleeping scheduler or an idle worker is consumed by that. */
  lemma SignalsConsumed(states: seq<State>, acts: seq<Action>, n: nat, i: ThreadId)
    requires IsRun(states, acts) && n < |acts|
    ensures acts[n] == ActWakeUp(i, false) ==> states[n].frontSignal == Set && states[n + 1].frontSignal == Empty
    ensures acts[n] == ActWaitReady(i) ==> states[n].readySignal == Set && states[n + 1].readySignal == Empty
  {
    assert StepAt(states, acts, n);
  }

  // ------------------------------------------------------------------
  // A batch of executions

  /** Executing tasks, or about to get one. */
  predicate InBatch(pc: Pc) {
    pc.Pop? || pc.Got? || pc.Body? || pc.Tail?
  }

  predicate Nexts(a: Action, i: ThreadId) {
    a.ActNext? && a.i == i
  }

  /** How many tasks thread `i` is done with by the actions `from..to`. */
  function DoneWith(acts: seq<Action>, i: ThreadId, from: nat, to: nat): nat
    requires from <= to <= |acts|
  {
    if from == to then 0 else DoneWith(acts, i, from, to - 1) + if Nexts(acts[to - 1], i) then 1 else 0
  }

  /** What a step of a worker does to its batch of which it did `done` tasks. */
  ghost predicate BatchMoves(s: State, s': State, a: Action, i: ThreadId)
    requires i in s.threads && i in s'.threads && InBatch(s.threads[i].pc)
  {
    var pc, pc' := s.threads[i].pc, s'.threads[i].pc;
    if Nexts(a, i) then
      if pc.batch + 1 < s.execBatch then pc' == Pop(pc.batch + 1) else pc' == TryLock
    else
      (InBatch(pc') && pc'.batch == pc.batch) || (pc' == WaitReady && pc.Pop? && s.ready == [])
  }

  lemma ClientInBatch(s: State, s': State, a: Action)
    requires Next(s, s', a) && ByClient(a) && !a.ActTick? && a.i in s.threads && InBatch(s.threads[a.i].pc)
    ensures a.i in s'.threads && BatchMoves(s, s', a, a.i)
  {
    if IsLockAction(a) {
      LockInBatch(s, s', a);
    }
  }

  lemma LockInBatch(s: State, s': State, a: Action)
    requires Next(s, s', a) && IsLockAction(a) && ByClient(a) && !a.ActTick?
    requires a.i in s.threads && InBatch(s.threads[a.i].pc)
    ensures a.i in s'.threads && BatchMoves(s, s', a, a.i)
  {
  }

  lemma WorkerInBatch(s: State, s': State, a: Action)
    requires Next(s, s', a) && !ByClient(a) && a.i in s.threads && InBatch(s.threads[a.i].pc)
    ensures a.i in s'.threads && BatchMoves(s, s', a, a.i)
  {
  }

  lemma StepInBatch(s: State, s': State, a: Action, i: ThreadId)
    requires Next(s, s', a) && i in s.threads && InBatch(s.threads[i].pc)
    ensures i in s'.threads && BatchMoves(s, s', a, i)
  {
    if a.ActTick? || a.i != i {
      MovesAlone(s, s', a, i);
    } else if ByClient(a) {
      ClientInBatch(s, s', a);
    } else {
      WorkerInBatch(s, s', a);
    }
  }

  lemma SameExecBatch(s: State, s': State, a: Action)
    requires Next(s, s', a)
    ensures s'.execBatch == s.execBatch
  {
    if ByClient(a) {
      ClientSameExecBatch(s, s', a);
    }
  }

  lemma ClientSameExecBatch(s: State, s': State, a: Action)
    requires Next(s, s', a) && ByClient(a)
    ensures s'.execBatch == s.execBatch
  {
  }

  /**
   * A worker tries to become the scheduler again when it has executed a whole batch of tasks, not earlier and not
   * later, or when it found the ready queue empty.
   */
  lemma {:induction false} ExecReturns(states: seq<State>, acts: seq<Action>, i: ThreadId, from: nat, to: nat)
    requires IsRun(states, acts) && from <= to < |states|
    requires i in states[from].threads && states[from].threads[i].pc == Pop(0)
    requires forall k :: from <= k < to ==> i in states[k].threads && InBatch(states[k].threads[i].pc)
    ensures i in states[to].threads && states[to].execBatch == states[from].execBatch
    ensures var pc, done := states[to].threads[i].pc, DoneWith(acts, i, from, to);
      if InBatch(pc) then pc.batch == done < states[from].execBatch
      else if pc == TryLock then done == states[from].execBatch
      else to > 0 && pc == WaitReady && states[to - 1].ready == []
  {
    if from == to {
      RunInv(states, acts, from);
    } else {
      ExecReturns(states, acts, i, from, to - 1);
      assert StepAt(states, acts, to - 1);
      StepInBatch(states[to - 1], states[to], acts[to - 1], i);
      SameExecBatch(states[to - 1], states[to], acts[to - 1]);
    }
  }

  // ------------------------------------------------------------------
  // The scheduler lock

  /** Thread `i` did not get the lock by the actions `from..to`. */
  ghost predicate NoLockYet(states: seq<State>, from: nat, to: nat, i: ThreadId)
    requires to < |states|
  {
    forall k :: from < k < to ==> i in states[k].threads && states[k].threads[i].op != LockHeld
  }

  lemma LockingThreadActs(s: State, s': State, a: Action, i: ThreadId)
    requires Next(s, s', a) && !a.ActTick? && a.i == i && i in s.threads
    requires IsLocking(s.threads[i].op) || a.ActLock?
    ensures i in s'.threads && (IsLocking(s'.threads[i].op) || s'.threads[i].op == LockHeld)
  {
    LockingThreadWaits(s, s', a, i);
  }

  /** A thread inside Lock does nothing else. */
  lemma LockingThreadWaits(s: State, s': State, a: Action, i: ThreadId)
    requires Next(s, s', a) && !a.ActTick? && a.i == i && i in s.threads
    requires IsLocking(s.threads[i].op) || a.ActLock?
    ensures a.ActLock? || a.ActLockResume? || a.ActSendFront? || a.ActFinishFront?
  {
  }

  /** Thread `i` is inside Lock, or has the lock by it. */
  predicate LocksOrHolds(s: State, i: ThreadId) {
    i in s.threads && (IsLocking(s.threads[i].op) || s.threads[i].op == LockHeld)
  }

  lemma LockingStep(s: State, s': State, a: Action, i: ThreadId)
    requires Next(s, s', a)
    requires a == ActLock(i) || (i in s.threads && IsLocking(s.threads[i].op))
    ensures LocksOrHolds(s', i)
  {
    if a.ActTick? || a.i != i {
      MovesAlone(s, s', a, i);
    } else {
      LockingThreadActs(s, s', a, i);
    }
  }

  lemma {:induction false} StaysLocking(states: seq<State>, acts: seq<Action>, from: nat, to: nat, i: ThreadId)
    requires IsRun(states, acts) && from < to < |states| && acts[from] == ActLock(i)
    requires NoLockYet(states, from, to, i)
    ensures LocksOrHolds(states[to], i)
  {
    if from + 1 < to {
      assert NoLockYet(states, from, to - 1, i);
      StaysLocking(states, acts, from, to - 1, i);
    }
    assert StepAt(states, acts, to - 1);
    LockingStep(states[to - 1], states[to], acts[to - 1], i);
  }

  /** A call of Lock does not return before its thread owns the lock; till then it is in the queue of the lock. */
  lemma LockReturns(states: seq<State>, acts: seq<Action>, from: nat, to: nat, i: ThreadId)
    requires IsRun(states, acts) && from < to < |states| && acts[from] == ActLock(i)
    requires NoLockYet(states, from, to, i)
    ensures i in states[to].threads
    ensures var s := states[to];
      if s.threads[i].op == LockHeld then s.owner == Owner(i)
      else IsLocking(s.threads[i].op) && (i in s.waiters || s.owner == Owner(i))
  {
    StaysLocking(states, acts, from, to, i);
    RunInv(states, acts, to);
    assert ThreadOk(states[to], i);
  }

  /** An unlock frees the lock, or hands it to the first of its queue. */
  lemma UnlockReturns(states: seq<State>, acts: seq<Action>, n: nat)
    requires IsRun(states, acts) && n < |acts| && (acts[n].ActUnlock? || acts[n].ActSchedulerUnlock?)
    ensures var s, s' := states[n], states[n + 1];
      && s.owner == Owner(acts[n].i)
      && if s.waiters == [] then s'.owner == Nobody && s'.waiters == []
         else s'.owner == Owner(s.waiters[0]) && s'.waiters == s.waiters[1..] && s'.owner != s.owner
  {
    RunInv(states, acts, n);
    assert StepAt(states, acts, n);
    assert ThreadOk(states[n], acts[n].i);
    if states[n].waiters != [] {
      assert states[n].waiters[0] in states[n].waiters;
    }
  }

  // ------------------------------------------------------------------
  // Nobody turns on the spot

  /** An operation on a task which may leave the thread where it was. */
  predicate MayStay(a: Action) {
    a.ActTick? || a.ActWakeTry? || a.ActPostSignal? || a.ActReceiveSignal? || a.ActSetDeadline?
  }

  /** The thread goes on, or the list of ready tasks to flush gets shorter. */
  predicate Advances(s: State, s': State, i: ThreadId) {
    i in s.threads && i in s'.threads && (s'.threads[i] != s.threads[i] || |s'.local| < |s.local|)
  }

  lemma ClientAdvances(s: State, s': State, a: Action)
    requires Next(s, s', a) && IsClientAction(a) && !MayStay(a)
    ensures Advances(s, s', a.i)
  {
  }

  lemma LockAdvances(s: State, s': State, a: Action)
    requires Next(s, s', a) && IsLockAction(a) && !MayStay(a)
    ensures Advances(s, s', a.i)
  {
  }

  lemma PassAdvances(s: State, s': State, a: Action)
    requires Next(s, s', a) && IsPassAction(a)
    ensures Advances(s, s', a.i)
  {
  }

  lemma WorkerAdvances(s: State, s': State, a: Action)
    requires Next(s, s', a) && !IsClientAction(a) && !IsLockAction(a)
    ensures Advances(s, s', a.i)
  {
    if IsPassAction(a) {
      PassAdvances(s, s', a);
    }
  }

  /** Each step takes its thread on. */
  lemma StepAdvances(s: State, s': State, a: Action)
    requires Next(s, s', a) && !MayStay(a)
    ensures Advances(s, s', a.i)
  {
    if IsClientAction(a) {
      ClientAdvances(s, s', a);
    } else if IsLockAction(a) {
      LockAdvances(s, s', a);
    } else {
      WorkerAdvances(s, s', a);
    }
  }
}
