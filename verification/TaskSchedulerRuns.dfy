/** What holds in every run of the task scheduler. */
module TaskSchedulerRuns {
  import opened TaskScheduler
  import opened TaskSchedulerSafety

  ghost predicate StepAt(states: seq<State>, acts: seq<Action>, n: nat)
    requires |states| == |acts| + 1 && n < |acts|
  {
    Next(states[n], states[n + 1], acts[n])
  }

  ghost predicate IsRun(states: seq<State>, acts: seq<Action>) {
    && |states| == |acts| + 1
    && Init(states[0])
    && forall n {:trigger StepAt(states, acts, n)} :: 0 <= n < |acts| ==> StepAt(states, acts, n)
  }

  /** Anyone may do it, not only a worker. */
  predicate ByClient(a: Action) {
    a.ActTick? || a.ActPost? || a.ActPush? || a.ActSendFront? || a.ActFinishFront? || a.ActWakeLoad?
    || a.ActWakeTry? || a.ActPostSignal? || a.ActReceiveSignal? || a.ActSetDeadline? || a.ActLock?
    || a.ActLockResume? || a.ActUnlock? || a.ActSendReady? || a.ActFinishReady?
  }

  lemma ClientInv(s: State, s': State, a: Action)
    requires Inv(s) && Next(s, s', a) && ByClient(a)
    ensures Inv(s')
  {
    match a
    case ActTick(now) => TickKeeps(s, s', now);
    case ActPost(i, t) => PostKeeps(s, s', i, t);
    case ActPush(i) => PushKeeps(s, s', i);
    case ActSendFront(i) => SendFrontKeeps(s, s', i);
    case ActFinishFront(i) => FinishFrontKeeps(s, s', i);
    case ActWakeLoad(i, t) => WakeLoadKeeps(s, s', i, t);
    case ActWakeTry(i, spurious) => WakeTryKeeps(s, s', i, spurious);
    case ActPostSignal(i, t) => PostSignalKeeps(s, s', i, t);
    case ActReceiveSignal(i, t) => ReceiveSignalKeeps(s, s', i, t);
    case ActSetDeadline(i, t, d) => SetDeadlineKeeps(s, s', i, t, d);
    case ActLock(i) => LockKeeps(s, s', i);
    case ActLockResume(i) => LockResumeKeeps(s, s', i);
    case ActUnlock(i) => UnlockKeeps(s, s', i);
    case ActSendReady(i) => SendReadyKeeps(s, s', i);
    case ActFinishReady(i) => FinishReadyKeeps(s, s', i);
  }

  lemma WorkerInv(s: State, s': State, a: Action)
    requires Inv(s) && Next(s, s', a) && !ByClient(a)
    ensures Inv(s')
  {
    match a
    case ActTryLock(i) => TryLockKeeps(s, s', i);
    case ActReadClock(i) => ReadClockKeeps(s, s', i);
    case ActExpire(i, t) => ExpireKeeps(s, s', i, t);
    case ActExpireEnd(i) => ExpireEndKeeps(s, s', i);
    case ActPopFront(i) => PopFrontKeeps(s, s', i);
    case ActDispatch(i) => DispatchKeeps(s, s', i);
    case ActDispatchEnd(i) => DispatchEndKeeps(s, s', i);
    case ActFlush(i) => FlushKeeps(s, s', i);
    case ActCheck(i, sawZero) => CheckKeeps(s, s', i, sawZero);
    case ActDecide(i) => DecideKeeps(s, s', i);
    case ActWakeUp(i, timeout) => WakeUpKeeps(s, s', i, timeout);
    case ActSchedulerUnlock(i) => SchedulerUnlockKeeps(s, s', i);
    case ActPop(i) => PopKeeps(s, s', i);
    case ActStart(i) => StartKeeps(s, s', i);
    case ActFinish(i) => FinishKeeps(s, s', i);
    case ActNext(i) => NextKeeps(s, s', i);
    case ActWaitReady(i) => WaitReadyKeeps(s, s', i);
  }

  lemma NextInv(s: State, s': State, a: Action)
    requires Inv(s) && Next(s, s', a)
    ensures Inv(s')
  {
    if ByClient(a) {
      ClientInv(s, s', a);
    } else {
      WorkerInv(s, s', a);
    }
  }

  lemma {:induction false} RunInv(states: seq<State>, acts: seq<Action>, n: nat)
    requires IsRun(states, acts) && n < |states|
    ensures Inv(states[n])
  {
    if n == 0 {
      InitInv(states[0]);
    } else {
      RunInv(states, acts, n - 1);
      assert StepAt(states, acts, n - 1);
      NextInv(states[n - 1], states[n], acts[n - 1]);
    }
  }

  // ------------------------------------------------------------------
  // One token

  function Pushers(s: State, t: Task): set<ThreadId> {
    set i | i in s.threads && s.threads[i].op == Push(t)
  }

  function Runners(s: State, t: Task): set<ThreadId> {
    set i | i in s.threads && HasTask(s.threads[i].pc) && s.threads[i].pc.task == t
  }

  /** All the places where the task can be found, counted without the history variable. */
  function Tokens(s: State, t: Task): nat
    requires t in s.tasks
  {
    multiset(s.front)[t] + multiset(s.pending)[t] + multiset(s.local)[t] + multiset(s.ready)[t]
    + |Pushers(s, t)| + |Runners(s, t)|
    + (if s.tasks[t].status == WAITING then 1 else 0)
    + (if !s.tasks[t].inScheduler && Runners(s, t) == {} then 1 else 0)
  }

  lemma {:induction false} CountNoDup<T>(q: seq<T>, x: T)
    requires NoDup(q)
    ensures multiset(q)[x] == if x in q then 1 else 0
  {
    if q != [] {
      var n := |q| - 1;
      assert q == q[..n] + [q[n]];
      CountNoDup(q[..n], x);
      if x == q[n] {
        assert x !in q[..n];
      }
    }
  }

  /**
   * Every task is in exactly one place, once: never twice in a queue, never in
   * two queues, never run by two workers. A task in the waiting heap is on no
   * ready list and in no worker.
   */
  lemma OneToken(states: seq<State>, acts: seq<Action>, n: nat, t: Task)
    requires IsRun(states, acts) && n < |states|
    requires t in states[n].tasks
    ensures Tokens(states[n], t) == 1
    ensures t in states[n].heap ==>
      t !in states[n].local && t !in states[n].ready && Runners(states[n], t) == {}
  {
    RunInv(states, acts, n);
    var s := states[n];
    assert TokenOk(s, t);
    CountNoDup(s.front, t);
    CountNoDup(s.pending, t);
    CountNoDup(s.local, t);
    CountNoDup(s.ready, t);
    forall i | i in s.threads
      ensures s.threads[i].op == Push(t) ==> s.place[t] == Held(i)
      ensures HasTask(s.threads[i].pc) && s.threads[i].pc.task == t ==> s.place[t] == Running(i)
    {
      assert ThreadOk(s, i);
    }
    assert Pushers(s, t) == if s.place[t].Held? then {s.place[t].waker} else {};
    assert Runners(s, t) == if s.place[t].Running? then {s.place[t].worker} else {};
  }

  // ------------------------------------------------------------------
  // Signals and wakeups are not lost

  ghost predicate Receives(s: State, a: Action, t: Task) {
    a.ActReceiveSignal? && a.t == t
  }

  ghost predicate Starts(s: State, a: Action, t: Task) {
    a.ActStart? && a.i in s.threads && s.threads[a.i].pc.Got? && s.threads[a.i].pc.task == t
  }

  predicate ChangesTasks(a: Action) {
    a.ActPost? || a.ActWakeTry? || a.ActPostSignal? || a.ActReceiveSignal? || a.ActSetDeadline? || a.ActExpire?
    || a.ActDispatch? || a.ActStart?
  }

  lemma ClientLeavesTasks(s: State, s': State, a: Action)
    requires Next(s, s', a) && !ChangesTasks(a)
    requires ByClient(a)
    ensures s'.tasks == s.tasks
  {}

  lemma LeavesTasks(s: State, s': State, a: Action)
    requires Next(s, s', a) && !ChangesTasks(a)
    ensures s'.tasks == s.tasks
  {
    if ByClient(a) {
      ClientLeavesTasks(s, s', a);
    }
  }

  /** Only a receipt takes a signal away, and only a receipt or an execution takes readiness away. */
  ghost predicate StatusMoves(s: State, s': State, a: Action, t: Task)
    requires t in s.tasks && t in s'.tasks
  {
    var from, to := s.tasks[t].status, s'.tasks[t].status;
    && (from == SIGNALED && !Receives(s, a, t) ==> to == SIGNALED)
    && ((from == SIGNALED || from == READY) && !Receives(s, a, t) && !Starts(s, a, t) ==>
          to == SIGNALED || to == READY)
  }

  lemma ClientStatus(s: State, s': State, a: Action, t: Task)
    requires Next(s, s', a) && t in s.tasks && ChangesTasks(a) && ByClient(a)
    ensures t in s'.tasks && StatusMoves(s, s', a, t)
  {}

  lemma WorkerStatus(s: State, s': State, a: Action, t: Task)
    requires Next(s, s', a) && t in s.tasks && ChangesTasks(a) && !ByClient(a)
    ensures t in s'.tasks && StatusMoves(s, s', a, t)
  {}

  lemma StatusStep(s: State, s': State, a: Action, t: Task)
    requires Next(s, s', a) && t in s.tasks
    ensures t in s'.tasks && StatusMoves(s, s', a, t)
  {
    if !ChangesTasks(a) {
      LeavesTasks(s, s', a);
    } else if ByClient(a) {
      ClientStatus(s, s', a, t);
    } else {
      WorkerStatus(s, s', a, t);
    }
  }

  lemma RunStatusStep(states: seq<State>, acts: seq<Action>, n: nat, t: Task)
    requires IsRun(states, acts) && n < |acts| && t in states[n].tasks
    ensures t in states[n + 1].tasks && StatusMoves(states[n], states[n + 1], acts[n], t)
  {
    assert StepAt(states, acts, n);
    StatusStep(states[n], states[n + 1], acts[n], t);
  }

  /** A sent signal stays until it is received; meanwhile the task never waits. */
  lemma {:induction false} SignalNotLost(
    states: seq<State>, acts: seq<Action>, from: nat, to: nat, t: Task)
    requires IsRun(states, acts) && from <= to < |states|
    requires t in states[from].tasks && states[from].tasks[t].status == SIGNALED
    requires forall n :: from <= n < to ==> !Receives(states[n], acts[n], t)
    ensures t in states[to].tasks && states[to].tasks[t].status == SIGNALED
  {
    if from < to {
      SignalNotLost(states, acts, from, to - 1, t);
      RunStatusStep(states, acts, to - 1, t);
    }
  }

  /** A wakeup keeps the task from waiting until it is executed or takes a signal. */
  lemma {:induction false} WakeupNotLost(
    states: seq<State>, acts: seq<Action>, from: nat, to: nat, t: Task)
    requires IsRun(states, acts) && from <= to < |states|
    requires t in states[from].tasks
    requires states[from].tasks[t].status == READY || states[from].tasks[t].status == SIGNALED
    requires forall n :: from <= n < to ==>
      !Receives(states[n], acts[n], t) && !Starts(states[n], acts[n], t)
    ensures t in states[to].tasks
    ensures states[to].tasks[t].status == READY || states[to].tasks[t].status == SIGNALED
  {
    if from < to {
      WakeupNotLost(states, acts, from, to - 1, t);
      RunStatusStep(states, acts, to - 1, t);
    }
  }

  predicate IsClientAction(a: Action) {
    a.ActPost? || a.ActPush? || a.ActSendFront? || a.ActFinishFront? || a.ActWakeLoad? ||
    a.ActWakeTry? || a.ActPostSignal? || a.ActReceiveSignal? || a.ActSetDeadline?
  }

  predicate IsLockAction(a: Action) {
    a.ActLock? || a.ActLockResume? || a.ActUnlock? || a.ActSendReady? || a.ActFinishReady? ||
    a.ActTryLock? || a.ActReadClock? || a.ActSchedulerUnlock? || a.ActWaitReady? || a.ActTick?
  }

  /** Thread `i` is in both states the same. */
  ghost predicate SameThread(s: State, s': State, i: ThreadId) {
    i in s.threads && i in s'.threads && s'.threads[i] == s.threads[i]
  }

  lemma ClientMovesAlone(s: State, s': State, a: Action, i: ThreadId)
    requires Next(s, s', a) && IsClientAction(a) && (i in s.threads || i in s'.threads) && a.i != i
    ensures SameThread(s, s', i)
  {}

  lemma LockMovesAlone(s: State, s': State, a: Action, i: ThreadId)
    requires Next(s, s', a) && IsLockAction(a) && (i in s.threads || i in s'.threads) && (a.ActTick? || a.i != i)
    ensures SameThread(s, s', i)
  {
    if ByClient(a) {
      ClientLockMovesAlone(s, s', a, i);
    }
  }

  lemma ClientLockMovesAlone(s: State, s': State, a: Action, i: ThreadId)
    requires Next(s, s', a) && IsLockAction(a) && ByClient(a)
    requires (i in s.threads || i in s'.threads) && (a.ActTick? || a.i != i)
    ensures SameThread(s, s', i)
  {}

  predicate IsPassAction(a: Action) {
    a.ActExpire? || a.ActExpireEnd? || a.ActPopFront? || a.ActDispatch? || a.ActDispatchEnd? || a.ActFlush?
  }

  lemma PassMovesAlone(s: State, s': State, a: Action, i: ThreadId)
    requires Next(s, s', a) && IsPassAction(a) && (i in s.threads || i in s'.threads) && a.i != i
    ensures SameThread(s, s', i)
  {}

  lemma WorkerMovesAlone(s: State, s': State, a: Action, i: ThreadId)
    requires Next(s, s', a) && !IsClientAction(a) && !IsLockAction(a) && (i in s.threads || i in s'.threads) && a.i != i
    ensures SameThread(s, s', i)
  {
    if IsPassAction(a) {
      PassMovesAlone(s, s', a, i);
    }
  }

  /** A step moves one thread only. */
  lemma MovesAlone(s: State, s': State, a: Action, i: ThreadId)
    requires Next(s, s', a) && (i in s.threads || i in s'.threads) && (a.ActTick? || a.i != i)
    ensures SameThread(s, s', i)
  {
    if IsClientAction(a) {
      ClientMovesAlone(s, s', a, i);
    } else if IsLockAction(a) {
      LockMovesAlone(s, s', a, i);
    } else {
      WorkerMovesAlone(s, s', a, i);
    }
  }

  lemma ClientLeavesQueues(s: State, s': State, a: Action)
    requires Next(s, s', a) && ByClient(a)
    ensures s'.pending == s.pending && s'.local == s.local && s'.ready == s.ready
  {
    if IsClientAction(a) {
      OwnerLeavesQueues(s, s', a);
    }
  }

  lemma OwnerLeavesQueues(s: State, s': State, a: Action)
    requires Next(s, s', a) && IsClientAction(a)
    ensures s'.pending == s.pending && s'.local == s.local && s'.ready == s.ready
  {}

  lemma WakingThreadActs(s: State, s': State, a: Action)
    requires Next(s, s', a) && !a.ActTick? && a.i in s.threads && s.threads[a.i].op.Wake?
    ensures a.ActWakeTry?
  {}

  lemma WakeStep(s: State, s': State, a: Action, i: ThreadId)
    requires Next(s, s', a) && i in s.threads && s.threads[i].op.Wake?
    requires s.threads[i].op.task in s.tasks
    ensures i in s'.threads && s.threads[i].op.task in s'.tasks
    ensures var t := s.threads[i].op.task;
      || s'.threads[i].op == s.threads[i].op
      || s'.threads[i].op == Wake(t, s.tasks[t].status)
      || (!s'.threads[i].op.Wake? &&
          (s'.tasks[t].status == READY ||
           s.threads[i].op.seen == READY || s.threads[i].op.seen == SIGNALED))
  {
    StatusStep(s, s', a, s.threads[i].op.task);
    if !a.ActTick? && a.i == i {
      WakingThreadActs(s, s', a);
    } else {
      MovesAlone(s, s', a, i);
    }
  }

  lemma WakeStepInRun(states: seq<State>, acts: seq<Action>, n: nat, i: ThreadId)
    requires IsRun(states, acts) && n < |acts|
    requires i in states[n].threads && states[n].threads[i].op.Wake?
    ensures var s, s', t := states[n], states[n + 1], states[n].threads[i].op.task;
      && i in s'.threads && t in s.tasks && t in s'.tasks
      && (|| s'.threads[i].op == s.threads[i].op
          || s'.threads[i].op == Wake(t, s.tasks[t].status)
          || (!s'.threads[i].op.Wake? &&
              (s'.tasks[t].status == READY ||
               s.threads[i].op.seen == READY || s.threads[i].op.seen == SIGNALED)))
  {
    RunInv(states, acts, n);
    assert ThreadOk(states[n], i);
    assert StepAt(states, acts, n);
    WakeStep(states[n], states[n + 1], acts[n], i);
  }

  predicate HasStatus(s: State, t: Task, status: Status) {
    t in s.tasks && s.tasks[t].status == status
  }

  predicate Awake(s: State, t: Task) {
    HasStatus(s, t, READY) || HasStatus(s, t, SIGNALED)
  }

  /**
   * A PostWakeup call which began before state `from` and is over in state `to`
   * has seen or made the task READY or SIGNALED at some moment in between.
   */
  lemma {:induction false} WakeupTakesEffect(
    states: seq<State>, acts: seq<Action>, from: nat, to: nat, i: ThreadId, t: Task)
    requires IsRun(states, acts) && 0 < from <= to < |states|
    requires acts[from - 1] == ActWakeLoad(i, t)
    requires forall n :: from <= n < to ==>
      i in states[n].threads && states[n].threads[i].op.Wake?
    requires i in states[to].threads
    ensures states[to].threads[i].op.Wake? ==>
      states[to].threads[i].op.task == t &&
      exists n :: from - 1 <= n <= to && HasStatus(states[n], t, states[to].threads[i].op.seen)
    ensures !states[to].threads[i].op.Wake? ==>
      exists n :: from - 1 <= n <= to && Awake(states[n], t)
  {
    if from == to {
      assert StepAt(states, acts, from - 1);
      assert HasStatus(states[from - 1], t, states[to].threads[i].op.seen);
    } else {
      WakeupTakesEffect(states, acts, from, to - 1, i, t);
      WakeStepInRun(states, acts, to - 1, i);
      var seen := states[to - 1].threads[i].op.seen;
      var n :| from - 1 <= n <= to - 1 && HasStatus(states[n], t, seen);
      assert seen == READY || seen == SIGNALED ==> Awake(states[n], t);
      assert states[to].tasks[t].status == READY ==> Awake(states[to], t);
      assert HasStatus(states[to - 1], t, states[to - 1].tasks[t].status);
    }
  }

  // ------------------------------------------------------------------
  // Deadlines

  /**
   * A task was dispatched before its deadline only if it was woken after its
   * previous start or holds a signal it has not received. It sees itself expired
   * exactly when the deadline was not after the timestamp of the dispatching pass.
   */
  lemma DeadlineHonoured(states: seq<State>, acts: seq<Action>, n: nat, t: Task)
    requires IsRun(states, acts) && n < |acts|
    requires t in states[n].tasks && Starts(states[n], acts[n], t)
    ensures var k := states[n].tasks[t];
      && k.dispatchedAt <= states[n].clock
      && (k.isExpired <==> k.deadline <= k.dispatchedAt)
      && (k.dispatchedAt < k.deadline ==>
            k.wokenAt > k.startedAt || k.signaledAt > k.receivedAt)
  {
    RunInv(states, acts, n);
    var s := states[n];
    assert ThreadOk(s, acts[n].i);
    assert TokenOk(s, t) && HistoryOk(s, t);
  }

  /** The moments recorded by the history variables are those of the named actions. */
  lemma StartMeaning(s: State, s': State, a: Action, t: Task)
    requires Next(s, s', a) && t in s.tasks && t in s'.tasks
    requires s.tasks[t].startedAt <= s.events && s.tasks[t].receivedAt <= s.events
    ensures s'.tasks[t].startedAt != s.tasks[t].startedAt <==> Starts(s, a, t)
    ensures s'.tasks[t].receivedAt != s.tasks[t].receivedAt <==>
      Receives(s, a, t) && s.tasks[t].status == SIGNALED
  {
    if !ChangesTasks(a) {
      LeavesTasks(s, s', a);
    }
  }

  /** A task is dispatched when it joins the ready list of a pass, and only then: at the timestamp of the pass. */
  lemma DispatchMeaning(s: State, s': State, a: Action, t: Task)
    requires Inv(s) && Next(s, s', a) && t in s.tasks && t in s'.tasks
    ensures
      if t in s'.local && t !in s.local then
        && (a.ActExpire? || a.ActDispatch?)
        && a.i in s.threads && (s.threads[a.i].pc.Expire? || s.threads[a.i].pc.Dispatch?)
        && s'.tasks[t].dispatchedAt == s.threads[a.i].pc.ts
      else
        s'.tasks[t].dispatchedAt == s.tasks[t].dispatchedAt
  {
    assert TokenOk(s, t);
    if ByClient(a) {
      ClientLeavesQueues(s, s', a);
      ClientDispatches(s, s', a, t);
    } else if !ChangesTasks(a) {
      LeavesTasks(s, s', a);
    }
  }

  lemma ClientDispatches(s: State, s': State, a: Action, t: Task)
    requires Next(s, s', a) && ByClient(a) && t in s.tasks && t in s'.tasks
    ensures s'.tasks[t].dispatchedAt == s.tasks[t].dispatchedAt
  {
    if !ChangesTasks(a) {
      LeavesTasks(s, s', a);
    }
  }

  lemma PokeMeaning(s: State, s': State, a: Action, t: Task)
    requires Next(s, s', a) && t in s.tasks && t in s'.tasks
    requires s.tasks[t].signaledAt <= s.events && s.tasks[t].wokenAt <= s.events
    ensures s'.tasks[t].signaledAt != s.tasks[t].signaledAt <==> a.ActPostSignal? && a.t == t
    ensures s'.tasks[t].wokenAt != s.tasks[t].wokenAt ==>
      a.ActWakeTry? && s.threads[a.i].op.task == t && s'.tasks[t].status == READY
  {
    if !ChangesTasks(a) {
      LeavesTasks(s, s', a);
    }
  }

  // ------------------------------------------------------------------
  // Assertions of the code

  predicate IsAwake(k: TaskState) {
    k.status == READY || k.status == SIGNALED
  }

  /** The MG_DEV_ASSERT and MG_BOX_ASSERT conditions on the path of the action. */
  ghost predicate Asserted(s: State, a: Action) {
    match a
    case ActPost(i, t) => t in s.tasks && !s.tasks[t].inScheduler
    case ActFinishFront(i) => s.frontSignal == Probe(i)
    case ActFinishReady(i) => s.readySignal == Probe(i)
    case ActExpire(i, t) => t in s.tasks && (s.tasks[t].status == WAITING || IsAwake(s.tasks[t]))
    case ActDispatch(i) =>
      s.pending != [] && s.pending[0] in s.tasks &&
      var k := s.tasks[s.pending[0]];
      && k.inScheduler
      && (k.status == PENDING || IsAwake(k))
      && (k.status == PENDING ==> s.pending[0] !in s.heap)
    case ActStart(i) =>
      i in s.threads && s.threads[i].pc.Got? && s.threads[i].pc.task in s.tasks &&
      var k := s.tasks[s.threads[i].pc.task];
      k.inScheduler && IsAwake(k)
    case ActPush(i) =>
      i in s.threads && s.threads[i].op.Push? && s.threads[i].op.task in s.tasks &&
      s.tasks[s.threads[i].op.task].inScheduler
    case ActPop(i) => i in s.threads && s.threads[i].pc.Pop? && s.threads[i].pc.batch < s.execBatch
    case ActUnlock(i) => s.owner == Owner(i)
    case ActSchedulerUnlock(i) => s.owner == Owner(i)
    case _ => true
  }

  lemma AssertionsHold(states: seq<State>, acts: seq<Action>, n: nat)
    requires IsRun(states, acts) && n < |acts|
    ensures Asserted(states[n], acts[n])
  {
    RunInv(states, acts, n);
    assert StepAt(states, acts, n);
    var s, a := states[n], acts[n];
    if !a.ActTick? && a.i in s.threads {
      assert ThreadOk(s, a.i);
      var th := s.threads[a.i];
      assert th.op.Push? && th.op.task in s.tasks ==> TokenOk(s, th.op.task);
      assert th.pc.Got? && th.pc.task in s.tasks ==> TokenOk(s, th.pc.task);
    }
    assert s.pending != [] && s.pending[0] in s.tasks ==> TokenOk(s, s.pending[0]);
    if (a.ActPost? || a.ActExpire?) && a.t in s.tasks {
      assert TokenOk(s, a.t);
    }
  }

  // ------------------------------------------------------------------
  // No stuck state

  /** No thread can move on by itself, except a worker whose timed wait may expire. */
  ghost predicate Quiescent(s: State) {
    forall i :: i in s.threads ==>
      var th := s.threads[i];
      && (th.op == Idle || (th.op == LockWait && s.owner != Owner(i)))
      && (th.pc.NotWorker? ||
          (th.pc == WaitReady && s.readySignal != Set) ||
          ((th.pc.SleepFront? || th.pc.SleepTimed?) && s.frontSignal != Set))
  }

  /**
   * If nobody can move, then nothing is queued, nobody waits for the scheduler
   * lock, and one worker has the scheduler role. It sleeps without a limit only
   * when the heap is empty, else not longer than until the closest deadline.
   */
  lemma NoStuckState(states: seq<State>, acts: seq<Action>, n: nat)
    requires IsRun(states, acts) && n < |states|
    requires Quiescent(states[n])
    ensures var s := states[n];
      && s.front == [] && s.pending == [] && s.local == [] && s.ready == [] && s.waiters == []
      && (forall i :: i in s.threads ==> s.threads[i].op == Idle)
      && s.owner.Owner? && s.owner.thread in s.threads
      && var pc := s.threads[s.owner.thread].pc;
         if s.heap == {} then pc.SleepFront?
         else pc.SleepTimed? &&
              forall t :: t in s.heap ==> t in s.tasks && pc.until <= s.tasks[t].deadline
  {
    RunInv(states, acts, n);
    var s := states[n];
    var worker :| worker in s.threads && !s.threads[worker].pc.NotWorker?;
    assert ThreadOk(s, worker);
    if s.owner == Nobody {
      assert false;
    }
    assert s.frontSignal != Set && !FrontAlert(s);
    assert ThreadOk(s, s.owner.thread);
    forall i | i in s.threads
      ensures s.threads[i].op == Idle
    {
      assert ThreadOk(s, i);
    }
  }
}
