/** What every step of the task scheduler keeps. */
module TaskSchedulerSafety {
  import opened TaskScheduler

  predicate InRole(pc: Pc) {
    pc.ReadClock? || pc.Expire? || pc.PopFront? || pc.Unlock? || AfterPop(pc)
  }

  predicate AfterPop(pc: Pc) {
    pc.Dispatch? || pc.Flush? || pc.Check? || IsIdleRole(pc)
  }

  predicate IsIdleRole(pc: Pc) {
    pc.Decide? || pc.SleepFront? || pc.SleepTimed?
  }

  predicate IsLocking(op: Op) {
    op == SendFront(true) || op == FinishFront(true) || op == LockWait
  }

  predicate HasTask(pc: Pc) {
    pc.Got? || pc.Body?
  }

  predicate NoDup<T(==)>(q: seq<T>) {
    forall i, j :: 0 <= i < j < |q| ==> q[i] != q[j]
  }

  lemma NoDupConcat<T>(a: seq<T>, b: seq<T>)
    requires NoDup(a) && NoDup(b) && forall x :: x in b ==> x !in a
    ensures NoDup(a + b)
  {
    forall i, j | 0 <= i < j < |a + b|
      ensures (a + b)[i] != (a + b)[j]
    {
      if i < |a| <= j {
        assert b[j - |a|] in b;
      }
    }
  }

  ghost predicate QueuesOk(s: State) {
    && NoDup(s.front) && NoDup(s.pending) && NoDup(s.local) && NoDup(s.ready)
    && (forall t :: t in s.front || t in s.pending || t in s.local || t in s.ready || t in s.heap
          ==> t in s.tasks)
  }

  predicate Poked(k: TaskState) {
    k.wokenAt > k.startedAt || k.signaledAt > k.receivedAt
  }

  ghost predicate TokenOk(s: State, t: Task)
    requires t in s.tasks && t in s.place
  {
    var k, p := s.tasks[t], s.place[t];
    && (p == InFront <==> t in s.front)
    && (p == InPending <==> t in s.pending)
    && (p == InLocal <==> t in s.local)
    && (p == InReady <==> t in s.ready)
    && (p == IsWaiting <==> k.status == WAITING)
    && (p.Held? ==> p.waker in s.threads && s.threads[p.waker].op == Push(t))
    && (p.Running? ==>
          p.worker in s.threads && HasTask(s.threads[p.worker].pc) &&
          s.threads[p.worker].pc.task == t)
    && (k.inScheduler <==> !(p == Outside || (p.Running? && s.threads[p.worker].pc.Body?)))
    && (p == InLocal || p == InReady || (p.Running? && s.threads[p.worker].pc.Got?) ==>
          k.status == READY || k.status == SIGNALED)
    && (t in s.heap ==>
          k.status != PENDING && k.deadline != TIME_INFINITE &&
          (p == IsWaiting || p.Held? || p == InFront || p == InPending))
    && (p == IsWaiting && k.deadline != TIME_INFINITE ==> t in s.heap)
  }

  ghost predicate HistoryOk(s: State, t: Task)
    requires t in s.tasks && t in s.place
  {
    var k, p := s.tasks[t], s.place[t];
    && k.wokenAt <= s.events && k.signaledAt <= s.events
    && k.startedAt <= s.events && k.receivedAt <= s.events
    && k.dispatchedAt <= s.clock
    && (k.status == SIGNALED ==> k.signaledAt > k.receivedAt)
    && (if p == InLocal || p == InReady || (p.Running? && k.inScheduler) then
          (k.isExpired <==> k.deadline <= k.dispatchedAt) && (k.isExpired || Poked(k))
        else k.status == READY ==> k.wokenAt > k.startedAt)
  }

  ghost predicate ThreadOk(s: State, i: ThreadId)
    requires i in s.threads
  {
    var th := s.threads[i];
    && (th.op.Push? ==> th.op.task in s.place && s.place[th.op.task] == Held(i))
    && (th.op.Wake? ==> th.op.task in s.tasks)
    && (HasTask(th.pc) ==> th.pc.task in s.place && s.place[th.pc.task] == Running(i))
    && (InRole(th.pc) ==> s.owner == Owner(i))
    && (th.op == LockHeld ==> s.owner == Owner(i))
    && (IsLocking(th.op) ==> i in s.waiters || s.owner == Owner(i))
    && (th.op != Idle ==>
          th.pc.NotWorker? || th.pc.Body? || th.pc.Tail? ||
          (th.pc == Pop(0) && (th.op == SendReady || th.op == FinishReady)))
    && (th.op.FinishFront? ==> s.frontSignal == Probe(i))
    && (th.op.FinishReady? ==> s.readySignal == Probe(i))
    && (th.pc.Expire? || th.pc.PopFront? || th.pc.Dispatch? ==> th.pc.ts <= s.clock)
    && (th.pc.Pop? || HasTask(th.pc) || th.pc.Tail? ==> th.pc.batch < s.execBatch)
    && (IsIdleRole(th.pc) ==> s.ready == [] && s.pending == [])
    && (th.pc.SleepFront? ==> s.heap == {})
    && (th.pc.SleepTimed? ==>
          s.heap != {} &&
          forall t :: t in s.heap && t in s.tasks ==> th.pc.until <= s.tasks[t].deadline)
    && (InRole(th.pc) && s.local != [] ==>
          th.pc.Expire? || th.pc.PopFront? || th.pc.Dispatch? || th.pc.Flush?)
  }

  ghost predicate LockOk(s: State) {
    && NoDup(s.waiters)
    && (forall i :: i in s.waiters ==>
          i in s.threads && IsLocking(s.threads[i].op) && s.owner != Owner(i))
    && (s.owner == Nobody ==> s.waiters == [])
    && (s.owner.Owner? ==>
          s.owner.thread in s.threads &&
          var th := s.threads[s.owner.thread];
          InRole(th.pc) || th.op == LockHeld || IsLocking(th.op))
    && (s.local != [] ==> s.owner.Owner? && InRole(s.threads[s.owner.thread].pc))
    && (s.frontSignal.Probe? ==>
          s.frontSignal.sender in s.threads &&
          s.threads[s.frontSignal.sender].op.FinishFront?)
    && (s.readySignal.Probe? ==>
          s.readySignal.sender in s.threads &&
          s.threads[s.readySignal.sender].op == FinishReady)
    && s.execBatch > 0
  }

  predicate SendsFront(th: Thread) {
    th.op.SendFront? || th.op.FinishFront?
  }

  predicate HeadsToRole(th: Thread) {
    th.pc.TryLock? || th.op == SendReady || th.op == FinishReady
  }

  /** The front signal is set or is going to be. */
  ghost predicate FrontAlert(s: State) {
    s.frontSignal == Set || exists i :: i in s.threads && SendsFront(s.threads[i])
  }

  /** Some worker is on its way to the scheduler role. */
  ghost predicate ReadyAlert(s: State) {
    s.readySignal == Set || exists i :: i in s.threads && HeadsToRole(s.threads[i])
  }

  /** The scheduler role may fall asleep although somebody needs it. */
  ghost predicate NeedsFront(s: State) {
    s.owner.Owner? && s.owner.thread in s.threads &&
    var pc := s.threads[s.owner.thread].pc;
    (AfterPop(pc) && s.front != []) || (InRole(pc) && !pc.Unlock? && s.waiters != [])
  }

  ghost predicate AlertsOk(s: State) {
    && (NeedsFront(s) ==> FrontAlert(s))
    && (s.owner == Nobody ==> ReadyAlert(s))
    && HasWorker(s)
  }

  ghost predicate HasWorker(s: State) {
    exists i :: i in s.threads && !s.threads[i].pc.NotWorker?
  }

  ghost predicate TasksOk(s: State) {
    && s.place.Keys == s.tasks.Keys
    && (forall t {:trigger TokenOk(s, t)} {:trigger HistoryOk(s, t)} :: t in s.tasks ==>
          TokenOk(s, t) && HistoryOk(s, t))
  }

  ghost predicate ThreadsOk(s: State) {
    forall i {:trigger ThreadOk(s, i)} :: i in s.threads ==> ThreadOk(s, i)
  }

  ghost predicate Core(s: State) {
    QueuesOk(s) && TasksOk(s) && ThreadsOk(s) && LockOk(s)
  }

  ghost predicate Inv(s: State) {
    Core(s) && AlertsOk(s)
  }

  /** When a step of thread `i` keeps the wakeup obligations. */
  lemma AlertsKept(s: State, s': State, i: ThreadId)
    requires Inv(s) && LockOk(s')
    requires i in s.threads && i in s'.threads && s'.threads == s.threads[i := s'.threads[i]]
    requires NeedsFront(s') ==>
      || SendsFront(s'.threads[i])
      || (NeedsFront(s) && (s.frontSignal == Set || SendsFront(s.threads[i]) ==>
                              s'.frontSignal != Empty))
    requires s'.owner == Nobody ==>
      || HeadsToRole(s'.threads[i])
      || (s.owner == Nobody && (s.readySignal == Set || HeadsToRole(s.threads[i]) ==>
                                  s'.readySignal != Empty))
    requires s'.threads[i].pc.NotWorker? <==> s.threads[i].pc.NotWorker?
    ensures AlertsOk(s')
  {
    var worker :| worker in s.threads && !s.threads[worker].pc.NotWorker?;
    assert !s'.threads[worker].pc.NotWorker?;
    if NeedsFront(s') && !SendsFront(s'.threads[i]) && s'.frontSignal == Empty {
      var j :| j in s.threads && SendsFront(s.threads[j]);
      assert s'.threads[j] == s.threads[j];
    }
    if s'.owner == Nobody && !HeadsToRole(s'.threads[i]) && s'.readySignal == Empty {
      var j :| j in s.threads && HeadsToRole(s.threads[j]);
      assert s'.threads[j] == s.threads[j];
    }
    if s'.frontSignal.Probe? {
      assert SendsFront(s'.threads[s'.frontSignal.sender]);
    }
    if s'.readySignal.Probe? {
      assert HeadsToRole(s'.threads[s'.readySignal.sender]);
    }
  }

  lemma InitInv(s: State)
    requires Init(s)
    ensures Inv(s)
  {}

  /** A step of thread `i` leaves alone everything the other threads rely on. */
  lemma ThreadsKept(s: State, s': State, i: ThreadId)
    requires ThreadsOk(s) && i in s.threads && i in s'.threads && ThreadOk(s', i)
    requires s'.threads == s.threads[i := s'.threads[i]]
    requires s'.tasks.Keys == s.tasks.Keys && s'.clock == s.clock && s'.execBatch == s.execBatch
    requires forall t | t in s.place &&
      ((s.place[t].Held? && s.place[t].waker != i) || (s.place[t].Running? && s.place[t].worker != i))
      :: t in s'.place && s'.place[t] == s.place[t]
    requires s.owner.Owner? && s.owner.thread != i ==> (
      && s'.owner == s.owner && s'.pending == s.pending && s'.local == s.local
      && s'.heap == s.heap && (s.ready == [] ==> s'.ready == [])
      && forall t :: t in s.heap && t in s.tasks ==> s'.tasks[t].deadline == s.tasks[t].deadline)
    requires forall j :: j in s.waiters ==> j in s'.waiters || s'.owner == Owner(j)
    requires s.frontSignal.Probe? && s.frontSignal.sender != i ==> s'.frontSignal == s.frontSignal
    requires s.readySignal.Probe? && s.readySignal.sender != i ==> s'.readySignal == s.readySignal
    ensures ThreadsOk(s')
  {
    forall j | j in s'.threads
      ensures ThreadOk(s', j)
    {
      assert ThreadOk(s, j);
    }
  }

  /** A step of thread `i` which leaves the lock with its owner and waiters. */
  lemma LockKept(s: State, s': State, i: ThreadId)
    requires LockOk(s) && i in s.threads && i in s'.threads
    requires s'.threads == s.threads[i := s'.threads[i]]
    requires s'.owner == s.owner && s'.waiters == s.waiters && s'.execBatch == s.execBatch
    requires i in s.waiters ==> IsLocking(s'.threads[i].op)
    requires s.owner == Owner(i) ==>
      InRole(s'.threads[i].pc) || s'.threads[i].op == LockHeld || IsLocking(s'.threads[i].op)
    requires if s.owner == Owner(i) then s'.local == [] || InRole(s'.threads[i].pc)
             else s'.local == s.local
    requires s'.frontSignal == Probe(i) ==> s'.threads[i].op.FinishFront?
    requires s'.frontSignal.Probe? && s'.frontSignal.sender != i ==> s'.frontSignal == s.frontSignal
    requires s'.readySignal == Probe(i) ==> s'.threads[i].op == FinishReady
    requires s'.readySignal.Probe? && s'.readySignal.sender != i ==> s'.readySignal == s.readySignal
    ensures LockOk(s')
  {}

  /** Steps which move only a thread that keeps its task, if it has one. */
  lemma TasksKept(s: State, s': State, i: ThreadId)
    requires TasksOk(s) && i in s.threads && i in s'.threads
    requires s'.threads == s.threads[i := s'.threads[i]]
    requires s'.tasks == s.tasks && s'.place == s.place && s'.heap == s.heap
    requires s'.front == s.front && s'.pending == s.pending
    requires s'.local == s.local && s'.ready == s.ready
    requires s'.events == s.events && s'.clock == s.clock
    requires s.threads[i].op.Push? ==> s'.threads[i].op == s.threads[i].op
    requires HasTask(s.threads[i].pc) ==> s'.threads[i].pc == s.threads[i].pc
    ensures TasksOk(s')
  {
    forall u | u in s'.tasks
      ensures TokenOk(s', u) && HistoryOk(s', u)
    {
      assert TokenOk(s, u) && HistoryOk(s, u);
    }
  }

  lemma PostTasks(s: State, s': State, i: ThreadId, t: Task)
    requires Inv(s) && PostStep(s, s', i, t)
    ensures QueuesOk(s') && TasksOk(s')
  {
    assert ThreadOk(s, i);
    assert TokenOk(s, t) && HistoryOk(s, t);
    forall u | u in s'.tasks
      ensures TokenOk(s', u) && HistoryOk(s', u)
    {
      assert TokenOk(s, u) && HistoryOk(s, u);
    }
  }

  lemma PostThreads(s: State, s': State, i: ThreadId, t: Task)
    requires Inv(s) && PostStep(s, s', i, t)
    ensures ThreadsOk(s')
  {
    assert ThreadOk(s, i);
    assert TokenOk(s, t);
    assert ThreadOk(s', i);
    ThreadsKept(s, s', i);
  }

  lemma PostKeeps(s: State, s': State, i: ThreadId, t: Task)
    requires Inv(s) && PostStep(s, s', i, t)
    ensures Inv(s')
  {
    PostTasks(s, s', i, t);
    PostThreads(s, s', i, t);
    assert ThreadOk(s, i);
    LockKept(s, s', i);
    AlertsKept(s, s', i);
  }

  lemma PushTasks(s: State, s': State, i: ThreadId)
    requires Inv(s) && PushStep(s, s', i)
    ensures QueuesOk(s') && TasksOk(s')
  {
    assert ThreadOk(s, i);
    assert TokenOk(s, s.threads[i].op.task) && HistoryOk(s, s.threads[i].op.task);
    forall u | u in s'.tasks
      ensures TokenOk(s', u) && HistoryOk(s', u)
    {
      assert TokenOk(s, u) && HistoryOk(s, u);
    }
  }

  lemma PushKeeps(s: State, s': State, i: ThreadId)
    requires Inv(s) && PushStep(s, s', i)
    ensures Inv(s')
  {
    assert ThreadOk(s, i);
    assert TokenOk(s, s.threads[i].op.task) && HistoryOk(s, s.threads[i].op.task);
    PushTasks(s, s', i);
    ThreadsKept(s, s', i);
    LockKept(s, s', i);
    AlertsKept(s, s', i);
  }

  lemma SendFrontTasks(s: State, s': State, i: ThreadId)
    requires Inv(s) && SendFrontStep(s, s', i)
    ensures QueuesOk(s') && TasksOk(s') && ThreadsOk(s')
  {
    assert ThreadOk(s, i);
    TasksKept(s, s', i);
    ThreadsKept(s, s', i);
  }

  lemma SendFrontKeeps(s: State, s': State, i: ThreadId)
    requires Inv(s) && SendFrontStep(s, s', i)
    ensures Inv(s')
  {
    SendFrontTasks(s, s', i);
    assert ThreadOk(s, i);
    LockKept(s, s', i);
    AlertsKept(s, s', i);
  }

  lemma FinishFrontKeeps(s: State, s': State, i: ThreadId)
    requires Inv(s) && FinishFrontStep(s, s', i)
    ensures Inv(s')
  {
    assert ThreadOk(s, i);
    TasksKept(s, s', i);
    ThreadsKept(s, s', i);
    LockKept(s, s', i);
    AlertsKept(s, s', i);
  }

  lemma WakeLoadKeeps(s: State, s': State, i: ThreadId, t: Task)
    requires Inv(s) && WakeLoadStep(s, s', i, t)
    ensures Inv(s')
  {
    assert ThreadOk(s, i);
    TasksKept(s, s', i);
    ThreadsKept(s, s', i);
    LockKept(s, s', i);
    AlertsKept(s, s', i);
  }

  ghost predicate IsPoke(s: State, i: ThreadId, t: Task, k: TaskState) {
    && i in s.threads && t in s.tasks && t in s.place
    && (IsClient(s, i) || s.threads[i].op.Wake?)
    && (k == s.tasks[t].(status := SIGNALED, signaledAt := s.events + 1) ||
        (s.tasks[t].status != SIGNALED &&
         k == s.tasks[t].(status := READY, wokenAt := s.events + 1)))
  }

  lemma PokeTasks(s: State, i: ThreadId, t: Task, k: TaskState)
    requires Inv(s) && IsPoke(s, i, t, k)
    ensures QueuesOk(Poke(s, i, t, k)) && TasksOk(Poke(s, i, t, k))
  {
    assert ThreadOk(s, i);
    var s' := Poke(s, i, t, k);
    forall u | u in s'.tasks
      ensures TokenOk(s', u) && HistoryOk(s', u)
    {
      assert TokenOk(s, u) && HistoryOk(s, u);
    }
  }

  lemma PokeThreads(s: State, i: ThreadId, t: Task, k: TaskState)
    requires Inv(s) && IsPoke(s, i, t, k)
    ensures ThreadsOk(Poke(s, i, t, k))
  {
    assert ThreadOk(s, i) && TokenOk(s, t);
    ThreadsKept(s, Poke(s, i, t, k), i);
  }

  lemma PokeKeeps(s: State, i: ThreadId, t: Task, k: TaskState)
    requires Inv(s) && IsPoke(s, i, t, k)
    ensures Inv(Poke(s, i, t, k))
  {
    assert ThreadOk(s, i);
    var s' := Poke(s, i, t, k);
    PokeTasks(s, i, t, k);
    PokeThreads(s, i, t, k);
    LockKept(s, s', i);
    AlertsKept(s, s', i);
  }

  lemma WakeTryKeeps(s: State, s': State, i: ThreadId, spurious: bool)
    requires Inv(s) && WakeTryStep(s, s', i, spurious)
    ensures Inv(s')
  {
    assert ThreadOk(s, i);
    var t, seen := s.threads[i].op.task, s.threads[i].op.seen;
    var k := s.tasks[t];
    if seen != SIGNALED && seen != READY && k.status == seen && !spurious {
      PokeKeeps(s, i, t, k.(status := READY, wokenAt := s.events + 1));
    } else {
      TasksKept(s, s', i);
      ThreadsKept(s, s', i);
      LockKept(s, s', i);
      AlertsKept(s, s', i);
    }
  }

  /** The task is SIGNALED, and the sender has to push it if and only if it took the task out of WAITING. */
  lemma PostSignalKeeps(s: State, s': State, i: ThreadId, t: Task)
    requires Inv(s) && PostSignalStep(s, s', i, t)
    ensures Inv(s') && t in s'.tasks && s'.tasks[t].status == SIGNALED
    ensures s'.place[t] == Held(i) <==> s.tasks[t].status == WAITING
    ensures s'.threads[i].op == if s.tasks[t].status == WAITING then Push(t) else Idle
  {
    assert TokenOk(s, t);
    PokeKeeps(s, i, t, s.tasks[t].(status := SIGNALED, signaledAt := s.events + 1));
  }

  lemma ReceiveSignalTasks(s: State, s': State, i: ThreadId, t: Task)
    requires Inv(s) && ReceiveSignalStep(s, s', i, t)
    ensures QueuesOk(s') && TasksOk(s')
  {
    assert ThreadOk(s, i);
    assert TokenOk(s, t) && HistoryOk(s, t);
    forall u | u in s'.tasks
      ensures TokenOk(s', u) && HistoryOk(s', u)
    {
      assert TokenOk(s, u) && HistoryOk(s, u);
    }
  }

  lemma ReceiveSignalKeeps(s: State, s': State, i: ThreadId, t: Task)
    requires Inv(s) && ReceiveSignalStep(s, s', i, t)
    ensures Inv(s')
  {
    assert ThreadOk(s, i);
    assert TokenOk(s, t) && HistoryOk(s, t);
    ReceiveSignalTasks(s, s', i, t);
    ThreadsKept(s, s', i);
    LockKept(s, s', i);
    AlertsKept(s, s', i);
  }

  lemma SetDeadlineTasks(s: State, s': State, i: ThreadId, t: Task, deadline: nat)
    requires Inv(s) && SetDeadlineStep(s, s', i, t, deadline)
    ensures QueuesOk(s') && TasksOk(s')
  {
    assert ThreadOk(s, i);
    assert TokenOk(s, t) && HistoryOk(s, t);
    forall u | u in s'.tasks
      ensures TokenOk(s', u) && HistoryOk(s', u)
    {
      assert TokenOk(s, u) && HistoryOk(s, u);
    }
  }

  lemma SetDeadlineKeeps(s: State, s': State, i: ThreadId, t: Task, deadline: nat)
    requires Inv(s) && SetDeadlineStep(s, s', i, t, deadline)
    ensures Inv(s')
  {
    assert ThreadOk(s, i);
    assert TokenOk(s, t) && HistoryOk(s, t);
    SetDeadlineTasks(s, s', i, t, deadline);
    ThreadsKept(s, s', i);
    LockKept(s, s', i);
    AlertsKept(s, s', i);
  }

  /** What taking or queueing for the lock leaves as it was. */
  lemma LockTasks(s: State, s': State, i: ThreadId)
    requires Inv(s) && LockStep(s, s', i)
    ensures QueuesOk(s') && TasksOk(s') && ThreadsOk(s')
  {
    assert ThreadOk(s, i);
    TasksKept(s, s', i);
    ThreadsKept(s, s', i);
  }

  lemma LockWaiters(s: State, s': State, i: ThreadId)
    requires Inv(s) && LockStep(s, s', i)
    ensures LockOk(s')
  {
    assert ThreadOk(s, i);
  }

  lemma LockKeeps(s: State, s': State, i: ThreadId)
    requires Inv(s) && LockStep(s, s', i)
    ensures Inv(s')
  {
    LockTasks(s, s', i);
    LockWaiters(s, s', i);
    AlertsKept(s, s', i);
  }

  lemma LockResumeKeeps(s: State, s': State, i: ThreadId)
    requires Inv(s) && LockResumeStep(s, s', i)
    ensures Inv(s')
  {
    assert ThreadOk(s, i);
    TasksKept(s, s', i);
    ThreadsKept(s, s', i);
    LockKept(s, s', i);
    AlertsKept(s, s', i);
  }

  lemma UnlockKeeps(s: State, s': State, i: ThreadId)
    requires Inv(s) && UnlockStep(s, s', i)
    ensures Inv(s')
  {
    assert ThreadOk(s, i);
    assert s.waiters != [] ==> ThreadOk(s, s.waiters[0]);
    TasksKept(s, s', i);
    ThreadsKept(s, s', i);
    AlertsKept(s, s', i);
  }

  lemma SendReadyTasks(s: State, s': State, i: ThreadId)
    requires Inv(s) && SendReadyStep(s, s', i)
    ensures QueuesOk(s') && TasksOk(s') && ThreadsOk(s')
  {
    assert ThreadOk(s, i);
    TasksKept(s, s', i);
    ThreadsKept(s, s', i);
  }

  lemma SendReadyKeeps(s: State, s': State, i: ThreadId)
    requires Inv(s) && SendReadyStep(s, s', i)
    ensures Inv(s')
  {
    SendReadyTasks(s, s', i);
    assert ThreadOk(s, i);
    LockKept(s, s', i);
    AlertsKept(s, s', i);
  }

  lemma FinishReadyKeeps(s: State, s': State, i: ThreadId)
    requires Inv(s) && FinishReadyStep(s, s', i)
    ensures Inv(s')
  {
    assert ThreadOk(s, i);
    TasksKept(s, s', i);
    ThreadsKept(s, s', i);
    LockKept(s, s', i);
    AlertsKept(s, s', i);
  }

  lemma TryLockTasks(s: State, s': State, i: ThreadId)
    requires Inv(s) && TryLockStep(s, s', i)
    ensures QueuesOk(s') && TasksOk(s') && ThreadsOk(s')
  {
    assert ThreadOk(s, i);
    TasksKept(s, s', i);
    ThreadsKept(s, s', i);
  }

  lemma TryLockKeeps(s: State, s': State, i: ThreadId)
    requires Inv(s) && TryLockStep(s, s', i)
    ensures Inv(s')
  {
    TryLockTasks(s, s', i);
    assert ThreadOk(s, i);
    AlertsKept(s, s', i);
  }

  lemma ReadClockKeeps(s: State, s': State, i: ThreadId)
    requires Inv(s) && ReadClockStep(s, s', i)
    ensures Inv(s')
  {
    assert ThreadOk(s, i);
    TasksKept(s, s', i);
    ThreadsKept(s, s', i);
    LockKept(s, s', i);
    AlertsKept(s, s', i);
  }

  lemma ExpireTasks(s: State, s': State, i: ThreadId, t: Task)
    requires Inv(s) && ExpireStep(s, s', i, t)
    ensures QueuesOk(s') && TasksOk(s')
  {
    assert ThreadOk(s, i);
    assert TokenOk(s, t) && HistoryOk(s, t);
    forall u | u in s'.tasks
      ensures TokenOk(s', u) && HistoryOk(s', u)
    {
      assert TokenOk(s, u) && HistoryOk(s, u);
    }
  }

  lemma ExpireKeeps(s: State, s': State, i: ThreadId, t: Task)
    requires Inv(s) && ExpireStep(s, s', i, t)
    ensures Inv(s')
  {
    assert ThreadOk(s, i);
    assert TokenOk(s, t) && HistoryOk(s, t);
    ExpireTasks(s, s', i, t);
    ThreadsKept(s, s', i);
    LockKept(s, s', i);
    AlertsKept(s, s', i);
  }

  lemma ExpireEndKeeps(s: State, s': State, i: ThreadId)
    requires Inv(s) && ExpireEndStep(s, s', i)
    ensures Inv(s')
  {
    assert ThreadOk(s, i);
    TasksKept(s, s', i);
    ThreadsKept(s, s', i);
    LockKept(s, s', i);
    AlertsKept(s, s', i);
  }

  lemma PopFrontTasks(s: State, s': State, i: ThreadId)
    requires Inv(s) && PopFrontStep(s, s', i)
    ensures QueuesOk(s') && TasksOk(s')
  {
    assert ThreadOk(s, i);
    forall t | t in s.front
      ensures t !in s.pending
    {
      assert TokenOk(s, t);
    }
    NoDupConcat(s.pending, s.front);
    forall u | u in s'.tasks
      ensures TokenOk(s', u) && HistoryOk(s', u)
    {
      assert TokenOk(s, u) && HistoryOk(s, u);
    }
  }

  lemma PopFrontKeeps(s: State, s': State, i: ThreadId)
    requires Inv(s) && PopFrontStep(s, s', i)
    ensures Inv(s')
  {
    assert ThreadOk(s, i);
    PopFrontTasks(s, s', i);
    ThreadsKept(s, s', i);
    LockKept(s, s', i);
    AlertsKept(s, s', i);
  }

  lemma DispatchTask(s: State, s': State, i: ThreadId, u: Task)
    requires Inv(s) && DispatchStep(s, s', i) && u in s.tasks
    ensures u in s'.place && TokenOk(s', u) && HistoryOk(s', u)
  {
    assert ThreadOk(s, i);
    assert TokenOk(s, s.pending[0]) && HistoryOk(s, s.pending[0]);
    assert TokenOk(s, u) && HistoryOk(s, u);
  }

  lemma DispatchTasks(s: State, s': State, i: ThreadId)
    requires Inv(s) && DispatchStep(s, s', i)
    ensures QueuesOk(s') && TasksOk(s')
  {
    assert TokenOk(s, s.pending[0]);
    forall u | u in s'.tasks
      ensures TokenOk(s', u) && HistoryOk(s', u)
    {
      DispatchTask(s, s', i, u);
    }
  }

  lemma DispatchKeeps(s: State, s': State, i: ThreadId)
    requires Inv(s) && DispatchStep(s, s', i)
    ensures Inv(s')
  {
    assert ThreadOk(s, i);
    assert TokenOk(s, s.pending[0]) && HistoryOk(s, s.pending[0]);
    DispatchTasks(s, s', i);
    ThreadsKept(s, s', i);
    LockKept(s, s', i);
    AlertsKept(s, s', i);
  }

  lemma DispatchEndKeeps(s: State, s': State, i: ThreadId)
    requires Inv(s) && DispatchEndStep(s, s', i)
    ensures Inv(s')
  {
    assert ThreadOk(s, i);
    TasksKept(s, s', i);
    ThreadsKept(s, s', i);
    LockKept(s, s', i);
    AlertsKept(s, s', i);
  }

  lemma FlushTasks(s: State, s': State, i: ThreadId)
    requires Inv(s) && FlushStep(s, s', i)
    ensures QueuesOk(s') && TasksOk(s')
  {
    assert ThreadOk(s, i);
    assert s.local != [] ==> TokenOk(s, s.local[0]) && HistoryOk(s, s.local[0]);
    forall u | u in s'.tasks
      ensures TokenOk(s', u) && HistoryOk(s', u)
    {
      assert TokenOk(s, u) && HistoryOk(s, u);
    }
  }

  lemma FlushKeeps(s: State, s': State, i: ThreadId)
    requires Inv(s) && FlushStep(s, s', i)
    ensures Inv(s')
  {
    assert ThreadOk(s, i);
    assert s.local != [] ==> TokenOk(s, s.local[0]) && HistoryOk(s, s.local[0]);
    FlushTasks(s, s', i);
    ThreadsKept(s, s', i);
    LockKept(s, s', i);
    AlertsKept(s, s', i);
  }

  lemma CheckKeeps(s: State, s': State, i: ThreadId, sawZero: bool)
    requires Inv(s) && CheckStep(s, s', i, sawZero)
    ensures Inv(s')
  {
    assert ThreadOk(s, i);
    TasksKept(s, s', i);
    ThreadsKept(s, s', i);
    LockKept(s, s', i);
    AlertsKept(s, s', i);
  }

  lemma DecideKeeps(s: State, s': State, i: ThreadId)
    requires Inv(s) && DecideStep(s, s', i)
    ensures Inv(s')
  {
    assert ThreadOk(s, i);
    TasksKept(s, s', i);
    ThreadsKept(s, s', i);
    LockKept(s, s', i);
    AlertsKept(s, s', i);
  }

  lemma WakeUpKeeps(s: State, s': State, i: ThreadId, timeout: bool)
    requires Inv(s) && WakeUpStep(s, s', i, timeout)
    ensures Inv(s')
  {
    assert ThreadOk(s, i);
    TasksKept(s, s', i);
    ThreadsKept(s, s', i);
    LockKept(s, s', i);
    AlertsKept(s, s', i);
  }

  lemma SchedulerUnlockKeeps(s: State, s': State, i: ThreadId)
    requires Inv(s) && SchedulerUnlockStep(s, s', i)
    ensures Inv(s')
  {
    assert ThreadOk(s, i);
    assert s.waiters != [] ==> ThreadOk(s, s.waiters[0]);
    TasksKept(s, s', i);
    ThreadsKept(s, s', i);
    AlertsKept(s, s', i);
  }

  lemma PopTasks(s: State, s': State, i: ThreadId)
    requires Inv(s) && PopStep(s, s', i)
    ensures QueuesOk(s') && TasksOk(s')
  {
    assert ThreadOk(s, i);
    assert s.ready != [] ==> TokenOk(s, s.ready[0]) && HistoryOk(s, s.ready[0]);
    forall u | u in s'.tasks
      ensures TokenOk(s', u) && HistoryOk(s', u)
    {
      assert TokenOk(s, u) && HistoryOk(s, u);
    }
  }

  lemma PopThreads(s: State, s': State, i: ThreadId)
    requires Inv(s) && PopStep(s, s', i)
    ensures ThreadsOk(s')
  {
    assert ThreadOk(s, i);
    assert s.ready != [] ==> TokenOk(s, s.ready[0]);
    ThreadsKept(s, s', i);
  }

  lemma PopKeeps(s: State, s': State, i: ThreadId)
    requires Inv(s) && PopStep(s, s', i)
    ensures Inv(s')
  {
    assert ThreadOk(s, i);
    PopTasks(s, s', i);
    PopThreads(s, s', i);
    LockKept(s, s', i);
    AlertsKept(s, s', i);
  }

  lemma StartTasks(s: State, s': State, i: ThreadId)
    requires Inv(s) && StartStep(s, s', i)
    ensures QueuesOk(s') && TasksOk(s')
  {
    assert ThreadOk(s, i);
    assert TokenOk(s, s.threads[i].pc.task) && HistoryOk(s, s.threads[i].pc.task);
    forall u | u in s'.tasks
      ensures TokenOk(s', u) && HistoryOk(s', u)
    {
      assert TokenOk(s, u) && HistoryOk(s, u);
    }
  }

  lemma StartKeeps(s: State, s': State, i: ThreadId)
    requires Inv(s) && StartStep(s, s', i)
    ensures Inv(s')
  {
    assert ThreadOk(s, i);
    assert TokenOk(s, s.threads[i].pc.task) && HistoryOk(s, s.threads[i].pc.task);
    StartTasks(s, s', i);
    ThreadsKept(s, s', i);
    LockKept(s, s', i);
    AlertsKept(s, s', i);
  }

  lemma FinishTasks(s: State, s': State, i: ThreadId)
    requires Inv(s) && FinishStep(s, s', i)
    ensures QueuesOk(s') && TasksOk(s')
  {
    assert ThreadOk(s, i);
    assert TokenOk(s, s.threads[i].pc.task) && HistoryOk(s, s.threads[i].pc.task);
    forall u | u in s'.tasks
      ensures TokenOk(s', u) && HistoryOk(s', u)
    {
      assert TokenOk(s, u) && HistoryOk(s, u);
    }
  }

  lemma FinishKeeps(s: State, s': State, i: ThreadId)
    requires Inv(s) && FinishStep(s, s', i)
    ensures Inv(s')
  {
    assert ThreadOk(s, i);
    assert TokenOk(s, s.threads[i].pc.task) && HistoryOk(s, s.threads[i].pc.task);
    FinishTasks(s, s', i);
    ThreadsKept(s, s', i);
    LockKept(s, s', i);
    AlertsKept(s, s', i);
  }

  lemma NextKeeps(s: State, s': State, i: ThreadId)
    requires Inv(s) && NextStep(s, s', i)
    ensures Inv(s')
  {
    assert ThreadOk(s, i);
    TasksKept(s, s', i);
    ThreadsKept(s, s', i);
    LockKept(s, s', i);
    AlertsKept(s, s', i);
  }

  lemma WaitReadyKeeps(s: State, s': State, i: ThreadId)
    requires Inv(s) && WaitReadyStep(s, s', i)
    ensures Inv(s')
  {
    assert ThreadOk(s, i);
    TasksKept(s, s', i);
    ThreadsKept(s, s', i);
    LockKept(s, s', i);
    AlertsKept(s, s', i);
  }

  lemma TickKeeps(s: State, s': State, now: nat)
    requires Inv(s) && TickStep(s, s', now)
    ensures Inv(s')
  {
    forall u | u in s'.tasks
      ensures TokenOk(s', u) && HistoryOk(s', u)
    {
      assert TokenOk(s, u) && HistoryOk(s, u);
    }
    forall j | j in s'.threads
      ensures ThreadOk(s', j)
    {
      assert ThreadOk(s, j);
    }
  }
}
