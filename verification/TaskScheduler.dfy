/**
 * The task scheduler of src/mg/sch as a state machine.
 *
 * One step is one atomic operation (or one operation on the scheduler mutex)
 * together with the thread-local work around it. Any number of workers and
 * client threads interleave freely. A worker runs client operations too, while
 * it is inside a task body.
 *
 * `place` and the `...At` fields are history variables: the code has no such
 * fields, and no step of its algorithm decides by them. Only `Owns` reads
 * `place`, and says what the scheduler assumes of its callers: a task is posted,
 * its signal received and its deadline set by the one who has the task.
 */
module TaskScheduler {
  type Task = nat
  type ThreadId = nat

  const TIME_INFINITE: nat := 0xFFFF_FFFF_FFFF_FFFF

  datatype Status = PENDING | WAITING | READY | SIGNALED

  datatype TaskState = TaskState(
    status: Status,
    deadline: nat,
    isExpired: bool,
    inScheduler: bool,
    wokenAt: nat,
    signaledAt: nat,
    startedAt: nat,
    receivedAt: nat,
    dispatchedAt: nat)

  /** Where the single ownership token of a task is. */
  datatype Place =
    | Outside
    | Running(worker: ThreadId)
    | Held(waker: ThreadId)
    | InFront
    | InPending
    | IsWaiting
    | InLocal
    | InReady

  datatype Owner = Nobody | Owner(thread: ThreadId)

  /** mg::box::Signal; PROBE remembers the one sender which has not published yet. */
  datatype Signal = Empty | Probe(sender: ThreadId) | Set

  /** Progress of a thread inside a client operation. */
  datatype Op =
    | Idle
    | Wake(task: Task, seen: Status)
    | Push(task: Task)
    | SendFront(forLock: bool)
    | FinishFront(forLock: bool)
    | LockWait
    | LockHeld
    | SendReady
    | FinishReady

  /** Program counter of a worker. */
  datatype Pc =
    | NotWorker
    | TryLock
    | ReadClock
    | Expire(ts: nat, batch: nat)
    | PopFront(ts: nat)
    | Dispatch(ts: nat, batch: nat)
    | Flush
    | Check
    | Decide
    | SleepFront
    | SleepTimed(until: nat)
    | Unlock
    | Pop(batch: nat)
    | Got(task: Task, batch: nat)
    | Body(task: Task, batch: nat)
    | Tail(batch: nat)
    | WaitReady

  datatype Thread = Thread(pc: Pc, op: Op)

  datatype State = State(
    tasks: map<Task, TaskState>,
    place: map<Task, Place>,
    front: seq<Task>,
    pending: seq<Task>,
    heap: set<Task>,
    local: seq<Task>,
    ready: seq<Task>,
    owner: Owner,
    waiters: seq<ThreadId>,
    frontSignal: Signal,
    readySignal: Signal,
    clock: nat,
    events: nat,
    threads: map<ThreadId, Thread>,
    schedBatch: nat,
    execBatch: nat)

  datatype Action =
    | ActTick(now: nat)
    | ActPost(i: ThreadId, t: Task)
    | ActPush(i: ThreadId)
    | ActSendFront(i: ThreadId)
    | ActFinishFront(i: ThreadId)
    | ActWakeLoad(i: ThreadId, t: Task)
    | ActWakeTry(i: ThreadId, spurious: bool)
    | ActPostSignal(i: ThreadId, t: Task)
    | ActReceiveSignal(i: ThreadId, t: Task)
    | ActSetDeadline(i: ThreadId, t: Task, deadline: nat)
    | ActLock(i: ThreadId)
    | ActLockResume(i: ThreadId)
    | ActUnlock(i: ThreadId)
    | ActSendReady(i: ThreadId)
    | ActFinishReady(i: ThreadId)
    | ActTryLock(i: ThreadId)
    | ActReadClock(i: ThreadId)
    | ActExpire(i: ThreadId, t: Task)
    | ActExpireEnd(i: ThreadId)
    | ActPopFront(i: ThreadId)
    | ActDispatch(i: ThreadId)
    | ActDispatchEnd(i: ThreadId)
    | ActFlush(i: ThreadId)
    | ActCheck(i: ThreadId, sawZero: bool)
    | ActDecide(i: ThreadId)
    | ActWakeUp(i: ThreadId, timeout: bool)
    | ActSchedulerUnlock(i: ThreadId)
    | ActPop(i: ThreadId)
    | ActStart(i: ThreadId)
    | ActFinish(i: ThreadId)
    | ActNext(i: ThreadId)
    | ActWaitReady(i: ThreadId)

  // ------------------------------------------------------------------
  // Updates

  function SetPc(s: State, i: ThreadId, pc: Pc): State
    requires i in s.threads
  {
    s.(threads := s.threads[i := s.threads[i].(pc := pc)])
  }

  function SetOp(s: State, i: ThreadId, op: Op): State
    requires i in s.threads
  {
    s.(threads := s.threads[i := s.threads[i].(op := op)])
  }

  function SetTask(s: State, t: Task, k: TaskState, p: Place): State {
    s.(tasks := s.tasks[t := k], place := s.place[t := p])
  }

  /** A client operation may start: outside threads always, workers inside a task body. */
  predicate IsClient(s: State, i: ThreadId) {
    i in s.threads && s.threads[i].op == Idle &&
    (s.threads[i].pc.NotWorker? || s.threads[i].pc.Body? || s.threads[i].pc.Tail?)
  }

  /** The thread may touch the task's plain fields (PrivTouch). */
  predicate Owns(s: State, i: ThreadId, t: Task) {
    t in s.tasks && t in s.place && i in s.threads &&
    (s.place[t] == Outside ||
     (s.place[t] == Running(i) && s.threads[i].pc.Body? && s.threads[i].pc.task == t))
  }

  predicate AtPc(s: State, i: ThreadId) {
    i in s.threads && s.threads[i].op == Idle
  }

  // ------------------------------------------------------------------
  // Client steps: Task.cpp and TaskScheduler::Post

  ghost predicate PostStep(s: State, s': State, i: ThreadId, t: Task) {
    IsClient(s, i) && Owns(s, i, t) &&
    var pc := s.threads[i].pc;
    var pc' := if s.place[t] == Outside then pc else Tail(pc.batch);
    s' == SetTask(s, t, s.tasks[t].(inScheduler := true), Held(i))
      .(threads := s.threads[i := Thread(pc', Push(t))])
  }

  /** The successful CAS of the front queue; only the first item is signaled. */
  ghost predicate PushStep(s: State, s': State, i: ThreadId) {
    i in s.threads && s.threads[i].op.Push? && s.threads[i].op.task in s.tasks &&
    var t := s.threads[i].op.task;
    s' == SetOp(s, i, if s.front == [] then SendFront(false) else Idle)
      .(front := s.front + [t], place := s.place[t := InFront])
  }

  function AfterSendFront(forLock: bool): Op {
    if forLock then LockWait else Idle
  }

  ghost predicate SendFrontStep(s: State, s': State, i: ThreadId) {
    i in s.threads && s.threads[i].op.SendFront? &&
    var forLock := s.threads[i].op.forLock;
    s' == if s.frontSignal == Empty
          then SetOp(s, i, FinishFront(forLock)).(frontSignal := Probe(i))
          else SetOp(s, i, AfterSendFront(forLock))
  }

  ghost predicate FinishFrontStep(s: State, s': State, i: ThreadId) {
    i in s.threads && s.threads[i].op.FinishFront? &&
    s' == SetOp(s, i, AfterSendFront(s.threads[i].op.forLock)).(frontSignal := Set)
  }

  ghost predicate WakeLoadStep(s: State, s': State, i: ThreadId, t: Task) {
    IsClient(s, i) && t in s.tasks &&
    s' == SetOp(s, i, Wake(t, s.tasks[t].status))
  }

  /**
   * The new task state is published by one atomic operation. If that took the
   * task out of WAITING, the thread owns the token and must push the task.
   */
  function Poke(s: State, i: ThreadId, t: Task, k: TaskState): State
    requires i in s.threads && t in s.tasks && t in s.place
  {
    var waiting := s.tasks[t].status == WAITING;
    SetOp(SetTask(s, t, k, if waiting then Held(i) else s.place[t]),
          i, if waiting then Push(t) else Idle)
    .(events := s.events + 1)
  }

  /** One turn of the weak CAS loop of PostWakeup. */
  ghost predicate WakeTryStep(s: State, s': State, i: ThreadId, spurious: bool) {
    i in s.threads && s.threads[i].op.Wake? && s.threads[i].op.task in s.tasks &&
    s.threads[i].op.task in s.place &&
    var t, seen := s.threads[i].op.task, s.threads[i].op.seen;
    var k := s.tasks[t];
    s' == if seen == SIGNALED || seen == READY then
            SetOp(s, i, Idle)
          else if k.status != seen || spurious then
            SetOp(s, i, Wake(t, k.status))
          else
            Poke(s, i, t, k.(status := READY, wokenAt := s.events + 1))
  }

  ghost predicate PostSignalStep(s: State, s': State, i: ThreadId, t: Task) {
    IsClient(s, i) && t in s.tasks && t in s.place &&
    s' == Poke(s, i, t, s.tasks[t].(status := SIGNALED, signaledAt := s.events + 1))
  }

  ghost predicate ReceiveSignalStep(s: State, s': State, i: ThreadId, t: Task) {
    IsClient(s, i) && Owns(s, i, t) &&
    var k := s.tasks[t];
    s' == if k.status == SIGNALED
          then s.(tasks := s.tasks[t := k.(status := PENDING, receivedAt := s.events + 1)],
                  events := s.events + 1)
          else s
  }

  ghost predicate SetDeadlineStep(s: State, s': State, i: ThreadId, t: Task, deadline: nat) {
    IsClient(s, i) && Owns(s, i, t) &&
    s' == s.(tasks := s.tasks[t := s.tasks[t].(deadline := deadline)])
  }

  // ------------------------------------------------------------------
  // Scheduler mutex, as specified by InterruptibleMutex

  ghost predicate LockStep(s: State, s': State, i: ThreadId) {
    IsClient(s, i) &&
    s' == if s.owner == Nobody then
            SetOp(s, i, LockHeld).(owner := Owner(i))
          else
            SetOp(s, i, if s.waiters == [] then SendFront(true) else LockWait)
            .(waiters := s.waiters + [i])
  }

  ghost predicate LockResumeStep(s: State, s': State, i: ThreadId) {
    i in s.threads && s.threads[i].op == LockWait && s.owner == Owner(i) &&
    s' == SetOp(s, i, LockHeld)
  }

  function Released(s: State): State {
    if s.waiters == [] then s.(owner := Nobody)
    else s.(owner := Owner(s.waiters[0]), waiters := s.waiters[1..])
  }

  ghost predicate UnlockStep(s: State, s': State, i: ThreadId) {
    i in s.threads && s.threads[i].op == LockHeld &&
    s' == SetOp(Released(s), i, SendReady)
  }

  ghost predicate SendReadyStep(s: State, s': State, i: ThreadId) {
    i in s.threads && s.threads[i].op == SendReady &&
    s' == if s.readySignal == Empty
          then SetOp(s, i, FinishReady).(readySignal := Probe(i))
          else SetOp(s, i, Idle)
  }

  ghost predicate FinishReadyStep(s: State, s': State, i: ThreadId) {
    i in s.threads && s.threads[i].op == FinishReady &&
    s' == SetOp(s, i, Idle).(readySignal := Set)
  }

  // ------------------------------------------------------------------
  // Scheduler role: TaskScheduler::PrivSchedule

  ghost predicate TryLockStep(s: State, s': State, i: ThreadId) {
    AtPc(s, i) && s.threads[i].pc == TryLock &&
    s' == if s.owner == Nobody && s.waiters == []
          then SetPc(s, i, ReadClock).(owner := Owner(i))
          else SetPc(s, i, Pop(0))
  }

  ghost predicate ReadClockStep(s: State, s': State, i: ThreadId) {
    AtPc(s, i) && s.threads[i].pc == ReadClock &&
    s' == SetPc(s, i, Expire(s.clock, 0))
  }

  predicate IsTop(s: State, t: Task) {
    t in s.heap && t in s.tasks &&
    forall u :: u in s.heap && u in s.tasks ==> s.tasks[t].deadline <= s.tasks[u].deadline
  }

  ghost predicate ExpireStep(s: State, s': State, i: ThreadId, t: Task) {
    AtPc(s, i) && s.threads[i].pc.Expire? && IsTop(s, t) &&
    s.threads[i].pc.batch + 1 < s.schedBatch &&
    s.tasks[t].deadline <= s.threads[i].pc.ts &&
    var pc := s.threads[i].pc;
    var k := s.tasks[t].(isExpired := true);
    var s1 := SetPc(s, i, Expire(pc.ts, pc.batch + 1)).(heap := s.heap - {t});
    s' == if k.status == WAITING
          then SetTask(s1, t, k.(status := READY, dispatchedAt := pc.ts), InLocal)
               .(local := s.local + [t])
          else s1.(tasks := s.tasks[t := k])
  }

  ghost predicate ExpireEndStep(s: State, s': State, i: ThreadId) {
    AtPc(s, i) && s.threads[i].pc.Expire? &&
    var pc := s.threads[i].pc;
    (s.heap == {} || pc.batch + 1 >= s.schedBatch ||
     (exists t :: IsTop(s, t) && s.tasks[t].deadline > pc.ts)) &&
    s' == SetPc(s, i, PopFront(pc.ts))
  }

  ghost predicate PopFrontStep(s: State, s': State, i: ThreadId) {
    AtPc(s, i) && s.threads[i].pc.PopFront? &&
    s' == SetPc(s, i, Dispatch(s.threads[i].pc.ts, 0))
      .(front := [], pending := s.pending + s.front,
        place := map t | t in s.place :: if s.place[t] == InFront then InPending else s.place[t])
  }

  ghost predicate DispatchStep(s: State, s': State, i: ThreadId) {
    AtPc(s, i) && s.threads[i].pc.Dispatch? &&
    s.pending != [] && s.threads[i].pc.batch + 1 < s.schedBatch &&
    s.pending[0] in s.tasks &&
    var ts, batch := s.threads[i].pc.ts, s.threads[i].pc.batch;
    var t := s.pending[0];
    var k := s.tasks[t];
    var s1 := SetPc(s, i, Dispatch(ts, batch + 1)).(pending := s.pending[1..]);
    s' == if ts < k.deadline && k.status == PENDING then
            SetTask(s1, t, k.(status := WAITING, isExpired := false), IsWaiting)
            .(heap := if k.deadline != TIME_INFINITE then s.heap + {t} else s.heap)
          else
            SetTask(s1, t,
                    k.(isExpired := ts >= k.deadline, dispatchedAt := ts,
                       status := if k.status == PENDING then READY else k.status), InLocal)
            .(heap := s.heap - {t}, local := s.local + [t])
  }

  ghost predicate DispatchEndStep(s: State, s': State, i: ThreadId) {
    AtPc(s, i) && s.threads[i].pc.Dispatch? &&
    (s.pending == [] || s.threads[i].pc.batch + 1 >= s.schedBatch) &&
    s' == SetPc(s, i, Flush)
  }

  ghost predicate FlushStep(s: State, s': State, i: ThreadId) {
    AtPc(s, i) && s.threads[i].pc == Flush &&
    s' == if s.local == [] then SetPc(s, i, Check)
          else s.(local := s.local[1..], ready := s.ready + [s.local[0]],
                  place := s.place[s.local[0] := InReady])
  }

  /**
   * The item count of the ready queue is never below the number of visible
   * items, but may exceed it while a consumer has not decremented it yet.
   */
  ghost predicate CheckStep(s: State, s': State, i: ThreadId, sawZero: bool) {
    AtPc(s, i) && s.threads[i].pc == Check && (sawZero ==> s.ready == []) &&
    s' == SetPc(s, i, if sawZero && s.pending == [] then Decide else Unlock)
  }

  ghost predicate DecideStep(s: State, s': State, i: ThreadId) {
    AtPc(s, i) && s.threads[i].pc == Decide &&
    if s.heap == {} then
      s' == SetPc(s, i, SleepFront)
    else
      exists t :: IsTop(s, t) &&
        s' == SetPc(s, i, if s.tasks[t].deadline > s.clock then SleepTimed(s.tasks[t].deadline)
                          else Unlock)
  }

  ghost predicate WakeUpStep(s: State, s': State, i: ThreadId, timeout: bool) {
    AtPc(s, i) && (s.threads[i].pc.SleepTimed? || s.threads[i].pc.SleepFront?) &&
    (timeout ==> s.threads[i].pc.SleepTimed?) && (!timeout ==> s.frontSignal == Set) &&
    s' == SetPc(s, i, Unlock).(frontSignal := if timeout then s.frontSignal else Empty)
  }

  ghost predicate SchedulerUnlockStep(s: State, s': State, i: ThreadId) {
    AtPc(s, i) && s.threads[i].pc == Unlock &&
    s' == Released(s).(threads := s.threads[i := Thread(Pop(0), SendReady)])
  }

  // ------------------------------------------------------------------
  // Worker role: TaskSchedulerThread::Run and PrivExecute

  ghost predicate PopStep(s: State, s': State, i: ThreadId) {
    AtPc(s, i) && s.threads[i].pc.Pop? &&
    s' == if s.ready == [] then SetPc(s, i, WaitReady)
          else SetPc(s, i, Got(s.ready[0], s.threads[i].pc.batch))
               .(ready := s.ready[1..], place := s.place[s.ready[0] := Running(i)])
  }

  ghost predicate StartStep(s: State, s': State, i: ThreadId) {
    AtPc(s, i) && s.threads[i].pc.Got? && s.threads[i].pc.task in s.tasks &&
    var t := s.threads[i].pc.task;
    var k := s.tasks[t];
    s' == SetPc(s, i, Body(t, s.threads[i].pc.batch))
      .(tasks := s.tasks[t := k.(inScheduler := false, deadline := 0, startedAt := s.events + 1,
                                 status := if k.status == READY then PENDING else k.status)],
        events := s.events + 1)
  }

  /** The body ends without re-posting; the task belongs to whoever keeps it. */
  ghost predicate FinishStep(s: State, s': State, i: ThreadId) {
    AtPc(s, i) && s.threads[i].pc.Body? &&
    s' == SetPc(s, i, Tail(s.threads[i].pc.batch))
      .(place := s.place[s.threads[i].pc.task := Outside])
  }

  ghost predicate NextStep(s: State, s': State, i: ThreadId) {
    AtPc(s, i) && s.threads[i].pc.Tail? &&
    var batch := s.threads[i].pc.batch + 1;
    s' == SetPc(s, i, if batch < s.execBatch then Pop(batch) else TryLock)
  }

  ghost predicate WaitReadyStep(s: State, s': State, i: ThreadId) {
    AtPc(s, i) && s.threads[i].pc == WaitReady && s.readySignal == Set &&
    s' == SetPc(s, i, TryLock).(readySignal := Empty)
  }

  ghost predicate TickStep(s: State, s': State, now: nat) {
    now >= s.clock && s' == s.(clock := now)
  }

  ghost predicate Next(s: State, s': State, a: Action) {
    match a
    case ActPost(i, t) => PostStep(s, s', i, t)
    case ActPush(i) => PushStep(s, s', i)
    case ActSendFront(i) => SendFrontStep(s, s', i)
    case ActFinishFront(i) => FinishFrontStep(s, s', i)
    case ActWakeLoad(i, t) => WakeLoadStep(s, s', i, t)
    case ActWakeTry(i, spurious) => WakeTryStep(s, s', i, spurious)
    case ActPostSignal(i, t) => PostSignalStep(s, s', i, t)
    case ActReceiveSignal(i, t) => ReceiveSignalStep(s, s', i, t)
    case ActSetDeadline(i, t, d) => SetDeadlineStep(s, s', i, t, d)
    case ActLock(i) => LockStep(s, s', i)
    case ActLockResume(i) => LockResumeStep(s, s', i)
    case ActUnlock(i) => UnlockStep(s, s', i)
    case ActSendReady(i) => SendReadyStep(s, s', i)
    case ActFinishReady(i) => FinishReadyStep(s, s', i)
    case ActTryLock(i) => TryLockStep(s, s', i)
    case ActReadClock(i) => ReadClockStep(s, s', i)
    case ActExpire(i, t) => ExpireStep(s, s', i, t)
    case ActExpireEnd(i) => ExpireEndStep(s, s', i)
    case ActPopFront(i) => PopFrontStep(s, s', i)
    case ActDispatch(i) => DispatchStep(s, s', i)
    case ActDispatchEnd(i) => DispatchEndStep(s, s', i)
    case ActFlush(i) => FlushStep(s, s', i)
    case ActCheck(i, sawZero) => CheckStep(s, s', i, sawZero)
    case ActDecide(i) => DecideStep(s, s', i)
    case ActWakeUp(i, timeout) => WakeUpStep(s, s', i, timeout)
    case ActSchedulerUnlock(i) => SchedulerUnlockStep(s, s', i)
    case ActTick(now) => TickStep(s, s', now)
    case ActPop(i) => PopStep(s, s', i)
    case ActStart(i) => StartStep(s, s', i)
    case ActFinish(i) => FinishStep(s, s', i)
    case ActNext(i) => NextStep(s, s', i)
    case ActWaitReady(i) => WaitReadyStep(s, s', i)
  }

  /** Nothing posted yet, workers about to start, any set of tasks owned by the users. */
  ghost predicate Init(s: State) {
    && s.place.Keys == s.tasks.Keys
    && (forall t :: t in s.tasks ==>
          s.tasks[t] == TaskState(PENDING, s.tasks[t].deadline, false, false, 0, 0, 0, 0, 0) &&
          s.place[t] == Outside)
    && s.front == [] && s.pending == [] && s.heap == {} && s.local == [] && s.ready == []
    && s.owner == Nobody && s.waiters == []
    && s.frontSignal == Empty && s.readySignal == Empty && s.events == 0
    && (forall i :: i in s.threads ==>
          s.threads[i].op == Idle && (s.threads[i].pc.NotWorker? || s.threads[i].pc.TryLock?))
    && (exists i :: i in s.threads && s.threads[i].pc.TryLock?)
    && s.execBatch > 0
  }
}
