/** How much one pass of the scheduler role does: the batch limit of TaskScheduler::PrivSchedule. */
module TaskSchedulerBatches {
  import opened TaskScheduler
  import opened TaskSchedulerSafety
  import opened TaskSchedulerRuns

  predicate Expires(a: Action, i: ThreadId) {
    a.ActExpire? && a.i == i
  }

  predicate Dispatches(a: Action, i: ThreadId) {
    a.ActDispatch? && a.i == i
  }

  /** How many tasks thread `i` took from the heap by the actions `from..to`. */
  function Expired(acts: seq<Action>, i: ThreadId, from: nat, to: nat): nat
    requires from <= to <= |acts|
  {
    if from == to then 0 else Expired(acts, i, from, to - 1) + if Expires(acts[to - 1], i) then 1 else 0
  }

  /** How many tasks thread `i` took from the pending queue by the actions `from..to`. */
  function Dispatched(acts: seq<Action>, i: ThreadId, from: nat, to: nat): nat
    requires from <= to <= |acts|
  {
    if from == to then 0 else Dispatched(acts, i, from, to - 1) + if Dispatches(acts[to - 1], i) then 1 else 0
  }

  /** What `++batch < maxBatch` lets through. */
  function Limit(s: State): nat {
    if s.schedBatch == 0 then 0 else s.schedBatch - 1
  }

  // ------------------------------------------------------------------
  // The batch counters of one thread

  ghost predicate PcMoves(s: State, s': State, a: Action, i: ThreadId)
    requires i in s.threads && i in s'.threads
  {
    var pc, pc' := s.threads[i].pc, s'.threads[i].pc;
    if a == ActReadClock(i) then
      pc'.Expire? && pc'.batch == 0 && pc'.ts == s.clock
    else if a == ActPopFront(i) then
      pc.PopFront? && pc'.Dispatch? && pc'.batch == 0 && pc'.ts == pc.ts
    else if Expires(a, i) then
      pc.Expire? && pc'.Expire? && pc'.batch == pc.batch + 1 <= Limit(s) && pc'.ts == pc.ts
    else if Dispatches(a, i) then
      && pc.Dispatch? && pc'.Dispatch? && pc'.batch == pc.batch + 1 <= Limit(s) && pc'.ts == pc.ts
      && s.pending != [] && s'.pending == s.pending[1..]
    else
      || pc' == pc
      || (&& !pc'.Expire? && !pc'.Dispatch? && (pc'.PopFront? ==> pc.Expire? && pc'.ts == pc.ts)
          && (HasTask(pc') ==> HasTask(pc) || s.ready != []))
  }

  lemma ClientPc(s: State, s': State, a: Action)
    requires Next(s, s', a) && IsClientAction(a)
    ensures a.i in s.threads && a.i in s'.threads && PcMoves(s, s', a, a.i)
  {}

  lemma LockPc(s: State, s': State, a: Action)
    requires Next(s, s', a) && IsLockAction(a) && ByClient(a) && !a.ActTick?
    ensures a.i in s.threads && a.i in s'.threads && PcMoves(s, s', a, a.i)
  {}

  lemma RolePc(s: State, s': State, a: Action)
    requires Next(s, s', a) && IsLockAction(a) && !ByClient(a)
    ensures a.i in s.threads && a.i in s'.threads && PcMoves(s, s', a, a.i)
  {}

  lemma PassPc(s: State, s': State, a: Action)
    requires Next(s, s', a) && IsPassAction(a)
    ensures a.i in s.threads && a.i in s'.threads && PcMoves(s, s', a, a.i)
  {}

  lemma WorkPc(s: State, s': State, a: Action)
    requires Next(s, s', a) && !IsPassAction(a) && !IsClientAction(a) && !IsLockAction(a)
    ensures a.i in s.threads && a.i in s'.threads && PcMoves(s, s', a, a.i)
  {}

  lemma PcStep(s: State, s': State, a: Action, i: ThreadId)
    requires Next(s, s', a) && (i in s.threads || i in s'.threads)
    ensures i in s.threads && i in s'.threads && PcMoves(s, s', a, i)
  {
    if a.ActTick? || a.i != i {
      MovesAlone(s, s', a, i);
    } else if IsClientAction(a) {
      ClientPc(s, s', a);
    } else if IsLockAction(a) {
      if ByClient(a) {
        LockPc(s, s', a);
      } else {
        RolePc(s, s', a);
      }
    } else if IsPassAction(a) {
      PassPc(s, s', a);
    } else {
      WorkPc(s, s', a);
    }
  }

  lemma SameBatch(s: State, s': State, a: Action)
    requires Next(s, s', a)
    ensures s'.schedBatch == s.schedBatch
  {
    if ByClient(a) {
      ClientSameBatch(s, s', a);
    }
  }

  lemma ClientSameBatch(s: State, s': State, a: Action)
    requires Next(s, s', a) && ByClient(a)
    ensures s'.schedBatch == s.schedBatch
  {}

  lemma OneRole(s: State, i: ThreadId, j: ThreadId)
    requires Inv(s) && i in s.threads && j in s.threads && InRole(s.threads[i].pc) && InRole(s.threads[j].pc)
    ensures i == j
  {
    assert ThreadOk(s, i) && ThreadOk(s, j);
  }

  /** The pending queue belongs to the scheduler role. */
  lemma PendingKept(s: State, s': State, a: Action, i: ThreadId)
    requires Inv(s) && Next(s, s', a) && i in s.threads && InRole(s.threads[i].pc)
    requires !Dispatches(a, i) && a != ActPopFront(i)
    ensures s'.pending == s.pending
  {
    if ByClient(a) {
      ClientLeavesQueues(s, s', a);
    } else if a.ActDispatch? || a.ActPopFront? {
      OneRole(s, i, a.i);
    }
  }

  // ------------------------------------------------------------------
  // One pass

  predicate Progress(pc: Pc, ts: nat, expired: nat, dispatched: nat, limit: nat) {
    && expired <= limit && dispatched <= limit
    && (pc.Expire? || pc.PopFront? || pc.Dispatch? ==> pc.ts == ts)
    && (pc.Expire? ==> expired == pc.batch && dispatched == 0)
    && (pc.PopFront? ==> dispatched == 0)
    && (pc.Dispatch? ==> dispatched == pc.batch)
  }

  /**
   * From the start of a pass to any moment before the thread's next one: both loops stay below the limit, and
   * the timestamp is the clock at the start.
   */
  lemma {:induction false} PassBound(states: seq<State>, acts: seq<Action>, i: ThreadId, from: nat, to: nat)
    requires IsRun(states, acts) && from < to <= |acts|
    requires acts[from] == ActReadClock(i) && forall n :: from < n < to ==> acts[n] != ActReadClock(i)
    ensures i in states[to].threads && Limit(states[to]) == Limit(states[from])
    ensures Progress(states[to].threads[i].pc, states[from].clock, Expired(acts, i, from, to),
                     Dispatched(acts, i, from, to), Limit(states[from]))
  {
    assert StepAt(states, acts, to - 1);
    if from + 1 < to {
      PassBound(states, acts, i, from, to - 1);
    }
    PcStep(states[to - 1], states[to], acts[to - 1], i);
    SameBatch(states[to - 1], states[to], acts[to - 1]);
  }

  /** The loop over the pending queue took `pc.batch` of the tasks `all`. */
  ghost predicate Dispatching(s: State, i: ThreadId, all: seq<Task>, dispatched: nat, limit: nat) {
    && i in s.threads && Limit(s) == limit
    && var pc := s.threads[i].pc;
      pc.Dispatch? ==> pc.batch == dispatched <= limit && dispatched <= |all| && s.pending == all[dispatched..]
  }

  lemma DispatchingKept(s: State, s': State, a: Action, i: ThreadId, all: seq<Task>, dispatched: nat, limit: nat)
    requires Inv(s) && Next(s, s', a) && a != ActPopFront(i) && Dispatching(s, i, all, dispatched, limit)
    ensures Dispatching(s', i, all, dispatched + if Dispatches(a, i) then 1 else 0, limit)
  {
    PcStep(s, s', a, i);
    SameBatch(s, s', a);
    if s'.threads[i].pc.Dispatch? && !Dispatches(a, i) {
      PendingKept(s, s', a, i);
    }
  }

  lemma {:induction false} DispatchProgress(states: seq<State>, acts: seq<Action>, i: ThreadId, from: nat, to: nat)
    requires IsRun(states, acts) && from < to <= |acts|
    requires acts[from] == ActPopFront(i) && forall n :: from < n < to ==> acts[n] != ActPopFront(i)
    ensures Dispatching(states[to], i, states[from + 1].pending, Dispatched(acts, i, from, to), Limit(states[from]))
  {
    assert StepAt(states, acts, to - 1);
    if from + 1 < to {
      DispatchProgress(states, acts, i, from, to - 1);
      RunInv(states, acts, to - 1);
      DispatchingKept(states[to - 1], states[to], acts[to - 1], i, states[from + 1].pending,
                      Dispatched(acts, i, from, to - 1), Limit(states[from]));
    } else {
      PcStep(states[from], states[to], acts[from], i);
      SameBatch(states[from], states[to], acts[from]);
    }
  }

  /**
   * A pass which got `all` pending tasks dispatches the first ones of them, exactly as many as there are or
   * as the limit allows. The rest stays pending.
   */
  lemma DispatchExact(states: seq<State>, acts: seq<Action>, i: ThreadId, from: nat, to: nat)
    requires IsRun(states, acts) && from < to < |acts|
    requires acts[from] == ActPopFront(i) && forall n :: from < n < to ==> acts[n] != ActPopFront(i)
    requires acts[to] == ActDispatchEnd(i)
    ensures var all, done, limit := states[from + 1].pending, Dispatched(acts, i, from, to), Limit(states[from]);
      && done == (if |all| <= limit then |all| else limit)
      && states[to].pending == all[done..]
  {
    DispatchProgress(states, acts, i, from, to);
    assert StepAt(states, acts, to);
  }

  /** A pass over a non-empty pending queue dispatches something if and only if the batch is at least 2. */
  lemma HandlesSome(states: seq<State>, acts: seq<Action>, i: ThreadId, from: nat, to: nat)
    requires IsRun(states, acts) && from < to < |acts|
    requires acts[from] == ActPopFront(i) && forall n :: from < n < to ==> acts[n] != ActPopFront(i)
    requires acts[to] == ActDispatchEnd(i) && states[from + 1].pending != []
    ensures Dispatched(acts, i, from, to) > 0 <==> states[from].schedBatch >= 2
    ensures states[from].schedBatch == 1 ==> states[to].pending == states[from + 1].pending
  {
    DispatchExact(states, acts, i, from, to);
  }

  /** At the start of the loop over the heap a due task is taken if and only if the batch is at least 2. */
  lemma ExpiresSome(s: State, i: ThreadId, t: Task)
    requires AtPc(s, i) && s.threads[i].pc.Expire? && s.threads[i].pc.batch == 0
    requires IsTop(s, t) && s.tasks[t].deadline <= s.threads[i].pc.ts
    ensures (exists s' :: ExpireStep(s, s', i, t)) <==> s.schedBatch >= 2
    ensures (exists s' :: ExpireEndStep(s, s', i)) <==> s.schedBatch <= 1
  {
    var pc := s.threads[i].pc;
    var k := s.tasks[t].(isExpired := true);
    var s1 := SetPc(s, i, Expire(pc.ts, pc.batch + 1)).(heap := s.heap - {t});
    var taken :=
      if k.status == WAITING then
        SetTask(s1, t, k.(status := READY, dispatchedAt := pc.ts), InLocal).(local := s.local + [t])
      else
        s1.(tasks := s.tasks[t := k]);
    if s.schedBatch >= 2 {
      assert ExpireStep(s, taken, i, t);
    } else {
      assert ExpireEndStep(s, SetPc(s, i, PopFront(pc.ts)), i);
    }
  }

  // ------------------------------------------------------------------
  // A batch of 1

  predicate NothingRuns(s: State) {
    s.local == [] && s.ready == [] && forall i :: i in s.threads ==> !HasTask(s.threads[i].pc)
  }

  lemma NothingQueued(s: State, s': State, a: Action)
    requires s.schedBatch <= 1 && NothingRuns(s) && Next(s, s', a) && !ByClient(a)
    ensures s'.local == [] && s'.ready == [] && !a.ActExpire? && !a.ActDispatch? && !a.ActStart?
  {}

  lemma NothingRunsStep(s: State, s': State, a: Action)
    requires s.schedBatch <= 1 && NothingRuns(s) && Next(s, s', a)
    ensures s'.schedBatch == s.schedBatch && NothingRuns(s')
    ensures !a.ActExpire? && !a.ActDispatch? && !a.ActStart?
  {
    SameBatch(s, s', a);
    if ByClient(a) {
      ClientLeavesQueues(s, s', a);
    } else {
      NothingQueued(s, s', a);
    }
    forall i | i in s'.threads
      ensures !HasTask(s'.threads[i].pc)
    {
      PcStep(s, s', a, i);
    }
  }

  /** With a batch of 1 no task is ever taken, dispatched or executed, in any run. */
  lemma {:induction false} BatchOfOne(states: seq<State>, acts: seq<Action>, n: nat)
    requires IsRun(states, acts) && n < |states| && states[0].schedBatch <= 1
    ensures states[n].schedBatch <= 1 && NothingRuns(states[n])
    ensures n < |acts| ==> !acts[n].ActExpire? && !acts[n].ActDispatch? && !acts[n].ActStart?
  {
    if n > 0 {
      BatchOfOne(states, acts, n - 1);
      assert StepAt(states, acts, n - 1);
      NothingRunsStep(states[n - 1], states[n], acts[n - 1]);
    }
    if n < |acts| {
      assert StepAt(states, acts, n);
      NothingRunsStep(states[n], states[n + 1], acts[n]);
    }
  }

  // A run with a batch of 1: thread 1 posts task 0, the pass of worker 0 leaves it pending.

  function LazyTask(inScheduler: bool): TaskState {
    TaskState(PENDING, 0, false, inScheduler, 0, 0, 0, 0, 0)
  }

  function LazyState(pc: Pc, op: Op, place: Place, front: seq<Task>, pending: seq<Task>, owner: Owner): State {
    State(map[0 := LazyTask(place != Outside)], map[0 := place], front, pending, {}, [], [], owner, [], Empty, Empty,
          0, 0, map[0 := Thread(pc, Idle), 1 := Thread(NotWorker, op)], 1, 1)
  }

  /** The states of worker 0 while its pass has the posted task in the front queue. */
  function InPass(pc: Pc): State {
    LazyState(pc, SendFront(false), InFront, [0], [], if pc == TryLock then Nobody else Owner(0))
  }

  /** ... and in the pending queue. */
  function AfterPass(pc: Pc): State {
    LazyState(pc, SendFront(false), InPending, [], [0], Owner(0))
  }

  lemma LazyPost()
    ensures PostStep(LazyState(TryLock, Idle, Outside, [], [], Nobody),
                     LazyState(TryLock, Push(0), Held(1), [], [], Nobody), 1, 0)
  {
    var s := LazyState(TryLock, Idle, Outside, [], [], Nobody);
    var s' := LazyState(TryLock, Push(0), Held(1), [], [], Nobody);
    assert s'.tasks == s.tasks[0 := LazyTask(true)] && s'.place == s.place[0 := Held(1)];
    assert s'.threads == s.threads[1 := Thread(NotWorker, Push(0))];
  }

  lemma LazyPush()
    ensures PushStep(LazyState(TryLock, Push(0), Held(1), [], [], Nobody), InPass(TryLock), 1)
  {
    var s, s' := LazyState(TryLock, Push(0), Held(1), [], [], Nobody), InPass(TryLock);
    assert s'.place == s.place[0 := InFront] && s'.threads == s.threads[1 := Thread(NotWorker, SendFront(false))];
  }

  lemma LazyMove(pc: Pc, pc': Pc)
    ensures InPass(pc').threads == InPass(pc).threads[0 := Thread(pc', Idle)]
    ensures AfterPass(pc').threads == AfterPass(pc).threads[0 := Thread(pc', Idle)]
  {}

  lemma LazyPass()
    ensures TryLockStep(InPass(TryLock), InPass(ReadClock), 0)
    ensures ReadClockStep(InPass(ReadClock), InPass(Expire(0, 0)), 0)
    ensures ExpireEndStep(InPass(Expire(0, 0)), InPass(PopFront(0)), 0)
    ensures DispatchEndStep(AfterPass(Dispatch(0, 0)), AfterPass(Flush), 0)
  {
    LazyMove(TryLock, ReadClock);
    LazyMove(ReadClock, Expire(0, 0));
    LazyMove(Expire(0, 0), PopFront(0));
    LazyMove(Dispatch(0, 0), Flush);
  }

  lemma LazyPopFront()
    ensures PopFrontStep(InPass(PopFront(0)), AfterPass(Dispatch(0, 0)), 0)
  {
    var s, s' := InPass(PopFront(0)), AfterPass(Dispatch(0, 0));
    assert s'.threads == s.threads[0 := Thread(Dispatch(0, 0), Idle)];
  }

  lemma Extended(states: seq<State>, acts: seq<Action>, s': State, a: Action)
    requires IsRun(states, acts) && Next(states[|acts|], s', a)
    ensures IsRun(states + [s'], acts + [a])
  {
    forall n | 0 <= n < |acts + [a]|
      ensures StepAt(states + [s'], acts + [a], n)
    {
      if n < |acts| {
        assert StepAt(states, acts, n);
      }
    }
  }

  lemma LazyPosted() returns (states: seq<State>, acts: seq<Action>)
    ensures IsRun(states, acts) && |acts| == 2 && states[2] == InPass(TryLock)
  {
    LazyPost();
    LazyPush();
    var s0 := LazyState(TryLock, Idle, Outside, [], [], Nobody);
    assert s0.threads[0].pc.TryLock?;
    Extended([s0], [], LazyState(TryLock, Push(0), Held(1), [], [], Nobody), ActPost(1, 0));
    states, acts := [s0] + [LazyState(TryLock, Push(0), Held(1), [], [], Nobody)], [] + [ActPost(1, 0)];
    Extended(states, acts, InPass(TryLock), ActPush(1));
    states, acts := states + [InPass(TryLock)], acts + [ActPush(1)];
  }

  lemma LazyExpired() returns (states: seq<State>, acts: seq<Action>)
    ensures IsRun(states, acts) && |acts| == 5 && states[5] == InPass(PopFront(0))
  {
    states, acts := LazyPosted();
    LazyPass();
    Extended(states, acts, InPass(ReadClock), ActTryLock(0));
    states, acts := states + [InPass(ReadClock)], acts + [ActTryLock(0)];
    Extended(states, acts, InPass(Expire(0, 0)), ActReadClock(0));
    states, acts := states + [InPass(Expire(0, 0))], acts + [ActReadClock(0)];
    Extended(states, acts, InPass(PopFront(0)), ActExpireEnd(0));
    states, acts := states + [InPass(PopFront(0))], acts + [ActExpireEnd(0)];
  }

  lemma BatchOfOneStarves() returns (states: seq<State>, acts: seq<Action>)
    ensures IsRun(states, acts) && |acts| == 7 && acts[5] == ActPopFront(0) && acts[6] == ActDispatchEnd(0)
    ensures states[7].schedBatch == 1 && states[7].pending == [0] && states[7].local == []
  {
    states, acts := LazyExpired();
    LazyPopFront();
    LazyPass();
    Extended(states, acts, AfterPass(Dispatch(0, 0)), ActPopFront(0));
    states, acts := states + [AfterPass(Dispatch(0, 0))], acts + [ActPopFront(0)];
    Extended(states, acts, AfterPass(Flush), ActDispatchEnd(0));
    states, acts := states + [AfterPass(Flush)], acts + [ActDispatchEnd(0)];
  }
}
