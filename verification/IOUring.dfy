/**
 * The life of one task in the io_uring core (src/mg/aio/IOCore_iouring.cpp, IOTask_iouring.cpp,
 * IOTask.cpp, IOCore.cpp): its status, its operations and its closing, under all interleavings of
 * the scheduler, the workers, the kernel, and threads which wake the task up or close it.
 *
 * A place which may hold the task is a counter, so that "the task is in one place" is proved, not built in.
 */
module IOUring {
  datatype Status = PENDING | READY | WAITING | CLOSING | CLOSED

  /** An entry of the submission list: an operation of the task or its cancellation. */
  datatype Entry = Operation | Cancel

  /** What the scheduler is doing with it. */
  datatype Scheduler =
    | Idle
    | Completed(cancel: bool)  // A completion is in the pending events, the status is not looked at yet.
    | Cancelled                // PrivCloseDo() is done, after the last completion.
    | Popped                   // Taken from the pending queue.
    | PoppedClosed             // PrivCloseDo() is done, without a cancellation.

  datatype Task = Task(
    status: Status, guard: bool, isClosed: bool, hasSocket: bool, isInQueues: bool, inHeap: bool,
    // myOperationCount, and the places of the operations it counts.
    operationCount: int, unsubmitted: nat, toSubmit: seq<Entry>, kernel: nat, kernelCancel: bool,
    pendingCount: nat, readyCount: nat, cancelLocked: bool,
    // Places of the task, in the threads which do not need more than their number.
    unposted: nat, front: nat, pendingQueue: nat, readyList: nat, readyQueue: nat, cancelling: nat,
    wakers: nat, guards: nat, closers: nat,
    popped: nat, running: nat, closing: nat, reviving: nat, reposting: nat, gone: nat,
    scheduler: Scheduler,
    // How many times the task was given to its owner as closed since it was posted.
    closedRuns: nat)

  datatype Action =
    | Post(socket: bool)
    | Wakeup | WakerPush
    | CloseStart | CloseExchange | CloserPush
    | PopFront | TakePending | FrontCas(expired: bool, finite: bool) | FrontClose
    | Complete(cancel: bool) | KernelCas | KernelClose
    | Expire | Flush | Submit
    | WorkerPop | WorkerExecute | OperationStart | AttachSocket | WorkerReturn
    | ClosedEnd | Reuse | ReuseUnguard | ReusePost(socket: bool)

  predicate Init(s: Task) {
    && s.status == PENDING && !s.guard && !s.isClosed && !s.hasSocket && !s.isInQueues && !s.inHeap
    && s.operationCount == s.unsubmitted == s.kernel == s.pendingCount == s.readyCount == 0
    && s.toSubmit == [] && !s.kernelCancel && !s.cancelLocked
    && s.unposted == 1 && s.front == s.pendingQueue == s.readyList == s.readyQueue == s.cancelling == 0
    && s.wakers == s.guards == s.closers == 0
    && s.popped == s.running == s.closing == s.reviving == s.reposting == s.gone == 0
    && s.scheduler == Idle && s.closedRuns == 0
  }

  predicate Enabled(s: Task, a: Action) {
    match a
    case Post(_) => s.unposted > 0
    case Wakeup => s.status == WAITING || s.status == PENDING
    case WakerPush => s.wakers > 0
    case CloseStart => !s.guard
    case CloseExchange => s.guards > 0
    case CloserPush => s.closers > 0
    case PopFront => s.front > 0 && s.scheduler == Idle
    case TakePending => s.pendingQueue > 0 && s.scheduler == Idle
    case FrontCas(_, _) => s.scheduler == Popped
    case FrontClose => s.scheduler == PoppedClosed
    case Complete(cancel) =>
      && s.scheduler == Idle
      && if cancel then s.kernelCancel && s.kernel > 0 else s.kernel > if s.kernelCancel then 1 else 0
    case KernelCas => s.scheduler.Completed?
    case KernelClose => s.scheduler == Cancelled
    case Expire => s.inHeap && s.scheduler == Idle
    case Flush => s.readyList > 0 && s.scheduler == Idle
    case Submit => s.toSubmit != [] && s.scheduler == Idle
    case WorkerPop => s.readyQueue > 0
    case WorkerExecute => s.popped > 0
    case OperationStart => s.running > 0 && s.hasSocket
    case AttachSocket => s.running > 0 && !s.hasSocket
    case WorkerReturn => s.running > 0
    case ClosedEnd => s.closing > 0
    case Reuse => s.closing > 0 && s.status == CLOSED
    case ReuseUnguard => s.reviving > 0
    case ReusePost(_) => s.reposting > 0
  }

  /** The task goes to the local ready list with its pending events. */
  function ToReady(s: Task): Task {
    s.(readyCount := s.pendingCount, pendingCount := 0, readyList := s.readyList + 1, inHeap := false)
  }

  /** PrivCloseDo(). */
  function CloseDo(s: Task): Task {
    s.(isClosed := true, hasSocket := false)
  }

  /** The compare-exchange of the kernel phase, and what follows up to the next atomic operation. */
  function DoKernelCas(s: Task): Task {
    var t := s.(scheduler := Idle);
    if s.status == WAITING then ToReady(t.(status := READY))
    else if s.status == PENDING || s.status == READY then t
    else if !s.cancelLocked then t
    else if s.operationCount > s.pendingCount then t
    else CloseDo(s).(scheduler := Cancelled, cancelling := if s.cancelling > 0 then s.cancelling - 1 else 0)
  }

  /** The compare-exchange of the front phase, and what follows up to the next atomic operation. */
  function DoFrontCas(s: Task, expired: bool, finite: bool): Task {
    var t := s.(scheduler := Idle);
    if s.pendingCount == 0 && !expired && s.status == PENDING then
      t.(status := WAITING, inHeap := s.inHeap || finite)
    else if s.status == CLOSING then
      if s.pendingCount == s.operationCount then CloseDo(s).(scheduler := PoppedClosed, inHeap := false)
      else
        t.(inHeap := false, cancelLocked := true, operationCount := s.operationCount + 1,
           toSubmit := s.toSubmit + [Cancel], cancelling := s.cancelling + 1)
    else
      ToReady(if s.status == PENDING then t.(status := READY) else t)
  }

  /** The compare-exchange of IOCore::PrivExecute() and the beginning of IOTask::PrivExecute(). */
  function DoExecute(s: Task): Task
    requires s.popped > 0
  {
    var t := s.(status := if s.status == READY then PENDING else s.status, popped := s.popped - 1,
                operationCount := s.operationCount - s.readyCount, readyCount := 0);
    if s.isClosed then t.(closing := s.closing + 1, cancelLocked := false, closedRuns := s.closedRuns + 1)
    else t.(running := s.running + 1)
  }

  function Do(s: Task, a: Action): Task
    requires Enabled(s, a)
  {
    match a
    case Post(socket) =>
      s.(unposted := s.unposted - 1, front := s.front + 1, isInQueues := true, hasSocket := socket)
    case Wakeup =>
      if s.status == WAITING then s.(status := READY, wakers := s.wakers + 1) else s.(status := READY)
    case WakerPush => s.(wakers := s.wakers - 1, front := s.front + 1)
    case CloseStart => s.(guard := true, guards := s.guards + 1)
    case CloseExchange =>
      s.(status := CLOSING, guards := s.guards - 1, closers := s.closers + if s.status == WAITING then 1 else 0)
    case CloserPush => s.(closers := s.closers - 1, front := s.front + 1)
    case PopFront => s.(pendingQueue := s.pendingQueue + s.front, front := 0)
    case TakePending =>
      s.(pendingQueue := s.pendingQueue - 1, scheduler := Popped,
         toSubmit := s.toSubmit + seq(s.unsubmitted, _ => Operation), unsubmitted := 0)
    case FrontCas(expired, finite) => DoFrontCas(s, expired, finite)
    case FrontClose => ToReady(s.(status := CLOSED, scheduler := Idle))
    case Complete(cancel) =>
      s.(kernel := s.kernel - 1, kernelCancel := s.kernelCancel && !cancel, pendingCount := s.pendingCount + 1,
         scheduler := Completed(cancel))
    case KernelCas => DoKernelCas(s)
    case KernelClose => ToReady(s.(status := CLOSED, scheduler := Idle))
    case Expire =>
      if s.status == WAITING then s.(status := READY, readyList := s.readyList + 1, inHeap := false)
      else s.(inHeap := false)
    case Flush => s.(readyQueue := s.readyQueue + s.readyList, readyList := 0)
    case Submit =>
      s.(toSubmit := s.toSubmit[1..], kernel := s.kernel + 1, kernelCancel := s.kernelCancel || s.toSubmit[0] == Cancel)
    case WorkerPop => s.(readyQueue := s.readyQueue - 1, popped := s.popped + 1, isInQueues := false)
    case WorkerExecute => DoExecute(s)
    case OperationStart => s.(operationCount := s.operationCount + 1, unsubmitted := s.unsubmitted + 1)
    case AttachSocket => s.(hasSocket := true)
    case WorkerReturn => s.(running := s.running - 1, front := s.front + 1, isInQueues := true)
    case ClosedEnd => s.(closing := s.closing - 1, gone := s.gone + 1)
    case Reuse =>
      s.(closing := s.closing - 1, reviving := s.reviving + 1, status := PENDING, isClosed := false, closedRuns := 0)
    case ReuseUnguard => s.(reviving := s.reviving - 1, reposting := s.reposting + 1, guard := false)
    case ReusePost(socket) =>
      s.(reposting := s.reposting - 1, front := s.front + 1, isInQueues := true, hasSocket := socket)
  }

  /** The assertions of the code on the way of an action. */
  predicate Asserts(s: Task, a: Action) {
    match a
    case Post(socket) => !s.isInQueues && !s.isClosed && !s.hasSocket && Registers(s, socket)
    case WakerPush => s.isInQueues
    case CloserPush => s.isInQueues
    case CloseExchange => s.status == PENDING || s.status == READY || s.status == WAITING
    case TakePending => s.readyCount == 0
    case FrontCas(expired, finite) =>
      && s.status != CLOSED && s.status != WAITING
      && (s.status == PENDING && s.pendingCount == 0 && !expired && !finite ==> !s.inHeap)
      && (s.status == CLOSING ==> !s.cancelLocked)
      && (s.status == CLOSING && s.pendingCount == s.operationCount ==> s.guard && !s.isClosed)
      && (s.status == CLOSING && s.pendingCount != s.operationCount ==> s.hasSocket)
    case FrontClose => s.status == CLOSING && s.readyCount == 0
    case KernelCas =>
      && s.scheduler.Completed? && s.status != CLOSED
      && (s.scheduler.cancel ==> s.status == CLOSING && s.cancelLocked)
      && (s.status == WAITING ==> s.readyCount == 0)
      && (s.status == CLOSING && s.cancelLocked && s.operationCount <= s.pendingCount ==>
            s.operationCount == s.pendingCount && s.guard && !s.isClosed)
    case KernelClose => s.status == CLOSING && s.readyCount == 0
    case Expire => s.status != CLOSED && s.status != PENDING && (s.status == WAITING ==> s.pendingCount == 0)
    case Flush => !s.inHeap
    case WorkerPop => s.isInQueues
    case WorkerExecute =>
      && s.status != PENDING && 0 <= s.readyCount <= s.operationCount
      && (s.isClosed ==>
            s.status == CLOSED && s.pendingCount == 0 && s.unsubmitted == 0 && s.operationCount == s.readyCount)
    case AttachSocket => Registers(s, true)
    case WorkerReturn => !s.isInQueues
    case Reuse => s.isClosed && !s.hasSocket
    case ReuseUnguard => s.guard
    case ReusePost(socket) => !s.isInQueues && Registers(s, socket)
    case _ => true
  }

  /** PrivKernelRegister() */
  predicate Registers(s: Task, socket: bool) {
    socket ==> s.operationCount == 0 && s.readyCount == 0 && s.pendingCount == 0
  }

  // ------------------------------------------------------------------
  // The invariant

  function Held(b: bool): nat {
    if b then 1 else 0
  }

  /** In the hands of the scheduler. */
  predicate InScheduler(s: Task) {
    s.scheduler == Popped || s.scheduler == PoppedClosed || s.scheduler == Cancelled
  }

  /** Not in the queues: in no hands yet, or in a worker, or gone. */
  function Outside(s: Task): nat {
    s.unposted + s.popped + s.running + s.closing + s.reviving + s.reposting + s.gone
  }

  function OnTheWay(s: Task): nat {
    s.wakers + s.closers + s.front + s.pendingQueue + Held(s.scheduler == Popped)
  }

  function Dispatched(s: Task): nat {
    s.readyList + s.readyQueue
  }

  function Places(s: Task): nat {
    Outside(s) + OnTheWay(s) + Dispatched(s) + s.cancelling + Held(s.status == WAITING)
    + Held(s.scheduler == PoppedClosed || s.scheduler == Cancelled)
  }

  predicate StatusOk(s: Task) {
    && (s.status == WAITING ==> s.scheduler.Completed? || s.pendingCount == 0)
    && (s.status == PENDING ==> OnTheWay(s) == s.front + s.pendingQueue + Held(s.scheduler == Popped))
    && (s.status == PENDING ==> Dispatched(s) == 0 && s.popped == 0 && s.closing == 0 && s.gone == 0)
    && (s.status == CLOSED ==> Dispatched(s) + s.popped + s.closing + s.gone == 1)
    && (s.closing > 0 || s.gone > 0 ==> s.status == CLOSED)
    && (s.reviving > 0 ==> s.status == PENDING || s.status == READY)
    && (s.reposting > 0 ==> s.status == PENDING || s.status == READY || s.status == CLOSING)
    && (s.inHeap ==> s.status == WAITING || OnTheWay(s) == 1)
    && (s.inHeap ==> s.status != PENDING && s.status != CLOSED)
    && (s.isInQueues <==> Outside(s) == 0)
  }

  predicate CloseOk(s: Task) {
    && s.guards <= 1
    && (s.status == CLOSING || s.status == CLOSED <==> s.guard && s.guards == 0 && s.reviving == 0)
    && (s.guards > 0 || s.reviving > 0 ==> s.guard && s.guards + s.reviving == 1)
    && (s.isClosed <==> s.scheduler == Cancelled || s.scheduler == PoppedClosed || s.status == CLOSED)
    && (s.scheduler == Cancelled || s.scheduler == PoppedClosed || s.closers > 0 || s.cancelling > 0 ==>
          s.status == CLOSING)
    && (s.isClosed ==> !s.hasSocket)
    && s.closedRuns == s.closing + s.gone
  }

  predicate OperationsOk(s: Task) {
    && s.operationCount == s.unsubmitted + |s.toSubmit| + s.kernel + s.pendingCount + s.readyCount
    && (s.readyCount > 0 ==> Dispatched(s) + s.popped == 1)
    && (s.unsubmitted > 0 ==> s.running + s.front + s.pendingQueue == 1)
    && (s.operationCount > 0 && !s.isClosed ==> s.hasSocket)
    && (s.isClosed ==> s.operationCount == s.pendingCount + s.readyCount)
    && (s.status == CLOSED ==> s.pendingCount == 0)
    && (s.scheduler.Completed? ==> s.pendingCount > 0)
    && (s.unposted > 0 || s.reviving > 0 || s.reposting > 0 || s.closing > 0 || s.gone > 0 ==> s.operationCount == 0)
    && (s.unposted > 0 || s.reviving > 0 || s.reposting > 0 ==> !s.hasSocket)
  }

  predicate CancelOk(s: Task) {
    && (s.cancelLocked ==> s.cancelling == 1 || (s.isClosed && s.closing == 0 && s.gone == 0))
    && (s.cancelling > 0 ==> s.cancelLocked && (s.scheduler.Completed? || s.operationCount > s.pendingCount))
    && (forall i :: 0 <= i < |s.toSubmit| && s.toSubmit[i] == Cancel ==> i == |s.toSubmit| - 1 && s.cancelling == 1)
    && (s.kernelCancel ==> s.cancelling == 1 && s.toSubmit == [] && s.kernel > 0)
    && (s.scheduler == Completed(true) ==> s.cancelling == 1 && s.toSubmit == [] && !s.kernelCancel)
    && (s.scheduler.Completed? ==> !s.isClosed)
  }

  predicate Inv(s: Task) {
    Places(s) == 1 && StatusOk(s) && CloseOk(s) && OperationsOk(s) && CancelOk(s)
  }

  lemma InitOk(s: Task)
    requires Init(s)
    ensures Inv(s)
  {
  }

  predicate ByScheduler(a: Action) {
    a.PopFront? || a.Complete? || a.Expire? || a.Flush?
  }

  predicate BySubmission(a: Action) {
    a.TakePending? || a.Submit?
  }

  predicate ByKernelPhase(a: Action) {
    a.KernelCas? || a.KernelClose? || a.FrontClose?
  }

  predicate ByWorker(a: Action) {
    a.WorkerPop? || a.WorkerExecute? || a.OperationStart? || a.AttachSocket? || a.WorkerReturn?
  }

  predicate ByCloser(a: Action) {
    a.CloseStart? || a.CloseExchange? || a.CloserPush? || a.Wakeup? || a.WakerPush?
  }

  lemma SchedulerKeeps(s: Task, a: Action)
    requires Inv(s) && Enabled(s, a) && ByScheduler(a)
    ensures Inv(Do(s, a))
  {
  }

  lemma SubmissionKeeps(s: Task, a: Action)
    requires Inv(s) && Enabled(s, a) && BySubmission(a)
    ensures Inv(Do(s, a))
  {
  }

  lemma KernelPhaseKeeps(s: Task, a: Action)
    requires Inv(s) && Enabled(s, a) && ByKernelPhase(a)
    ensures Inv(Do(s, a))
  {
  }

  lemma FrontPhaseKeeps(s: Task, a: Action)
    requires Inv(s) && Enabled(s, a) && a.FrontCas? && s.status != CLOSING
    ensures Inv(Do(s, a))
  {
  }

  lemma FrontClosingKeeps(s: Task, a: Action)
    requires Inv(s) && Enabled(s, a) && a.FrontCas? && s.status == CLOSING
    ensures Inv(Do(s, a))
  {
  }

  lemma TakeKeeps(s: Task, a: Action)
    requires Inv(s) && Enabled(s, a) && (a.WorkerPop? || a.WorkerExecute?)
    ensures Inv(Do(s, a))
  {
  }

  lemma WorkerKeeps(s: Task, a: Action)
    requires Inv(s) && Enabled(s, a) && ByWorker(a)
    ensures Inv(Do(s, a))
  {
    if a.WorkerPop? || a.WorkerExecute? {
      TakeKeeps(s, a);
    }
  }

  lemma CloserKeeps(s: Task, a: Action)
    requires Inv(s) && Enabled(s, a) && ByCloser(a)
    ensures Inv(Do(s, a))
  {
  }

  lemma OwnerKeeps(s: Task, a: Action)
    requires Inv(s) && Enabled(s, a) && !ByScheduler(a) && !ByKernelPhase(a) && !ByWorker(a) && !ByCloser(a)
    requires !a.FrontCas? && !BySubmission(a)
    ensures Inv(Do(s, a))
  {
  }

  lemma AssertsHold(s: Task, a: Action)
    requires Inv(s) && Enabled(s, a)
    ensures Asserts(s, a)
  {
  }

  lemma StepKeeps(s: Task, a: Action)
    requires Inv(s) && Enabled(s, a)
    ensures Inv(Do(s, a))
  {
    if ByScheduler(a) {
      SchedulerKeeps(s, a);
    } else if BySubmission(a) {
      SubmissionKeeps(s, a);
    } else if ByKernelPhase(a) {
      KernelPhaseKeeps(s, a);
    } else if ByWorker(a) {
      WorkerKeeps(s, a);
    } else if ByCloser(a) {
      CloserKeeps(s, a);
    } else if a.FrontCas? && s.status == CLOSING {
      FrontClosingKeeps(s, a);
    } else if a.FrontCas? {
      FrontPhaseKeeps(s, a);
    } else {
      OwnerKeeps(s, a);
    }
  }

  // ------------------------------------------------------------------
  // Runs

  ghost predicate StepAt(states: seq<Task>, actions: seq<Action>, n: nat)
    requires |states| == |actions| + 1 && n < |actions|
  {
    Enabled(states[n], actions[n]) && states[n + 1] == Do(states[n], actions[n])
  }

  /** A run from a task which was not posted yet. */
  ghost predicate IsRun(states: seq<Task>, actions: seq<Action>) {
    && |states| == |actions| + 1
    && Init(states[0])
    && forall n {:trigger StepAt(states, actions, n)} :: 0 <= n < |actions| ==> StepAt(states, actions, n)
  }

  lemma {:induction false} RunInv(states: seq<Task>, actions: seq<Action>, n: nat)
    requires IsRun(states, actions) && n < |states|
    ensures Inv(states[n])
  {
    if n == 0 {
      InitOk(states[0]);
    } else {
      RunInv(states, actions, n - 1);
      assert StepAt(states, actions, n - 1);
      StepKeeps(states[n - 1], actions[n - 1]);
    }
  }

  /** No assertion of the code fails in any run. */
  lemma AssertionsHold(states: seq<Task>, actions: seq<Action>, n: nat)
    requires IsRun(states, actions) && n < |actions|
    ensures Asserts(states[n], actions[n])
  {
    RunInv(states, actions, n);
    assert StepAt(states, actions, n);
    AssertsHold(states[n], actions[n]);
  }

  /** The operation count is the number of events in all the places an event can be in. */
  lemma OperationsCounted(states: seq<Task>, actions: seq<Action>, n: nat)
    requires IsRun(states, actions) && n < |states|
    ensures var s := states[n];
      s.operationCount == s.unsubmitted + |s.toSubmit| + s.kernel + s.pendingCount + s.readyCount
  {
    RunInv(states, actions, n);
  }

  /** The owner gets the task as closed. */
  predicate GivesClosed(s: Task, a: Action) {
    a == WorkerExecute && s.isClosed
  }

  /** The task stays given away until its owner posts it again. */
  lemma {:induction false} ClosedStays(states: seq<Task>, actions: seq<Action>, i: nat, j: nat)
    requires IsRun(states, actions) && i < j < |states|
    requires StepAt(states, actions, i) && GivesClosed(states[i], actions[i])
    requires forall k :: i < k < j ==> actions[k] != Reuse
    ensures states[j].closing + states[j].gone == 1
  {
    RunInv(states, actions, j - 1);
    assert StepAt(states, actions, j - 1);
    if i + 1 < j {
      ClosedStays(states, actions, i, j - 1);
    }
  }

  /** A closed task is given to its owner once, and not again before it is reused. */
  lemma ClosedOnce(states: seq<Task>, actions: seq<Action>, i: nat, j: nat)
    requires IsRun(states, actions) && i < j < |actions|
    requires GivesClosed(states[i], actions[i]) && GivesClosed(states[j], actions[j])
    ensures exists k :: i < k < j && actions[k] == Reuse
  {
    if forall k :: i < k < j ==> actions[k] != Reuse {
      assert StepAt(states, actions, i) && StepAt(states, actions, j);
      ClosedStays(states, actions, i, j);
      RunInv(states, actions, j);
      assert false;
    }
  }

  /**
   * When the owner gets the closed task, all operations are over: nothing of it is left in the
   * core or in the kernel, and nothing comes before it is reused.
   */
  lemma NothingAfterClosed(states: seq<Task>, actions: seq<Action>, i: nat, j: nat, cancel: bool)
    requires IsRun(states, actions) && i < j < |states|
    requires GivesClosed(states[i], actions[i])
    requires forall k :: i < k < j ==> actions[k] != Reuse
    ensures var s := states[j];
      && s.operationCount == 0 && s.kernel == 0 && s.toSubmit == [] && s.pendingCount == 0 && s.readyCount == 0
      && !Enabled(s, Complete(cancel)) && !Enabled(s, Submit) && !s.hasSocket
  {
    assert StepAt(states, actions, i);
    ClosedStays(states, actions, i, j);
    RunInv(states, actions, j);
  }

  /** Once the cancellation is in the kernel all operations of the task are there too, or complete. */
  lemma CancelIsLast(states: seq<Task>, actions: seq<Action>, n: nat)
    requires IsRun(states, actions) && n < |states|
    requires states[n].kernelCancel
    ensures var s := states[n];
      s.unsubmitted == 0 && s.toSubmit == [] && s.operationCount == s.kernel + s.pendingCount
  {
    RunInv(states, actions, n);
  }

  /** A task held for its cancellation always has an event to come. */
  lemma CancellationEnds(states: seq<Task>, actions: seq<Action>, n: nat)
    requires IsRun(states, actions) && n < |states|
    requires states[n].cancelling > 0 && states[n].scheduler == Idle
    ensures Enabled(states[n], Submit) || Enabled(states[n], Complete(true)) || Enabled(states[n], Complete(false))
  {
    RunInv(states, actions, n);
  }

  /** A task with events does not sleep, except until the scheduler, which got one, looks at the status. */
  lemma NoSleepOnEvents(states: seq<Task>, actions: seq<Action>, n: nat)
    requires IsRun(states, actions) && n < |states|
    requires states[n].status == WAITING && states[n].pendingCount + states[n].readyCount > 0
    ensures states[n].scheduler.Completed? && Do(states[n], KernelCas).readyList == 1
  {
    RunInv(states, actions, n);
  }

  /** In at most one worker, and in no queue then. */
  lemma OneWorker(states: seq<Task>, actions: seq<Action>, n: nat)
    requires IsRun(states, actions) && n < |states|
    ensures var s := states[n];
      && s.popped + s.running + s.closing <= 1
      && (s.popped + s.running + s.closing == 1 ==>
            OnTheWay(s) == 0 && Dispatched(s) == 0 && s.cancelling == 0 && s.status != WAITING && !s.isInQueues)
  {
    RunInv(states, actions, n);
  }

  /** How many events came from the kernel in the first `n` steps. */
  ghost function Came(actions: seq<Action>, n: nat): nat
    requires n <= |actions|
  {
    if n == 0 then 0 else Came(actions, n - 1) + if actions[n - 1].Complete? then 1 else 0
  }

  /** How many events workers got in the first `n` steps. */
  ghost function Got(states: seq<Task>, actions: seq<Action>, n: nat): int
    requires |states| == |actions| + 1 && n <= |actions|
  {
    if n == 0 then 0
    else Got(states, actions, n - 1) + if actions[n - 1] == WorkerExecute then states[n - 1].readyCount else 0
  }

  /** Every event of the kernel reaches a worker once: what came and was not handed over is pending or ready. */
  lemma {:induction false} EventsKept(states: seq<Task>, actions: seq<Action>, n: nat)
    requires IsRun(states, actions) && n <= |actions|
    ensures Came(actions, n) == Got(states, actions, n) + states[n].pendingCount + states[n].readyCount
  {
    if n > 0 {
      EventsKept(states, actions, n - 1);
      RunInv(states, actions, n - 1);
      assert StepAt(states, actions, n - 1);
      EventStep(states[n - 1], actions[n - 1]);
    }
  }

  function Change(s: Task, a: Action): int {
    (if a.Complete? then 1 else 0) - (if a == WorkerExecute then s.readyCount else 0)
  }

  lemma FrontEventStep(s: Task, a: Action)
    requires Inv(s) && Enabled(s, a) && (a.FrontCas? || a.FrontClose?)
    ensures Do(s, a).pendingCount + Do(s, a).readyCount == s.pendingCount + s.readyCount
  {
  }

  lemma KernelEventStep(s: Task, a: Action)
    requires Inv(s) && Enabled(s, a) && (a.KernelCas? || a.KernelClose?)
    ensures Do(s, a).pendingCount + Do(s, a).readyCount == s.pendingCount + s.readyCount
  {
  }

  lemma EventStep(s: Task, a: Action)
    requires Inv(s) && Enabled(s, a)
    ensures Do(s, a).pendingCount + Do(s, a).readyCount == s.pendingCount + s.readyCount + Change(s, a)
  {
    if a.FrontCas? || a.FrontClose? {
      FrontEventStep(s, a);
    } else if a.KernelCas? || a.KernelClose? {
      KernelEventStep(s, a);
    }
  }
}
