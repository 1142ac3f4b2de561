/**
 * The life of one task in the epoll core (src/mg/aio/IOCore_epoll.cpp, IOTask_epoll.cpp, IOTask.cpp,
 * IOCore.cpp): the masks of its events under all interleavings of the scheduler, the workers, the kernel,
 * and threads which wake the task up or close it. The places of the task are counters.
 */
module Epoll {
  datatype Status = PENDING | READY | WAITING | CLOSING | CLOSED

  datatype Bit = IN | OUT | ERR | HUP

  /** What the scheduler is doing with it. */
  datatype Scheduler =
    | Idle
    | Collected(mask: set<Bit>)  // In the batch of epoll_wait().
    | Merged                     // In the pending events, the status is not looked at yet.
    | Popped                     // Taken from the pending queue.
    | Closed                     // PrivKernelUnregister() and PrivCloseDo() are done.

  datatype Task = Task(
    status: Status, guard: bool, isClosed: bool, registered: bool, isInQueues: bool, inHeap: bool,
    pending: set<Bit>, ready: set<Bit>,
    unposted: nat, front: nat, pendingQueue: nat, readyList: nat, readyQueue: nat,
    wakers: nat, guards: nat, closers: nat,
    popped: nat, running: nat, closing: nat, reviving: nat, reposting: nat, gone: nat,
    scheduler: Scheduler)

  datatype Action =
    | Post(socket: bool)
    | Wakeup | WakerPush
    | CloseStart | CloseExchange | CloserPush
    | PopFront | TakePending | FrontCas(expired: bool, finite: bool) | FrontClose
    | Collect(mask: set<Bit>) | Merge | KernelCas
    | Expire | Flush
    | WorkerPop | WorkerExecute | SaveEvent(bit: Bit) | AttachSocket | WorkerReturn
    | ClosedEnd | Reuse | ReuseUnguard | ReusePost(socket: bool)

  predicate Init(s: Task) {
    && s.status == PENDING && !s.guard && !s.isClosed && !s.registered && !s.isInQueues && !s.inHeap
    && s.pending == {} && s.ready == {}
    && s.unposted == 1 && s.front == s.pendingQueue == s.readyList == s.readyQueue == 0
    && s.wakers == s.guards == s.closers == s.popped == s.running == 0
    && s.closing == s.reviving == s.reposting == s.gone == 0
    && s.scheduler == Idle
  }

  predicate Enabled(s: Task, a: Action) {
    match a
    case Post(_) => s.unposted > 0
    case Wakeup => s.status == WAITING || s.status == PENDING
    case WakerPush => s.wakers > 0
    case CloseStart => !s.guard
    case CloseExchange => s.guards > 0
    case CloserPush => s.closers > 0
    case PopFront => s.front > 0 && s.scheduler == Idle
    case TakePending => s.pendingQueue > 0 && s.scheduler == Idle
    case FrontCas(_, _) => s.scheduler == Popped
    case FrontClose => s.scheduler == Closed
    case Collect(_) => s.registered && s.scheduler == Idle
    case Merge => s.scheduler.Collected?
    case KernelCas => s.scheduler == Merged
    case Expire => s.inHeap && s.scheduler == Idle
    case Flush => s.readyList > 0 && s.scheduler == Idle
    case WorkerPop => s.readyQueue > 0
    case WorkerExecute => s.popped > 0
    case SaveEvent(_) => s.running > 0 || s.closing > 0
    case AttachSocket => s.running > 0 && !s.registered
    case WorkerReturn => s.running > 0
    case ClosedEnd => s.closing > 0
    case Reuse => s.closing > 0 && s.status == CLOSED
    case ReuseUnguard => s.reviving > 0
    case ReusePost(_) => s.reposting > 0
  }

  /** `ready |= pending`, from the heap to the local ready list. */
  function ToReady(s: Task): Task {
    s.(ready := s.ready + s.pending, pending := {}, readyList := s.readyList + 1, inHeap := false)
  }

  /** The compare-exchange of the front phase, and what follows up to the next atomic operation. */
  function DoFrontCas(s: Task, expired: bool, finite: bool): Task {
    var t := s.(scheduler := Idle);
    if s.pending == {} && !expired && s.status == PENDING then t.(status := WAITING, inHeap := s.inHeap || finite)
    else if s.status == CLOSING then s.(registered := false, isClosed := true, scheduler := Closed, inHeap := false)
    else ToReady(if s.status == PENDING then t.(status := READY) else t)
  }

  function DoExecute(s: Task): Task
    requires s.popped > 0
  {
    var t := s.(status := if s.status == READY then PENDING else s.status, popped := s.popped - 1, ready := {});
    if s.isClosed then t.(closing := s.closing + 1) else t.(running := s.running + 1)
  }

  function Do(s: Task, a: Action): Task
    requires Enabled(s, a)
  {
    match a
    case Post(socket) =>
      s.(unposted := s.unposted - 1, front := s.front + 1, isInQueues := true, registered := socket)
    case Wakeup =>
      if s.status == WAITING then s.(status := READY, wakers := s.wakers + 1) else s.(status := READY)
    case WakerPush => s.(wakers := s.wakers - 1, front := s.front + 1)
    case CloseStart => s.(guard := true, guards := s.guards + 1)
    case CloseExchange =>
      s.(status := CLOSING, guards := s.guards - 1, closers := s.closers + if s.status == WAITING then 1 else 0)
    case CloserPush => s.(closers := s.closers - 1, front := s.front + 1)
    case PopFront => s.(pendingQueue := s.pendingQueue + s.front, front := 0)
    case TakePending => s.(pendingQueue := s.pendingQueue - 1, scheduler := Popped)
    case FrontCas(expired, finite) => DoFrontCas(s, expired, finite)
    case FrontClose =>
      s.(status := CLOSED, scheduler := Idle, ready := {}, pending := {}, readyList := s.readyList + 1)
    case Collect(mask) => s.(scheduler := Collected(mask))
    case Merge => s.(pending := s.pending + s.scheduler.mask, scheduler := Merged)
    case KernelCas =>
      if s.status == WAITING then ToReady(s.(status := READY, scheduler := Idle)) else s.(scheduler := Idle)
    case Expire =>
      if s.status == WAITING then s.(status := READY, readyList := s.readyList + 1, inHeap := false)
      else s.(inHeap := false)
    case Flush => s.(readyQueue := s.readyQueue + s.readyList, readyList := 0)
    case WorkerPop => s.(readyQueue := s.readyQueue - 1, popped := s.popped + 1, isInQueues := false)
    case WorkerExecute => DoExecute(s)
    case SaveEvent(bit) => s.(ready := s.ready + {bit})
    case AttachSocket => s.(registered := true)
    case WorkerReturn => s.(running := s.running - 1, front := s.front + 1, isInQueues := true)
    case ClosedEnd => s.(closing := s.closing - 1, gone := s.gone + 1)
    case Reuse => s.(closing := s.closing - 1, reviving := s.reviving + 1, status := PENDING, isClosed := false)
    case ReuseUnguard => s.(reviving := s.reviving - 1, reposting := s.reposting + 1, guard := false)
    case ReusePost(socket) =>
      s.(reposting := s.reposting - 1, front := s.front + 1, isInQueues := true, registered := socket)
  }

  /** The action calls PrivKernelRegister(). */
  predicate Registers(a: Action) {
    a == Post(true) || a == ReusePost(true) || a == AttachSocket
  }

  /** The assertions of PrivKernelRegister(). */
  predicate RegisterAsserts(s: Task) {
    s.ready == {} && s.pending == {}
  }

  /** The other assertions of the code on the way of an action. */
  predicate Asserts(s: Task, a: Action) {
    match a
    case Post(_) => !s.isInQueues && !s.isClosed && !s.registered
    case WakerPush => s.isInQueues
    case CloserPush => s.isInQueues
    case CloseExchange => s.status == PENDING || s.status == READY || s.status == WAITING
    case FrontCas(expired, finite) =>
      && s.status != CLOSED && s.status != WAITING
      && (s.status == PENDING && s.pending == {} && !expired && !finite ==> !s.inHeap)
      && (s.status == CLOSING ==> s.guard && !s.isClosed)
    case FrontClose => s.status == CLOSING
    case KernelCas => s.status != CLOSED
    case Expire => s.status != CLOSED && s.status != PENDING && (s.status == WAITING ==> s.pending == {})
    case Flush => !s.inHeap
    case WorkerPop => s.isInQueues
    case WorkerExecute => s.status != PENDING && (s.isClosed ==> s.status == CLOSED && s.pending == {})
    case AttachSocket => !s.isClosed
    case WorkerReturn => !s.isInQueues
    case Reuse => s.isClosed && !s.registered
    case ReuseUnguard => s.guard
    case ReusePost(_) => !s.isInQueues
    case _ => true
  }

  function Held(b: bool): nat {
    if b then 1 else 0
  }

  /** Given to the workers, which were not told of the events yet. */
  function Dispatched(s: Task): nat {
    s.readyList + s.readyQueue + s.popped
  }

  function OnTheWay(s: Task): nat {
    s.wakers + s.closers
  }

  function InFront(s: Task): nat {
    s.front + s.pendingQueue + Held(s.scheduler == Popped)
  }

  function Queued(s: Task): nat {
    s.unposted + InFront(s) + s.running + s.reviving + s.reposting
  }

  /** Not in the queues: in no hands yet, or in a worker, or gone. */
  function Outside(s: Task): nat {
    s.unposted + s.popped + s.running + s.closing + s.reviving + s.reposting + s.gone
  }

  predicate Inv(s: Task) {
    // One place.
    && Queued(s) + OnTheWay(s) + Dispatched(s) + s.closing + s.gone
       + Held(s.status == WAITING) + Held(s.scheduler == Closed) == 1
    // The status.
    && (s.status == PENDING ==> Queued(s) == 1)
    && (s.status == CLOSED ==> Dispatched(s) + s.closing + s.gone == 1)
    && (s.closing > 0 || s.gone > 0 ==> s.status == CLOSED)
    && (s.closers > 0 || s.scheduler == Closed ==> s.status == CLOSING)
    // Closing.
    && s.guards <= 1
    && (s.status == CLOSING || s.status == CLOSED <==> s.guard && s.guards == 0 && s.reviving == 0)
    && (s.guards > 0 || s.reviving > 0 ==> s.guard && s.guards + s.reviving == 1)
    && (s.isClosed <==> s.scheduler == Closed || s.status == CLOSED)
    && (s.isClosed || s.unposted > 0 || s.reviving > 0 || s.reposting > 0 ==> !s.registered)
    && (s.scheduler.Collected? || s.scheduler == Merged ==> s.registered)
    // The heap and the flag of the queues.
    && (s.inHeap ==> s.status == WAITING || OnTheWay(s) + InFront(s) == 1)
    && (s.inHeap ==> s.status != PENDING && s.status != CLOSED)
    && (s.isInQueues <==> Outside(s) == 0)
    // Events.
    && (s.status == WAITING && s.scheduler != Merged ==> s.pending == {})
    && (!s.registered && s.scheduler != Closed ==> s.pending == {})
    && (s.unposted > 0 ==> s.ready == {})
  }

  lemma InitOk(s: Task)
    requires Init(s)
    ensures Inv(s)
  {
  }

  predicate ByScheduler(a: Action) {
    a.PopFront? || a.TakePending? || a.Expire? || a.Flush?
  }

  lemma ExpireKeeps(s: Task)
    requires Inv(s) && Enabled(s, Expire)
    ensures Inv(Do(s, Expire))
  {
  }

  lemma SchedulerKeeps(s: Task, a: Action)
    requires Inv(s) && Enabled(s, a) && ByScheduler(a)
    ensures Inv(Do(s, a))
  {
    if a.Expire? {
      ExpireKeeps(s);
    } else if a.TakePending? {
      PendingKeeps(s);
    }
  }

  lemma PendingKeeps(s: Task)
    requires Inv(s) && Enabled(s, TakePending)
    ensures Inv(Do(s, TakePending))
  {
  }

  predicate ByEvents(a: Action) {
    a.Collect? || a.Merge? || a.KernelCas?
  }

  lemma EventsKeep(s: Task, a: Action)
    requires Inv(s) && Enabled(s, a) && ByEvents(a)
    ensures Inv(Do(s, a))
  {
  }

  lemma FrontCasKeeps(s: Task, expired: bool, finite: bool)
    requires Inv(s) && Enabled(s, FrontCas(expired, finite))
    ensures Inv(Do(s, FrontCas(expired, finite)))
  {
  }

  lemma FrontCloseKeeps(s: Task)
    requires Inv(s) && Enabled(s, FrontClose)
    ensures Inv(Do(s, FrontClose))
  {
  }

  predicate ByWorker(a: Action) {
    a.SaveEvent? || a.AttachSocket? || a.WorkerReturn?
  }

  lemma TakeKeeps(s: Task, a: Action)
    requires Inv(s) && Enabled(s, a) && (a.WorkerPop? || a.WorkerExecute?)
    ensures Inv(Do(s, a))
  {
  }

  lemma WorkerKeeps(s: Task, a: Action)
    requires Inv(s) && Enabled(s, a) && ByWorker(a)
    ensures Inv(Do(s, a))
  {
  }

  predicate ByCloser(a: Action) {
    a.CloseStart? || a.CloseExchange? || a.CloserPush? || a.Wakeup? || a.WakerPush?
  }

  lemma WakerKeeps(s: Task, a: Action)
    requires Inv(s) && Enabled(s, a) && (a.Wakeup? || a.WakerPush?)
    ensures Inv(Do(s, a))
  {
  }

  lemma CloserKeeps(s: Task, a: Action)
    requires Inv(s) && Enabled(s, a) && ByCloser(a)
    ensures Inv(Do(s, a))
  {
    if a.Wakeup? || a.WakerPush? {
      WakerKeeps(s, a);
    }
  }

  predicate ByOwner(a: Action) {
    a.Post? || a.ClosedEnd? || a.Reuse? || a.ReuseUnguard? || a.ReusePost?
  }

  lemma OwnerKeeps(s: Task, a: Action)
    requires Inv(s) && Enabled(s, a) && ByOwner(a)
    ensures Inv(Do(s, a))
  {
  }

  lemma StepKeeps(s: Task, a: Action)
    requires Inv(s) && Enabled(s, a)
    ensures Inv(Do(s, a))
  {
    if ByScheduler(a) {
      SchedulerKeeps(s, a);
    } else if ByEvents(a) {
      EventsKeep(s, a);
    } else if a.FrontCas? {
      FrontCasKeeps(s, a.expired, a.finite);
    } else if a.FrontClose? {
      FrontCloseKeeps(s);
    } else if a.WorkerPop? || a.WorkerExecute? {
      TakeKeeps(s, a);
    } else if ByWorker(a) {
      WorkerKeeps(s, a);
    } else if ByCloser(a) {
      CloserKeeps(s, a);
    } else {
      OwnerKeeps(s, a);
    }
  }

  lemma AssertsHold(s: Task, a: Action)
    requires Inv(s) && Enabled(s, a)
    ensures Asserts(s, a)
    ensures Registers(a) ==> (RegisterAsserts(s) <==> s.ready == {})
  {
  }

  // ------------------------------------------------------------------
  // Runs

  ghost predicate StepAt(states: seq<Task>, actions: seq<Action>, n: nat)
    requires |states| == |actions| + 1 && n < |actions|
  {
    Enabled(states[n], actions[n]) && states[n + 1] == Do(states[n], actions[n])
  }

  /** A run from a task which was not posted yet. */
  ghost predicate IsRun(states: seq<Task>, actions: seq<Action>) {
    && |states| == |actions| + 1
    && Init(states[0])
    && forall n {:trigger StepAt(states, actions, n)} :: 0 <= n < |actions| ==> StepAt(states, actions, n)
  }

  lemma {:induction false} RunInv(states: seq<Task>, actions: seq<Action>, n: nat)
    requires IsRun(states, actions) && n < |states|
    ensures Inv(states[n])
  {
    if n == 0 {
      InitOk(states[0]);
    } else {
      RunInv(states, actions, n - 1);
      assert StepAt(states, actions, n - 1);
      StepKeeps(states[n - 1], actions[n - 1]);
    }
  }

  /**
   * No assertion of the code fails in any run, except one: a socket may be registered if and only if the task has
   * no ready events. A pending event never stands in the way, and the first Post() never fails.
   */
  lemma AssertionsHold(states: seq<Task>, actions: seq<Action>, n: nat)
    requires IsRun(states, actions) && n < |actions|
    ensures Asserts(states[n], actions[n])
    ensures Registers(actions[n]) ==> (RegisterAsserts(states[n]) <==> states[n].ready == {})
    ensures actions[n] == Post(true) ==> RegisterAsserts(states[n])
  {
    RunInv(states, actions, n);
    assert StepAt(states, actions, n);
    AssertsHold(states[n], actions[n]);
  }

  /** The task is in the hands of the code which a worker called. */
  predicate WithOwner(s: Task) {
    s.running + s.closing + s.reviving + s.reposting > 0
  }

  lemma ReadyStep(s: Task, a: Action)
    requires Inv(s) && Enabled(s, a) && WithOwner(s) && WithOwner(Do(s, a))
    ensures Do(s, a).ready == s.ready + if a.SaveEvent? then {a.bit} else {}
  {
  }

  /** While the owner has the task there are no ready events if and only if it saved none since it got the task. */
  lemma {:induction false} ReadyIfSaved(states: seq<Task>, actions: seq<Action>, i: nat, j: nat)
    requires IsRun(states, actions) && i < j < |states|
    requires actions[i] == WorkerExecute && forall k :: i < k <= j ==> WithOwner(states[k])
    ensures states[j].ready == {} <==> forall k :: i < k < j ==> !actions[k].SaveEvent?
  {
    assert StepAt(states, actions, j - 1);
    RunInv(states, actions, j - 1);
    if i + 1 < j {
      ReadyIfSaved(states, actions, i, j - 1);
      ReadyStep(states[j - 1], actions[j - 1]);
      if actions[j - 1].SaveEvent? {
        assert actions[j - 1].bit in states[j].ready;
      }
    }
  }

  /** So a socket may be registered by the owner if and only if it saved no event since it got the task. */
  lemma RegistersIfUnsaved(states: seq<Task>, actions: seq<Action>, i: nat, j: nat)
    requires IsRun(states, actions) && i < j < |actions| && Registers(actions[j])
    requires actions[i] == WorkerExecute && forall k :: i < k <= j ==> WithOwner(states[k])
    ensures RegisterAsserts(states[j]) <==> forall k :: i < k < j ==> !actions[k].SaveEvent?
  {
    AssertionsHold(states, actions, j);
    ReadyIfSaved(states, actions, i, j);
  }

  lemma Extended(states: seq<Task>, actions: seq<Action>, a: Action, next: Task)
      returns (longer: seq<Task>, more: seq<Action>)
    requires IsRun(states, actions) && Enabled(Last(states), a) && next == Do(Last(states), a)
    ensures IsRun(longer, more) && Last(longer) == next
  {
    longer, more := states + [next], actions + [a];
    forall n | 0 <= n < |more|
      ensures StepAt(longer, more, n)
    {
      assert n < |actions| ==> StepAt(states, actions, n);
    }
  }

  function Last(states: seq<Task>): Task
    requires states != []
  {
    states[|states| - 1]
  }

  /** A task without a socket which was posted and is in the front queue. */
  function Fresh(): Task {
    Task(PENDING, false, false, false, true, false, {}, {}, 0, 1, 0, 0, 0, 0, 0, 0, 0, 0, 0, 0, 0, 0, Idle)
  }

  lemma Posted() returns (states: seq<Task>, actions: seq<Action>)
    ensures IsRun(states, actions) && Last(states) == Fresh()
  {
    var s := Task(PENDING, false, false, false, false, false, {}, {}, 1, 0, 0, 0, 0, 0, 0, 0, 0, 0, 0, 0, 0, 0, Idle);
    states, actions := Extended([s], [], Post(false), Fresh());
  }

  /** It is taken by the scheduler, and is expired. */
  lemma Expired() returns (states: seq<Task>, actions: seq<Action>)
    ensures IsRun(states, actions) && Last(states) == Fresh().(status := READY, front := 0, readyList := 1)
  {
    states, actions := Posted();
    states, actions := Extended(states, actions, PopFront, Fresh().(front := 0, pendingQueue := 1));
    states, actions := Extended(states, actions, TakePending, Fresh().(front := 0, scheduler := Popped));
    var next := Fresh().(status := READY, front := 0, readyList := 1);
    assert next.ready == {} + {};
    states, actions := Extended(states, actions, FrontCas(true, false), next);
  }

  /** A worker executes it. */
  lemma Executed() returns (states: seq<Task>, actions: seq<Action>)
    ensures IsRun(states, actions) && Last(states) == Fresh().(front := 0, isInQueues := false, running := 1)
  {
    states, actions := Expired();
    var s := Fresh().(status := READY, front := 0);
    states, actions := Extended(states, actions, Flush, s.(readyQueue := 1));
    states, actions := Extended(states, actions, WorkerPop, s.(isInQueues := false, popped := 1));
    var next := Fresh().(front := 0, isInQueues := false, running := 1);
    states, actions := Extended(states, actions, WorkerExecute, next);
  }

  /** A registration which fails: the socket is attached after an event was saved. */
  lemma SavedBeforeAttach() returns (states: seq<Task>, actions: seq<Action>)
    ensures IsRun(states, actions)
    ensures Enabled(Last(states), AttachSocket) && Registers(AttachSocket) && !RegisterAsserts(Last(states))
  {
    states, actions := Executed();
    var next := Fresh().(front := 0, isInQueues := false, running := 1, ready := {IN});
    assert next.ready == {} + {IN};
    states, actions := Extended(states, actions, SaveEvent(IN), next);
  }

  /** Reported by the kernel, and not told to a worker yet. */
  predicate Owed(s: Task, bit: Bit) {
    bit in s.pending || (s.scheduler.Collected? && bit in s.scheduler.mask) || (Dispatched(s) > 0 && bit in s.ready)
  }

  /** The step tells a worker of the event, or closes the task. */
  predicate Settles(s: Task, a: Action, bit: Bit) {
    (a == WorkerExecute && bit in s.ready) || a == FrontClose
  }

  lemma OwedStep(s: Task, a: Action, bit: Bit)
    requires Inv(s) && Enabled(s, a) && Owed(s, bit) && !Settles(s, a, bit)
    ensures Owed(Do(s, a), bit)
  {
    if a.FrontCas? || a.KernelCas? {
      OwedReady(s, a, bit);
    }
  }

  lemma OwedReady(s: Task, a: Action, bit: Bit)
    requires Inv(s) && Enabled(s, a) && Owed(s, bit) && (a.FrontCas? || a.KernelCas?)
    ensures Owed(Do(s, a), bit)
  {
  }

  /** An event of the kernel stays owed until a worker is told of it or the task is closed. */
  lemma {:induction false} EventStays(states: seq<Task>, actions: seq<Action>, i: nat, j: nat, bit: Bit)
    requires IsRun(states, actions) && i < j < |states|
    requires actions[i].Collect? && bit in actions[i].mask
    requires forall k :: i < k < j ==> !Settles(states[k], actions[k], bit)
    ensures Owed(states[j], bit)
  {
    assert StepAt(states, actions, j - 1);
    if i + 1 < j {
      EventStays(states, actions, i, j - 1, bit);
      RunInv(states, actions, j - 1);
      OwedStep(states[j - 1], actions[j - 1], bit);
    }
  }

  /**
   * A task does not sleep with an event of the kernel it was not told of: if it is still waiting, then the
   * scheduler is between getting the event and the wakeup.
   */
  lemma NoSleepOnEvents(states: seq<Task>, actions: seq<Action>, i: nat, j: nat, bit: Bit)
    requires IsRun(states, actions) && i < j < |states|
    requires actions[i].Collect? && bit in actions[i].mask
    requires forall k :: i < k < j ==> !Settles(states[k], actions[k], bit)
    ensures states[j].status == WAITING ==> states[j].scheduler.Collected? || states[j].scheduler == Merged
    ensures states[j].status == WAITING && states[j].scheduler == Merged ==>
              bit in Do(states[j], KernelCas).ready && Do(states[j], KernelCas).readyList == 1
  {
    EventStays(states, actions, i, j, bit);
    RunInv(states, actions, j);
  }

  /** A closed task has no events, and the kernel reports none for it until it is posted again. */
  lemma ClosedIsSilent(states: seq<Task>, actions: seq<Action>, n: nat, mask: set<Bit>)
    requires IsRun(states, actions) && n < |states| && states[n].isClosed
    ensures !states[n].registered && !Enabled(states[n], Collect(mask))
    ensures states[n].status == CLOSED ==> states[n].pending == {}
  {
    RunInv(states, actions, n);
  }

  /** In at most one worker, and in no queue and not waiting then. */
  lemma OneWorker(states: seq<Task>, actions: seq<Action>, n: nat)
    requires IsRun(states, actions) && n < |states|
    ensures var s := states[n];
      && s.popped + s.running + s.closing <= 1
      && (s.popped + s.running + s.closing == 1 ==>
            s.front + s.pendingQueue + s.readyList + s.readyQueue + OnTheWay(s) == 0 && s.status != WAITING)
  {
    RunInv(states, actions, n);
  }
}
