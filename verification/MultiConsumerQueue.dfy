/**
 * The multi-consumer queue of src/mg/box/MultiConsumerQueueBase.cpp as a state
 * machine: one producer, any number of consumers, one step per atomic operation
 * or locked section. Stores to cells behind the flush index come in a separate
 * step before the store that publishes them.
 *
 * `pushed`, `flushed`, `pendings`, `popped`, `announced` and `base` are history
 * variables: no guard reads them.
 */
module MultiConsumerQueue {
  type Item = int
  type SubId = nat
  type ConsumerId = nat

  datatype Cell = Null | Full(item: Item)

  /** `base` is the number of items flushed before the sub-queue became the write position. */
  datatype SubQueue = SubQueue(
    cells: seq<Cell>,
    readIndex: nat,
    flushIndex: nat,
    writeIndex: nat,
    firstPending: Cell,
    consumerCount: nat,
    base: nat)

  /** What the producer does after flushing a sub-queue. */
  datatype After = Done | SwitchFor(item: Item, isPending: bool)

  datatype Producer =
    | Idle
    | PushTry(item: Item)
    | PushPublish(item: Item)
    | FlushPrepare(after: After)
    | FlushPublish(after: After)
    | Switch(item: Item, isPending: bool)

  datatype ConsumerPc =
    | Resting
    | LoadIndex
    | LoadCell(index: nat)
    | TryCas(index: nat, item: Item)
    | Exhausted
    | Got(item: Item)

  datatype Consumer = Consumer(sub: SubId, pc: ConsumerPc)

  /** The list of sub-queues is past + [wpos] + future. */
  datatype State = State(
    size: nat,
    subs: map<SubId, SubQueue>,
    past: seq<SubId>,
    wpos: SubId,
    future: seq<SubId>,
    count: int,
    pendingCount: nat,
    producer: Producer,
    consumers: map<ConsumerId, Consumer>,
    pushed: seq<Item>,
    flushed: seq<Item>,
    pendings: seq<Item>,
    popped: seq<Item>,
    announced: nat)

  datatype Action =
    | ActPush(x: Item)
    | ActPushPending(x: Item)
    | ActFlush
    | ActPrepare
    | ActPublish
    | ActSwitch(spare: SubId)
    | ActReserve(spares: seq<SubId>)
    | ActAttach(c: ConsumerId)
    | ActDetach(c: ConsumerId)
    | ActPop(c: ConsumerId)
    | ActLoadIndex(c: ConsumerId)
    | ActLoadCell(c: ConsumerId)
    | ActCas(c: ConsumerId, spurious: bool)
    | ActNextSub(c: ConsumerId, k: nat)
    | ActDecrement(c: ConsumerId)

  function List(s: State): seq<SubId> {
    s.past + [s.wpos] + s.future
  }

  function NewSub(size: nat): SubQueue {
    SubQueue(seq(size + 1, _ => Null), 0, 0, 0, Null, 0, 0)
  }

  function Remove<T(==)>(q: seq<T>, x: T): seq<T> {
    if q == [] then [] else if q[0] == x then q[1..] else [q[0]] + Remove(q[1..], x)
  }

  // ------------------------------------------------------------------
  // Producer

  function Wsub(s: State): SubQueue
    requires s.wpos in s.subs
  {
    s.subs[s.wpos]
  }

  function SetWsub(s: State, q: SubQueue): State {
    s.(subs := s.subs[s.wpos := q])
  }

  /** The count grows before anything of it becomes visible. */
  function Announce(s: State, n: nat): State {
    s.(count := s.count + n, announced := s.announced + n, pendingCount := 0)
  }

  ghost predicate PushStep(s: State, s': State, x: Item) {
    s.producer == Idle &&
    s' == Announce(s, s.pendingCount + 1).(producer := PushTry(x), pushed := s.pushed + [x])
  }

  /** MCQBaseSubQueue::PushPending on a sub-queue with space. */
  function AppendPending(s: State, x: Item): State
    requires s.wpos in s.subs && Wsub(s).writeIndex < |Wsub(s).cells|
  {
    var q := Wsub(s);
    SetWsub(s, if q.firstPending == Null
               then q.(firstPending := Full(x), writeIndex := q.writeIndex + 1)
               else q.(cells := q.cells[q.writeIndex := Full(x)], writeIndex := q.writeIndex + 1))
    .(producer := Idle, pendingCount := s.pendingCount + 1, pendings := s.pendings + [x])
  }

  ghost predicate PushPendingStep(s: State, s': State, x: Item) {
    s.producer == Idle && s.wpos in s.subs &&
    var s1 := s.(pushed := s.pushed + [x]);
    if Wsub(s).writeIndex < s.size then
      Wsub(s).writeIndex < |Wsub(s).cells| && s' == AppendPending(s1, x)
    else if s.pendingCount == 0 then
      s' == s1.(producer := Switch(x, true))
    else
      s' == Announce(s1, s.pendingCount).(producer := FlushPrepare(SwitchFor(x, true)))
  }

  ghost predicate FlushStep(s: State, s': State) {
    s.producer == Idle &&
    s' == if s.pendingCount == 0 then s
          else Announce(s, s.pendingCount).(producer := FlushPrepare(Done))
  }

  function AfterFlush(after: After): Producer {
    if after == Done then Idle else Switch(after.item, after.isPending)
  }

  /** Stores to cells which the consumers can't reach yet, or leaving the full sub-queue. */
  ghost predicate PrepareStep(s: State, s': State) {
    s.wpos in s.subs &&
    var q := Wsub(s);
    match s.producer
    case PushTry(x) =>
      if q.writeIndex == s.size then
        s' == s.(producer := if q.firstPending == Null then Switch(x, false)
                             else FlushPrepare(SwitchFor(x, false)))
      else
        q.writeIndex + 1 < |q.cells| &&
        var cells := q.cells[q.writeIndex + 1 := Null];
        s' == SetWsub(s, q.(cells := if q.firstPending == Null then cells
                                     else cells[q.writeIndex := Full(x)]))
              .(producer := PushPublish(x))
    case FlushPrepare(after) =>
      q.writeIndex < |q.cells| &&
      s' == SetWsub(s, q.(cells := q.cells[q.writeIndex := Null])).(producer := FlushPublish(after))
    case _ => false
  }

  function Published(s: State, items: seq<Item>): State {
    s.(flushed := s.flushed + items, pendings := [], announced := if s.announced < |items| then 0
                                                                  else s.announced - |items|)
  }

  /** The one exchange that makes everything up to the write index visible. */
  ghost predicate PublishStep(s: State, s': State) {
    s.wpos in s.subs &&
    var q := Wsub(s);
    q.flushIndex < |q.cells| &&
    match s.producer
    case PushPublish(x) =>
      var item := if q.firstPending == Null then Full(x) else q.firstPending;
      s' == SetWsub(Published(s, s.pendings + [x]),
                    q.(cells := q.cells[q.flushIndex := item], firstPending := Null,
                       flushIndex := q.writeIndex + 1, writeIndex := q.writeIndex + 1))
            .(producer := Idle)
    case FlushPublish(after) =>
      s' == SetWsub(Published(s, s.pendings),
                    q.(cells := q.cells[q.flushIndex := q.firstPending], firstPending := Null,
                       flushIndex := q.writeIndex))
            .(producer := AfterFlush(after))
    case _ => false
  }

  /** PrivNextWpos under the lock; then the push goes on in the new sub-queue. */
  ghost predicate SwitchStep(s: State, s': State, spare: SubId) {
    s.producer.Switch? &&
    (s.future == [] ==> spare !in s.subs) &&
    (s.future != [] ==> s.future[0] in s.subs) &&
    var x := s.producer.item;
    var next := if s.future == [] then spare else s.future[0];
    var q := (if s.future == [] then NewSub(s.size) else s.subs[next]).(base := |s.flushed|);
    var s1 := s.(subs := s.subs[next := q], past := s.past + [s.wpos], wpos := next,
                 future := if s.future == [] then [] else s.future[1..]);
    if s.producer.isPending then
      q.writeIndex < |q.cells| && s' == AppendPending(s1, x)
    else
      s' == s1.(producer := PushTry(x))
  }

  /** Under the lock, at any moment. */
  ghost predicate ReserveStep(s: State, s': State, spares: seq<SubId>) {
    (forall i :: 0 <= i < |spares| ==> spares[i] !in s.subs) &&
    (forall i, j :: 0 <= i < j < |spares| ==> spares[i] != spares[j]) &&
    s' == s.(future := s.future + spares,
             subs := s.subs + (map f | f in spares :: NewSub(s.size)))
  }

  // ------------------------------------------------------------------
  // Consumers

  function SetPc(s: State, c: ConsumerId, pc: ConsumerPc): State
    requires c in s.consumers
  {
    s.(consumers := s.consumers[c := s.consumers[c].(pc := pc)])
  }

  function Ref(s: State, sub: SubId): State
    requires sub in s.subs
  {
    s.(subs := s.subs[sub := s.subs[sub].(consumerCount := s.subs[sub].consumerCount + 1)])
  }

  function Unref(s: State, sub: SubId): State
    requires sub in s.subs && s.subs[sub].consumerCount > 0
  {
    s.(subs := s.subs[sub := s.subs[sub].(consumerCount := s.subs[sub].consumerCount - 1)])
  }

  function Reset(q: SubQueue): SubQueue
    requires |q.cells| > 0
  {
    q.(readIndex := 0, flushIndex := 0, writeIndex := 0, cells := q.cells[0 := Null])
  }

  predicate IsGarbage(s: State, sub: SubId)
    requires sub in s.subs
  {
    sub != s.wpos && s.subs[sub].consumerCount == 0 && s.subs[sub].readIndex >= s.size
  }

  /** PrivGarbageCollectLocked: an unused exhausted sub-queue goes to the end of the list. */
  function Collect(s: State, sub: SubId): State
    requires sub in s.subs && |s.subs[sub].cells| > 0
  {
    if !IsGarbage(s, sub) then s
    else s.(past := Remove(s.past, sub), future := Remove(s.future, sub) + [sub],
            subs := s.subs[sub := Reset(s.subs[sub])])
  }

  ghost predicate AttachStep(s: State, s': State, c: ConsumerId) {
    c !in s.consumers && List(s)[0] in s.subs &&
    s' == Ref(s, List(s)[0]).(consumers := s.consumers[c := Consumer(List(s)[0], Resting)])
  }

  ghost predicate DetachStep(s: State, s': State, c: ConsumerId) {
    c in s.consumers && s.consumers[c].pc == Resting &&
    var sub := s.consumers[c].sub;
    sub in s.subs && s.subs[sub].consumerCount > 0 && |s.subs[sub].cells| > 0 &&
    s' == Collect(Unref(s, sub).(consumers := s.consumers - {c}), sub)
  }

  ghost predicate PopStep(s: State, s': State, c: ConsumerId) {
    c in s.consumers && s.consumers[c].pc == Resting && s' == SetPc(s, c, LoadIndex)
  }

  ghost predicate LoadIndexStep(s: State, s': State, c: ConsumerId) {
    c in s.consumers && s.consumers[c].pc == LoadIndex && s.consumers[c].sub in s.subs &&
    s' == SetPc(s, c, LoadCell(s.subs[s.consumers[c].sub].readIndex))
  }

  ghost predicate LoadCellStep(s: State, s': State, c: ConsumerId) {
    c in s.consumers && s.consumers[c].pc.LoadCell? && s.consumers[c].sub in s.subs &&
    var q := s.subs[s.consumers[c].sub];
    var index := s.consumers[c].pc.index;
    if index == s.size then
      s' == SetPc(s, c, Exhausted)
    else
      index < |q.cells| &&
      s' == SetPc(s, c, if q.cells[index] == Null then Resting
                        else TryCas(index, q.cells[index].item))
  }

  ghost predicate CasStep(s: State, s': State, c: ConsumerId, spurious: bool) {
    c in s.consumers && s.consumers[c].pc.TryCas? && s.consumers[c].sub in s.subs &&
    var sub := s.consumers[c].sub;
    var q := s.subs[sub];
    var pc := s.consumers[c].pc;
    s' == if q.readIndex == pc.index && !spurious
          then SetPc(s, c, Got(pc.item)).(subs := s.subs[sub := q.(readIndex := pc.index + 1)],
                                          popped := s.popped + [pc.item])
          else SetPc(s, c, LoadCell(q.readIndex))
  }

  /** The slow path of MCQBaseConsumer::Pop; `k` is the place of the sub-queue in the list. */
  ghost predicate NextSubStep(s: State, s': State, c: ConsumerId, k: nat) {
    c in s.consumers && s.consumers[c].pc == Exhausted &&
    var sub := s.consumers[c].sub;
    sub in s.subs && k < |List(s)| && List(s)[k] == sub &&
    if sub == s.wpos then
      s' == SetPc(s, c, Resting)
    else
      k + 1 < |List(s)| && s.subs[sub].consumerCount > 0 && |s.subs[sub].cells| > 0 &&
      var next := List(s)[k + 1];
      next in s.subs &&
      s' == Ref(Collect(Unref(s, sub), sub), next)
            .(consumers := s.consumers[c := Consumer(next, LoadIndex)])
  }

  ghost predicate DecrementStep(s: State, s': State, c: ConsumerId) {
    c in s.consumers && s.consumers[c].pc.Got? &&
    s' == SetPc(s, c, Resting).(count := s.count - 1)
  }

  ghost predicate Next(s: State, s': State, a: Action) {
    match a
    case ActPush(x) => PushStep(s, s', x)
    case ActPushPending(x) => PushPendingStep(s, s', x)
    case ActFlush => FlushStep(s, s')
    case ActPrepare => PrepareStep(s, s')
    case ActPublish => PublishStep(s, s')
    case ActSwitch(spare) => SwitchStep(s, s', spare)
    case ActReserve(spares) => ReserveStep(s, s', spares)
    case ActAttach(c) => AttachStep(s, s', c)
    case ActDetach(c) => DetachStep(s, s', c)
    case ActPop(c) => PopStep(s, s', c)
    case ActLoadIndex(c) => LoadIndexStep(s, s', c)
    case ActLoadCell(c) => LoadCellStep(s, s', c)
    case ActCas(c, spurious) => CasStep(s, s', c, spurious)
    case ActNextSub(c, k) => NextSubStep(s, s', c, k)
    case ActDecrement(c) => DecrementStep(s, s', c)
  }

  ghost predicate Init(s: State) {
    s.size > 0 &&
    s == State(s.size, map[s.wpos := NewSub(s.size)], [], s.wpos, [], 0, 0, Idle, map[],
               [], [], [], [], 0)
  }
}
