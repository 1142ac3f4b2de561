/** What every step of the multi-consumer queue keeps. */
module MultiConsumerQueueSafety {
  import opened MultiConsumerQueue

  predicate NoDup<T(==)>(q: seq<T>) {
    forall i, j :: 0 <= i < j < |q| ==> q[i] != q[j]
  }

  /** The sub-queues up to the write position: those a consumer may be in. */
  function Live(s: State): seq<SubId> {
    s.past + [s.wpos]
  }

  ghost predicate ListOk(s: State) {
    && s.size > 0
    && NoDup(List(s))
    && (forall sub {:trigger IsLive(s, sub)} {:trigger sub in s.future} ::
          sub in s.subs <==> IsLive(s, sub) || sub in s.future)
  }

  predicate IsLive(s: State, sub: SubId) {
    sub in s.past || sub == s.wpos
  }

  /** How much of a sub-queue is read after `popped` pops in all. */
  function ReadOf(q: SubQueue, popped: nat): nat {
    if popped <= q.base then 0
    else if popped - q.base >= q.flushIndex then q.flushIndex
    else popped - q.base
  }

  /** What a sub-queue up to the write position shows to its consumers. */
  ghost predicate SubOk(s: State, sub: SubId)
    requires sub in s.subs
  {
    var q := s.subs[sub];
    && |q.cells| == s.size + 1
    && q.flushIndex <= q.writeIndex <= s.size
    && q.base + q.flushIndex <= |s.flushed|
    && (forall i :: 0 <= i < q.flushIndex ==> q.cells[i] == Full(s.flushed[q.base + i]))
    && q.cells[q.flushIndex] == Null
    && q.readIndex == ReadOf(q, |s.popped|)
    && (sub != s.wpos ==>
          q.flushIndex == s.size && q.writeIndex == s.size && q.firstPending == Null)
  }

  ghost predicate FutureOk(s: State, sub: SubId)
    requires sub in s.subs
  {
    var q := s.subs[sub];
    && |q.cells| == s.size + 1
    && q.readIndex == 0 && q.flushIndex == 0 && q.writeIndex == 0
    && q.firstPending == Null && q.cells[0] == Null && q.consumerCount == 0
  }

  ghost predicate SubsOk(s: State) {
    && (forall sub {:trigger SubOk(s, sub)} :: IsLive(s, sub) ==> sub in s.subs && SubOk(s, sub))
    && (forall sub {:trigger FutureOk(s, sub)} :: sub in s.future ==>
          sub in s.subs && FutureOk(s, sub))
  }

  function BaseAt(s: State, i: nat): nat
    requires i <= |s.past|
  {
    if Live(s)[i] in s.subs then s.subs[Live(s)[i]].base else 0
  }

  predicate Before(s: State, i: nat, j: nat)
    requires i <= |s.past| && j <= |s.past|
  {
    BaseAt(s, i) + s.size <= BaseAt(s, j)
  }

  predicate NoGap(s: State, i: nat)
    requires 0 < i <= |s.past|
  {
    BaseAt(s, i) <= |s.popped| || BaseAt(s, i) == BaseAt(s, i - 1) + s.size
  }

  /** The list is in the order of flushing, with holes only where all is read. */
  ghost predicate OrderOk(s: State) {
    && (forall i: nat, j: nat {:trigger Before(s, i, j)} :: i < j <= |s.past| ==> Before(s, i, j))
    && (forall i: nat {:trigger NoGap(s, i)} :: 0 < i <= |s.past| ==> NoGap(s, i))
    && BaseAt(s, 0) <= |s.popped|
    && |s.popped| <= |s.flushed| && s.popped == s.flushed[..|s.popped|]
  }

  function InFlight(s: State): seq<Item> {
    match s.producer
    case PushTry(x) => [x]
    case PushPublish(x) => [x]
    case FlushPrepare(SwitchFor(x, _)) => [x]
    case FlushPublish(SwitchFor(x, _)) => [x]
    case Switch(x, _) => [x]
    case _ => []
  }

  /** How much of the count is not visible yet. */
  function Announced(s: State): nat {
    match s.producer
    case Idle => 0
    case PushTry(_) => |s.pendings| + 1
    case PushPublish(_) => |s.pendings| + 1
    case FlushPrepare(after) => |s.pendings| + (if after.SwitchFor? && !after.isPending then 1 else 0)
    case FlushPublish(after) => |s.pendings| + (if after.SwitchFor? && !after.isPending then 1 else 0)
    case Switch(_, isPending) => if isPending then 0 else 1
  }

  ghost predicate ProducerOk(s: State) {
    && s.wpos in s.subs && |s.subs[s.wpos].cells| == s.size + 1
    && s.subs[s.wpos].flushIndex <= s.subs[s.wpos].writeIndex <= s.size
    && var q := s.subs[s.wpos];
    && q.base + q.flushIndex == |s.flushed|
    && |s.pendings| == q.writeIndex - q.flushIndex
    && q.firstPending == (if s.pendings == [] then Null else Full(s.pendings[0]))
    && (forall i :: 0 < i < |s.pendings| ==> q.cells[q.flushIndex + i] == Full(s.pendings[i]))
    && s.pushed == s.flushed + s.pendings + InFlight(s)
    && s.announced == Announced(s)
    && s.pendingCount == (if s.producer == Idle then |s.pendings| else 0)
    && (s.producer.PushPublish? ==>
          && q.writeIndex < s.size && q.cells[q.writeIndex + 1] == Null
          && (s.pendings != [] ==> q.cells[q.writeIndex] == Full(s.producer.item)))
    && (s.producer.FlushPrepare? || s.producer.FlushPublish? ==>
          s.pendings != [] && (s.producer.after != Done ==> q.writeIndex == s.size))
    && (s.producer.FlushPublish? ==> q.cells[q.writeIndex] == Null)
    && (s.producer.Switch? ==> q.flushIndex == s.size)
  }

  ghost predicate PcOk(s: State, q: SubQueue, pc: ConsumerPc) {
    match pc
    case LoadCell(index) => index <= q.readIndex
    case TryCas(index, item) =>
      index <= q.readIndex && index < q.flushIndex && index < |q.cells| &&
      q.cells[index] == Full(item)
    case Exhausted => q.readIndex == s.size
    case _ => true
  }

  /** A consumer is at or before the write position, and everything before it is read. */
  ghost predicate ConsumerOk(s: State, c: ConsumerId)
    requires c in s.consumers
  {
    var sub := s.consumers[c].sub;
    sub in s.subs && IsLive(s, sub) && s.subs[sub].base <= |s.popped| &&
    PcOk(s, s.subs[sub], s.consumers[c].pc)
  }

  function Users(s: State, sub: SubId): set<ConsumerId> {
    set c | c in s.consumers && s.consumers[c].sub == sub
  }

  function Holders(s: State): set<ConsumerId> {
    set c | c in s.consumers && s.consumers[c].pc.Got?
  }

  ghost predicate ConsumersOk(s: State) {
    && (forall c {:trigger ConsumerOk(s, c)} :: c in s.consumers ==> ConsumerOk(s, c))
    && (forall sub {:trigger Users(s, sub)} :: sub in s.subs ==>
          s.subs[sub].consumerCount == |Users(s, sub)|)
  }

  ghost predicate CountOk(s: State) {
    s.count == |s.flushed| - |s.popped| + s.announced + |Holders(s)|
  }

  ghost predicate Structure(s: State) {
    ListOk(s) && SubsOk(s) && OrderOk(s) && ConsumersOk(s)
  }

  ghost predicate Inv(s: State) {
    Structure(s) && ProducerOk(s) && CountOk(s)
  }

  lemma InitInv(s: State)
    requires Init(s)
    ensures Inv(s)
  {
    assert SubOk(s, s.wpos);
    assert Users(s, s.wpos) == {};
    assert Holders(s) == {};
  }

  // ------------------------------------------------------------------
  // What a step leaves alone

  lemma ListFacts(s: State)
    requires ListOk(s)
    ensures forall i, j :: 0 <= i < j <= |s.past| ==> Live(s)[i] != Live(s)[j]
    ensures forall sub :: sub in s.future ==> !IsLive(s, sub)
  {
    assert Live(s)[|s.past|] == s.wpos;
    forall sub | sub in s.past
      ensures exists i :: 0 <= i < |s.past| && Live(s)[i] == sub
    {
      var i :| 0 <= i < |s.past| && s.past[i] == sub;
      assert Live(s)[i] == sub;
    }
    forall i, j | 0 <= i < j <= |s.past|
      ensures Live(s)[i] != Live(s)[j]
    {
      assert List(s)[i] == Live(s)[i] && List(s)[j] == Live(s)[j];
    }
    forall i, j | 0 <= i <= |s.past| && 0 <= j < |s.future|
      ensures Live(s)[i] != s.future[j]
    {
      assert List(s)[i] == Live(s)[i] && List(s)[|s.past| + 1 + j] == s.future[j];
    }
  }

  /** Same list; sub-queues show at least the same and are read alike. */
  ghost predicate Grows(s: State, s': State) {
    && s'.size == s.size && s'.past == s.past && s'.wpos == s.wpos && s'.future == s.future
    && s'.popped == s.popped && s.flushed <= s'.flushed
    && s'.subs.Keys == s.subs.Keys
    && (forall sub :: sub in s.subs && sub != s.wpos ==> s'.subs[sub] == s.subs[sub])
    && s.wpos in s.subs
    && var p, q := s.subs[s.wpos], s'.subs[s.wpos];
       && q.readIndex == p.readIndex && q.base == p.base && q.consumerCount == p.consumerCount
       && q.flushIndex >= p.flushIndex && |q.cells| == |p.cells|
       && (forall i :: 0 <= i < p.flushIndex && i < |p.cells| ==> q.cells[i] == p.cells[i])
  }

  lemma OrderKept(s: State, s': State)
    requires OrderOk(s) && s'.size == s.size && |s'.past| == |s.past|
    requires |s.popped| <= |s'.popped| <= |s'.flushed| && s'.popped == s'.flushed[..|s'.popped|]
    requires forall i: nat {:trigger BaseAt(s', i)} :: i <= |s.past| ==> BaseAt(s', i) == BaseAt(s, i)
    ensures OrderOk(s')
  {
    forall i: nat, j: nat | i < j <= |s'.past|
      ensures Before(s', i, j)
    {
      assert Before(s, i, j);
    }
    forall i: nat | 0 < i <= |s'.past|
      ensures NoGap(s', i)
    {
      assert NoGap(s, i);
    }
  }

  lemma SubsKept(s: State, s': State)
    requires ListOk(s) && SubsOk(s) && OrderOk(s) && Grows(s, s') && SubOk(s', s.wpos)
    ensures ListOk(s') && SubsOk(s') && OrderOk(s')
  {
    ListFacts(s);
    assert List(s') == List(s);
    forall sub
      ensures sub in s'.subs <==> IsLive(s', sub) || sub in s'.future
    {
      assert IsLive(s', sub) == IsLive(s, sub);
    }
    forall sub | IsLive(s', sub)
      ensures sub in s'.subs && SubOk(s', sub)
    {
      assert IsLive(s, sub) && SubOk(s, sub);
    }
    forall sub | sub in s'.future
      ensures sub in s'.subs && FutureOk(s', sub)
    {
      assert !IsLive(s, sub) && FutureOk(s, sub);
    }
    forall i: nat | i <= |s'.past|
      ensures BaseAt(s', i) == BaseAt(s, i)
    {
      assert Live(s') == Live(s);
    }
    OrderKept(s, s');
  }

  /** The sub-queues allow the consumers everything they did, and `c` may have moved. */
  lemma ConsumersKept(s: State, s': State)
    requires ConsumersOk(s) && Grows(s, s')
    requires s'.consumers.Keys == s.consumers.Keys
    requires forall c {:trigger ConsumerOk(s', c)} :: c in s.consumers ==>
      s'.consumers[c] == s.consumers[c] ||
      (s'.consumers[c].sub == s.consumers[c].sub && ConsumerOk(s', c))
    ensures ConsumersOk(s')
  {
    forall c | c in s'.consumers
      ensures ConsumerOk(s', c)
    {
      assert ConsumerOk(s, c);
      assert IsLive(s', s.consumers[c].sub);
    }
    forall sub | sub in s'.subs
      ensures s'.subs[sub].consumerCount == |Users(s', sub)|
    {
      assert Users(s', sub) == Users(s, sub);
    }
  }

  // ------------------------------------------------------------------
  // Producer steps

  /** What the producer relies on. */
  ghost predicate ProducerView(s: State) {
    s.size > 0 && ProducerOk(s) && SubOk(s, s.wpos) && |s.popped| <= |s.flushed|
  }

  lemma ProducerMoves(s: State, s': State)
    requires Inv(s) && ProducerView(s') && Grows(s, s') && s'.consumers == s.consumers
    requires s'.count - s.count ==
      |s'.flushed| - |s.flushed| + (s'.announced as int) - s.announced
    ensures Inv(s')
  {
    SubsKept(s, s');
    forall c | c in s.consumers
      ensures s'.consumers[c] == s.consumers[c]
    {}
    ConsumersKept(s, s');
    assert Holders(s') == Holders(s);
  }

  lemma ViewOf(s: State)
    requires Inv(s)
    ensures ProducerView(s)
  {
    assert IsLive(s, s.wpos);
    assert SubOk(s, s.wpos);
  }

  lemma PushPendingView(s: State, s': State, x: Item)
    requires ProducerView(s) && PushPendingStep(s, s', x) && Wsub(s).writeIndex < s.size
    ensures ProducerView(s') && Grows(s, s')
  {}

  lemma PushPendingFullView(s: State, s': State, x: Item)
    requires ProducerView(s) && PushPendingStep(s, s', x) && Wsub(s).writeIndex >= s.size
    ensures ProducerView(s') && Grows(s, s')
  {}

  /** Stores to cells behind the flush index are not visible. */
  lemma CellsBehind(s: State, s': State, cells: seq<Cell>, producer: Producer)
    requires s.wpos in s.subs && SubOk(s, s.wpos)
    requires s' == SetWsub(s, Wsub(s).(cells := cells)).(producer := producer)
    requires |cells| == s.size + 1 && cells[Wsub(s).flushIndex] == Null
    requires forall i :: 0 <= i < Wsub(s).flushIndex ==> cells[i] == Wsub(s).cells[i]
    ensures SubOk(s', s.wpos) && Grows(s, s')
  {}

  lemma PreparePush(s: State, s': State)
    requires ProducerView(s) && PrepareStep(s, s') && s.producer.PushTry?
    ensures SubOk(s', s.wpos) && Grows(s, s')
  {
    if Wsub(s).writeIndex < s.size {
      CellsBehind(s, s', Wsub(s').cells, s'.producer);
    }
  }

  lemma PreparePushProducer(s: State, s': State)
    requires ProducerView(s) && PrepareStep(s, s') && s.producer.PushTry?
    ensures ProducerOk(s')
  {
    if Wsub(s).writeIndex < s.size {
      assert s'.producer == PushPublish(s.producer.item);
    }
  }

  lemma PrepareFlush(s: State, s': State)
    requires ProducerView(s) && PrepareStep(s, s') && s.producer.FlushPrepare?
    ensures ProducerOk(s') && SubOk(s', s.wpos) && Grows(s, s')
  {
    CellsBehind(s, s', Wsub(s').cells, s'.producer);
  }

  lemma PrepareView(s: State, s': State)
    requires ProducerView(s) && PrepareStep(s, s')
    ensures ProducerView(s') && Grows(s, s')
  {
    if s.producer.PushTry? {
      PreparePush(s, s');
      PreparePushProducer(s, s');
    } else {
      PrepareFlush(s, s');
    }
  }

  lemma FlushView(s: State, s': State)
    requires ProducerView(s) && FlushStep(s, s')
    ensures ProducerView(s') && Grows(s, s')
  {}

  lemma PublishPushView(s: State, s': State)
    requires ProducerView(s) && PublishStep(s, s') && s.producer.PushPublish?
    ensures ProducerView(s') && Grows(s, s')
    ensures |s'.flushed| + s'.announced == |s.flushed| + s.announced
  {}

  lemma PublishFlushView(s: State, s': State)
    requires ProducerView(s) && PublishStep(s, s') && s.producer.FlushPublish?
    ensures ProducerView(s') && Grows(s, s')
    ensures |s'.flushed| + s'.announced == |s.flushed| + s.announced
  {}

  lemma PushKeeps(s: State, s': State, x: Item)
    requires Inv(s) && PushStep(s, s', x)
    ensures Inv(s')
  {
    ViewOf(s);
    ProducerMoves(s, s');
  }

  lemma PushPendingKeeps(s: State, s': State, x: Item)
    requires Inv(s) && PushPendingStep(s, s', x)
    ensures Inv(s')
  {
    ViewOf(s);
    if Wsub(s).writeIndex < s.size {
      PushPendingView(s, s', x);
    } else {
      PushPendingFullView(s, s', x);
    }
    ProducerMoves(s, s');
  }

  lemma FlushKeeps(s: State, s': State)
    requires Inv(s) && FlushStep(s, s')
    ensures Inv(s')
  {
    ViewOf(s);
    FlushView(s, s');
    ProducerMoves(s, s');
  }

  lemma PrepareKeeps(s: State, s': State)
    requires Inv(s) && PrepareStep(s, s')
    ensures Inv(s')
  {
    ViewOf(s);
    PrepareView(s, s');
    ProducerMoves(s, s');
  }

  lemma PublishKeeps(s: State, s': State)
    requires Inv(s) && PublishStep(s, s')
    ensures Inv(s')
  {
    ViewOf(s);
    if s.producer.PushPublish? {
      PublishPushView(s, s');
    } else {
      PublishFlushView(s, s');
    }
    ProducerMoves(s, s');
  }

  // ------------------------------------------------------------------
  // Consumer steps inside a sub-queue

  lemma ProducerStays(s: State, s': State)
    requires ProducerView(s) && s' == s.(consumers := s'.consumers, count := s'.count)
    ensures ProducerView(s') && Grows(s, s')
  {}

  lemma ConsumerMoves(s: State, s': State, c: ConsumerId)
    requires Inv(s) && c in s.consumers && s.consumers[c].sub in s.subs
    requires s' == s.(consumers := s'.consumers, count := s'.count)
    requires c in s'.consumers && s'.consumers == s.consumers[c := s'.consumers[c]]
    requires s'.consumers[c].sub == s.consumers[c].sub
    requires PcOk(s, s.subs[s.consumers[c].sub], s'.consumers[c].pc)
    ensures Structure(s') && ProducerOk(s')
  {
    ViewOf(s);
    ProducerStays(s, s');
    SubsKept(s, s');
    assert ConsumerOk(s, c);
    assert IsLive(s', s.consumers[c].sub);
    assert ConsumerOk(s', c);
    ConsumersKept(s, s');
  }

  lemma PopKeeps(s: State, s': State, c: ConsumerId)
    requires Inv(s) && PopStep(s, s', c)
    ensures Inv(s')
  {
    assert ConsumerOk(s, c);
    ConsumerMoves(s, s', c);
    assert Holders(s') == Holders(s);
  }

  lemma LoadIndexKeeps(s: State, s': State, c: ConsumerId)
    requires Inv(s) && LoadIndexStep(s, s', c)
    ensures Inv(s')
  {
    assert ConsumerOk(s, c);
    ConsumerMoves(s, s', c);
    assert Holders(s') == Holders(s);
  }

  lemma LoadCellKeeps(s: State, s': State, c: ConsumerId)
    requires Inv(s) && LoadCellStep(s, s', c)
    ensures Inv(s')
  {
    assert ConsumerOk(s, c) && SubOk(s, s.consumers[c].sub);
    ConsumerMoves(s, s', c);
    assert Holders(s') == Holders(s);
  }

  lemma DecrementKeeps(s: State, s': State, c: ConsumerId)
    requires Inv(s) && DecrementStep(s, s', c)
    ensures Inv(s')
  {
    assert ConsumerOk(s, c);
    ConsumerMoves(s, s', c);
    assert Holders(s') == Holders(s) - {c};
  }

  // ------------------------------------------------------------------
  // A successful pop

  lemma ProducerSame(s: State, s': State)
    requires ProducerOk(s)
    requires s' == s.(consumers := s'.consumers, subs := s'.subs, popped := s'.popped,
                      past := s'.past, future := s'.future)
    requires s.wpos in s'.subs
    requires s'.subs[s.wpos] == s.subs[s.wpos].(readIndex := s'.subs[s.wpos].readIndex,
                                                consumerCount := s'.subs[s.wpos].consumerCount)
    ensures ProducerOk(s')
  {}

  lemma LiveIndex(s: State, sub: SubId) returns (i: nat)
    requires IsLive(s, sub)
    ensures i <= |s.past| && Live(s)[i] == sub
    ensures sub in s.subs ==> BaseAt(s, i) == s.subs[sub].base
  {
    if sub == s.wpos {
      i := |s.past|;
    } else {
      i :| 0 <= i < |s.past| && s.past[i] == sub;
    }
  }

  /** The items of two sub-queues do not overlap. */
  lemma SubsApart(s: State, a: SubId, b: SubId)
    requires Structure(s) && IsLive(s, a) && IsLive(s, b) && a != b
    ensures a in s.subs && b in s.subs
    ensures
      || s.subs[a].base + s.size <= s.subs[b].base
      || s.subs[b].base + s.size <= s.subs[a].base
  {
    var i := LiveIndex(s, a);
    var j := LiveIndex(s, b);
    assert SubOk(s, a) && SubOk(s, b);
    assert i < j ==> Before(s, i, j);
    assert j < i ==> Before(s, j, i);
  }

  /** The next item in the order of flushing is taken from `sub`. */
  ghost predicate TakesNext(s: State, s': State, sub: SubId) {
    && IsLive(s, sub) && sub in s.subs && |s.popped| < |s.flushed|
    && var q := s.subs[sub];
    && q.readIndex < q.flushIndex && |s.popped| == q.base + q.readIndex
    && s' == s.(consumers := s'.consumers, popped := s.popped + [s.flushed[|s.popped|]],
                subs := s.subs[sub := q.(readIndex := q.readIndex + 1)])
  }

  lemma CasTakesNext(s: State, s': State, c: ConsumerId)
    requires Structure(s) && CasStep(s, s', c, false) && s'.popped != s.popped
    ensures TakesNext(s, s', s.consumers[c].sub)
  {
    assert ConsumerOk(s, c) && SubOk(s, s.consumers[c].sub);
  }

  lemma CasSub(s: State, s': State, sub: SubId, u: SubId)
    requires Structure(s) && TakesNext(s, s', sub) && IsLive(s, u)
    ensures u in s'.subs && SubOk(s', u)
  {
    assert SubOk(s, sub) && SubOk(s, u);
    if u != sub {
      SubsApart(s, u, sub);
    }
  }

  lemma CasSubs(s: State, s': State, sub: SubId)
    requires Structure(s) && TakesNext(s, s', sub)
    ensures ListOk(s') && SubsOk(s') && OrderOk(s')
  {
    assert SubOk(s, sub);
    assert List(s') == List(s) && Live(s') == Live(s);
    forall u
      ensures u in s'.subs <==> IsLive(s', u) || u in s'.future
    {
      assert IsLive(s', u) == IsLive(s, u);
    }
    forall u | IsLive(s', u)
      ensures u in s'.subs && SubOk(s', u)
    {
      CasSub(s, s', sub, u);
    }
    ListFacts(s);
    forall u | u in s'.future
      ensures u in s'.subs && FutureOk(s', u)
    {
      assert FutureOk(s, u);
    }
    forall i: nat | i <= |s'.past|
      ensures BaseAt(s', i) == BaseAt(s, i)
    {}
    OrderKept(s, s');
  }

  lemma CasConsumers(s: State, s': State, c: ConsumerId)
    requires Structure(s) && CasStep(s, s', c, false) && s'.popped != s.popped
    ensures ConsumersOk(s')
    ensures Holders(s') == Holders(s) + {c} && c !in Holders(s)
  {
    var sub := s.consumers[c].sub;
    assert ConsumerOk(s, c) && SubOk(s, sub);
    forall d | d in s'.consumers
      ensures ConsumerOk(s', d)
    {
      assert ConsumerOk(s, d);
      assert IsLive(s', s.consumers[d].sub);
    }
    forall u | u in s'.subs
      ensures s'.subs[u].consumerCount == |Users(s', u)|
    {
      assert Users(s', u) == Users(s, u);
    }
    assert Holders(s') == Holders(s) + {c};
  }

  lemma CasKeeps(s: State, s': State, c: ConsumerId, spurious: bool)
    requires Inv(s) && CasStep(s, s', c, spurious)
    ensures Inv(s')
  {
    if s'.popped != s.popped {
      CasTakesNext(s, s', c);
      CasSubs(s, s', s.consumers[c].sub);
      CasConsumers(s, s', c);
      ProducerSame(s, s');
    } else {
      assert ConsumerOk(s, c);
      ConsumerMoves(s, s', c);
      assert Holders(s') == Holders(s);
    }
  }

  // ------------------------------------------------------------------
  // Moving over the list

  /** Only the reference counts of sub-queues in use change. */
  lemma CountersMove(s: State, s': State)
    requires Structure(s)
    requires s' == s.(consumers := s'.consumers, subs := s'.subs) && s'.subs.Keys == s.subs.Keys
    requires forall u :: u in s.subs ==>
      s'.subs[u] == s.subs[u].(consumerCount := s'.subs[u].consumerCount) &&
      (!IsLive(s, u) ==> s'.subs[u] == s.subs[u])
    ensures ListOk(s') && SubsOk(s') && OrderOk(s')
  {
    ListFacts(s);
    assert List(s') == List(s) && Live(s') == Live(s);
    forall u
      ensures u in s'.subs <==> IsLive(s', u) || u in s'.future
    {
      assert IsLive(s', u) == IsLive(s, u);
    }
    forall u | IsLive(s', u)
      ensures u in s'.subs && SubOk(s', u)
    {
      assert IsLive(s, u) && SubOk(s, u);
    }
    forall u | u in s'.future
      ensures u in s'.subs && FutureOk(s', u)
    {
      assert FutureOk(s, u);
    }
    forall i: nat | i <= |s'.past|
      ensures BaseAt(s', i) == BaseAt(s, i)
    {}
    OrderKept(s, s');
  }

  function Left(s: State, c: ConsumerId): State
    requires c in s.consumers && s.consumers[c].sub in s.subs
    requires s.subs[s.consumers[c].sub].consumerCount > 0
  {
    Unref(s, s.consumers[c].sub).(consumers := s.consumers - {c})
  }

  lemma LeaveStructure(s: State, c: ConsumerId)
    requires Structure(s) && c in s.consumers && !s.consumers[c].pc.Got?
    ensures s.consumers[c].sub in s.subs && s.subs[s.consumers[c].sub].consumerCount > 0
    ensures Structure(Left(s, c))
  {
    assert ConsumerOk(s, c);
    var sub := s.consumers[c].sub;
    assert c in Users(s, sub);
    ListFacts(s);
    var s' := Left(s, c);
    CountersMove(s, s');
    forall d | d in s'.consumers
      ensures ConsumerOk(s', d)
    {
      assert ConsumerOk(s, d);
      assert IsLive(s', s.consumers[d].sub);
    }
    forall u | u in s'.subs
      ensures s'.subs[u].consumerCount == |Users(s', u)|
    {
      assert Users(s', u) == if u == sub then Users(s, u) - {c} else Users(s, u);
    }
  }

  lemma LeaveKeeps(s: State, c: ConsumerId)
    requires Inv(s) && c in s.consumers && !s.consumers[c].pc.Got?
    ensures s.consumers[c].sub in s.subs && s.subs[s.consumers[c].sub].consumerCount > 0
    ensures Inv(Left(s, c))
  {
    LeaveStructure(s, c);
    ProducerSame(s, Left(s, c));
    assert Holders(Left(s, c)) == Holders(s);
  }

  function Entered(s: State, c: ConsumerId, sub: SubId, pc: ConsumerPc): State
    requires sub in s.subs
  {
    Ref(s, sub).(consumers := s.consumers[c := Consumer(sub, pc)])
  }

  lemma EnterConsumers(s: State, c: ConsumerId, sub: SubId, pc: ConsumerPc)
    requires Structure(s) && c !in s.consumers && IsLive(s, sub) && sub in s.subs
    requires s.subs[sub].base <= |s.popped| && (pc == Resting || pc == LoadIndex)
    ensures forall d {:trigger ConsumerOk(Entered(s, c, sub, pc), d)} :: d in Entered(s, c, sub, pc).consumers ==>
      ConsumerOk(Entered(s, c, sub, pc), d)
  {
    var s' := Entered(s, c, sub, pc);
    forall d | d in s'.consumers
      ensures ConsumerOk(s', d)
    {
      if d != c {
        assert ConsumerOk(s, d);
      }
      assert IsLive(s', s'.consumers[d].sub);
    }
  }

  lemma EnterUsers(s: State, c: ConsumerId, sub: SubId, pc: ConsumerPc, u: SubId)
    requires ConsumersOk(s) && c !in s.consumers && sub in s.subs && u in s.subs
    ensures var s' := Entered(s, c, sub, pc); s'.subs[u].consumerCount == |Users(s', u)|
  {
    var s' := Entered(s, c, sub, pc);
    assert Users(s', u) == if u == sub then Users(s, u) + {c} else Users(s, u);
    assert c !in Users(s, u);
  }

  lemma EnterStructure(s: State, c: ConsumerId, sub: SubId, pc: ConsumerPc)
    requires Structure(s) && c !in s.consumers && IsLive(s, sub) && sub in s.subs
    requires s.subs[sub].base <= |s.popped| && (pc == Resting || pc == LoadIndex)
    ensures Structure(Entered(s, c, sub, pc))
  {
    ListFacts(s);
    var s' := Entered(s, c, sub, pc);
    CountersMove(s, s');
    EnterConsumers(s, c, sub, pc);
    forall u | u in s'.subs
      ensures s'.subs[u].consumerCount == |Users(s', u)|
    {
      EnterUsers(s, c, sub, pc, u);
    }
  }

  lemma EnterKeeps(s: State, c: ConsumerId, sub: SubId, pc: ConsumerPc)
    requires Inv(s) && c !in s.consumers && IsLive(s, sub) && sub in s.subs
    requires s.subs[sub].base <= |s.popped| && (pc == Resting || pc == LoadIndex)
    ensures Inv(Entered(s, c, sub, pc))
  {
    EnterStructure(s, c, sub, pc);
    ProducerSame(s, Entered(s, c, sub, pc));
    assert Holders(Entered(s, c, sub, pc)) == Holders(s);
  }

  lemma {:induction false} RemoveAt<T>(q: seq<T>, k: nat)
    requires NoDup(q) && k < |q|
    ensures Remove(q, q[k]) == q[..k] + q[k + 1..]
  {
    if k > 0 {
      assert q[0] != q[k];
      forall i, j | 0 <= i < j < |q[1..]|
        ensures q[1..][i] != q[1..][j]
      {
        assert q[i + 1] != q[j + 1];
      }
      RemoveAt(q[1..], k - 1);
      assert q[1..][..k - 1] == q[1..k] && q[1..][k..] == q[k + 1..];
      assert [q[0]] + q[1..k] == q[..k];
    }
  }

  lemma {:induction false} RemoveAbsent<T>(q: seq<T>, x: T)
    requires x !in q
    ensures Remove(q, x) == q
  {
    if q != [] {
      RemoveAbsent(q[1..], x);
    }
  }

  lemma FoundAt(s: State, sub: SubId) returns (k: nat)
    requires ListOk(s) && IsLive(s, sub) && sub != s.wpos
    ensures k < |s.past| && s.past[k] == sub && Live(s)[k] == sub
    ensures Remove(s.past, sub) == s.past[..k] + s.past[k + 1..]
    ensures Remove(s.future, sub) == s.future
  {
    ListFacts(s);
    k :| 0 <= k < |s.past| && s.past[k] == sub;
    assert Live(s)[k] == sub;
    forall i, j | 0 <= i < j < |s.past|
      ensures s.past[i] != s.past[j]
    {
      assert Live(s)[i] == s.past[i] && Live(s)[j] == s.past[j];
    }
    RemoveAt(s.past, k);
    RemoveAbsent(s.future, sub);
  }

  /** A fully read sub-queue takes its part of the order with it. */
  lemma CollectOrder(s: State, sub: SubId, k: nat)
    requires Structure(s) && IsLive(s, sub) && sub in s.subs && |s.subs[sub].cells| > 0
    requires IsGarbage(s, sub)
    requires k < |s.past| && Live(s)[k] == sub
    requires Collect(s, sub).past == s.past[..k] + s.past[k + 1..]
    ensures OrderOk(Collect(s, sub))
  {
    assert SubOk(s, sub);
    ListFacts(s);
    var s' := Collect(s, sub);
    assert BaseAt(s, k) + s.size <= |s.popped|;
    forall i: nat | i <= |s'.past|
      ensures BaseAt(s', i) == BaseAt(s, if i < k then i else i + 1)
    {
      var j := if i < k then i else i + 1;
      assert Live(s')[i] == Live(s)[j];
      assert Live(s)[j] != sub;
    }
    assert NoGap(s, k + 1) && BaseAt(s, k + 1) <= |s.popped|;
    forall i: nat, j: nat | i < j <= |s'.past|
      ensures Before(s', i, j)
    {
      assert Before(s, if i < k then i else i + 1, if j < k then j else j + 1);
    }
    forall i: nat | 0 < i <= |s'.past|
      ensures NoGap(s', i)
    {
      assert NoGap(s, if i < k then i else i + 1);
    }
  }

  lemma WithoutAt<T>(q: seq<T>, k: nat)
    requires NoDup(q) && k < |q|
    ensures NoDup(q[..k] + q[k + 1..])
    ensures forall x :: x in q[..k] + q[k + 1..] <==> x in q && x != q[k]
  {
    var r := q[..k] + q[k + 1..];
    assert forall i :: 0 <= i < |r| ==> r[i] == q[if i < k then i else i + 1];
    forall x | x in q && x != q[k]
      ensures x in r
    {
      var i :| 0 <= i < |q| && q[i] == x;
      assert r[if i < k then i else i - 1] == x;
    }
  }

  lemma NoDupAppend<T>(q: seq<T>, x: T)
    requires NoDup(q) && x !in q
    ensures NoDup(q + [x])
  {}

  lemma CollectList(s: State, sub: SubId, k: nat)
    requires ListOk(s) && IsLive(s, sub) && sub in s.subs && |s.subs[sub].cells| > 0
    requires IsGarbage(s, sub)
    requires k < |s.past| && s.past[k] == sub
    requires var s' := Collect(s, sub);
      s'.past == s.past[..k] + s.past[k + 1..] && s'.future == s.future + [sub]
    ensures ListOk(Collect(s, sub))
    ensures forall u :: IsLive(Collect(s, sub), u) <==> IsLive(s, u) && u != sub
  {
    var s' := Collect(s, sub);
    assert List(s)[k] == sub;
    WithoutAt(List(s), k);
    var rest := List(s)[..k] + List(s)[k + 1..];
    NoDupAppend(rest, sub);
    assert List(s') == rest + [sub];
    assert NoDup(s.past) by {
      assert forall i :: 0 <= i < |s.past| ==> s.past[i] == List(s)[i];
    }
    WithoutAt(s.past, k);
    forall u
      ensures IsLive(s', u) <==> IsLive(s, u) && u != sub
      ensures u in s'.subs <==> IsLive(s', u) || u in s'.future
    {
      assert u in s.subs <==> IsLive(s, u) || u in s.future;
    }
  }

  lemma CollectStructure(s: State, sub: SubId)
    requires Structure(s) && IsLive(s, sub) && sub in s.subs && |s.subs[sub].cells| > 0
    ensures Structure(Collect(s, sub))
  {
    if IsGarbage(s, sub) {
      assert SubOk(s, sub);
      var s' := Collect(s, sub);
      var k := FoundAt(s, sub);
      CollectList(s, sub, k);
      CollectOrder(s, sub, k);
      forall u | IsLive(s', u)
        ensures u in s'.subs && SubOk(s', u)
      {
        assert IsLive(s, u) && SubOk(s, u);
      }
      forall u | u in s'.future
        ensures u in s'.subs && FutureOk(s', u)
      {
        assert u != sub ==> FutureOk(s, u);
      }
      assert Users(s, sub) == {};
      forall c | c in s'.consumers
        ensures ConsumerOk(s', c)
      {
        assert ConsumerOk(s, c);
        assert c !in Users(s, sub);
        assert IsLive(s', s.consumers[c].sub);
      }
      forall u | u in s'.subs
        ensures s'.subs[u].consumerCount == |Users(s', u)|
      {
        assert Users(s', u) == Users(s, u);
      }
    }
  }

  lemma CollectKeeps(s: State, sub: SubId)
    requires Inv(s) && IsLive(s, sub) && sub in s.subs && |s.subs[sub].cells| > 0
    ensures Inv(Collect(s, sub))
  {
    CollectStructure(s, sub);
    CollectRest(s, sub);
  }

  lemma CollectRest(s: State, sub: SubId)
    requires ProducerOk(s) && CountOk(s) && sub in s.subs && |s.subs[sub].cells| > 0
    ensures ProducerOk(Collect(s, sub)) && CountOk(Collect(s, sub))
  {
    ProducerSame(s, Collect(s, sub));
    assert Holders(Collect(s, sub)) == Holders(s);
  }

  lemma AttachKeeps(s: State, s': State, c: ConsumerId)
    requires Inv(s) && AttachStep(s, s', c)
    ensures Inv(s')
  {
    assert List(s)[0] == Live(s)[0];
    assert Live(s)[0] in Live(s);
    assert BaseAt(s, 0) <= |s.popped|;
    EnterKeeps(s, c, List(s)[0], Resting);
  }

  lemma DetachKeeps(s: State, s': State, c: ConsumerId)
    requires Inv(s) && DetachStep(s, s', c)
    ensures Inv(s')
  {
    assert ConsumerOk(s, c);
    LeaveKeeps(s, c);
    assert IsLive(Left(s, c), s.consumers[c].sub);
    CollectKeeps(Left(s, c), s.consumers[c].sub);
  }

  /** The sub-queue after an exhausted one is where the next item is, or will be. */
  lemma NextIsReady(s: State, k: nat)
    requires Structure(s) && k < |s.past| && Live(s)[k] in s.subs
    requires s.subs[Live(s)[k]].readIndex == s.size
    ensures Live(s)[k + 1] in s.subs && IsLive(s, Live(s)[k + 1])
    ensures s.subs[Live(s)[k + 1]].base <= |s.popped| && Live(s)[k + 1] != Live(s)[k]
  {
    ListFacts(s);
    assert s.past[k] in s.past;
    assert k + 1 < |s.past| ==> s.past[k + 1] in s.past;
    assert IsLive(s, Live(s)[k + 1]);
    assert SubOk(s, Live(s)[k]) && SubOk(s, Live(s)[k + 1]);
    assert NoGap(s, k + 1);
  }

  lemma MoveTo(s: State, c: ConsumerId, next: SubId)
    requires Inv(s) && c in s.consumers && !s.consumers[c].pc.Got?
    requires s.consumers[c].sub in s.subs && s.subs[s.consumers[c].sub].consumerCount > 0
    requires |s.subs[s.consumers[c].sub].cells| > 0 && IsLive(s, s.consumers[c].sub)
    requires next != s.consumers[c].sub && next in s.subs && IsLive(s, next)
    requires s.subs[next].base <= |s.popped|
    ensures next in Collect(Left(s, c), s.consumers[c].sub).subs
    ensures Inv(Entered(Collect(Left(s, c), s.consumers[c].sub), c, next, LoadIndex))
  {
    var sub := s.consumers[c].sub;
    LeaveKeeps(s, c);
    var left := Left(s, c);
    assert IsLive(left, sub) && IsLive(left, next);
    CollectKeeps(left, sub);
    CollectedStaysLive(left, sub, next);
    EnterKeeps(Collect(left, sub), c, next, LoadIndex);
  }

  lemma NextSubPlace(s: State, s': State, c: ConsumerId, k: nat)
    requires Structure(s) && NextSubStep(s, s', c, k) && s.consumers[c].sub != s.wpos
    ensures k < |s.past| && List(s)[k] == Live(s)[k] && List(s)[k + 1] == Live(s)[k + 1]
    ensures Live(s)[k] in s.subs && s.subs[Live(s)[k]].readIndex == s.size
    ensures IsLive(s, s.consumers[c].sub)
  {
    assert ConsumerOk(s, c);
    var k' := FoundAt(s, s.consumers[c].sub);
    assert List(s)[k'] == Live(s)[k'];
    assert k == k';
  }

  lemma NextSubRests(s: State, s': State, c: ConsumerId, k: nat)
    requires Inv(s) && NextSubStep(s, s', c, k) && s.consumers[c].sub == s.wpos
    ensures Inv(s')
  {
    assert ConsumerOk(s, c);
    ConsumerMoves(s, s', c);
    assert Holders(s') == Holders(s);
  }

  lemma NextSubKeeps(s: State, s': State, c: ConsumerId, k: nat)
    requires Inv(s) && NextSubStep(s, s', c, k)
    ensures Inv(s')
  {
    var sub := s.consumers[c].sub;
    if sub == s.wpos {
      NextSubRests(s, s', c, k);
    } else {
      NextSubPlace(s, s', c, k);
      NextIsReady(s, k);
      MoveTo(s, c, Live(s)[k + 1]);
      NextSubIsMove(s, s', c, k);
    }
  }

  lemma NextSubIsMove(s: State, s': State, c: ConsumerId, k: nat)
    requires NextSubStep(s, s', c, k) && s.consumers[c].sub != s.wpos && k < |s.past|
    requires List(s)[k + 1] == Live(s)[k + 1]
    ensures Live(s)[k + 1] in Collect(Left(s, c), s.consumers[c].sub).subs
    ensures s' == Entered(Collect(Left(s, c), s.consumers[c].sub), c, Live(s)[k + 1], LoadIndex)
  {
    assert s'.consumers == (s.consumers - {c})[c := s'.consumers[c]];
  }

  lemma CollectedStaysLive(s: State, sub: SubId, u: SubId)
    requires Structure(s) && IsLive(s, sub) && sub in s.subs && |s.subs[sub].cells| > 0
    requires IsLive(s, u) && u != sub && u in s.subs
    ensures IsLive(Collect(s, sub), u) && u in Collect(s, sub).subs
    ensures Collect(s, sub).subs[u] == s.subs[u]
  {
    if IsGarbage(s, sub) {
      var k := FoundAt(s, sub);
      CollectList(s, sub, k);
    }
  }

  // ------------------------------------------------------------------
  // New sub-queues

  /** The list after PrivNextWpos, before the new write position gets its item. */
  function Switched(s: State, next: SubId, future: seq<SubId>, q: SubQueue): State {
    s.(subs := s.subs[next := q.(base := |s.flushed|)], past := s.past + [s.wpos], wpos := next,
       future := future)
  }

  ghost predicate IsSwitch(s: State, next: SubId, future: seq<SubId>, q: SubQueue) {
    && s.producer.Switch? && s.wpos in s.subs
    && s.subs[s.wpos].flushIndex == s.size && s.subs[s.wpos].writeIndex == s.size
    && s.subs[s.wpos].firstPending == Null
    && (if s.future == [] then next !in s.subs && future == [] && q == NewSub(s.size)
        else s.future[0] in s.subs && next == s.future[0] && future == s.future[1..] &&
             q == s.subs[next])
  }

  lemma SwitchList(s: State, next: SubId, future: seq<SubId>, q: SubQueue)
    requires ListOk(s) && IsSwitch(s, next, future, q)
    ensures ListOk(Switched(s, next, future, q))
    ensures forall u :: IsLive(Switched(s, next, future, q), u) <==> IsLive(s, u) || u == next
    ensures !IsLive(s, next) && next !in future
  {
    var s' := Switched(s, next, future, q);
    assert next in s.subs ==> next in s.future;
    ListFacts(s);
    assert IsLive(s, next) ==> next in s.subs;
    if s.future == [] {
      forall i | 0 <= i < |List(s)|
        ensures List(s)[i] != next
      {
        assert IsLive(s, List(s)[i]);
      }
      assert List(s') == List(s) + [next];
      NoDupAppend(List(s), next);
    } else {
      assert List(s') == List(s);
      forall i | 0 <= i < |future|
        ensures future[i] != next
      {
        assert List(s)[|s.past| + 1] == next && List(s)[|s.past| + 2 + i] == future[i];
      }
      assert forall u :: u in s.future <==> u == next || u in future;
    }
    forall u
      ensures IsLive(s', u) <==> IsLive(s, u) || u == next
      ensures u in s'.subs <==> IsLive(s', u) || u in s'.future
    {
      assert u in s.subs <==> IsLive(s, u) || u in s.future;
    }
  }

  lemma SwitchSubs(s: State, next: SubId, future: seq<SubId>, q: SubQueue)
    requires ListOk(s) && SubsOk(s) && OrderOk(s) && ProducerOk(s) && IsSwitch(s, next, future, q)
    ensures ListOk(Switched(s, next, future, q)) && SubsOk(Switched(s, next, future, q))
    ensures OrderOk(Switched(s, next, future, q))
  {
    var s' := Switched(s, next, future, q);
    SwitchList(s, next, future, q);
    assert IsLive(s, s.wpos) && SubOk(s, s.wpos);
    assert s.future != [] ==> FutureOk(s, next);
    forall u | IsLive(s', u)
      ensures u in s'.subs && SubOk(s', u)
    {
      assert u != next ==> SubOk(s, u);
    }
    forall u | u in s'.future
      ensures u in s'.subs && FutureOk(s', u)
    {
      assert u in s.future && FutureOk(s, u);
    }
    forall i: nat | i <= |s.past|
      ensures BaseAt(s', i) == BaseAt(s, i)
    {
      assert Live(s')[i] == Live(s)[i];
      assert i < |s.past| ==> s.past[i] in s.past;
      assert IsLive(s, Live(s)[i]);
    }
    assert BaseAt(s, |s.past|) + s.size == |s.flushed|;
    SwitchOrder(s, s', next);
  }

  /** A new write position behind all of the list. */
  lemma SwitchOrder(s: State, s': State, next: SubId)
    requires OrderOk(s) && s'.size == s.size && |s'.past| == |s.past| + 1
    requires s'.popped == s.popped && s'.flushed == s.flushed
    requires forall i: nat {:trigger BaseAt(s', i)} :: i <= |s.past| ==> BaseAt(s', i) == BaseAt(s, i)
    requires BaseAt(s, |s.past|) + s.size == |s.flushed| == BaseAt(s', |s'.past|)
    ensures OrderOk(s')
  {
    forall i: nat, j: nat | i < j <= |s'.past|
      ensures Before(s', i, j)
    {
      if j <= |s.past| {
        assert Before(s, i, j);
      } else if i < |s.past| {
        assert Before(s, i, |s.past|);
      }
    }
    forall i: nat | 0 < i <= |s'.past|
      ensures NoGap(s', i)
    {
      if i <= |s.past| {
        assert NoGap(s, i);
      }
    }
  }

  lemma SwitchConsumers(s: State, next: SubId, future: seq<SubId>, q: SubQueue)
    requires Structure(s) && IsSwitch(s, next, future, q)
    ensures ConsumersOk(Switched(s, next, future, q))
  {
    var s' := Switched(s, next, future, q);
    SwitchList(s, next, future, q);
    assert s.future != [] ==> FutureOk(s, next);
    forall c | c in s'.consumers
      ensures ConsumerOk(s', c)
    {
      assert ConsumerOk(s, c);
      assert IsLive(s', s.consumers[c].sub);
    }
    forall u | u in s'.subs
      ensures s'.subs[u].consumerCount == |Users(s', u)|
    {
      assert Users(s', u) == Users(s, u);
      if u == next {
        forall c | c in s.consumers
          ensures s.consumers[c].sub != next
        {
          assert ConsumerOk(s, c);
        }
        assert Users(s, next) == {};
      }
    }
  }

  function NextSub(s: State, spare: SubId): SubId {
    if s.future == [] then spare else s.future[0]
  }

  function Rest(s: State): seq<SubId> {
    if s.future == [] then [] else s.future[1..]
  }

  function NextQueue(s: State, spare: SubId): SubQueue
    requires s.future != [] ==> s.future[0] in s.subs
  {
    if s.future == [] then NewSub(s.size) else s.subs[s.future[0]]
  }

  lemma SwitchGrows(s: State, s': State, spare: SubId)
    requires s.size > 0 && ProducerOk(s) && |s.popped| <= |s.flushed| && SwitchStep(s, s', spare)
    requires s.future != [] ==> FutureOk(s, s.future[0])
    ensures IsSwitch(s, NextSub(s, spare), Rest(s), NextQueue(s, spare))
    ensures Grows(Switched(s, NextSub(s, spare), Rest(s), NextQueue(s, spare)), s')
    ensures ProducerView(s') && s'.consumers == s.consumers
    ensures s'.announced == s.announced && s'.count == s.count && s'.flushed == s.flushed
  {}

  lemma SwitchKeeps(s: State, s': State, spare: SubId)
    requires Inv(s) && SwitchStep(s, s', spare)
    ensures Inv(s')
  {
    assert s.future != [] ==> FutureOk(s, s.future[0]);
    SwitchGrows(s, s', spare);
    SwitchStructure(s, s', spare);
    assert Holders(s') == Holders(s);
  }

  lemma SwitchStructure(s: State, s': State, spare: SubId)
    requires Structure(s) && ProducerOk(s)
    requires s.future != [] ==> s.future[0] in s.subs
    requires IsSwitch(s, NextSub(s, spare), Rest(s), NextQueue(s, spare))
    requires Grows(Switched(s, NextSub(s, spare), Rest(s), NextQueue(s, spare)), s')
    requires SubOk(s', s'.wpos) && s'.consumers == s.consumers
    ensures Structure(s')
  {
    var next, future, q := NextSub(s, spare), Rest(s), NextQueue(s, spare);
    SwitchSubs(s, next, future, q);
    SwitchConsumers(s, next, future, q);
    var s1 := Switched(s, next, future, q);
    SubsKept(s1, s');
    ConsumersKept(s1, s');
  }

  lemma ReserveList(s: State, s': State, spares: seq<SubId>)
    requires ListOk(s) && ReserveStep(s, s', spares)
    ensures ListOk(s')
    ensures forall u :: IsLive(s', u) <==> IsLive(s, u)
  {
    var n := |List(s)|;
    assert List(s') == List(s) + spares;
    forall i | 0 <= i < n
      ensures List(s)[i] in s.subs
    {
      assert IsLive(s, List(s)[i]) || List(s)[i] in s.future;
    }
    forall i, j | 0 <= i < j < |List(s')|
      ensures List(s')[i] != List(s')[j]
    {
      if j >= n {
        assert List(s')[j] == spares[j - n];
        assert i >= n ==> List(s')[i] == spares[i - n];
      } else {
        assert List(s)[i] != List(s)[j];
      }
    }
    forall u
      ensures IsLive(s', u) <==> IsLive(s, u)
      ensures u in s'.subs <==> IsLive(s', u) || u in s'.future
    {
      assert u in s.subs <==> IsLive(s, u) || u in s.future;
    }
  }

  lemma ReserveStructure(s: State, s': State, spares: seq<SubId>)
    requires Structure(s) && ReserveStep(s, s', spares)
    ensures Structure(s')
  {
    ReserveList(s, s', spares);
    assert Live(s') == Live(s);
    forall u | IsLive(s', u)
      ensures u in s'.subs && SubOk(s', u)
    {
      assert IsLive(s, u) && SubOk(s, u);
    }
    forall u | u in s'.future
      ensures u in s'.subs && FutureOk(s', u)
    {
      assert u in s.future ==> FutureOk(s, u);
    }
    forall i: nat | i <= |s'.past|
      ensures BaseAt(s', i) == BaseAt(s, i)
    {
      assert i < |s.past| ==> s.past[i] in s.past;
      assert IsLive(s, Live(s)[i]);
    }
    OrderKept(s, s');
    forall c | c in s'.consumers
      ensures ConsumerOk(s', c)
    {
      assert ConsumerOk(s, c);
      assert IsLive(s', s.consumers[c].sub);
    }
    forall u | u in s'.subs
      ensures s'.subs[u].consumerCount == |Users(s', u)|
    {
      assert Users(s', u) == Users(s, u);
      if u !in s.subs {
        forall c | c in s.consumers
          ensures s.consumers[c].sub != u
        {
          assert ConsumerOk(s, c);
        }
        assert Users(s, u) == {};
      }
    }
  }

  lemma ReserveKeeps(s: State, s': State, spares: seq<SubId>)
    requires Inv(s) && ReserveStep(s, s', spares)
    ensures Inv(s')
  {
    ReserveStructure(s, s', spares);
    ProducerSame(s, s');
    assert Holders(s') == Holders(s);
  }
}
