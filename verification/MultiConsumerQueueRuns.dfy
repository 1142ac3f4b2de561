/** What holds in every run of the multi-consumer queue. */
module MultiConsumerQueueRuns {
  import opened MultiConsumerQueue
  import opened MultiConsumerQueueSafety

  ghost predicate StepAt(states: seq<State>, acts: seq<Action>, n: nat)
    requires |states| == |acts| + 1 && n < |acts|
  {
    Next(states[n], states[n + 1], acts[n])
  }

  ghost predicate IsRun(states: seq<State>, acts: seq<Action>) {
    && |states| == |acts| + 1
    && Init(states[0])
    && forall n {:trigger StepAt(states, acts, n)} :: 0 <= n < |acts| ==> StepAt(states, acts, n)
  }

  lemma NextInv(s: State, s': State, a: Action)
    requires Inv(s) && Next(s, s', a)
    ensures Inv(s')
  {
    match a
    case ActPush(x) => PushKeeps(s, s', x);
    case ActPushPending(x) => PushPendingKeeps(s, s', x);
    case ActFlush => FlushKeeps(s, s');
    case ActPrepare => PrepareKeeps(s, s');
    case ActPublish => PublishKeeps(s, s');
    case ActSwitch(spare) => SwitchKeeps(s, s', spare);
    case ActReserve(spares) => ReserveKeeps(s, s', spares);
    case ActAttach(c) => AttachKeeps(s, s', c);
    case ActDetach(c) => DetachKeeps(s, s', c);
    case ActPop(c) => PopKeeps(s, s', c);
    case ActLoadIndex(c) => LoadIndexKeeps(s, s', c);
    case ActLoadCell(c) => LoadCellKeeps(s, s', c);
    case ActCas(c, spurious) => CasKeeps(s, s', c, spurious);
    case ActNextSub(c, k) => NextSubKeeps(s, s', c, k);
    case ActDecrement(c) => DecrementKeeps(s, s', c);
  }

  lemma {:induction false} RunInv(states: seq<State>, acts: seq<Action>, n: nat)
    requires IsRun(states, acts) && n < |states|
    ensures Inv(states[n])
  {
    if n == 0 {
      InitInv(states[0]);
    } else {
      RunInv(states, acts, n - 1);
      assert StepAt(states, acts, n - 1);
      NextInv(states[n - 1], states[n], acts[n - 1]);
    }
  }

  // ------------------------------------------------------------------
  // The queue is a FIFO

  /** The plain queue: what was flushed and not popped yet. */
  function Content(s: State): seq<Item> {
    if |s.popped| <= |s.flushed| then s.flushed[|s.popped|..] else []
  }

  /** The items are popped in the order in which they were pushed. */
  lemma PopsInPushOrder(states: seq<State>, acts: seq<Action>, n: nat)
    requires IsRun(states, acts) && n < |states|
    ensures var s := states[n];
      && s.popped <= s.flushed <= s.pushed
      && s.flushed == s.popped + Content(s)
      && s.pushed == s.flushed + s.pendings + InFlight(s)
  {
    RunInv(states, acts, n);
  }

  /** The consumer leaves Pop with nothing. */
  ghost predicate ReturnsNull(s: State, s': State, c: ConsumerId) {
    c in s.consumers && c in s'.consumers && s'.consumers[c].pc == Resting &&
    (s.consumers[c].pc.LoadCell? || s.consumers[c].pc.Exhausted?)
  }

  lemma PopRefines(s: State, s': State, c: ConsumerId, spurious: bool)
    requires Inv(s) && CasStep(s, s', c, spurious)
    ensures s'.consumers[c].pc.Got? ==>
      Content(s) == [s'.consumers[c].pc.item] + Content(s') &&
      s'.popped == s.popped + [s'.consumers[c].pc.item]
    ensures !s'.consumers[c].pc.Got? ==> Content(s') == Content(s)
  {
    if s'.popped != s.popped {
      CasTakesNext(s, s', c);
      assert s.flushed[|s.popped|..] == [s.flushed[|s.popped|]] + s.flushed[|s.popped| + 1..];
      assert s'.popped[|s.popped|] == s.consumers[c].pc.item;
    } else {
      assert s.consumers[c].pc.TryCas?;
      assert |s'.popped| == |s.popped|;
    }
  }

  lemma NullRefines(s: State, s': State, a: Action, c: ConsumerId)
    requires Inv(s) && (LoadCellStep(s, s', c) || exists k: nat :: NextSubStep(s, s', c, k))
    requires ReturnsNull(s, s', c)
    ensures Content(s) == []
  {
    assert ConsumerOk(s, c) && SubOk(s, s.consumers[c].sub);
    ViewOf(s);
  }

  /** What becomes visible: all pending items, and the item of a push behind them. */
  function Batch(s: State): seq<Item> {
    s.pendings + if s.producer.PushPublish? then [s.producer.item] else []
  }

  lemma PublishRefines(s: State, s': State)
    requires ProducerView(s) && PublishStep(s, s')
    ensures s'.flushed == s.flushed + Batch(s) && Content(s') == Content(s) + Batch(s)
  {
    var items := Batch(s);
    assert s'.flushed == s.flushed + items;
    assert Content(s') == Content(s) + items;
  }

  lemma OthersKeepContent(s: State, s': State, a: Action)
    requires Next(s, s', a) && !a.ActCas? && !a.ActPublish?
    ensures s'.flushed == s.flushed && s'.popped == s.popped
  {}

  /**
   * Each step acts on the plain queue as the operation it is part of: the store
   * which publishes appends a batch, a successful CAS takes the head for its
   * consumer, and an empty-handed Pop is only possible when the queue is empty.
   */
  lemma RefinesFifo(states: seq<State>, acts: seq<Action>, n: nat)
    requires IsRun(states, acts) && n < |acts|
    ensures var s, s', a := states[n], states[n + 1], acts[n];
      && (a.ActPublish? ==> Content(s') == Content(s) + Batch(s))
      && (a.ActCas? && a.c in s'.consumers && s'.consumers[a.c].pc.Got? ==>
            Content(s) == [s'.consumers[a.c].pc.item] + Content(s'))
      && (a.ActCas? && a.c in s'.consumers && !s'.consumers[a.c].pc.Got? ==>
            Content(s') == Content(s))
      && (!a.ActCas? && !a.ActPublish? ==> Content(s') == Content(s))
      && ((a.ActLoadCell? || a.ActNextSub?) && ReturnsNull(s, s', a.c) ==> Content(s) == [])
  {
    RunInv(states, acts, n);
    assert StepAt(states, acts, n);
    var s, s', a := states[n], states[n + 1], acts[n];
    if a.ActPublish? {
      ViewOf(s);
      PublishRefines(s, s');
    } else if a.ActCas? {
      PopRefines(s, s', a.c, a.spurious);
    } else {
      OthersKeepContent(s, s', a);
      if (a.ActLoadCell? || a.ActNextSub?) && ReturnsNull(s, s', a.c) {
        NullRefines(s, s', a, a.c);
      }
    }
  }

  // ------------------------------------------------------------------
  // Recycling

  /** Full sub-queues, then the write position, then empty ones; all consumers are in order. */
  lemma ListShape(states: seq<State>, acts: seq<Action>, n: nat, i: nat)
    requires IsRun(states, acts) && n < |states| && i < |List(states[n])|
    ensures List(states[n])[i] in states[n].subs
    ensures var s := states[n];
      var q := s.subs[List(s)[i]];
      && (i < |s.past| ==> q.flushIndex == s.size && q.writeIndex == s.size)
      && (i == |s.past| ==> List(s)[i] == s.wpos)
      && (i > |s.past| ==> q.readIndex == 0 && q.writeIndex == 0 && q.consumerCount == 0)
      && forall c :: c in s.consumers && s.consumers[c].sub == List(s)[i] ==>
           i <= |s.past| &&
           forall j :: 0 <= j < i ==>
             List(s)[j] in s.subs && s.subs[List(s)[j]].readIndex == s.size
  {
    RunInv(states, acts, n);
    var s := states[n];
    ListFacts(s);
    assert forall j :: 0 <= j <= |s.past| ==> List(s)[j] == Live(s)[j];
    assert i < |s.past| ==> List(s)[i] in s.past;
    if i > |s.past| {
      assert List(s)[i] == s.future[i - |s.past| - 1];
      assert List(s)[i] in s.future;
      assert FutureOk(s, List(s)[i]);
    } else {
      assert IsLive(s, List(s)[i]) && SubOk(s, List(s)[i]);
      assert i < |s.past| ==> Live(s)[i] != Live(s)[|s.past|];
    }
    forall c | c in s.consumers && s.consumers[c].sub == List(s)[i]
      ensures i <= |s.past|
      ensures forall j :: 0 <= j < i ==>
        List(s)[j] in s.subs && s.subs[List(s)[j]].readIndex == s.size
    {
      assert ConsumerOk(s, c);
      forall j | 0 <= j < i
        ensures List(s)[j] in s.subs && s.subs[List(s)[j]].readIndex == s.size
      {
        assert List(s)[j] in s.past;
        assert IsLive(s, List(s)[j]) && SubOk(s, List(s)[j]);
        assert Before(s, j, i);
      }
    }
  }

  /** A sub-queue about to be reset is full, read to the end, unused and not written to. */
  lemma RecyclesOnlyGarbage(s: State, sub: SubId)
    requires Inv(s) && IsLive(s, sub) && sub in s.subs && IsGarbage(s, sub)
    ensures var q := s.subs[sub];
      && q.readIndex == s.size && q.writeIndex == s.size && q.flushIndex == s.size
      && q.firstPending == Null
      && (forall c :: c in s.consumers ==> s.consumers[c].sub != sub)
      && sub != s.wpos && sub !in s.future
      && q.base + s.size <= |s.popped|
  {
    assert SubOk(s, sub);
    ListFacts(s);
    assert Users(s, sub) == {};
    forall c | c in s.consumers
      ensures s.consumers[c].sub != sub
    {
      assert c !in Users(s, sub);
    }
  }

  // ------------------------------------------------------------------
  // Counts and assertions

  /** The count covers what is visible, and is exact when nobody is in between. */
  lemma CountConservation(states: seq<State>, acts: seq<Action>, n: nat)
    requires IsRun(states, acts) && n < |states|
    ensures var s := states[n];
      && s.count == |Content(s)| + Announced(s) + |Holders(s)|
      && s.count >= |Content(s)|
      && (s.producer == Idle ==>
            s.wpos in s.subs &&
            s.pendingCount == s.subs[s.wpos].writeIndex - s.subs[s.wpos].flushIndex)
  {
    RunInv(states, acts, n);
  }

  // The assertions and the bounds of the cells are stated of every thread which gets to them, whether its step is
  // enabled or not: so no guard of a step hides a failure.

  /** Before the next step of the producer. */
  ghost predicate ProducerAsserts(s: State) {
    s.wpos in s.subs &&
    var q := s.subs[s.wpos];
    match s.producer
    case Idle => q.writeIndex < s.size ==> q.writeIndex < |q.cells|
    case PushTry(_) => q.writeIndex == s.size || q.writeIndex + 1 < |q.cells|
    case FlushPrepare(_) => q.writeIndex < |q.cells| && q.firstPending != Null && q.writeIndex > q.flushIndex
    case PushPublish(_) =>
      && q.flushIndex < |q.cells| && q.cells[q.flushIndex] == Null
      && (q.firstPending != Null ==> q.writeIndex > q.flushIndex)
    case FlushPublish(_) =>
      q.flushIndex < |q.cells| && q.cells[q.flushIndex] == Null && q.firstPending != Null && q.writeIndex > q.flushIndex
    // PrivNextWpos leaves a full sub-queue without pending items for an empty one.
    case Switch(_, _) =>
      && s.pendingCount == 0 && q.flushIndex == s.size && q.writeIndex == s.size && q.firstPending == Null
      && (s.future != [] ==> s.future[0] in s.subs && FutureOk(s, s.future[0]))
  }

  /** The sub-queue is in the list, and not the last in it. */
  ghost predicate HasNext(s: State, sub: SubId) {
    exists k: nat :: k + 1 < |List(s)| && List(s)[k] == sub && List(s)[k + 1] in s.subs
  }

  /** What PrivGarbageCollectLocked and Reset assert when the last consumer leaves. */
  ghost predicate LeaveAsserts(s: State, sub: SubId) {
    && sub in s.subs
    && var q := s.subs[sub];
    && q.consumerCount > 0 && |q.cells| > 0
    && (sub != s.wpos ==> HasNext(s, sub))
    && (sub != s.wpos && q.consumerCount == 1 && q.readIndex >= s.size ==>
          q.readIndex == s.size && q.writeIndex == s.size && q.flushIndex == s.size && q.firstPending == Null)
  }

  /** Before the next step of a consumer. */
  ghost predicate ConsumerAsserts(s: State, c: ConsumerId)
    requires c in s.consumers
  {
    var sub := s.consumers[c].sub;
    match s.consumers[c].pc
    case Resting => LeaveAsserts(s, sub)
    case LoadIndex => sub in s.subs
    case LoadCell(index) => sub in s.subs && (index == s.size || index < |s.subs[sub].cells|)
    case TryCas(_, _) => sub in s.subs
    case Exhausted => sub in List(s) && LeaveAsserts(s, sub)
    case Got(_) => s.count > 0
  }

  lemma ProducerSafe(s: State)
    requires Inv(s)
    ensures ProducerAsserts(s)
  {
    ViewOf(s);
    if s.future != [] {
      assert s.future[0] in s.future && FutureOk(s, s.future[0]);
    }
  }

  lemma LeaveSafe(s: State, c: ConsumerId)
    requires Inv(s) && c in s.consumers
    ensures LeaveAsserts(s, s.consumers[c].sub) && s.consumers[c].sub in List(s)
  {
    var sub := s.consumers[c].sub;
    assert ConsumerOk(s, c) && SubOk(s, sub);
    assert c in Users(s, sub);
    if sub != s.wpos {
      var k := FoundAt(s, sub);
      assert List(s)[k] == sub && List(s)[k + 1] == Live(s)[k + 1];
      assert k + 1 < |s.past| ==> s.past[k + 1] in s.past;
      assert IsLive(s, Live(s)[k + 1]);
    } else {
      assert List(s)[|s.past|] == sub;
    }
  }

  lemma ConsumerSafe(s: State, c: ConsumerId)
    requires Inv(s) && c in s.consumers
    ensures ConsumerAsserts(s, c)
  {
    LeaveSafe(s, c);
    assert ConsumerOk(s, c) && SubOk(s, s.consumers[c].sub);
    if s.consumers[c].pc.Got? {
      assert c in Holders(s);
    }
  }

  /** No assertion of the code fails in any run. */
  lemma AssertionsHold(states: seq<State>, acts: seq<Action>, n: nat)
    requires IsRun(states, acts) && n < |states|
    ensures ProducerAsserts(states[n])
    ensures forall c :: c in states[n].consumers ==> ConsumerAsserts(states[n], c)
  {
    RunInv(states, acts, n);
    ProducerSafe(states[n]);
    forall c | c in states[n].consumers
      ensures ConsumerAsserts(states[n], c)
    {
      ConsumerSafe(states[n], c);
    }
  }
}
