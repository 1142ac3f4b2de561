/** What the operations of the multi-consumer queue have done when they return. */
module MultiConsumerQueueCalls {
  import opened MultiConsumerQueue
  import opened MultiConsumerQueueSafety
  import opened MultiConsumerQueueRuns

  // ------------------------------------------------------------------
  // The producer

  predicate ByProducer(a: Action) {
    a.ActPush? || a.ActPushPending? || a.ActFlush? || a.ActPrepare? || a.ActPublish? || a.ActSwitch?
  }

  lemma OthersKeepProducer(s: State, s': State, a: Action)
    requires Next(s, s', a) && !ByProducer(a)
    ensures s'.producer == s.producer && s'.pushed == s.pushed && s'.flushed == s.flushed && s'.pendings == s.pendings
  {
  }

  /** The operation begun by the action `op` is not over before state `to`. */
  ghost predicate Producing(states: seq<State>, from: nat, to: nat)
    requires to < |states|
  {
    forall k :: from < k < to ==> states[k].producer != Idle
  }

  /**
   * Where an operation may be which found `before` flushed and `pending` pending. All it has to flush is flushed
   * when it is over, or when only the switch to the next sub-queue is left.
   */
  predicate ProducerAt(s: State, op: Action, before: seq<Item>, pending: seq<Item>) {
    match op
    case ActPush(x) =>
      && s.pushed == before + pending + [x]
      && (match s.producer
          case Idle => s.flushed == s.pushed && s.pendings == []
          case PushTry(y) => y == x && s.flushed + s.pendings == before + pending
          case PushPublish(y) => y == x && s.flushed + s.pendings == before + pending
          case FlushPrepare(after) => after == SwitchFor(x, false) && s.flushed + s.pendings == before + pending
          case FlushPublish(after) => after == SwitchFor(x, false) && s.flushed + s.pendings == before + pending
          case Switch(y, isPending) => y == x && !isPending && s.flushed == before + pending && s.pendings == [])
    case ActPushPending(x) =>
      && s.pushed == before + pending + [x]
      && (match s.producer
          case Idle =>
            || (s.flushed == before && s.pendings == pending + [x])
            || (s.flushed == before + pending && s.pendings == [x])
          case FlushPrepare(after) => after == SwitchFor(x, true) && s.flushed == before && s.pendings == pending
          case FlushPublish(after) => after == SwitchFor(x, true) && s.flushed == before && s.pendings == pending
          case Switch(y, isPending) => y == x && isPending && s.flushed == before + pending && s.pendings == []
          case _ => false)
    case ActFlush =>
      && s.pushed == before + pending
      && (match s.producer
          case Idle => s.flushed == s.pushed && s.pendings == []
          case FlushPrepare(after) => after == Done && s.flushed == before && s.pendings == pending
          case FlushPublish(after) => after == Done && s.flushed == before && s.pendings == pending
          case _ => false)
    case _ => false
  }

  lemma ProducerStarts(s: State, s': State, op: Action)
    requires ProducerView(s) && Next(s, s', op) && (op.ActPush? || op.ActPushPending? || op == ActFlush)
    ensures ProducerAt(s', op, s.flushed, s.pendings)
  {
    assert s.pushed == s.flushed + s.pendings;
  }

  lemma ProducerMoves(s: State, s': State, a: Action, op: Action, before: seq<Item>, pending: seq<Item>)
    requires ProducerView(s) && Next(s, s', a) && (a.ActPrepare? || a.ActPublish? || a.ActSwitch?)
    requires s.producer != Idle && ProducerAt(s, op, before, pending)
    ensures ProducerAt(s', op, before, pending)
  {
  }

  lemma {:induction false} ProducerCall(states: seq<State>, acts: seq<Action>, from: nat, to: nat)
    requires IsRun(states, acts) && from < to < |states| && Producing(states, from, to)
    requires acts[from].ActPush? || acts[from].ActPushPending? || acts[from] == ActFlush
    ensures ProducerAt(states[to], acts[from], states[from].flushed, states[from].pendings)
  {
    RunInv(states, acts, to - 1);
    ViewOf(states[to - 1]);
    assert StepAt(states, acts, to - 1);
    if from + 1 < to {
      assert Producing(states, from, to - 1);
      ProducerCall(states, acts, from, to - 1);
      if ByProducer(acts[to - 1]) {
        var s := states[from];
        ProducerMoves(states[to - 1], states[to], acts[to - 1], acts[from], s.flushed, s.pendings);
      } else {
        OthersKeepProducer(states[to - 1], states[to], acts[to - 1]);
      }
    } else {
      ProducerStarts(states[from], states[to], acts[from]);
    }
  }

  /**
   * When Push or FlushPending returns everything pushed so far is visible: nothing is pending, and the consumers
   * may pop all of it. PushPending leaves its item pending behind the others, or alone if the sub-queue was full;
   * then the others are visible.
   */
  lemma ProducerReturns(states: seq<State>, acts: seq<Action>, from: nat, to: nat)
    requires IsRun(states, acts) && from < to < |states| && Producing(states, from, to)
    requires acts[from].ActPush? || acts[from].ActPushPending? || acts[from] == ActFlush
    requires states[to].producer == Idle
    ensures var s, n := states[from], states[to];
      && n.pushed == s.pushed + (if acts[from].ActPush? then [acts[from].x]
                                 else if acts[from].ActPushPending? then [acts[from].x] else [])
      && (acts[from].ActPush? || acts[from] == ActFlush ==> n.flushed == n.pushed && n.pendings == [])
      && (acts[from].ActPushPending? ==>
            if states[from + 1].producer == Idle then
              n.flushed == s.flushed && n.pendings == s.pendings + [acts[from].x]
            else
              n.flushed == s.pushed && n.pendings == [acts[from].x])
  {
    ProducerCall(states, acts, from, to);
    RunInv(states, acts, from);
    ViewOf(states[from]);
    assert StepAt(states, acts, from);
    if states[from + 1].producer != Idle && acts[from].ActPushPending? {
      SwitchLeavesOne(states, acts, from, to);
    }
  }

  /** A PushPending which did not end at once goes through the switch. */
  lemma SwitchLeavesOne(states: seq<State>, acts: seq<Action>, from: nat, to: nat)
    requires IsRun(states, acts) && from < to < |states| && Producing(states, from, to)
    requires acts[from].ActPushPending? && states[from + 1].producer != Idle && states[to].producer == Idle
    ensures states[to].flushed == states[from].flushed + states[from].pendings
    ensures states[to].pendings == [acts[from].x]
  {
    assert from + 1 < to;
    assert Producing(states, from, to - 1);
    ProducerCall(states, acts, from, to - 1);
    assert StepAt(states, acts, to - 1);
    if !ByProducer(acts[to - 1]) {
      OthersKeepProducer(states[to - 1], states[to], acts[to - 1]);
    }
  }

  /** How many steps the operation needs at most. */
  function StepsLeft(s: State): nat {
    match s.producer
    case Idle => 0
    case PushPublish(_) => 1
    case PushTry(_) => if s.wpos in s.subs && s.subs[s.wpos].writeIndex == s.size then 6 else 2
    case Switch(_, _) => 3
    case FlushPublish(_) => 4
    case FlushPrepare(_) => 5
  }

  /** Each step of the producer brings its operation nearer to its end: at most one switch is needed. */
  lemma ProducerEnds(s: State, s': State, a: Action)
    requires Inv(s) && Next(s, s', a) && (a.ActPrepare? || a.ActPublish? || a.ActSwitch?)
    ensures StepsLeft(s') < StepsLeft(s)
  {
    if s.future != [] {
      assert s.future[0] in s.future;
      assert FutureOk(s, s.future[0]);
    }
  }

  // ------------------------------------------------------------------
  // The consumers

  /** Consumer `c` takes the item `x` by the step `k`. */
  ghost predicate TakesAt(states: seq<State>, acts: seq<Action>, c: ConsumerId, k: nat, x: Item)
    requires |states| == |acts| + 1 && k < |acts|
  {
    acts[k].ActCas? && acts[k].c == c && states[k + 1].popped == states[k].popped + [x]
  }

  ghost predicate TakesSome(states: seq<State>, acts: seq<Action>, c: ConsumerId, k: nat)
    requires |states| == |acts| + 1 && k < |acts|
  {
    acts[k].ActCas? && acts[k].c == c && states[k + 1].popped != states[k].popped
  }

  predicate ByConsumer(a: Action) {
    a.ActAttach? || a.ActDetach? || a.ActPop? || a.ActLoadIndex? || a.ActLoadCell? || a.ActCas? || a.ActNextSub?
    || a.ActDecrement?
  }

  ghost predicate Popping(states: seq<State>, c: ConsumerId, from: nat, to: nat)
    requires to < |states|
  {
    forall k :: from < k < to ==> c in states[k].consumers && states[k].consumers[c].pc != Resting
  }

  /** Consumer `c` took nothing by the steps `from..to`. */
  ghost predicate TookNothing(states: seq<State>, acts: seq<Action>, c: ConsumerId, from: nat, to: nat)
    requires |states| == |acts| + 1 && to <= |acts|
  {
    forall k {:trigger TakesSome(states, acts, c, k)} :: from <= k < to ==> !TakesSome(states, acts, c, k)
  }

  /** Consumer `c` took the item `x` by the steps `from..to`, and nothing else. */
  ghost predicate TookOne(states: seq<State>, acts: seq<Action>, c: ConsumerId, from: nat, to: nat, x: Item)
    requires |states| == |acts| + 1 && to <= |acts|
  {
    exists k: nat {:trigger TakesAt(states, acts, c, k, x)} ::
      && from <= k < to && TakesAt(states, acts, c, k, x)
      && TookNothing(states, acts, c, from, k) && TookNothing(states, acts, c, k + 1, to)
  }

  /** Other steps leave a consumer where it is. */
  lemma OthersKeepConsumer(s: State, s': State, a: Action, c: ConsumerId)
    requires Next(s, s', a) && c in s.consumers && (ByConsumer(a) ==> a.c != c)
    ensures c in s'.consumers && s'.consumers[c] == s.consumers[c]
  {
  }

  /** What a consumer does by a step of a Pop. */
  ghost predicate PopMoves(s: State, s': State, a: Action, c: ConsumerId)
    requires c in s.consumers
  {
    && c in s'.consumers
    && s'.consumers[c].pc != s.consumers[c].pc
    && var pc, pc' := s.consumers[c].pc, s'.consumers[c].pc;
      if pc.Got? then
        s'.popped == s.popped && pc' == Resting && a.ActDecrement?
      else if pc'.Got? then
        a.ActCas? && s'.popped == s.popped + [pc'.item]
      else
        s'.popped == s.popped && (pc' == Resting ==> Content(s) == [])
  }

  lemma ConsumerMoves(s: State, s': State, a: Action, c: ConsumerId)
    requires Inv(s) && Next(s, s', a) && ByConsumer(a) && a.c == c && c in s.consumers && s.consumers[c].pc != Resting
    ensures PopMoves(s, s', a, c)
  {
    if a.ActCas? {
      PopRefines(s, s', c, a.spurious);
    } else if (a.ActLoadCell? || a.ActNextSub?) && ReturnsNull(s, s', c) {
      NullRefines(s, s', a, c);
    }
  }

  /** Where a Pop of consumer `c` may be. */
  ghost predicate PopAt(states: seq<State>, acts: seq<Action>, c: ConsumerId, from: nat, to: nat)
    requires |states| == |acts| + 1 && from < to <= |acts|
  {
    && c in states[to].consumers
    && match states[to].consumers[c].pc
      case Got(x) => TookOne(states, acts, c, from, to, x)
      case Resting =>
        && c in states[to - 1].consumers
        && if states[to - 1].consumers[c].pc.Got? then
             TookOne(states, acts, c, from, to, states[to - 1].consumers[c].pc.item)
           else
             Content(states[to - 1]) == [] && TookNothing(states, acts, c, from, to)
      case _ => TookNothing(states, acts, c, from, to)
  }

  /**
   * A Pop returns the one item it took, which was the oldest visible one (PopRefines), or it took nothing, and
   * there was a moment, its last step, when nothing was visible.
   */
  lemma {:induction false} PopReturns(states: seq<State>, acts: seq<Action>, c: ConsumerId, from: nat, to: nat)
    requires IsRun(states, acts) && from < to < |states| && acts[from] == ActPop(c) && Popping(states, c, from, to)
    ensures PopAt(states, acts, c, from, to)
  {
    RunInv(states, acts, to - 1);
    assert StepAt(states, acts, to - 1);
    if from + 1 < to {
      assert Popping(states, c, from, to - 1);
      PopReturns(states, acts, c, from, to - 1);
      PopContinues(states, acts, c, from, to);
    } else {
      assert !TakesSome(states, acts, c, from);
    }
  }

  lemma PopContinues(states: seq<State>, acts: seq<Action>, c: ConsumerId, from: nat, to: nat)
    requires IsRun(states, acts) && from + 1 < to < |states| && Inv(states[to - 1])
    requires StepAt(states, acts, to - 1) && PopAt(states, acts, c, from, to - 1)
    requires states[to - 1].consumers[c].pc != Resting
    ensures PopAt(states, acts, c, from, to)
  {
    var s, s', a := states[to - 1], states[to], acts[to - 1];
    if ByConsumer(a) && a.c == c {
      ConsumerMoves(s, s', a, c);
    } else {
      OthersKeepConsumer(s, s', a, c);
      assert !TakesSome(states, acts, c, to - 1);
    }
    if s.consumers[c].pc.Got? {
      var x := s.consumers[c].pc.item;
      var k: nat :| from <= k < to - 1 && TakesAt(states, acts, c, k, x)
        && TookNothing(states, acts, c, from, k) && TookNothing(states, acts, c, k + 1, to - 1);
      assert !TakesSome(states, acts, c, to - 1);
      assert TookNothing(states, acts, c, k + 1, to);
      assert TookOne(states, acts, c, from, to, x);
    } else if s'.consumers[c].pc.Got? {
      var x := s'.consumers[c].pc.item;
      assert TakesAt(states, acts, c, to - 1, x);
      assert TookNothing(states, acts, c, to, to);
    } else {
      assert !TakesSome(states, acts, c, to - 1);
    }
  }

  /** A consumer starts at the first sub-queue of the list, and is gone when it is detached. */
  lemma AttachReturns(states: seq<State>, acts: seq<Action>, n: nat)
    requires IsRun(states, acts) && n < |acts|
    ensures acts[n].ActAttach? ==>
      && acts[n].c in states[n + 1].consumers
      && states[n + 1].consumers[acts[n].c] == Consumer(List(states[n])[0], Resting)
      && List(states[n + 1]) == List(states[n]) && Content(states[n + 1]) == Content(states[n])
    ensures acts[n].ActDetach? ==>
      acts[n].c !in states[n + 1].consumers && Content(states[n + 1]) == Content(states[n])
  {
    assert StepAt(states, acts, n);
  }

  /** Consumer `c` leaves its sub-queue by the action. */
  ghost predicate Leaves(s: State, a: Action) {
    && (a.ActDetach? || a.ActNextSub?) && a.c in s.consumers
    && (a.ActNextSub? ==> s.consumers[a.c].sub != s.wpos)
  }

  /** The last consumer which leaves a sub-queue that was read to its end recycles it: it is the last fresh one. */
  lemma LeavingRecycles(s: State, s': State, a: Action)
    requires Inv(s) && Inv(s') && Next(s, s', a) && Leaves(s, a)
    ensures var sub := s.consumers[a.c].sub;
      && sub in s.subs
      && if sub != s.wpos && s.subs[sub].consumerCount == 1 && s.subs[sub].readIndex == s.size then
           s'.future == s.future + [sub] && !IsLive(s', sub) && sub in s'.subs && FutureOk(s', sub)
         else
           List(s') == List(s)
  {
    var sub := s.consumers[a.c].sub;
    assert ConsumerOk(s, a.c) && SubOk(s, sub);
    if sub != s.wpos {
      var k := FoundAt(s, sub);
    }
    ListFacts(s');
    if s'.future == s.future + [sub] {
      assert s'.future[|s.future|] == sub && sub in s'.future;
      assert FutureOk(s', sub);
    }
  }

  /** Reserve adds fresh sub-queues behind the others. */
  lemma ReserveReturns(states: seq<State>, acts: seq<Action>, n: nat)
    requires IsRun(states, acts) && n < |acts| && acts[n].ActReserve?
    ensures List(states[n + 1]) == List(states[n]) + acts[n].spares
    ensures forall f :: f in acts[n].spares ==>
      f !in states[n].subs && f in states[n + 1].subs && FutureOk(states[n + 1], f)
  {
    assert StepAt(states, acts, n);
    RunInv(states, acts, n + 1);
    forall f | f in acts[n].spares
      ensures f !in states[n].subs && f in states[n + 1].subs && FutureOk(states[n + 1], f)
    {
      assert f in states[n + 1].future;
    }
  }
}
