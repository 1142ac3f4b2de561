/**
 * The multi-producer queue of src/mg/box/MultiProducerQueueIntrusive.h: its pushes and pops under all
 * interleavings, with nodes which may be popped, changed and pushed again while another push is in progress.
 */
module MultiProducerQueue {
  function Reverse<T>(s: seq<T>): (r: seq<T>)
    ensures |r| == |s|
  {
    if s == [] then [] else Reverse(s[1..]) + [s[0]]
  }

  lemma {:induction false} ReverseConcat<T>(a: seq<T>, b: seq<T>)
    ensures Reverse(a + b) == Reverse(b) + Reverse(a)
  {
    if a == [] {
      assert a + b == b;
      assert Reverse(b) + [] == Reverse(b);
    } else {
      ReverseConcat(a[1..], b);
      assert (a + b)[1..] == a[1..] + b;
    }
  }

  lemma {:induction false} ReverseAt<T>(s: seq<T>, i: nat)
    requires i < |s|
    ensures Reverse(s)[i] == s[|s| - 1 - i]
  {
    if i < |s| - 1 {
      ReverseAt(s[1..], i);
    }
  }

  lemma ReverseTwice<T>(s: seq<T>)
    ensures Reverse(Reverse(s)) == s
  {
    forall i | 0 <= i < |s|
      ensures Reverse(Reverse(s))[i] == s[i]
    {
      ReverseAt(Reverse(s), i);
      ReverseAt(s, |s| - 1 - i);
    }
  }

  // ------------------------------------------------------------------
  // The loops over lists which one thread owns

  class Item {
    var next: Item?

    constructor ()
    {
      next := null;
    }
  }

  ghost function At(ns: seq<Item>, i: nat): Item? {
    if i < |ns| then ns[i] else null
  }

  /** `ns` are the items of the list. */
  ghost predicate IsList(first: Item?, ns: seq<Item>)
    reads ns
  {
    && (forall i, j :: 0 <= i < j < |ns| ==> ns[i] != ns[j])
    && first == At(ns, 0)
    && forall i {:trigger ns[i].next} :: 0 <= i < |ns| ==> ns[i].next == At(ns, i + 1)
  }

  /** The list with the last `k` items of `ns` not turned around yet. */
  ghost predicate Turned(prev: Item?, ns: seq<Item>, k: nat)
    requires k <= |ns|
    reads ns
  {
    && (forall i, j :: 0 <= i < j < |ns| ==> ns[i] != ns[j])
    && prev == (if k > 0 then ns[k - 1] else null)
    && (forall i {:trigger ns[i].next} :: 0 <= i < k ==> ns[i].next == if i > 0 then ns[i - 1] else null)
    && (forall i {:trigger ns[i].next} :: k <= i < |ns| ==> ns[i].next == At(ns, i + 1))
  }

  lemma TurnedList(first: Item?, ns: seq<Item>)
    requires Turned(first, ns, |ns|)
    ensures IsList(first, Reverse(ns))
  {
    var r := Reverse(ns);
    forall i | 0 <= i < |r|
      ensures r[i] == ns[|ns| - 1 - i] && r[i].next == At(r, i + 1)
    {
      ReverseAt(ns, i);
      if i + 1 < |r| {
        ReverseAt(ns, i + 1);
      }
    }
  }

  /** PopAll() after its exchange: `popped` is the list of the queue, newest first. */
  method PopAllInOrder(popped: Item?, ghost ns: seq<Item>) returns (first: Item?, tail: Item?)
    requires IsList(popped, ns)
    modifies ns
    ensures IsList(first, Reverse(ns))
    ensures tail == if ns == [] then null else Reverse(ns)[|ns| - 1]
  {
    var curr := popped;
    tail := curr;
    var prev: Item? := null;
    ghost var k := 0;
    if ns != [] {
      ReverseAt(ns, |ns| - 1);
    }
    while curr != null
      invariant k <= |ns| && curr == At(ns, k) && Turned(prev, ns, k)
      decreases |ns| - k
    {
      var next := curr.next;
      curr.next := prev;
      prev := curr;
      curr := next;
      k := k + 1;
    }
    first := prev;
    TurnedList(first, ns);
  }

  /** PushMany() before its push: the list turned around, and its last item. */
  method TurnForPush(first: Item, ghost ns: seq<Item>) returns (newFirst: Item, last: Item)
    requires IsList(first, ns)
    modifies ns
    ensures last == first && last == Reverse(ns)[|ns| - 1] && newFirst == Reverse(ns)[0]
    ensures IsList(newFirst, Reverse(ns))
  {
    last := first;
    var prev := first;
    ReverseAt(ns, |ns| - 1);
    ReverseAt(ns, 0);
    var curr := first.next;
    if curr == null {
      newFirst := last;
      TurnedList(first, ns);
      return;
    }
    ghost var k := 1;
    while curr != null
      invariant 1 <= k <= |ns| && curr == At(ns, k) && prev == ns[k - 1]
      invariant (forall i, j :: 0 <= i < j < |ns| ==> ns[i] != ns[j])
      invariant ns[0].next == At(ns, 1)
      invariant forall i {:trigger ns[i].next} :: 1 <= i < k ==> ns[i].next == ns[i - 1]
      invariant forall i {:trigger ns[i].next} :: k <= i < |ns| ==> ns[i].next == At(ns, i + 1)
      decreases |ns| - k
    {
      var next := curr.next;
      curr.next := prev;
      prev := curr;
      curr := next;
      k := k + 1;
    }
    newFirst := prev;
    // PushManyFastReversed() ends the list at the item which was first.
    last.next := null;
    TurnedList(newFirst, ns);
  }

  // ------------------------------------------------------------------
  // The protocol. Nodes are numbers and -1 is the null pointer.

  datatype Place = Free | InQueue | Held(pusher: nat)

  /** PrivPushRange() of a chain, first to last. */
  datatype Pc =
    | Idle
    | Loaded(chain: seq<nat>, oldHead: int)  // Before the store to the next pointer of the last node.
    | Linked(chain: seq<nat>, oldHead: int)  // Before the compare-exchange.

  /**
   * `queue` are the nodes from the head on. `pushed` and `popped` are all items ever pushed, in the order
   * of the compare-exchanges and in the order of the caller inside a batch, and all items ever returned by
   * PopAll(). `firsts` counts the pushes since the last PopAll() which returned true.
   */
  datatype State = State(
    next: seq<int>, head: int, place: seq<Place>, pcs: seq<Pc>,
    queue: seq<nat>, pushed: seq<nat>, popped: seq<nat>, firsts: nat)

  datatype Action =
    | Begin(pusher: nat, chain: seq<nat>)
    | Link(pusher: nat)
    | Cas(pusher: nat, spurious: bool)
    | PopAll
    | Change(node: nat, value: int)  // By the thread which owns a node outside of the queue.

  predicate Linear(next: seq<int>, chain: seq<nat>) {
    && (forall i :: 0 <= i < |chain| ==> chain[i] < |next|)
    && (forall i :: 0 <= i < |chain| - 1 ==> next[chain[i]] == chain[i + 1])
    && (forall i, j :: 0 <= i < j < |chain| ==> chain[i] != chain[j])
  }

  predicate Init(s: State) {
    && |s.place| == |s.next| && (forall n :: 0 <= n < |s.place| ==> s.place[n] == Free)
    && (forall p :: 0 <= p < |s.pcs| ==> s.pcs[p] == Idle)
    && s.head == -1 && s.queue == [] && s.pushed == [] && s.popped == [] && s.firsts == 0
  }

  predicate Enabled(s: State, a: Action) {
    match a
    case Begin(p, chain) =>
      && p < |s.pcs| && s.pcs[p] == Idle && chain != [] && Linear(s.next, chain)
      && |s.place| == |s.next| && forall i :: 0 <= i < |chain| ==> s.place[chain[i]] == Free
    case Link(p) =>
      p < |s.pcs| && s.pcs[p].Loaded? && s.pcs[p].chain != [] && s.pcs[p].chain[|s.pcs[p].chain| - 1] < |s.next|
    case Cas(p, _) => p < |s.pcs| && s.pcs[p].Linked?
    case PopAll => true
    case Change(n, _) => n < |s.next| == |s.place| && s.place[n] == Free
  }

  function Put(place: seq<Place>, chain: seq<nat>, where: Place): (r: seq<Place>)
    ensures |r| == |place|
    ensures forall n :: 0 <= n < |place| ==> r[n] == if n in chain then where else place[n]
  {
    seq(|place|, n requires 0 <= n < |place| => if n in chain then where else place[n])
  }

  function Do(s: State, a: Action): State
    requires Enabled(s, a)
  {
    match a
    case Begin(p, chain) =>
      s.(pcs := s.pcs[p := Loaded(chain, s.head)], place := Put(s.place, chain, Held(p)))
    case Link(p) =>
      var pc := s.pcs[p];
      s.(pcs := s.pcs[p := Linked(pc.chain, pc.oldHead)], next := s.next[pc.chain[|pc.chain| - 1] := pc.oldHead])
    case Cas(p, spurious) =>
      var pc := s.pcs[p];
      if spurious || s.head != pc.oldHead || pc.chain == [] then s.(pcs := s.pcs[p := Loaded(pc.chain, s.head)])
      else
        s.(pcs := s.pcs[p := Idle], head := pc.chain[0], place := Put(s.place, pc.chain, InQueue),
           queue := pc.chain + s.queue, pushed := s.pushed + Reverse(pc.chain),
           firsts := s.firsts + if PushReturns(pc.oldHead) then 1 else 0)
    case PopAll =>
      s.(head := -1, place := Put(s.place, s.queue, Free), queue := [],
         popped := s.popped + Reverse(s.queue), firsts := 0)
    case Change(n, value) => s.(next := s.next[n := value])
  }

  /** What the push which took the place of `oldHead` returns. */
  predicate PushReturns(oldHead: int) {
    oldHead == -1
  }

  // ------------------------------------------------------------------
  // The invariant

  predicate QueueOk(s: State) {
    && s.head == (if s.queue == [] then -1 else s.queue[0])
    && Linear(s.next, s.queue)
    && (s.queue != [] ==> s.next[s.queue[|s.queue| - 1]] == -1)
    && |s.place| == |s.next|
    && forall n :: 0 <= n < |s.place| ==> (s.place[n] == InQueue <==> n in s.queue)
  }

  predicate PusherOk(s: State, p: nat)
    requires p < |s.pcs|
  {
    var pc := s.pcs[p];
    pc != Idle ==>
      && pc.chain != [] && Linear(s.next, pc.chain)
      && |s.place| == |s.next| && (forall i :: 0 <= i < |pc.chain| ==> s.place[pc.chain[i]] == Held(p))
      && (pc.Linked? ==> s.next[pc.chain[|pc.chain| - 1]] == pc.oldHead)
  }

  predicate Inv(s: State) {
    && QueueOk(s)
    && (forall p {:trigger PusherOk(s, p)} :: 0 <= p < |s.pcs| ==> PusherOk(s, p))
    && s.pushed == s.popped + Reverse(s.queue)
    && s.firsts == (if s.queue == [] then 0 else 1)
  }

  lemma QueueKept(s: State, a: Action)
    requires Inv(s) && Enabled(s, a) && !a.Cas? && !a.Link?
    ensures QueueOk(Do(s, a))
  {
  }

  lemma QueueKeptByLink(s: State, a: Action)
    requires Inv(s) && Enabled(s, a) && a.Link?
    ensures QueueOk(Do(s, a))
  {
    assert PusherOk(s, a.pusher);
  }

  lemma QueueKeptByCas(s: State, a: Action)
    requires Inv(s) && Enabled(s, a) && a.Cas?
    ensures QueueOk(Do(s, a))
  {
    assert PusherOk(s, a.pusher);
    var pc := s.pcs[a.pusher];
    if !a.spurious && s.head == pc.oldHead {
      PushedOn(s, a.pusher);
    }
  }

  /** A chain which ends at the head makes a longer queue, whatever was popped and pushed in between. */
  lemma PushedOn(s: State, p: nat)
    requires QueueOk(s) && p < |s.pcs| && PusherOk(s, p) && s.pcs[p].Linked? && s.pcs[p].oldHead == s.head
    ensures Linear(s.next, s.pcs[p].chain + s.queue)
    ensures var q := s.pcs[p].chain + s.queue; s.next[q[|q| - 1]] == -1
  {
    var c, q := s.pcs[p].chain, s.queue;
    forall i, j | 0 <= i < |c| && 0 <= j < |q|
      ensures c[i] != q[j]
    {
      assert q[j] in q && s.place[c[i]] == Held(p);
    }
  }

  lemma PusherKept(s: State, a: Action, p: nat)
    requires Inv(s) && Enabled(s, a) && p < |s.pcs| && !a.Cas? && !a.Link?
    ensures PusherOk(Do(s, a), p)
  {
    assert PusherOk(s, p);
  }

  lemma PusherKeptByLink(s: State, a: Action, p: nat)
    requires Inv(s) && Enabled(s, a) && p < |s.pcs| && a.Link?
    ensures PusherOk(Do(s, a), p)
  {
    assert PusherOk(s, p) && PusherOk(s, a.pusher);
  }

  lemma PusherKeptByCas(s: State, a: Action, p: nat)
    requires Inv(s) && Enabled(s, a) && p < |s.pcs| && a.Cas?
    ensures PusherOk(Do(s, a), p)
  {
    assert PusherOk(s, p) && PusherOk(s, a.pusher);
    var n := Do(s, a);
    if p != a.pusher && s.pcs[p] != Idle {
      forall i | 0 <= i < |s.pcs[p].chain|
        ensures n.place[s.pcs[p].chain[i]] == Held(p)
      {
        assert s.place[s.pcs[p].chain[i]] == Held(p);
      }
    }
  }

  lemma StepKeeps(s: State, a: Action)
    requires Inv(s) && Enabled(s, a)
    ensures Inv(Do(s, a))
  {
    var n := Do(s, a);
    if a.Cas? {
      QueueKeptByCas(s, a);
    } else if a.Link? {
      QueueKeptByLink(s, a);
    } else {
      QueueKept(s, a);
    }
    forall p | 0 <= p < |n.pcs|
      ensures PusherOk(n, p)
    {
      if a.Cas? {
        PusherKeptByCas(s, a, p);
      } else if a.Link? {
        PusherKeptByLink(s, a, p);
      } else {
        PusherKept(s, a, p);
      }
    }
    HistoryKept(s, a);
  }

  lemma HistoryKept(s: State, a: Action)
    requires Inv(s) && Enabled(s, a)
    ensures var n := Do(s, a); n.pushed == n.popped + Reverse(n.queue) && n.firsts == if n.queue == [] then 0 else 1
  {
    if a.Cas? {
      assert PusherOk(s, a.pusher);
      ReverseConcat(s.pcs[a.pusher].chain, s.queue);
    }
  }

  // ------------------------------------------------------------------
  // Runs

  ghost predicate StepAt(states: seq<State>, actions: seq<Action>, n: nat)
    requires |states| == |actions| + 1 && n < |actions|
  {
    Enabled(states[n], actions[n]) && states[n + 1] == Do(states[n], actions[n])
  }

  ghost predicate IsRun(states: seq<State>, actions: seq<Action>) {
    && |states| == |actions| + 1
    && Init(states[0])
    && forall n {:trigger StepAt(states, actions, n)} :: 0 <= n < |actions| ==> StepAt(states, actions, n)
  }

  lemma {:induction false} RunInv(states: seq<State>, actions: seq<Action>, n: nat)
    requires IsRun(states, actions) && n < |states|
    ensures Inv(states[n])
  {
    if n > 0 {
      RunInv(states, actions, n - 1);
      assert StepAt(states, actions, n - 1);
      StepKeeps(states[n - 1], actions[n - 1]);
    }
  }

  /** Items come out once, in the order of the pushes; a pop takes everything pushed so far. */
  lemma {:induction false} PopsInPushOrder(states: seq<State>, actions: seq<Action>, m: nat, n: nat)
    requires IsRun(states, actions) && m <= n < |states|
    ensures states[n].popped <= states[n].pushed
    ensures states[m].popped <= states[n].popped && states[m].pushed <= states[n].pushed
    ensures n > 0 && actions[n - 1] == PopAll ==> states[n].popped == states[n].pushed == states[n - 1].pushed
  {
    RunInv(states, actions, n);
    if n > 0 {
      RunInv(states, actions, n - 1);
      assert StepAt(states, actions, n - 1);
    }
    if m < n {
      PopsInPushOrder(states, actions, m, n - 1);
    }
  }

  /** What a pop gets is a list of exactly the items pushed since the previous one, newest first. */
  lemma PopGetsTheList(states: seq<State>, actions: seq<Action>, n: nat)
    requires IsRun(states, actions) && n < |states|
    ensures var s := states[n];
      && s.pushed == s.popped + Reverse(s.queue)
      && Linear(s.next, s.queue)
      && (if s.queue == [] then s.head == -1 else s.head == s.queue[0] && s.next[s.queue[|s.queue| - 1]] == -1)
  {
    RunInv(states, actions, n);
  }

  /** From a pop on, one push returns true once the queue is not empty, and none before. */
  lemma OneFirst(states: seq<State>, actions: seq<Action>, n: nat)
    requires IsRun(states, actions) && n < |states|
    ensures states[n].firsts == if states[n].queue == [] then 0 else 1
  {
    RunInv(states, actions, n);
  }

  /** A successful compare-exchange. */
  predicate Pushes(states: seq<State>, actions: seq<Action>, n: nat)
    requires |states| == |actions| + 1 && n < |actions|
  {
    && actions[n].Cas? && !actions[n].spurious && actions[n].pusher < |states[n].pcs|
    && var pc := states[n].pcs[actions[n].pusher]; pc.Linked? && pc.oldHead == states[n].head && pc.chain != []
  }

  /** A push returns true if and only if it found the queue empty. */
  lemma FirstFoundEmpty(states: seq<State>, actions: seq<Action>, n: nat)
    requires IsRun(states, actions) && n < |actions|
    requires Pushes(states, actions, n)
    ensures PushReturns(states[n].pcs[actions[n].pusher].oldHead) <==> states[n].queue == []
  {
    RunInv(states, actions, n);
    assert StepAt(states, actions, n);
  }

  /** PushMany() turns a batch around before the push, and thus keeps its order. */
  lemma BatchKeepsOrder(states: seq<State>, actions: seq<Action>, n: nat, batch: seq<nat>)
    requires IsRun(states, actions) && n < |actions|
    requires Pushes(states, actions, n)
    requires states[n].pcs[actions[n].pusher].chain == Reverse(batch)
    ensures states[n + 1].pushed == states[n].pushed + batch
  {
    assert StepAt(states, actions, n);
    ReverseTwice(batch);
  }

  // ------------------------------------------------------------------
  // What a push has done when it returns

  predicate ByPusher(a: Action, p: nat) {
    (a.Begin? || a.Link? || a.Cas?) && a.pusher == p
  }

  /** Where the push of `chain` by `p` may be after the step: still trying, with nothing changed, or done. */
  predicate PushMoves(s: State, a: Action, n: State, p: nat, chain: seq<nat>)
    requires p < |n.pcs|
  {
    if n.pcs[p] == Idle then
      a.Cas? && a.pusher == p && n.queue == chain + s.queue && n.pushed == s.pushed + Reverse(chain)
    else
      n.pcs[p].chain == chain && (ByPusher(a, p) ==> n.queue == s.queue && n.pushed == s.pushed)
  }

  lemma PushStep(s: State, a: Action, p: nat, chain: seq<nat>)
    requires Inv(s) && Enabled(s, a) && p < |s.pcs|
    requires if s.pcs[p] == Idle then a == Begin(p, chain) else s.pcs[p].chain == chain
    ensures |Do(s, a).pcs| == |s.pcs| && PushMoves(s, a, Do(s, a), p, chain)
  {
    assert PusherOk(s, p);
  }

  /**
   * A push tries to put just its chain before the head until it succeeds, once: the step by which it returns adds
   * the chain to the queue, and no step of it before adds anything.
   */
  lemma {:induction false} PushReturnsOnce(
    states: seq<State>, actions: seq<Action>, from: nat, to: nat, p: nat, chain: seq<nat>)
    requires IsRun(states, actions) && from < to < |states| && actions[from] == Begin(p, chain)
    requires forall k :: from < k < to ==> p < |states[k].pcs| && states[k].pcs[p] != Idle
    ensures p < |states[to].pcs| && PushMoves(states[to - 1], actions[to - 1], states[to], p, chain)
  {
    RunInv(states, actions, to - 1);
    assert StepAt(states, actions, to - 1);
    if from + 1 < to {
      PushReturnsOnce(states, actions, from, to - 1, p, chain);
    }
    PushStep(states[to - 1], actions[to - 1], p, chain);
  }

  /** A compare-exchange which finds the head unchanged succeeds, if it does not fail without a reason. */
  lemma PushSucceeds(states: seq<State>, actions: seq<Action>, n: nat)
    requires IsRun(states, actions) && n < |actions| && Pushes(states, actions, n)
    ensures var p := actions[n].pusher; p < |states[n + 1].pcs| && states[n + 1].pcs[p] == Idle
  {
    assert StepAt(states, actions, n);
  }

  /** Pushing nothing returns whether the queue is empty, and so does IsEmpty(). */
  lemma EmptyReturns(states: seq<State>, actions: seq<Action>, n: nat)
    requires IsRun(states, actions) && n < |states|
    ensures PushReturns(states[n].head) <==> states[n].queue == []
  {
    RunInv(states, actions, n);
  }

  /** Each step of a push takes it on. */
  lemma PusherAdvances(s: State, a: Action, p: nat)
    requires Inv(s) && Enabled(s, a) && p < |s.pcs| && ByPusher(a, p)
    ensures |Do(s, a).pcs| == |s.pcs| && Do(s, a).pcs[p] != s.pcs[p]
  {
  }
}
