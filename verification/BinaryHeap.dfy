/** The intrusive min-heap of src/mg/box/BinaryHeap.h, as the schedulers use it for deadlines. */
module BinaryHeaps {
  /** An element which knows its position in the heap, -1 if it is not there. */
  class Item {
    var key: int
    var index: int

    constructor (key: int)
      ensures this.key == key && index == -1
    {
      this.key, index := key, -1;
    }
  }

  function Parent(i: nat): nat
    requires i > 0
  {
    (i - 1) / 2
  }

  predicate IsLeftAbove(a: Item, b: Item)
    reads a`key, b`key
  {
    a.key <= b.key
  }

  predicate Edge(s: seq<int>, j: nat)
    requires 0 < j < |s|
  {
    s[Parent(j)] <= s[j]
  }

  predicate Ordered(s: seq<int>) {
    forall j {:trigger Edge(s, j)} :: 0 < j < |s| ==> Edge(s, j)
  }

  /** In order but for the key at `i`, which may be anything. */
  predicate Around(s: seq<int>, i: nat) {
    && i < |s|
    && (forall j {:trigger Edge(s, j)} :: 0 < j < |s| && j != i && Parent(j) != i ==> Edge(s, j))
    && (forall j {:trigger Edge(s, j)} :: 0 < j < |s| && i > 0 && Parent(j) == i ==> s[Parent(i)] <= s[j])
  }

  /** Not below any of its children. */
  predicate AboveChildren(s: seq<int>, i: nat) {
    forall j {:trigger Edge(s, j)} :: 0 < j < |s| && Parent(j) == i ==> Edge(s, j)
  }

  lemma AroundOrdered(s: seq<int>, i: nat)
    requires Around(s, i) && AboveChildren(s, i) && (i > 0 ==> Edge(s, i))
    ensures Ordered(s)
  {
  }

  function Swapped<T>(s: seq<T>, i: nat, j: nat): seq<T>
    requires i < |s| && j < |s|
  {
    s[i := s[j]][j := s[i]]
  }

  lemma UpStep(s: seq<int>, i: nat)
    requires Around(s, i) && i > 0 && AboveChildren(s, i) && s[i] <= s[Parent(i)]
    ensures Around(Swapped(s, i, Parent(i)), Parent(i)) && AboveChildren(Swapped(s, i, Parent(i)), Parent(i))
  {
    var p := Parent(i);
    var t := Swapped(s, i, p);
    forall j | 0 < j < |t|
      ensures j != p && Parent(j) != p ==> Edge(t, j)
      ensures Parent(j) == p ==> Edge(t, j) && (p > 0 ==> t[Parent(p)] <= t[j])
    {
      if p > 0 {
        assert Edge(s, p);
      }
      if j != i {
        assert Edge(s, j);
      }
    }
  }

  lemma DownStep(s: seq<int>, i: nat, c: nat)
    requires Around(s, i) && (i > 0 ==> Edge(s, i))
    requires 0 < c < |s| && Parent(c) == i && s[c] <= s[i]
    requires forall j :: 0 < j < |s| && Parent(j) == i ==> s[c] <= s[j]
    ensures Around(Swapped(s, i, c), c) && Edge(Swapped(s, i, c), c)
  {
    var t := Swapped(s, i, c);
    forall j | 0 < j < |t|
      ensures j != c && Parent(j) != c ==> Edge(t, j)
      ensures Parent(j) == c ==> t[i] <= t[j]
    {
      if i > 0 && j == i {
        assert Edge(s, c) || s[Parent(i)] <= s[c];
      }
      if j != i && Parent(j) != i {
        assert Edge(s, j);
      }
    }
  }

  lemma NoChildren(s: seq<int>, i: nat)
    requires 2 * i + 1 >= |s|
    ensures AboveChildren(s, i)
  {
  }

  lemma AboveBoth(s: seq<int>, i: nat, c: nat)
    requires 2 * i + 1 < |s| && c < |s| && s[i] <= s[c] && s[c] <= s[2 * i + 1]
    requires 2 * i + 2 < |s| ==> s[c] <= s[2 * i + 2]
    ensures AboveChildren(s, i)
  {
  }

  /** The key at `i` has to take the place of its parent. */
  predicate CanRise(s: seq<int>, i: nat) {
    0 < i < |s| && Around(s, i) && AboveChildren(s, i) && s[i] <= s[Parent(i)]
  }

  /** The key at `i` has to give its place to its child at `c`. */
  predicate CanSink(s: seq<int>, i: nat, c: nat) {
    && Around(s, i) && (i > 0 ==> Edge(s, i))
    && 2 * i + 1 <= c <= 2 * i + 2 && c < |s|
    && s[c] <= s[i] && s[c] <= s[2 * i + 1]
    && (2 * i + 2 < |s| ==> s[c] <= s[2 * i + 2])
  }

  /** The top is a minimum. */
  lemma {:induction false} TopIsMin(s: seq<int>, i: nat)
    requires Ordered(s) && i < |s|
    ensures s[0] <= s[i]
  {
    if i > 0 {
      TopIsMin(s, Parent(i));
      assert Edge(s, i);
    }
  }

  // ------------------------------------------------------------------
  // The height

  function Log2(n: nat): nat {
    if n < 2 then 0 else 1 + Log2(n / 2)
  }

  lemma {:induction false} Log2Monotone(m: nat, n: nat)
    requires m <= n
    ensures Log2(m) <= Log2(n)
  {
    if m >= 2 {
      Log2Monotone(m / 2, n / 2);
    }
  }

  function Depth(i: nat): nat {
    Log2(i + 1)
  }

  lemma DepthOfParent(i: nat)
    requires i > 0
    ensures Depth(i) == Depth(Parent(i)) + 1
  {
    assert (i + 1) / 2 == Parent(i) + 1;
  }

  lemma DepthBound(i: nat, count: nat)
    requires i < count
    ensures Depth(i) <= Log2(count)
  {
    Log2Monotone(i + 1, count);
  }

  // ------------------------------------------------------------------
  // The heap

  ghost predicate Distinct(s: seq<Item>) {
    forall i, j :: 0 <= i < j < |s| ==> s[i] != s[j]
  }

  /** The keys of the elements. */
  ghost predicate Has(s: seq<Item>, keys: seq<int>)
    reads s`key
  {
    |keys| == |s| && forall i :: 0 <= i < |s| ==> s[i].key == keys[i]
  }

  ghost function Keys(s: seq<Item>): (keys: seq<int>)
    reads s`key
    ensures Has(s, keys)
  {
    if s == [] then [] else Keys(s[..|s| - 1]) + [s[|s| - 1].key]
  }

  /** Everyone but the element at `hole` knows its position. */
  ghost predicate Indexed(s: seq<Item>, hole: int)
    reads s`index
  {
    Distinct(s) && forall i :: 0 <= i < |s| && i != hole ==> s[i].index == i
  }

  lemma SwappedSame(s: seq<Item>, i: nat, j: nat)
    requires i < |s| && j < |s|
    ensures multiset(Swapped(s, i, j)) == multiset(s)
    ensures Distinct(s) ==> Distinct(Swapped(s, i, j))
  {
  }

  class BinaryHeap {
    var data: seq<Item>

    constructor ()
      ensures Valid() && data == []
    {
      data := [];
    }

    ghost predicate Valid()
      reads this, data
    {
      Indexed(data, -1) && Ordered(Keys(data))
    }

    method GetTop() returns (top: Item)
      requires Valid() && data != []
      ensures top == data[0] && forall e :: e in data ==> top.key <= e.key
    {
      top := data[0];
      forall e | e in data
        ensures top.key <= e.key
      {
        var i :| 0 <= i < |data| && data[i] == e;
        TopIsMin(Keys(data), i);
      }
    }

    /** In a sift: `s` is the heap with `tmp` in the hole at `index`. */
    ghost predicate Sifting(index: nat, tmp: Item, s: seq<Item>, keys: seq<int>)
      reads this, s
    {
      index < |data| && s == data[index := tmp] && Indexed(s, index) && Has(s, keys)
    }

    /** The element at `other` moves to the hole at `index`. */
    method Shift(index: nat, other: nat, it: Item, ghost tmp: Item, ghost s: seq<Item>, ghost keys: seq<int>)
      requires Sifting(index, tmp, s, keys) && other < |data| && index != other && it == data[other]
      modifies this`data, it`index
      ensures Sifting(other, tmp, Swapped(s, index, other), Swapped(keys, index, other))
    {
      data := data[index := it];
      it.index := index;
    }

    /** The hole at `index` is filled. */
    method Settle(index: nat, tmp: Item, ghost s: seq<Item>, ghost keys: seq<int>)
      requires Sifting(index, tmp, s, keys)
      modifies this`data, tmp`index
      ensures data == s && Indexed(data, -1) && Keys(data) == keys
    {
      assert s[index] == tmp;
      data := data[index := tmp];
      tmp.index := index;
    }

    /** `moves` counts how many elements gave their place to the one which goes up. */
    method PrivUpdateUp(i: nat) returns (moved: bool, ghost moves: nat)
      requires Indexed(data, -1) && Around(Keys(data), i)
      modifies this`data, data`index
      ensures Indexed(data, -1) && multiset(data) == old(multiset(data))
      ensures moved ==> Ordered(Keys(data))
      ensures !moved ==> data == old(data) && (i > 0 ==> Edge(Keys(data), i))
      ensures moves <= Depth(i) <= Log2(|data|)
    {
      moves := 0;
      DepthBound(i, |data|);
      if i == 0 {
        return false, 0;
      }
      if IsLeftAbove(data[Parent(i)], data[i]) {
        return false, 0;
      }
      moves := SiftUp(i);
      moved := true;
    }

    /** The loop of PrivUpdateUp. */
    method SiftUp(i: nat) returns (ghost moves: nat)
      requires Indexed(data, -1) && CanRise(Keys(data), i)
      modifies this`data, data`index
      ensures Valid() && multiset(data) == old(multiset(data)) && |data| == |old(data)|
      ensures moves <= Depth(i)
    {
      var index, more := i, true;
      var tmp := data[index];
      ghost var s, keys := data, Keys(data);
      moves := 0;
      while more
        invariant Sifting(index, tmp, s, keys) && multiset(s) == old(multiset(data)) && |s| == |old(data)|
        invariant if more then CanRise(keys, index) else Ordered(keys)
        invariant moves + Depth(index) == Depth(i)
        decreases more, index
      {
        var parent := Parent(index);
        Rise(s, keys, index);
        Known(s, parent, old(data));
        Shift(index, parent, data[parent], tmp, s, keys);
        s, keys := Swapped(s, index, parent), Swapped(keys, index, parent);
        moves := moves + 1;
        index := parent;
        more := NextParent(index, tmp, s, keys);
      }
      Known(s, index, old(data));
      Settle(index, tmp, s, keys);
    }

    /** The end of an iteration: whether the element has to rise further. */
    method NextParent(index: nat, tmp: Item, ghost s: seq<Item>, ghost keys: seq<int>) returns (more: bool)
      requires Sifting(index, tmp, s, keys) && Around(keys, index) && AboveChildren(keys, index)
      ensures Sifting(index, tmp, s, keys)
      ensures if more then CanRise(keys, index) else Ordered(keys)
    {
      assert s[index] == tmp;
      more := index != 0 && IsLeftAbove(tmp, data[Parent(index)]);
      if !more {
        AroundOrdered(keys, index);
      }
    }

    lemma Rise(s: seq<Item>, keys: seq<int>, index: nat)
      requires |keys| == |s| && CanRise(keys, index)
      ensures var p := Parent(index); var t := Swapped(keys, index, p);
        && Around(t, p) && AboveChildren(t, p)
        && multiset(Swapped(s, index, p)) == multiset(s)
        && Depth(index) == Depth(p) + 1
    {
      UpStep(keys, index);
      DepthOfParent(index);
      SwappedSame(s, index, Parent(index));
    }

    /** The child which is not below the other one. */
    function TopChild(leftChild: nat): (topChild: nat)
      requires leftChild < |data|
      reads this, data`key
      ensures leftChild <= topChild <= leftChild + 1 && topChild < |data|
      ensures data[topChild].key <= data[leftChild].key
      ensures leftChild + 1 < |data| ==> data[topChild].key <= data[leftChild + 1].key
    {
      var rightChild := leftChild + 1;
      if rightChild >= |data| then leftChild
      else if IsLeftAbove(data[leftChild], data[rightChild]) then leftChild
      else rightChild
    }

    method PrivUpdateDown(i: nat) returns (moved: bool, ghost moves: nat)
      requires Indexed(data, -1) && Around(Keys(data), i) && (i > 0 ==> Edge(Keys(data), i))
      modifies this`data, data`index
      ensures Valid() && multiset(data) == old(multiset(data))
      ensures moves <= Log2(|data|)
    {
      moves := 0;
      var index := i;
      var leftChild := 2 * index + 1;
      if leftChild >= |data| {
        NoChildren(Keys(data), index);
        AroundOrdered(Keys(data), index);
        return false, 0;
      }
      var topChild := TopChild(leftChild);
      if IsLeftAbove(data[index], data[topChild]) {
        AboveBoth(Keys(data), index, topChild);
        AroundOrdered(Keys(data), index);
        return false, 0;
      }
      assert Keys(data)[topChild] <= Keys(data)[index];
      moves := SiftDown(index, topChild);
      moved := true;
    }

    /** The loop of PrivUpdateDown. */
    method SiftDown(i: nat, firstChild: nat) returns (ghost moves: nat)
      requires Indexed(data, -1) && 2 * i + 1 < |data| && firstChild == TopChild(2 * i + 1)
      requires Around(Keys(data), i) && (i > 0 ==> Edge(Keys(data), i)) && data[firstChild].key <= data[i].key
      modifies this`data, data`index
      ensures Valid() && multiset(data) == old(multiset(data))
      ensures moves <= Log2(|data|)
    {
      var index, topChild, more := i, firstChild, true;
      var tmp := data[index];
      ghost var s, keys := data, Keys(data);
      Chosen(index, tmp, s, keys, topChild);
      moves := 0;
      while more
        invariant Sifting(index, tmp, s, keys) && multiset(s) == old(multiset(data))
        invariant if more then CanSink(keys, index, topChild) else Ordered(keys)
        invariant moves + Depth(i) == Depth(index)
        decreases more, |s| - index
      {
        Sink(s, keys, index, topChild);
        Known(s, topChild, old(data));
        Shift(index, topChild, data[topChild], tmp, s, keys);
        s, keys := Swapped(s, index, topChild), Swapped(keys, index, topChild);
        moves := moves + 1;
        index := topChild;
        more, topChild := NextChild(index, tmp, s, keys);
      }
      DepthBound(index, |s|);
      Known(s, index, old(data));
      Settle(index, tmp, s, keys);
    }

    /** The end of an iteration: the next child to rise, if there is one. */
    method NextChild(index: nat, tmp: Item, ghost s: seq<Item>, ghost keys: seq<int>)
      returns (more: bool, topChild: nat)
      requires Sifting(index, tmp, s, keys) && Around(keys, index) && (index > 0 ==> Edge(keys, index))
      ensures Sifting(index, tmp, s, keys)
      ensures if more then CanSink(keys, index, topChild) else Ordered(keys)
    {
      var leftChild := 2 * index + 1;
      if leftChild >= |data| {
        NoChildren(keys, index);
        AroundOrdered(keys, index);
        return false, 0;
      }
      topChild := TopChild(leftChild);
      Chosen(index, tmp, s, keys, topChild);
      more := IsLeftAbove(data[topChild], tmp);
      if !more {
        AboveBoth(keys, index, topChild);
        AroundOrdered(keys, index);
      }
    }

    lemma Chosen(index: nat, tmp: Item, s: seq<Item>, keys: seq<int>, topChild: nat)
      requires Sifting(index, tmp, s, keys) && 2 * index + 1 < |data| && topChild == TopChild(2 * index + 1)
      ensures 2 * index + 1 <= topChild <= 2 * index + 2 && topChild < |keys| == |s|
      ensures keys[topChild] <= keys[2 * index + 1] && (2 * index + 2 < |s| ==> keys[topChild] <= keys[2 * index + 2])
      ensures data[topChild].key == keys[topChild] && tmp.key == keys[index]
    {
      assert s[index] == tmp;
    }

    lemma Sink(s: seq<Item>, keys: seq<int>, index: nat, topChild: nat)
      requires |keys| == |s| && CanSink(keys, index, topChild)
      ensures Around(Swapped(keys, index, topChild), topChild) && Edge(Swapped(keys, index, topChild), topChild)
      ensures multiset(Swapped(s, index, topChild)) == multiset(s)
      ensures Depth(topChild) == Depth(index) + 1
    {
      assert Parent(topChild) == index;
      DownStep(keys, index, topChild);
      DepthOfParent(topChild);
      SwappedSame(s, index, topChild);
    }

    lemma Known(s: seq<Item>, i: nat, t: seq<Item>)
      requires i < |s| && multiset(s) == multiset(t)
      ensures s[i] in t
    {
      assert s[i] in multiset(t);
    }

    /** The element either goes up, or stays, or goes down, whatever its key is. */
    method PrivUpdate(i: nat) returns (ghost moves: nat)
      requires Indexed(data, -1) && Around(Keys(data), i)
      modifies this`data, data`index
      ensures Valid() && multiset(data) == old(multiset(data))
      ensures moves <= Log2(|data|)
    {
      var moved;
      moved, moves := PrivUpdateUp(i);
      if !moved {
        moved, moves := PrivUpdateDown(i);
      }
    }

    method Push(e: Item) returns (ghost moves: nat)
      requires Valid() && e !in data
      modifies this`data, data`index, e`index
      ensures Valid() && multiset(data) == old(multiset(data)) + multiset{e}
      ensures moves <= Log2(|data|)
    {
      ghost var was, keys := data, Keys(data);
      var index := |data|;
      data := data + [e];
      data[index].index := index;
      assert Keys(data) == keys + [e.key];
      Appended(keys, e.key);
      var moved;
      moved, moves := PrivUpdateUp(index);
      if !moved {
        NoChildren(Keys(data), index);
        AroundOrdered(Keys(data), index);
      }
    }

    /** The owner of the top changed its key. */
    method UpdateTop() returns (ghost moves: nat)
      requires Indexed(data, -1) && data != [] && Around(Keys(data), 0)
      modifies this`data, data`index
      ensures Valid() && multiset(data) == old(multiset(data))
      ensures moves <= Log2(|data|)
    {
      var moved;
      moved, moves := PrivUpdateDown(0);
    }

    /** The owner of an element changed its key. */
    method Update(e: Item) returns (ghost moves: nat)
      requires Indexed(data, -1) && e in data && Around(Keys(data), e.index)
      modifies this`data, data`index
      ensures Valid() && multiset(data) == old(multiset(data))
      ensures moves <= Log2(|data|)
    {
      var index := e.index;
      assert index >= 0 && data[index] == e;
      moves := PrivUpdate(index);
    }

    /** An arbitrary new key and Update() make a heap again. */
    method ChangeKey(e: Item, key: int) returns (ghost moves: nat)
      requires Valid() && e in data
      modifies this`data, data`index, e`key
      ensures Valid() && multiset(data) == old(multiset(data))
      ensures e.key == key && forall f :: f in old(data) && f != e ==> f.key == old(f.key)
      ensures moves <= Log2(|data|)
    {
      ghost var keys := Keys(data);
      assert data[e.index] == e;
      e.key := key;
      assert Keys(data) == keys[e.index := key];
      Changed(keys, e.index, key);
      moves := Update(e);
    }

    method RemoveTop() returns (removed: bool, ghost moves: nat)
      requires Valid()
      modifies this`data, data`index
      ensures removed <==> old(data) != []
      ensures !removed ==> data == []
      ensures removed ==> Valid() && multiset(data) == old(multiset(data)) - multiset{old(data)[0]}
      ensures removed ==> old(data)[0].index == -1
      ensures moves <= Log2(|old(data)|)
    {
      var count := |data|;
      if count == 0 {
        return false, 0;
      }
      removed := true;
      if count == 1 {
        data[0].index := -1;
        data := data[..0];
        return true, 0;
      }
      FillWithLast(0);
      Log2Monotone(|data|, count);
      var moved;
      moved, moves := PrivUpdateDown(0);
    }

    /** The last element takes the place of the one at `index`, which goes. */
    method FillWithLast(index: nat)
      requires Valid() && index + 1 < |data|
      modifies this`data, data`index
      ensures Indexed(data, -1) && Around(Keys(data), index) && |data| == |old(data)| - 1
      ensures multiset(data) == old(multiset(data)) - multiset{old(data)[index]}
      ensures old(data)[index].index == -1 && old(data)[index] !in data
      ensures forall k :: 0 <= k < |data| ==> data[k] in old(data)
    {
      ghost var was, keys := data, Keys(data);
      var count := |data|;
      data[index].index := -1;
      data := data[index := data[count - 1]];
      data[index].index := index;
      data := data[..count - 1];
      ghost var now := was[index := was[count - 1]][..count - 1];
      assert data == now;
      ReplacedSame(was, index);
      Replaced(keys, index);
      HasKeys(data, keys[index := keys[count - 1]][..count - 1]);
      StaysOut(was, now, index);
    }

    method Remove(e: Item) returns (ghost moves: nat)
      requires Valid() && e in data
      modifies this`data, data`index
      ensures Valid() && multiset(data) == old(multiset(data)) - multiset{e}
      ensures e.index == -1
      ensures moves <= Log2(|old(data)|)
    {
      var index, count := e.index, |data|;
      assert 0 <= index < count && data[index] == e;
      if index + 1 == count {
        DropLast();
        return 0;
      }
      FillWithLast(index);
      Log2Monotone(|data|, count);
      moves := PrivUpdate(index);
    }

    method DropLast()
      requires Valid() && data != []
      modifies this`data, data`index
      ensures Valid() && multiset(data) == old(multiset(data)) - multiset{old(data)[|old(data)| - 1]}
      ensures old(data)[|old(data)| - 1].index == -1
    {
      ghost var was, keys := data, Keys(data);
      data[|data| - 1].index := -1;
      data := data[..|data| - 1];
      assert was == data + [was[|data|]];
      assert Keys(data) == keys[..|data|];
      Shortened(keys);
    }

    method Pop() returns (out: Item?, ghost moves: nat)
      requires Valid()
      modifies this`data, data`index
      ensures out == null <==> old(data) == []
      ensures out != null ==>
        && out in old(data) && (forall f :: f in old(data) ==> out.key <= f.key)
        && Valid() && multiset(data) == old(multiset(data)) - multiset{out} && out.index == -1
    {
      if data == [] {
        return null, 0;
      }
      out := GetTop();
      var removed;
      removed, moves := RemoveTop();
    }
  }

  lemma {:induction false} HasKeys(s: seq<Item>, keys: seq<int>)
    requires Has(s, keys)
    ensures Keys(s) == keys
  {
    assert Has(s, Keys(s));
  }

  lemma Appended(s: seq<int>, k: int)
    requires Ordered(s)
    ensures Around(s + [k], |s|)
  {
    var t := s + [k];
    forall j | 0 < j < |t|
      ensures Parent(j) != |s| && (j != |s| ==> Edge(t, j))
    {
      if j < |s| {
        assert Edge(s, j);
      }
    }
  }

  lemma Changed(s: seq<int>, i: nat, k: int)
    requires Ordered(s) && i < |s|
    ensures Around(s[i := k], i)
  {
    var t := s[i := k];
    if i > 0 {
      assert Edge(s, i);
    }
    forall j | 0 < j < |t|
      ensures j != i && Parent(j) != i ==> Edge(t, j)
      ensures i > 0 && Parent(j) == i ==> t[Parent(i)] <= t[j]
    {
      assert Edge(s, j);
    }
  }

  lemma Shortened(s: seq<int>)
    requires Ordered(s) && s != []
    ensures Ordered(s[..|s| - 1])
  {
    var t := s[..|s| - 1];
    forall j | 0 < j < |t|
      ensures Edge(t, j)
    {
      assert Edge(s, j);
    }
  }

  /** The last element took the place of another one. */
  lemma Replaced(s: seq<int>, i: nat)
    requires Ordered(s) && i < |s| - 1
    ensures Around(s[i := s[|s| - 1]][..|s| - 1], i)
  {
    Shortened(s);
    Changed(s[..|s| - 1], i, s[|s| - 1]);
    assert s[..|s| - 1][i := s[|s| - 1]] == s[i := s[|s| - 1]][..|s| - 1];
  }

  lemma ReplacedSame(s: seq<Item>, i: nat)
    requires i < |s| - 1
    ensures multiset(s[i := s[|s| - 1]][..|s| - 1]) == multiset(s) - multiset{s[i]}
    ensures Distinct(s) ==> Distinct(s[i := s[|s| - 1]][..|s| - 1])
  {
    var x := s[|s| - 1];
    var t := s[i := x];
    assert t == t[..|s| - 1] + [x];
    assert multiset(t) == multiset(t[..|s| - 1]) + multiset{x};
    assert multiset(t) == multiset(s) - multiset{s[i]} + multiset{x};
    SumSame(multiset(t[..|s| - 1]), multiset(s) - multiset{s[i]}, x);
  }

  lemma SumSame<T>(a: multiset<T>, b: multiset<T>, x: T)
    ensures a + multiset{x} == b + multiset{x} ==> a == b
  {
    if a + multiset{x} == b + multiset{x} {
      assert a == (a + multiset{x}) - multiset{x};
      assert b == (b + multiset{x}) - multiset{x};
    }
  }

  lemma StaysOut(was: seq<Item>, data: seq<Item>, i: nat)
    requires i < |was| && Distinct(was) && multiset(data) == multiset(was) - multiset{was[i]}
    ensures was[i] !in data
  {
    if was[i] in data {
      assert was[i] in multiset(data);
      assert multiset(was)[was[i]] >= 2;
      OnceIn(was, i);
    }
  }

  lemma OnceIn(s: seq<Item>, i: nat)
    requires i < |s| && Distinct(s)
    ensures multiset(s)[s[i]] == 1
  {
    assert s == s[..i] + [s[i]] + s[i + 1..];
    assert s[i] !in s[..i] && s[i] !in s[i + 1..];
  }
}
