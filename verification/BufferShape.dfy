/** The shape of a BufferStream chain, and what filling, cutting and splicing do to it. */
module BufferShapes {
  import opened Buffers

  /** `d` buffers with data, then buffers with space only. */
  predicate Shape(s: seq<Node>, d: nat) {
    && d <= |s|
    && (forall i :: 0 <= i < d ==> s[i].bytes != [])
    && (forall i :: d <= i < |s| ==> s[i].bytes == [] && s[i].room != [])
  }

  /** Where the next byte is written. */
  function WriteIndex(s: seq<Node>, d: nat): (w: nat)
    requires d <= |s|
    ensures d - 1 <= w <= d
  {
    if d > 0 && s[d - 1].room != [] then d - 1 else d
  }

  function WriteSize(s: seq<Node>, d: nat): nat
    requires d <= |s|
  {
    |Room(s[WriteIndex(s, d)..])|
  }

  // ------------------------------------------------------------------
  // BuffersPropagateOnWrite

  /** The first `e` nodes filled up and `m` more bytes used in the next one. */
  function Filled(s: seq<Node>, e: nat, m: nat): (r: seq<Node>)
    requires e < |s| && m <= |s[e].room|
    ensures |r| == |s|
  {
    seq(|s|, i requires 0 <= i < |s| =>
      if i < e then Node(s[i].bytes + s[i].room, [])
      else if i == e then Node(s[i].bytes + s[i].room[..m], s[i].room[m..])
      else s[i])
  }

  lemma {:induction false} FilledUpTo(s: seq<Node>, e: nat, m: nat, k: nat)
    requires k <= e < |s| && m <= |s[e].room|
    requires forall i :: 0 < i < |s| ==> s[i].bytes == []
    ensures Bytes(Filled(s, e, m)[..k]) == Bytes(s[..k]) + Room(s[..k])
  {
    if k > 0 {
      FilledUpTo(s, e, m, k - 1);
      BytesUpTo(s, k - 1);
      BytesUpTo(Filled(s, e, m), k - 1);
      if k == 1 {
        assert s[..0] == [];
      }
    }
  }

  lemma FilledBytes(s: seq<Node>, e: nat, m: nat)
    requires e < |s| && m <= |s[e].room|
    requires forall i :: 0 < i < |s| ==> s[i].bytes == []
    ensures |Room(s[..e])| + m <= |Room(s)|
    ensures Bytes(Filled(s, e, m)) == Bytes(s) + Room(s)[..|Room(s[..e])| + m]
  {
    var r := Filled(s, e, m);
    FilledUpTo(s, e, m, e);
    TailOfEmpty(s, e);
    TailOfEmpty(r, e);
    RoomPrefix(s, e, m);
    FilledJoin(Bytes(s[..e]), Room(s[..e]), s[e].bytes, s[e].room[..m], e);
  }

  lemma RoomPrefix(s: seq<Node>, e: nat, m: nat)
    requires e < |s| && m <= |s[e].room|
    ensures |Room(s[..e])| + m <= |Room(s)|
    ensures Room(s)[..|Room(s[..e])| + m] == Room(s[..e]) + s[e].room[..m]
  {
    BytesUpTo(s, e);
    BytesSplit(s, e + 1);
    var a, b, c := Room(s[..e]), s[e].room, Room(s[e + 1..]);
    assert Room(s) == a + b + c;
    assert ((a + b) + c)[..|a| + m] == a + b[..m];
  }

  lemma FilledJoin<T>(a: seq<T>, r: seq<T>, b: seq<T>, x: seq<T>, e: nat)
    requires e == 0 ==> a == [] && r == []
    requires e > 0 ==> b == []
    ensures (a + r) + (b + x) == (a + b) + (r + x)
  {
  }

  lemma TailOfEmpty(s: seq<Node>, e: nat)
    requires e < |s|
    requires forall i :: e < i < |s| ==> s[i].bytes == []
    ensures Bytes(s) == Bytes(s[..e]) + s[e].bytes
  {
    BytesSplit(s, e + 1);
    BytesOfEmpty(s[e + 1..]);
    BytesUpTo(s, e);
  }

  lemma FilledRoom(s: seq<Node>, e: nat, m: nat)
    requires e < |s| && m <= |s[e].room|
    ensures |Room(s)| == |Room(s[..e])| + m + |Room(Filled(s, e, m)[e..])|
  {
    var r := Filled(s, e, m);
    BytesSplit(s, e);
    BytesAt(s, e);
    BytesAt(r, e);
    assert r[e + 1..] == s[e + 1..];
  }

  lemma RoomBeyond(s: seq<Node>, e: nat, left: nat)
    requires e < |s| && |Room(s[..e])| + left <= |Room(s)|
    requires left > |s[e].room|
    ensures e + 1 < |s|
    ensures |Room(s[..e + 1])| == |Room(s[..e])| + |s[e].room|
    ensures Filled(s, e, |s[e].room|) == Filled(s, e + 1, 0)
  {
    BytesUpTo(s, e);
    BytesSplit(s, e + 1);
    var n := s[e];
    assert n.room[..|n.room|] == n.room && n.room[|n.room|..] == [];
    var m := s[e + 1];
    assert m.bytes + m.room[..0] == m.bytes && m.room[0..] == m.room;
  }

  /** The node after `n` bytes of its room became data. */
  function Used(a: Node, n: nat): Node
    requires n <= |a.room|
  {
    Node(a.bytes + a.room[..n], a.room[n..])
  }

  /** Counts `n` bytes of the room of the buffer at `e` as data. */
  method Advance(head: Buffer?, ghost ns: seq<Buffer>, ghost s: seq<Node>, b: Buffer, ghost e: nat, n: nat)
    requires IsChain(head, ns, s) && e < |ns| && b == ns[e] && n <= |s[e].room|
    modifies b
    ensures IsChain(head, ns, s[e := Used(s[e], n)])
  {
    assert Holds(b, s[e]);
    b.pos := b.pos + n;
    assert Holds(b, Used(s[e], n));
  }

  lemma FilledUsed(s: seq<Node>, e: nat, n: nat)
    requires e < |s| && n <= |s[e].room|
    ensures Filled(s, e, 0)[e] == s[e]
    ensures Filled(s, e, 0)[e := Used(s[e], n)] == Filled(s, e, n)
  {
  }

  lemma FilledNone(s: seq<Node>)
    requires s != []
    ensures Filled(s, 0, 0) == s
  {
    assert s[0].bytes + s[0].room[..0] == s[0].bytes;
  }

  /** Grows the positions up to the capacities by `size` in all; returns the last one touched. */
  method PropagateOnWrite(head: Buffer?, size: nat, ghost ns: seq<Buffer>, ghost s: seq<Node>)
    returns (r: Buffer?, ghost e: nat, ghost m: nat)
    requires IsChain(head, ns, s) && size <= |Room(s)|
    modifies ns
    ensures size == 0 ==> r == head && IsChain(head, ns, s)
    ensures size > 0 ==> e < |ns| && r == ns[e] && 0 < m <= |s[e].room|
    ensures size > 0 ==> size == |Room(s[..e])| + m && IsChain(head, ns, Filled(s, e, m))
  {
    r := head;
    e, m := 0, 0;
    var left: nat := size;
    assert s[..0] == [];
    if s != [] {
      FilledNone(s);
    }
    while left > 0
      invariant size > 0 ==> left > 0
      invariant size > 0 ==> e < |ns| && r == ns[e] && IsChain(head, ns, Filled(s, e, 0))
      invariant size > 0 ==> left + |Room(s[..e])| == size
      invariant size == 0 ==> left == 0 && r == head && IsChain(head, ns, s)
      decreases |ns| - e
    {
      FilledUsed(s, e, 0);
      assert Holds(r, s[e]);
      var cap: nat := |r.data| - r.pos;
      m := left;
      if cap > left {
        FilledUsed(s, e, left);
        Advance(head, ns, Filled(s, e, 0), r, e, left);
        return;
      }
      FilledUsed(s, e, cap);
      Advance(head, ns, Filled(s, e, 0), r, e, cap);
      if cap == left {
        return;
      }
      RoomBeyond(s, e, left);
      r := r.next;
      left := left - cap;
      e := e + 1;
    }
  }

  // ------------------------------------------------------------------
  // How the operations change the shape

  lemma WriteSizeIs(s: seq<Node>, d: nat)
    requires Shape(s, d)
    ensures WriteSize(s, d) == (if d > 0 then |s[d - 1].room| else 0) + |Room(s[d..])|
  {
    if d > 0 {
      BytesAt(s, d - 1);
    }
  }

  lemma ContentEnds(s: seq<Node>, d: nat)
    requires Shape(s, d)
    ensures Bytes(s) == Bytes(s[..d]) && Bytes(s[d..]) == []
    ensures d == 0 <==> Bytes(s) == []
  {
    BytesSplit(s, d);
    BytesOfEmpty(s[d..]);
    if d > 0 {
      BytesUpTo(s, d - 1);
    }
  }

  lemma AppendShape(s: seq<Node>, d: nat, n: Node)
    requires Shape(s, d) && n.bytes == [] && n.room != []
    ensures Shape(s + [n], d) && Bytes(s + [n]) == Bytes(s)
    ensures WriteIndex(s + [n], d) == WriteIndex(s, d)
    ensures WriteSize(s + [n], d) == WriteSize(s, d) + |n.room|
  {
    var r, one := s + [n], [n];
    assert one[1..] == [] && Room(one) == n.room && Bytes(one) == [];
    BytesConcat(s, one);
    WriteSizeIs(s, d);
    WriteSizeIs(r, d);
    assert r[d..] == s[d..] + one;
    RoomConcat(s[d..], one);
  }

  lemma NoSpace(s: seq<Node>, d: nat)
    requires Shape(s, d) && WriteIndex(s, d) == |s|
    ensures d == |s| && WriteSize(s, d) == 0
    ensures d > 0 ==> s[d - 1].room == []
  {
  }

  lemma SpaceNone(s: seq<Node>, d: nat)
    requires Shape(s, d)
    ensures WriteSize(s, d) == 0 <==> WriteIndex(s, d) == |s|
  {
    var w := WriteIndex(s, d);
    if w < |s| {
      BytesAt(s, w);
    }
  }

  lemma FilledShape(s: seq<Node>, d: nat, e: nat, m: nat, r: seq<Node>)
    requires Shape(s, d) && WriteIndex(s, d) + e < |s|
    requires 0 < m <= |s[WriteIndex(s, d) + e].room|
    requires r == s[..WriteIndex(s, d)] + Filled(s[WriteIndex(s, d)..], e, m)
    ensures Shape(r, WriteIndex(s, d) + e + 1)
  {
  }

  lemma FilledContent(s: seq<Node>, d: nat, e: nat, m: nat, r: seq<Node>)
    requires Shape(s, d) && WriteIndex(s, d) + e < |s|
    requires 0 < m <= |s[WriteIndex(s, d) + e].room|
    requires r == s[..WriteIndex(s, d)] + Filled(s[WriteIndex(s, d)..], e, m)
    ensures var t := s[WriteIndex(s, d)..]; var size := |Room(t[..e])| + m;
      size <= |Room(t)| && Bytes(r) == Bytes(s) + Room(t)[..size]
  {
    var w := WriteIndex(s, d);
    var t := s[w..];
    FilledBytes(t, e, m);
    BytesSplit(s, w);
    BytesConcat(s[..w], Filled(t, e, m));
    Assoc(Bytes(s[..w]), Bytes(t), Room(t)[..|Room(t[..e])| + m]);
  }

  lemma FilledSpace(s: seq<Node>, d: nat, e: nat, m: nat, r: seq<Node>)
    requires Shape(s, d) && WriteIndex(s, d) + e < |s|
    requires 0 < m <= |s[WriteIndex(s, d) + e].room|
    requires r == s[..WriteIndex(s, d)] + Filled(s[WriteIndex(s, d)..], e, m)
    requires Shape(r, WriteIndex(s, d) + e + 1)
    ensures WriteSize(r, WriteIndex(s, d) + e + 1) + |Room(s[WriteIndex(s, d)..][..e])| + m == WriteSize(s, d)
  {
    var w := WriteIndex(s, d);
    var t := s[w..];
    FilledRoom(t, e, m);
    WriteSizeIs(r, w + e + 1);
    assert r[w + e..] == Filled(t, e, m)[e..];
    BytesAt(r, w + e);
  }

  lemma DropShape(s: seq<Node>, d: nat, k: nat)
    requires Shape(s, d) && k <= WriteIndex(s, d)
    ensures k <= d && Shape(s[k..], d - k)
    ensures WriteIndex(s[k..], d - k) == WriteIndex(s, d) - k
    ensures WriteSize(s[k..], d - k) == WriteSize(s, d)
  {
    var w := WriteIndex(s, d);
    assert s[k..][w - k..] == s[w..];
  }

  lemma CutShape(s: seq<Node>, d: nat, n: nat, r: seq<Node>)
    requires Shape(s, d) && d > 0 && n <= |s[0].bytes|
    requires n == |s[0].bytes| ==> WriteIndex(s, d) == 0
    requires r == s[0 := Node(s[0].bytes[n..], s[0].room)]
    ensures var x := if n == |s[0].bytes| then 0 else d;
      Shape(r, x) && WriteIndex(r, x) == WriteIndex(s, d) && WriteSize(r, x) == WriteSize(s, d)
    ensures Bytes(r) == Bytes(s)[n..]
  {
    assert r[1..] == s[1..];
    var w := WriteIndex(s, d);
    if w > 0 {
      assert r[w..] == s[w..];
    }
    assert Bytes(s) == s[0].bytes + Bytes(s[1..]);
    assert (s[0].bytes + Bytes(s[1..]))[n..] == s[0].bytes[n..] + Bytes(s[1..]);
  }

  lemma InsertShape(s: seq<Node>, d: nat, x: seq<Node>, r: seq<Node>)
    requires Shape(s, d) && x != []
    requires forall i :: 0 <= i < |x| ==> x[i].bytes != []
    requires r == s[..d] + x + s[d..]
    ensures Shape(r, d + |x|) && Bytes(r) == Bytes(s) + Bytes(x)
    ensures WriteSize(r, d + |x|) == |x[|x| - 1].room| + |Room(s[d..])|
  {
    ContentEnds(s, d);
    BytesConcat(s[..d] + x, s[d..]);
    BytesConcat(s[..d], x);
    WriteSizeIs(r, d + |x|);
    assert r[d + |x|..] == s[d..];
  }

  lemma StoreBytes(s: seq<Node>, c: nat, chunk: seq<Byte>, n: Node)
    requires c < |s| && n.bytes == s[c].bytes + chunk
    requires forall i :: c < i < |s| ==> s[i].bytes == []
    ensures Bytes(s[c := n]) == Bytes(s) + chunk
  {
    var r := s[c := n];
    TailOfEmpty(s, c);
    TailOfEmpty(r, c);
    assert r[..c] == s[..c];
    Assoc(Bytes(s[..c]), s[c].bytes, chunk);
  }

  // ------------------------------------------------------------------
  // WriteCopy: `w` is where it starts, `n` the length of the chain then, `c` the buffer being filled

  predicate Copying(s: seq<Node>, n: nat, w: nat, c: nat) {
    && w < n <= |s| && c < |s| && s[c].room != []
    && (if c == w then |s| == n else n <= c == |s| - 1 && s[w].room == [] && s[w].bytes != [] && s[c].bytes == [])
    && (forall i :: 0 <= i < w ==> s[i].bytes != [])
    && (forall i :: w < i < n ==> s[i].bytes == [] && s[i].room != [])
    && (forall i :: n <= i < c ==> s[i].bytes != [])
  }

  lemma CopyingNext(s: seq<Node>, n: nat, w: nat, c: nat, a: Node, b: Node)
    requires Copying(s, n, w, c) && a.bytes != [] && a.room == [] && b.bytes == [] && b.room != []
    ensures Copying(s[c := a] + [b], n, w, |s|)
    ensures Bytes(s[c := a] + [b]) == Bytes(s[c := a])
  {
    var t, one := s[c := a], [b];
    BytesConcat(t, one);
    assert one[1..] == [] && Bytes(one) == [];
  }

  /** The copy ends in a stream again unless it left spare buffers in the middle. */
  lemma CopyingEnd(s: seq<Node>, n: nat, w: nat, c: nat, a: Node)
    requires Copying(s, n, w, c) && a.bytes != []
    ensures var t := s[c := a];
      if w + 1 == n || (c == w && a.room != []) then
        && Shape(t, c + 1)
        && WriteIndex(t, c + 1) == (if a.room != [] then c else c + 1)
        && (c == w ==> WriteSize(t, c + 1) + |s[c].room| == |Room(s[c..])| + |a.room|)
        && (w + 1 == n ==> WriteSize(t, c + 1) == |a.room|)
      else
        && t[w + 1].bytes == [] && t[w + 1].room != []
        && (forall i :: 0 <= i <= w ==> t[i].bytes != [])
        && t[w].room == []
        && (c == w ==> w + 2 < |t| ==> t[w + 2].bytes == [])
  {
    var t := s[c := a];
    assert t[c + 1..] == s[c + 1..];
    BytesAt(t, c);
    BytesAt(s, c);
    if w + 1 == n {
      assert t[c + 1..] == [];
    }
  }

  // ------------------------------------------------------------------
  // Parts of chains

  lemma ChainFrom(head: Buffer?, ns: seq<Buffer>, s: seq<Node>, k: nat)
    requires IsChain(head, ns, s) && k <= |ns|
    ensures IsChain(At(ns, k), ns[k..], s[k..])
  {
    var t, u := ns[k..], s[k..];
    forall i | 0 <= i < |t|
      ensures Holds(t[i], u[i]) && t[i].next == At(t, i + 1)
    {
      assert t[i] == ns[k + i] && Holds(ns[k + i], s[k + i]);
    }
  }

  /** A changed end of a chain behind an unchanged prefix. */
  lemma ChainJoin(head: Buffer?, ns: seq<Buffer>, p: seq<Node>, u: seq<Node>)
    requires |p| + |u| == |ns| && Distinct(ns) && head == At(ns, 0)
    requires forall i {:trigger Holds(ns[i], p[i])} :: 0 <= i < |p| ==> Holds(ns[i], p[i])
    requires forall i {:trigger ns[i].next} :: 0 <= i < |p| ==> ns[i].next == At(ns, i + 1)
    requires IsChain(At(ns, |p|), ns[|p|..], u)
    ensures IsChain(head, ns, p + u)
  {
    var t, s := ns[|p|..], p + u;
    forall i | 0 <= i < |ns|
      ensures Holds(ns[i], s[i]) && ns[i].next == At(ns, i + 1)
    {
      if i < |p| {
        assert Holds(ns[i], p[i]);
      } else {
        var j := i - |p|;
        assert t[j] == ns[i] && Holds(t[j], u[j]) && t[j].next == At(t, j + 1);
      }
    }
  }

  /** PropagateOnWrite() on the part of a chain from `w`. */
  method PropagateFrom(ghost head: Buffer?, ghost ns: seq<Buffer>, ghost s: seq<Node>, at: Buffer?, ghost w: nat,
                       size: nat)
    returns (r: Buffer?, ghost e: nat, ghost m: nat)
    requires IsChain(head, ns, s) && w <= |ns| && at == At(ns, w) && size <= |Room(s[w..])|
    modifies ns[w..]
    ensures size == 0 ==> r == at && IsChain(head, ns, s)
    ensures size > 0 ==> w + e < |ns| && r == ns[w + e] && 0 < m <= |s[w + e].room|
    ensures size > 0 ==> size == |Room(s[w..][..e])| + m && IsChain(head, ns, s[..w] + Filled(s[w..], e, m))
  {
    ChainFrom(head, ns, s, w);
    r, e, m := PropagateOnWrite(at, size, ns[w..], s[w..]);
    ghost var p := s[..w];
    forall i {:trigger Holds(ns[i], p[i])} | 0 <= i < w
      ensures Holds(ns[i], p[i])
    {
      assert old(Holds(ns[i], s[i]));
      assert ns[i] !in ns[w..];
    }
    if size > 0 {
      ChainJoin(head, ns, p, Filled(s[w..], e, m));
    } else {
      ChainJoin(head, ns, p, s[w..]);
      assert p + s[w..] == s;
    }
  }

  lemma FilledStream(s: seq<Node>, d: nat, e: nat, m: nat, size: nat) returns (r: seq<Node>, c: nat)
    requires Shape(s, d) && WriteIndex(s, d) + e < |s|
    requires 0 < m <= |s[WriteIndex(s, d) + e].room|
    requires size == |Room(s[WriteIndex(s, d)..][..e])| + m
    ensures r == s[..WriteIndex(s, d)] + Filled(s[WriteIndex(s, d)..], e, m)
    ensures size <= WriteSize(s, d) && Bytes(r) == Bytes(s) + Room(s[WriteIndex(s, d)..])[..size]
    ensures c == WriteIndex(s, d) + e + 1 && Shape(r, c) && WriteSize(r, c) == WriteSize(s, d) - size
  {
    r := s[..WriteIndex(s, d)] + Filled(s[WriteIndex(s, d)..], e, m);
    c := WriteIndex(s, d) + e + 1;
    FilledShape(s, d, e, m, r);
    FilledContent(s, d, e, m, r);
    FilledSpace(s, d, e, m, r);
  }

  /** The same in terms of the shape: `size` bytes of the room become data. */
  method PropagateSpace(ghost head: Buffer?, ghost ns: seq<Buffer>, ghost s: seq<Node>, ghost d: nat, at: Buffer?,
                        size: nat)
    returns (r: Buffer?, ghost t: seq<Node>, ghost c: nat)
    requires IsChain(head, ns, s) && Shape(s, d) && at == At(ns, WriteIndex(s, d)) && size <= WriteSize(s, d)
    modifies ns
    ensures IsChain(head, ns, t) && Shape(t, c) && WriteSize(t, c) == WriteSize(s, d) - size
    ensures Bytes(t) == Bytes(s) + Room(s[WriteIndex(s, d)..])[..size]
    ensures size == 0 ==> r == at && t == s && c == d
    ensures size > 0 ==> c > 0 && r == ns[c - 1]
  {
    ghost var e, m;
    r, e, m := PropagateFrom(head, ns, s, at, WriteIndex(s, d), size);
    if size > 0 {
      t, c := FilledStream(s, d, e, m, size);
    } else {
      t, c := s, d;
    }
  }

  /** One chain linked into another one before the buffer `d`. */
  lemma ChainSplice(ns: seq<Buffer>, s: seq<Node>, d: nat, ms: seq<Buffer>, x: seq<Node>)
    requires |s| == |ns| && d <= |ns| && |x| == |ms| > 0
    requires Distinct(ns) && Distinct(ms) && (forall b :: b in ms ==> b !in ns)
    requires forall i {:trigger Holds(ns[i], s[i])} :: 0 <= i < |ns| ==> Holds(ns[i], s[i])
    requires forall i {:trigger Holds(ms[i], x[i])} :: 0 <= i < |ms| ==> Holds(ms[i], x[i])
    requires forall i {:trigger ns[i].next} :: 0 <= i < |ns| && i != d - 1 ==> ns[i].next == At(ns, i + 1)
    requires forall i {:trigger ms[i].next} :: 0 <= i < |ms| - 1 ==> ms[i].next == At(ms, i + 1)
    requires d > 0 ==> ns[d - 1].next == ms[0]
    requires ms[|ms| - 1].next == At(ns, d)
    ensures var r := ns[..d] + ms + ns[d..]; IsChain(r[0], r, s[..d] + x + s[d..])
  {
    var r, u := ns[..d] + ms + ns[d..], s[..d] + x + s[d..];
    forall i | 0 <= i < |r|
      ensures Holds(r[i], u[i]) && r[i].next == At(r, i + 1)
    {
      if i < d {
        assert r[i] == ns[i] && Holds(ns[i], s[i]) && ns[i].next == At(r, i + 1);
      } else if i < d + |ms| {
        assert r[i] == ms[i - d] && Holds(ms[i - d], x[i - d]) && ms[i - d].next == At(r, i + 1);
      } else {
        assert r[i] == ns[i - |ms|] && Holds(ns[i - |ms|], s[i - |ms|]) && ns[i - |ms|].next == At(r, i + 1);
      }
    }
    forall i, j | 0 <= i < j < |r|
      ensures r[i] != r[j]
    {
      SpliceDistinct(ns, d, ms, i, j);
    }
  }

  /** The two stores which put a chain between `prev` and `next`. */
  method Hang(prev: Buffer?, chain: Buffer, end: Buffer, next: Buffer?, ghost head: Buffer?,
              ghost ns: seq<Buffer>, ghost s: seq<Node>, ghost d: nat, ghost ms: seq<Buffer>, ghost x: seq<Node>)
    requires IsChain(head, ns, s) && IsChain(chain, ms, x) && d <= |ns|
    requires forall b :: b in ms ==> b !in ns
    requires prev == (if d > 0 then ns[d - 1] else null) && end == LastOf(ms) && next == At(ns, d)
    modifies prev, end
    ensures IsChain(if d > 0 then head else chain, ns[..d] + ms + ns[d..], s[..d] + x + s[d..])
    ensures end.pos == old(end.pos) && end.data == old(end.data)
    ensures prev != null ==> prev.pos == old(prev.pos) && prev.data == old(prev.data)
    ensures end.next == next
  {
    assert ms[|ms| - 1] in ms && (d > 0 ==> ns[d - 1] in ns);
    end.next := next;
    if prev != null {
      prev.next := chain;
    }
    forall i | 0 <= i < |ns|
      ensures Holds(ns[i], s[i]) && (i != d - 1 ==> ns[i].next == At(ns, i + 1))
    {
      assert old(Holds(ns[i], s[i])) && old(ns[i].next) == At(ns, i + 1);
      assert ns[i] in ns && ms[|ms| - 1] in ms;
    }
    forall i | 0 <= i < |ms|
      ensures Holds(ms[i], x[i]) && (i < |ms| - 1 ==> ms[i].next == At(ms, i + 1))
    {
      assert old(Holds(ms[i], x[i])) && old(ms[i].next) == At(ms, i + 1);
      assert ms[i] in ms && (d > 0 ==> ns[d - 1] in ns);
    }
    ChainSplice(ns, s, d, ms, x);
  }

  lemma SpliceDistinct(ns: seq<Buffer>, d: nat, ms: seq<Buffer>, i: nat, j: nat)
    requires Distinct(ns) && Distinct(ms) && (forall b :: b in ms ==> b !in ns)
    requires d <= |ns| && i < j < |ns| + |ms|
    ensures (ns[..d] + ms + ns[d..])[i] != (ns[..d] + ms + ns[d..])[j]
  {
    var r := ns[..d] + ms + ns[d..];
    assert i < d ==> r[i] == ns[i];
    assert d <= i < d + |ms| ==> r[i] == ms[i - d] && ms[i - d] in ms;
    assert d + |ms| <= i ==> r[i] == ns[i - |ms|];
    assert j < d ==> r[j] == ns[j];
    assert d <= j < d + |ms| ==> r[j] == ms[j - d] && ms[j - d] in ms;
    assert d + |ms| <= j ==> r[j] == ns[j - |ms|];
  }

  /** `std::move(last->next)`: one chain becomes two. */
  method Detach(last: Buffer, ghost head: Buffer?, ghost ns: seq<Buffer>, ghost s: seq<Node>, ghost k: nat)
    returns (rest: Buffer?)
    requires IsChain(head, ns, s) && 0 < k <= |ns| && last == ns[k - 1]
    modifies last
    ensures IsChain(head, ns[..k], s[..k])
    ensures IsChain(rest, ns[k..], s[k..])
    ensures last.pos == old(last.pos) && last.data == old(last.data)
  {
    rest := last.next;
    last.next := null;
    ghost var ms, x, ts, y := ns[..k], s[..k], ns[k..], s[k..];
    forall i | 0 <= i < k
      ensures Holds(ms[i], x[i]) && ms[i].next == At(ms, i + 1)
    {
      assert old(Holds(ns[i], s[i])) && old(ns[i].next) == At(ns, i + 1);
    }
    forall i | 0 <= i < |ts|
      ensures Holds(ts[i], y[i]) && ts[i].next == At(ts, i + 1)
    {
      assert ts[i] == ns[k + i];
      assert old(Holds(ns[k + i], s[k + i])) && old(ns[k + i].next) == At(ns, k + i + 1);
    }
  }

  // ------------------------------------------------------------------
  // BuffersPropagateOnRead

  /** `head = std::move(head->next)`: the next pointer is moved out of the buffer which goes. */
  method MoveHead(head: Buffer, ghost ns: seq<Buffer>, ghost s: seq<Node>) returns (h: Buffer?)
    requires IsChain(head, ns, s)
    modifies head
    ensures IsChain(h, ns[1..], s[1..])
  {
    assert ns[0].next == At(ns, 1);
    ChainFrom(head, ns, s, 1);
    assert forall i :: 0 <= i < |ns| - 1 ==> ns[1..][i] == ns[i + 1];
    h := head.next;
    head.next := null;
  }

  function CutFront(s: seq<Node>, n: nat): seq<Node>
    requires s != [] && n <= |s[0].bytes|
  {
    s[0 := Node(s[0].bytes[n..], s[0].room)]
  }

  method PropagateHead(head: Buffer, n: nat, ghost ns: seq<Buffer>, ghost s: seq<Node>)
    requires IsChain(head, ns, s) && n <= |s[0].bytes|
    modifies head
    ensures IsChain(head, ns, CutFront(s, n))
    ensures head.pos == 0 <==> n == |s[0].bytes|
    ensures |head.data| == |s[0].bytes| - n + |s[0].room|
  {
    assert Holds(head, s[0]);
    head.Propagate(n);
    assert (s[0].bytes + s[0].room)[n..] == s[0].bytes[n..] + s[0].room;
    assert Holds(head, CutFront(s, n)[0]);
  }

  /** `size` bytes end inside the buffer `c`, after its first `n` bytes. */
  predicate EndsAt(s: seq<Node>, size: nat, c: nat, n: nat) {
    c < |s| && 0 < n <= |s[c].bytes| && size == |Bytes(s[..c])| + n
  }

  lemma CutBytes(s: seq<Node>, size: nat, c: nat, n: nat)
    requires EndsAt(s, size, c, n)
    ensures size <= |Bytes(s)|
    ensures Bytes(s)[..size] == Bytes(s[..c]) + s[c].bytes[..n]
    ensures Bytes(s)[size..] == s[c].bytes[n..] + Bytes(s[c + 1..])
    ensures Bytes(CutFront(s[c..], n)) == Bytes(s)[size..]
  {
    BytesSplit(s, c);
    BytesAt(s, c);
    var a, b, e := Bytes(s[..c]), s[c].bytes, Bytes(s[c + 1..]);
    assert (a + (b + e))[..size] == a + b[..n];
    assert (a + (b + e))[size..] == b[n..] + e;
    assert CutFront(s[c..], n)[1..] == s[c + 1..];
  }

  lemma CutMore(s: seq<Node>, size: nat, c: nat, left: nat)
    requires c < |s| && left > |s[c].bytes|
    requires size == |Bytes(s[..c])| + left && size <= |Bytes(s)|
    ensures c + 1 < |s| && size == |Bytes(s[..c + 1])| + (left - |s[c].bytes|)
    ensures Bytes(s[..c + 1]) == Bytes(s[..c]) + s[c].bytes
  {
    BytesUpTo(s, c);
    BytesSplit(s, c + 1);
  }

  /** What is left of a chain once the data before `c` and `n` more bytes are gone. */
  method PropagateOnRead(head: Buffer?, size: nat, ghost ns: seq<Buffer>, ghost s: seq<Node>)
    returns (h: Buffer?, ghost c: nat, ghost n: nat)
    requires IsChain(head, ns, s) && size <= |Bytes(s)|
    modifies ns
    ensures size == 0 ==> h == head && IsChain(h, ns, s)
    ensures size > 0 ==> EndsAt(s, size, c, n)
    ensures size > 0 ==>
      if n == |s[c].bytes| && s[c].room == [] then IsChain(h, ns[c + 1..], s[c + 1..])
      else IsChain(h, ns[c..], CutFront(s[c..], n))
  {
    h, c, n := head, 0, 0;
    var left := size;
    assert s[..0] == [] && ns[0..] == ns && s[0..] == s;
    while left > 0
      invariant left > 0 ==> c < |ns| && IsChain(h, ns[c..], s[c..]) && size == |Bytes(s[..c])| + left
      invariant left == 0 ==> size == 0 && h == head && IsChain(h, ns, s)
      invariant 0 <= left <= size
      decreases |ns| - c
    {
      assert s[c..][0] == s[c] && ns[c..][0] == ns[c];
      assert Holds(h, s[c..][0]);
      if h.pos >= left {
        n := left;
        PropagateHead(h, left, ns[c..], s[c..]);
        if h.pos == 0 && |h.data| == 0 {
          assert ns[c..][1..] == ns[c + 1..] && CutFront(s[c..], n)[1..] == s[c + 1..];
          h := MoveHead(h, ns[c..], CutFront(s[c..], n));
        }
        return;
      }
      CutMore(s, size, c, left);
      assert ns[c..][1..] == ns[c + 1..] && s[c..][1..] == s[c + 1..];
      left := left - h.pos;
      h := MoveHead(h, ns[c..], s[c..]);
      c := c + 1;
    }
  }

  /** Where a read ends in the shape of a stream. */
  lemma CutWhere(s: seq<Node>, d: nat, size: nat, c: nat, n: nat)
    requires Shape(s, d) && EndsAt(s, size, c, n)
    ensures c < d
    ensures size == |Bytes(s)| <==> c == d - 1 && n == |s[c].bytes|
  {
    ContentEnds(s, d);
    BytesSplit(s, c);
    BytesAt(s, c);
    if c + 1 < d {
      BytesAt(s, c + 1);
    } else {
      BytesOfEmpty(s[c + 1..]);
    }
  }

  /** What is left without all the data. */
  lemma PopShape(s: seq<Node>, d: nat)
    requires Shape(s, d)
    ensures Bytes(s[..d]) == Bytes(s) && Bytes(s[d..]) == [] && (d == 0 <==> Bytes(s) == [])
    ensures Shape(s[d..], 0) && WriteIndex(s[d..], 0) == 0
    ensures WriteSize(s, d) == WriteSize(s[d..], 0) + if d > 0 then |s[d - 1].room| else 0
  {
    ContentEnds(s, d);
    WriteSizeIs(s, d);
    assert s[d..][0..] == s[d..];
  }

  /** What a read leaves when the buffer it ends in goes. */
  lemma CutAfter(s: seq<Node>, d: nat, size: nat, c: nat, n: nat)
    requires Shape(s, d) && EndsAt(s, size, c, n) && n == |s[c].bytes|
    requires c != WriteIndex(s, d)
    ensures c < WriteIndex(s, d) <= d && Shape(s[c + 1..], d - c - 1)
    ensures WriteIndex(s[c + 1..], d - c - 1) == WriteIndex(s, d) - c - 1
    ensures WriteSize(s[c + 1..], d - c - 1) == WriteSize(s, d)
    ensures size <= |Bytes(s)| && Bytes(s[c + 1..]) == Bytes(s)[size..]
  {
    CutWhere(s, d, size, c, n);
    CutBytes(s, size, c, n);
    DropShape(s, d, c + 1);
  }

  /** What a read leaves when the buffer it ends in stays. */
  lemma CutInside(s: seq<Node>, d: nat, size: nat, c: nat, n: nat)
    requires Shape(s, d) && EndsAt(s, size, c, n)
    requires n == |s[c].bytes| ==> c == WriteIndex(s, d)
    ensures c < d && c <= WriteIndex(s, d)
    ensures var t, x := CutFront(s[c..], n), if n == |s[c].bytes| then 0 else d - c;
      && Shape(t, x) && WriteIndex(t, x) == WriteIndex(s, d) - c
      && WriteSize(t, x) == WriteSize(s, d)
      && size <= |Bytes(s)| && Bytes(t) == Bytes(s)[size..]
  {
    CutWhere(s, d, size, c, n);
    CutBytes(s, size, c, n);
    DropShape(s, d, c);
    CutShape(s[c..], d - c, n, CutFront(s[c..], n));
  }
}
