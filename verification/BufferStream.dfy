/**
 * BufferStream of src/mg/net/Buffer.cpp: a chain of buffers with cached end
 * pointers and sizes, against the plain byte sequence it stands for.
 */
module BufferStreams {
  import opened Buffers
  import opened BufferShapes

  // ------------------------------------------------------------------
  // What PrivCheck asserts

  function FirstEmpty(s: seq<Node>): (k: nat)
    ensures k <= |s| && forall i :: 0 <= i < k ==> s[i].bytes != []
    ensures k < |s| ==> s[k].bytes == []
  {
    if s == [] || s[0].bytes == [] then 0 else 1 + FirstEmpty(s[1..])
  }

  predicate Writable(s: seq<Node>, i: nat)
    requires i < |s|
  {
    s[i].room != [] && (i + 1 == |s| || s[i + 1].bytes == [])
  }

  function FirstWritable(s: seq<Node>, from: nat): (k: nat)
    requires from <= |s|
    ensures from <= k <= |s| && forall i :: from <= i < k ==> !Writable(s, i)
    ensures k < |s| ==> Writable(s, k)
    decreases |s| - from
  {
    if from == |s| || Writable(s, from) then from else FirstWritable(s, from + 1)
  }

  /** `e` is the first empty buffer and `w` the first writable one. */
  predicate Firsts(s: seq<Node>, e: nat, w: nat) {
    && e <= |s| && (forall i :: 0 <= i < e ==> s[i].bytes != []) && (e < |s| ==> s[e].bytes == [])
    && w <= |s| && (forall i {:trigger Writable(s, i)} :: 0 <= i < w ==> !Writable(s, i))
    && (w < |s| ==> Writable(s, w))
  }

  lemma FirstOfShape(s: seq<Node>, d: nat)
    requires Shape(s, d)
    ensures FirstEmpty(s) == d && FirstWritable(s, 0) == WriteIndex(s, d)
  {
    var w, k := WriteIndex(s, d), FirstWritable(s, 0);
    if w < |s| {
      assert Writable(s, w);
    }
    if k < |s| {
      assert Writable(s, k);
    }
  }

  /** head -> rend -> wpos -> tail, with rsize bytes up to rend and wsize bytes of space from wpos. */
  class BufferStream {
    var head: Buffer?
    var rsize: nat
    var rend: Buffer?
    var wpos: Buffer?
    var wsize: nat
    var tail: Buffer?
    /** The chain, the values of its buffers, and how many of them have data. */
    ghost var nodes: seq<Buffer>
    ghost var image: seq<Node>
    ghost var d: nat

    ghost predicate Chained()
      reads this, nodes
    {
      IsChain(head, nodes, image) && tail == LastOf(nodes)
    }

    /** Everything but the read size and the read end. */
    ghost predicate Shaped()
      reads this, nodes
    {
      && Chained()
      && Shape(image, d)
      && wpos == At(nodes, WriteIndex(image, d))
      && wsize == WriteSize(image, d)
    }

    ghost predicate Valid()
      reads this, nodes
    {
      && Shaped()
      && rend == (if d > 0 then nodes[d - 1] else null)
      && rsize == |Bytes(image)|
    }

    ghost predicate Checked()
      requires |image| == |nodes|
      reads this
    {
      var s := image;
      if nodes == [] then
        rsize == 0 && rend == null && wpos == null && wsize == 0 && tail == null
      else
        var e, w := FirstEmpty(s), FirstWritable(s, 0);
        && (rsize == 0 ==> rend == null)
        && (rsize > 0 && e < |s| ==> rend == if e > 0 then nodes[e - 1] else null)
        && (w < |s| ==> wpos == nodes[w] && forall i :: w < i < |s| ==> s[i].bytes == [])
        && wsize == |Room(s[w..])|
        && tail == LastOf(nodes)
        && rsize == |Bytes(s)|
    }

    /** The bytes a reader gets. */
    ghost function Content(): seq<Byte>
      reads this
    {
      Bytes(image)
    }

    constructor ()
      ensures Valid() && Content() == [] && nodes == []
    {
      head, rsize, rend, wpos, wsize, tail := null, 0, null, null, 0, null;
      nodes, image, d := [], [], 0;
    }

    lemma ValidChecked()
      requires Valid()
      ensures Checked()
    {
      FirstOfShape(image, d);
      ContentEnds(image, d);
    }

    /** The assertions of PrivCheck before its loop and in the first `k` rounds of it. */
    ghost predicate CheckedTo(s: seq<Node>, e: nat, w: nat, k: nat)
      requires |s| == |nodes| && k <= |nodes|
      reads this
    {
      if k == 0 then rsize == 0 ==> rend == null else CheckedTo(s, e, w, k - 1) && CheckedAt(s, e, w, k - 1)
    }

    /** The assertions of one round; `e` and `w` are the first empty buffer and the first writable one. */
    ghost predicate CheckedAt(s: seq<Node>, e: nat, w: nat, i: nat)
      requires i < |s| == |nodes|
      reads this
    {
      && (s[i].bytes == [] && !(rsize == 0 || e < i) ==> rend == if i > 0 then nodes[i - 1] else null)
      && (Writable(s, i) && i <= w ==> nodes[i] == wpos)
      && (w <= i && nodes[i] != wpos ==> s[i].bytes == [])
    }

    lemma {:induction false} CheckedToIs(s: seq<Node>, e: nat, w: nat, k: nat)
      requires |s| == |nodes| && k <= |nodes| && Distinct(nodes) && Firsts(s, e, w)
      ensures CheckedTo(s, e, w, k) <==>
        && (rsize == 0 ==> rend == null)
        && (rsize > 0 && e < k ==> rend == if e > 0 then nodes[e - 1] else null)
        && (w < k ==> wpos == nodes[w])
        && (forall i :: w < i < k ==> s[i].bytes == [])
    {
      if k > 0 {
        CheckedToIs(s, e, w, k - 1);
      }
    }

    lemma CheckedIs(e: nat, w: nat)
      requires IsChain(head, nodes, image) && nodes != []
      requires e == FirstEmpty(image) && w == FirstWritable(image, 0)
      ensures var s := image;
        Checked() <==>
          && CheckedTo(s, e, w, |s|) && tail == LastOf(nodes) && rsize == |Bytes(s[..|s|])|
          && wsize == if w < |s| then |Room(s[w..|s|])| else 0
    {
      var s := image;
      CheckedToIs(s, e, w, |s|);
      assert s[..|s|] == s && s[w..|s|] == s[w..];
    }

    /** What the loop of PrivCheck looks at in the buffer `k`. */
    ghost predicate Seen(s: seq<Node>, k: nat)
      requires |s| == |nodes| && k < |nodes|
      reads this, nodes
    {
      var b := nodes[k];
      && b.next == At(nodes, k + 1)
      && b.pos == |s[k].bytes| && |b.data| == b.pos + |s[k].room|
      && (b.pos == 0 <==> s[k].bytes == [])
      && (|b.data| - b.pos > 0 && (b.next == null || b.next.pos == 0) <==> Writable(s, k))
    }

    lemma AllSeen()
      requires IsChain(head, nodes, image)
      ensures forall k {:trigger Seen(image, k)} :: 0 <= k < |nodes| ==> Seen(image, k)
    {
      forall k | 0 <= k < |nodes|
        ensures Seen(image, k)
      {
        assert Holds(nodes[k], image[k]);
        if k + 1 < |nodes| {
          assert Holds(nodes[k + 1], image[k + 1]);
        }
      }
    }

    /** One round of the loop of PrivCheck: what was found up to this buffer, and the space counted in it. */
    method CheckBuffer(b: Buffer, prev: Buffer?, hadREnd: bool, hadWPos: bool, ghost s: seq<Node>, ghost e: nat,
                       ghost w: nat, ghost k: nat)
        returns (ok: bool, foundREnd: bool, foundWPos: bool, space: nat)
      requires |s| == |nodes| && k < |nodes| && b == nodes[k] && Seen(s, k) && Firsts(s, e, w)
      requires prev == if k > 0 then nodes[k - 1] else null
      requires (hadREnd <==> rsize == 0 || e < k) && (hadWPos <==> w < k)
      ensures ok <==> CheckedAt(s, e, w, k)
      ensures (foundREnd <==> rsize == 0 || e <= k) && (foundWPos <==> w <= k)
      ensures space == if w <= k then |s[k].room| else 0
    {
      ok, foundREnd, foundWPos, space := true, hadREnd, hadWPos, 0;
      if b.pos == 0 {
        if !foundREnd {
          foundREnd := true;
          ok := ok && prev == rend;
        }
      }
      if |b.data| - b.pos > 0 && (b.next == null || b.next.pos == 0) {
        if !foundWPos {
          foundWPos := true;
          ok := ok && b == wpos;
        }
      }
      if foundWPos {
        space := |b.data| - b.pos;
        if b != wpos {
          ok := ok && b.pos == 0;
        }
      }
    }

    /** The loop of PrivCheck. */
    method CheckBuffers(ghost s: seq<Node>, ghost e: nat, ghost w: nat)
        returns (ok: bool, rs: nat, ws: nat, prev: Buffer?)
      requires |s| == |nodes| && head == At(nodes, 0) && Firsts(s, e, w)
      requires forall k {:trigger Seen(s, k)} :: 0 <= k < |nodes| ==> Seen(s, k)
      ensures ok <==> CheckedTo(s, e, w, |s|)
      ensures rs == |Bytes(s[..|s|])| && ws == if w < |s| then |Room(s[w..|s|])| else 0
      ensures prev == LastOf(nodes)
    {
      rs, ws, prev := 0, 0, null;
      var pos := head;
      var foundWPos, foundREnd := false, false;
      ok := true;
      if rsize == 0 {
        ok := rend == null;
        foundREnd := true;
      }
      ghost var k := 0;
      assert s[..0] == [];
      while pos != null
        invariant k <= |nodes| && pos == At(nodes, k)
        invariant prev == if k > 0 then nodes[k - 1] else null
        invariant rs == |Bytes(s[..k])| && ws == if w < k then |Room(s[w..k])| else 0
        invariant (foundREnd <==> rsize == 0 || e < k) && (foundWPos <==> w < k)
        invariant ok <==> CheckedTo(s, e, w, k)
        decreases |nodes| - k
      {
        assert Seen(s, k);
        BytesUpTo(s, k);
        SpaceUpTo(s, w, k);
        rs := rs + pos.pos;
        var passed, space;
        passed, foundREnd, foundWPos, space := CheckBuffer(pos, prev, foundREnd, foundWPos, s, e, w, k);
        ok := ok && passed;
        ws := ws + space;
        prev := pos;
        pos := pos.next;
        k := k + 1;
      }
    }

    /** PrivCheck, with `ok` for all its assertions having passed. */
    method PrivCheck() returns (ok: bool)
      requires IsChain(head, nodes, image)
      ensures ok <==> Checked()
    {
      if head == null {
        return rsize == 0 && rend == null && wpos == null && wsize == 0 && tail == null;
      }
      AllSeen();
      ghost var e, w := FirstEmpty(image), FirstWritable(image, 0);
      var rs, ws, prev;
      ok, rs, ws, prev := CheckBuffers(image, e, w);
      CheckedIs(e, w);
      ok := ok && prev == tail && rs == rsize && ws == wsize;
    }

    // ----------------------------------------------------------------
    // Writing

    /** `tail = (tail->next = BufferCopy::NewShared())`, or the same on the head. */
    method AppendCopy()
      requires Chained()
      modifies this`head, this`tail, this`nodes, this`image, tail
      ensures Chained() && fresh(tail) && nodes == old(nodes) + [tail]
      ensures tail != null && |tail.data| == COPY_SIZE
      ensures image == old(image) + [Node([], tail.data)]
    {
      var b := new Buffer.NewCopy();
      if head == null {
        head := b;
      } else {
        assert Holds(tail, image[|nodes| - 1]);
        tail.next := b;
      }
      assert b !in nodes;
      tail := b;
      nodes := nodes + [b];
      image := image + [Node([], b.data)];
    }

    /** The branch for `wpos == nullptr`, the same in EnsureWriteSize and WriteCopy. */
    method FirstCopy()
      requires Valid() && wpos == null
      modifies this, nodes
      ensures Valid() && Content() == old(Content()) && d == old(d)
      ensures wsize == COPY_SIZE && wpos == tail && wpos != null
      ensures fresh(tail) && nodes == old(nodes) + [tail]
    {
      ghost var s := image;
      NoSpace(s, d);
      ContentEnds(s, d);
      assert wsize == 0;
      if head == null {
        assert rsize == 0 && rend == null && tail == null;
      } else {
        assert tail.pos == |tail.data| by {
          assert Holds(tail, s[|s| - 1]);
        }
      }
      AppendCopy();
      AppendShape(s, d, Node([], tail.data));
      wpos := tail;
      wsize := COPY_SIZE;
    }

    method MoreCopy()
      requires Valid() && wpos != null
      modifies this, nodes
      ensures Valid() && Content() == old(Content()) && d == old(d)
      ensures wsize == old(wsize) + COPY_SIZE && wpos != null
      ensures fresh(tail) && nodes == old(nodes) + [tail]
    {
      ghost var s := image;
      AppendCopy();
      AppendShape(s, d, Node([], tail.data));
      wsize := wsize + COPY_SIZE;
    }

    lemma HasSpace()
      requires Shaped() && wpos != null
      ensures wpos.pos < |wpos.data| && wsize > 0
      ensures var w := WriteIndex(image, d);
        w < |nodes| && wpos == nodes[w] && Holds(wpos, image[w]) && image[w].room != []
    {
      var w := WriteIndex(image, d);
      assert Holds(wpos, image[w]);
      BytesAt(image, w);
    }

    method EnsureWriteSize(size: nat)
      requires Valid()
      modifies this, nodes
      ensures Valid() && Content() == old(Content()) && d == old(d)
      ensures wsize >= size && wsize >= old(wsize)
      ensures old(wsize) >= size ==> wsize == old(wsize)
      ensures old(nodes) <= nodes && forall i :: |old(nodes)| <= i < |nodes| ==> fresh(nodes[i])
    {
      if wsize >= size {
        return;
      }
      if wpos == null {
        FirstCopy();
        if wsize >= size {
          return;
        }
      }
      ghost var more := AddCopies(size);
    }

    /** The loop of EnsureWriteSize; `more` are the new buffers. */
    method AddCopies(size: nat) returns (ghost more: seq<Buffer>)
      requires Valid() && wpos != null && wsize < size
      modifies this, nodes
      ensures Valid() && wsize >= size && Content() == old(Content()) && d == old(d)
      ensures nodes == old(nodes) + more && forall i :: 0 <= i < |more| ==> fresh(more[i])
    {
      more := [];
      while true
        invariant Valid() && wpos != null && wsize < size
        invariant Content() == old(Content()) && d == old(d)
        invariant nodes == old(nodes) + more && forall i :: 0 <= i < |more| ==> fresh(more[i])
        decreases size - wsize
      {
        MoreCopy();
        Assoc(old(nodes), more, [tail]);
        more := more + [tail];
        if wsize >= size {
          break;
        }
      }
      HasSpace();
      assert wpos.pos < |wpos.data|;
    }

    /** The memory GetWritePos() offers. */
    ghost function Space(): seq<Byte>
      requires d <= |image|
      reads this
    {
      Room(image[WriteIndex(image, d)..])
    }

    method PropagateWritePos(size: nat)
      requires Valid() && size <= wsize
      modifies this, nodes
      ensures Chained() && nodes == old(nodes) && wsize == old(wsize) - size
      ensures Content() == old(Content()) + old(Space())[..size]
      ensures size > 0 || old(rend) == old(wpos) ==> Valid()
      ensures Valid() ==> size > 0 || old(rend) == old(wpos)
    {
      ghost var t, c;
      var r;
      r, t, c := PropagateSpace(head, nodes, image, d, wpos, size);
      SetWritten(r, size, t, c);
    }

    /** The end of PropagateWritePos: from the buffer `r` of the last byte written to the next writable one. */
    method SetWritten(r: Buffer?, size: nat, ghost t: seq<Node>, ghost c: nat)
      requires IsChain(head, nodes, t) && Shape(t, c) && tail == LastOf(nodes)
      requires size <= wsize && wsize - size == WriteSize(t, c) && rsize + size == |Bytes(t)|
      requires if size == 0 then r == At(nodes, WriteIndex(t, c)) else c > 0 && r == nodes[c - 1]
      modifies this
      ensures Shaped() && nodes == old(nodes) && image == t && d == c && wsize == old(wsize) - size
      ensures rend == r && rsize == |Bytes(t)|
    {
      WriteEnd(r, size, t, c, wsize - size);
      wsize, rsize, rend, image, d := wsize - size, rsize + size, r, t, c;
      if wsize == 0 {
        assert r == null || r.pos == |r.data|;
        wpos := null;
      } else if r.pos == |r.data| {
        wpos := r.next;
        assert wpos.pos < |wpos.data|;
      } else {
        wpos := r;
      }
    }

    /** Where the buffer of the last byte written is. */
    lemma WriteEnd(r: Buffer?, size: nat, t: seq<Node>, c: nat, ws: nat)
      requires IsChain(head, nodes, t) && Shape(t, c) && ws == WriteSize(t, c)
      requires if size == 0 then r == At(nodes, WriteIndex(t, c)) else c > 0 && r == nodes[c - 1]
      ensures ws == 0 <==> WriteIndex(t, c) == |nodes|
      ensures ws == 0 ==> r == null || r.pos == |r.data|
      ensures ws > 0 ==> r != null
      ensures ws > 0 && r.pos == |r.data| ==>
        size > 0 && c < |nodes| && r.next == nodes[c] && nodes[c].pos < |nodes[c].data| && WriteIndex(t, c) == c
      ensures ws > 0 && r.pos != |r.data| ==> r == At(nodes, WriteIndex(t, c))
    {
      SpaceNone(t, c);
      if size > 0 {
        assert Holds(r, t[c - 1]);
      } else if r != null {
        assert Holds(r, t[WriteIndex(t, c)]);
      }
      if c < |nodes| {
        assert Holds(nodes[c], t[c]);
      }
    }

    /** memcpy of `chunk` after the data of the buffer at `c`, and the move of its position. */
    method StoreAt(ghost c: nat, chunk: seq<Byte>)
      requires Chained() && c < |nodes| && wpos == nodes[c] && |chunk| <= |image[c].room|
      requires forall i :: c < i < |image| ==> image[i].bytes == []
      modifies this`image, wpos
      ensures Chained() && |image| == |nodes|
      ensures image == old(image)[c := image[c]] && image[c].bytes == old(image[c].bytes) + chunk
      ensures |image[c].room| == |old(image[c].room)| - |chunk|
      ensures Content() == old(Content()) + chunk
    {
      assert Holds(wpos, image[c]);
      wpos.Store(chunk);
      ghost var n := Node(image[c].bytes + chunk, wpos.data[wpos.pos..]);
      StoreBytes(image, c, chunk, n);
      assert Holds(wpos, n);
      image := image[c := n];
    }

    /** When WriteCopy keeps the stream in order: it never runs past the first of several spare buffers. */
    ghost predicate CopyFits(size: nat)
      reads this, wpos
    {
      size == 0 || wpos == null || wpos == tail || size < |wpos.data| - wpos.pos
    }

    /** In the loop of WriteCopy. */
    ghost predicate Copies(n: nat, w: nat, c: nat)
      reads this, nodes
    {
      && Chained() && Copying(image, n, w, c) && wpos == nodes[c]
      && wsize == if c == w then |Room(image[w..])| else |image[c].room|
    }

    ghost predicate EndsWell(n: nat, w: nat, c: nat, size: nat)
      requires c < |image|
      reads this
    {
      w + 1 == n || (c == w && size < |image[c].room|)
    }

    /** The last chunk, smaller than the space. */
    method CopyInside(chunk: seq<Byte>, ghost n: nat, ghost w: nat, ghost c: nat)
      requires Copies(n, w, c) && 0 < |chunk| < |image[c].room| && rsize == |Content()| + |chunk|
      modifies this, wpos
      ensures Chained() && nodes == old(nodes) && Content() == old(Content()) + chunk
      ensures if old(EndsWell(n, w, c, |chunk|)) then Valid() else !Checked()
    {
      ghost var s := image;
      StoreAt(c, chunk);
      CopyingEnd(s, n, w, c, image[c]);
      BytesAt(s, c);
      rend, wsize, d := wpos, wsize - |chunk|, c + 1;
      if !old(EndsWell(n, w, c, |chunk|)) {
        HasHole(w, c);
      }
    }

    /** The last chunk, which takes all the space. */
    method CopyToEdge(chunk: seq<Byte>, ghost n: nat, ghost w: nat, ghost c: nat)
      requires Copies(n, w, c) && |chunk| == |image[c].room| && rsize == |Content()| + |chunk|
      modifies this, wpos
      ensures Chained() && nodes == old(nodes) && Content() == old(Content()) + chunk
      ensures if old(EndsWell(n, w, c, |chunk|)) then Valid() else !Checked()
    {
      ghost var s := image;
      StoreAt(c, chunk);
      CopyingEnd(s, n, w, c, image[c]);
      rend, wpos, wsize, d := wpos, null, 0, c + 1;
      if !old(EndsWell(n, w, c, |chunk|)) {
        HasHole(w, c);
      }
    }

    /** A spare buffer right after `w` which is not where the stream says it is. */
    lemma HasHole(w: nat, c: nat)
      requires Chained() && w <= c < |nodes| && w + 1 < |image| && rsize == |Content()|
      requires image[w + 1].bytes == [] && image[w + 1].room != []
      requires (forall i :: 0 <= i <= w ==> image[i].bytes != []) && image[w].room == []
      requires if c == w then wpos == null && (w + 2 < |image| ==> image[w + 2].bytes == []) else rend == nodes[c]
      ensures !Checked()
    {
      assert FirstEmpty(image) == w + 1;
      assert rsize > 0 by {
        BytesAt(image, 0);
        assert image[0..] == image;
      }
      if c == w {
        FirstSpace(image, 0, w + 1);
      }
    }

    /** A chunk which fills the buffer, and a new buffer in the end of the chain. */
    method CopyAndGrow(chunk: seq<Byte>, ghost n: nat, ghost w: nat, ghost c: nat)
      requires Copies(n, w, c) && |chunk| == |image[c].room|
      modifies this, nodes
      ensures |image| == |old(image)| + 1 && Copies(n, w, |old(image)|) && rsize == old(rsize)
      ensures Content() == old(Content()) + chunk
      ensures nodes == old(nodes) + [tail] && fresh(tail)
    {
      ghost var s := image;
      StoreAt(c, chunk);
      ghost var a := image[c];
      AppendCopy();
      CopyingNext(s, n, w, c, a, Node([], tail.data));
      wpos, wsize := tail, COPY_SIZE;
    }

    method WriteCopy(data: seq<Byte>)
      requires Valid()
      modifies this, nodes
      ensures Chained() && Content() == old(Content()) + data
      ensures if old(CopyFits(|data|)) then Valid() else !Checked()
      ensures old(nodes) <= nodes && forall i :: |old(nodes)| <= i < |nodes| ==> fresh(nodes[i])
    {
      if data == [] {
        return;
      }
      if wpos == null {
        FirstCopy();
      }
      CopyFrom(data);
    }

    /** WriteCopy at a write position. */
    method CopyFrom(data: seq<Byte>)
      requires Valid() && wpos != null && data != []
      modifies this, nodes
      ensures Chained() && Content() == old(Content()) + data
      ensures if old(CopyFits(|data|)) then Valid() else !Checked()
      ensures old(nodes) <= nodes && forall i :: |old(nodes)| <= i < |nodes| ==> fresh(nodes[i])
    {
      CopyStarts(|data|);
      rsize := rsize + |data|;
      CopyChunks(data, |nodes|, WriteIndex(image, d));
    }

    lemma CopyStarts(size: nat)
      requires Shaped() && wpos != null && size > 0
      ensures Copies(|nodes|, WriteIndex(image, d), WriteIndex(image, d))
      ensures CopyFits(size) <==> EndsWell(|nodes|, WriteIndex(image, d), WriteIndex(image, d), size)
    {
      HasSpace();
    }

    /** The loop of WriteCopy. */
    method CopyChunks(data: seq<Byte>, ghost n: nat, ghost w: nat)
      requires Copies(n, w, w) && rsize == |Content()| + |data| && data != []
      modifies this, nodes
      ensures Chained() && Content() == old(Content()) + data
      ensures if old(EndsWell(n, w, w, |data|)) then Valid() else !Checked()
      ensures old(nodes) <= nodes && forall i :: |old(nodes)| <= i < |nodes| ==> fresh(nodes[i])
    {
      ghost var c: nat := w;
      var left := data;
      while true
        invariant Copies(n, w, c) && rsize == |Content()| + |left|
        invariant left != [] && Content() + left == old(Content()) + data
        invariant EndsWell(n, w, c, |left|) == old(EndsWell(n, w, w, |data|))
        invariant old(nodes) <= nodes && forall i :: |old(nodes)| <= i < |nodes| ==> fresh(nodes[i])
        decreases |left|
      {
        assert Holds(wpos, image[c]);
        assert wpos.pos < |wpos.data|;
        var cap := |wpos.data| - wpos.pos;
        if cap > |left| {
          CopyInside(left, n, w, c);
          return;
        }
        if cap == |left| {
          CopyToEdge(left, n, w, c);
          return;
        }
        assert left == left[..cap] + left[cap..];
        CopyAndGrow(left[..cap], n, w, c);
        left := left[cap..];
        c := |image| - 1;
      }
    }

    /** A foreign chain: not this one, and every buffer of it has data. */
    ghost predicate CanLink(chain: Buffer?, ms: seq<Buffer>, x: seq<Node>)
      reads this, ms
    {
      && IsChain(chain, ms, x)
      && (forall b :: b in ms ==> b !in nodes)
      && (forall i :: 0 <= i < |x| ==> x[i].bytes != [])
    }

    /** The stream with the chain `ms` between its data and its spare buffers, and its new ends and sizes. */
    method SetLinked(first: Buffer, last: Buffer, end: Buffer, pos: Buffer?, rs: nat, ws: nat,
                     ghost ns: seq<Buffer>, ghost s: seq<Node>, ghost k: nat, ghost ms: seq<Buffer>, ghost x: seq<Node>)
      requires |ns| == |s| && Shape(s, k) && |ms| == |x| > 0 && forall i :: 0 <= i < |x| ==> x[i].bytes != []
      requires IsChain(first, ns[..k] + ms + ns[k..], s[..k] + x + s[k..])
      requires last == (if k < |ns| then ns[|ns| - 1] else end) && end == ms[|ms| - 1]
      requires pos == if x[|x| - 1].room != [] then end else At(ns, k)
      requires rs == |Bytes(s)| + |Bytes(x)| && ws == |x[|x| - 1].room| + |Room(s[k..])|
      modifies this
      ensures Valid() && Content() == Bytes(s) + Bytes(x) && nodes == ns[..k] + ms + ns[k..]
    {
      ghost var u := s[..k] + x + s[k..];
      InsertShape(s, k, x, u);
      SplicedEnds(ns, k, ms);
      assert u[k + |ms| - 1] == x[|x| - 1];
      SetAll(first, rs, end, pos, ws, last, ns[..k] + ms + ns[k..], u, k + |ms|);
    }

    /** All fields at once. */
    method SetAll(first: Buffer?, rs: nat, end: Buffer?, pos: Buffer?, ws: nat, last: Buffer?,
                  ghost ns: seq<Buffer>, ghost s: seq<Node>, ghost k: nat)
      requires IsChain(first, ns, s) && Shape(s, k)
      requires rs == |Bytes(s)| && end == (if k > 0 then ns[k - 1] else null)
      requires pos == At(ns, WriteIndex(s, k)) && ws == WriteSize(s, k) && last == LastOf(ns)
      modifies this
      ensures Valid() && nodes == ns && image == s && d == k
    {
      head, rsize, rend, wpos, wsize, tail := first, rs, end, pos, ws, last;
      nodes, image, d := ns, s, k;
    }

    /** The end of a chain and its number of bytes. */
    method Measure(chain: Buffer, ghost ms: seq<Buffer>, ghost x: seq<Node>) returns (end: Buffer, size: nat)
      requires IsChain(chain, ms, x)
      ensures end == ms[|ms| - 1] && size == |Bytes(x)|
    {
      end, size := chain, 0;
      assert Holds(end, x[0]);
      size := size + end.pos;
      ghost var k := 0;
      BytesUpTo(x, 0);
      assert x[..0] == [];
      while end.next != null
        invariant k < |ms| && end == ms[k] && size == |Bytes(x[..k + 1])|
        decreases |ms| - k
      {
        end := end.next;
        k := k + 1;
        assert Holds(end, x[k]);
        size := size + end.pos;
        BytesUpTo(x, k);
      }
      assert x[..|x|] == x;
    }

    /** WriteRef with no space in the stream. */
    method LinkLast(chain: Buffer, end: Buffer, size: nat, ghost ms: seq<Buffer>, ghost x: seq<Node>)
      requires Valid() && wpos == null && CanLink(chain, ms, x) && end == LastOf(ms) && size == |Bytes(x)|
      modifies this, nodes, ms
      ensures Valid() && Content() == old(Content()) + Bytes(x) && nodes == old(nodes[..d] + ms + nodes[d..])
    {
      ghost var s, ns, k := image, nodes, d;
      NoSpace(s, d);
      ContentEnds(s, d);
      assert Holds(end, x[|x| - 1]) && end in ms;
      assert wsize == 0;
      if head == null {
        assert rsize == 0 && rend == null && tail == null;
      } else {
        assert Holds(tail, s[|s| - 1]);
        assert tail.pos == |tail.data|;
      }
      Hang(tail, chain, end, null, head, ns, s, k, ms, x);
      var space := |end.data| - end.pos;
      SetLinked(if head == null then chain else head, end, end, if space > 0 then end else null, rsize + size, space,
                ns, s, k, ms, x);
    }

    /** WriteRef with spare buffers only. */
    method LinkFirst(chain: Buffer, end: Buffer, size: nat, ghost ms: seq<Buffer>, ghost x: seq<Node>)
      requires Valid() && wpos != null && rend == null
      requires CanLink(chain, ms, x) && end == LastOf(ms) && size == |Bytes(x)|
      modifies this, nodes, ms
      ensures Valid() && Content() == old(Content()) + Bytes(x) && nodes == old(nodes[..d] + ms + nodes[d..])
    {
      ghost var s, ns := image, nodes;
      ContentEnds(s, d);
      WriteSizeIs(s, d);
      assert Holds(end, x[|x| - 1]);
      assert rsize == 0 && wpos == head;
      Hang(null, chain, end, head, head, ns, s, d, ms, x);
      var space := |end.data| - end.pos;
      SetLinked(chain, tail, end, if space > 0 then end else wpos, size, wsize + space, ns, s, d, ms, x);
    }

    /** WriteRef after a write position with data. */
    method LinkAfter(chain: Buffer, end: Buffer, size: nat, ghost ms: seq<Buffer>, ghost x: seq<Node>)
      requires Valid() && wpos != null && rend != null && wpos.pos > 0
      requires CanLink(chain, ms, x) && end == LastOf(ms) && size == |Bytes(x)|
      modifies this, nodes, ms
      ensures Valid() && Content() == old(Content()) + Bytes(x) && nodes == old(nodes[..d] + ms + nodes[d..])
    {
      ghost var s, ns := image, nodes;
      HasSpace();
      WriteSizeIs(s, d);
      assert rend == wpos && wpos == ns[d - 1] && |wpos.data| - wpos.pos == |s[d - 1].room|;
      assert ns[d - 1].next == At(ns, d);
      assert Holds(end, x[|x| - 1]);
      var next, rest := wpos.next, wsize - (|wpos.data| - wpos.pos);
      Hang(wpos, chain, end, next, head, ns, s, d, ms, x);
      var space := |end.data| - end.pos;
      SetLinked(head, if wpos == tail then end else tail, end, if space > 0 then end else next, rsize + size,
                rest + space, ns, s, d, ms, x);
    }

    /** WriteRef before a write position without data. */
    method LinkBefore(chain: Buffer, end: Buffer, size: nat, ghost ms: seq<Buffer>, ghost x: seq<Node>)
      requires Valid() && wpos != null && rend != null && wpos.pos == 0
      requires CanLink(chain, ms, x) && end == LastOf(ms) && size == |Bytes(x)|
      modifies this, nodes, ms
      ensures Valid() && Content() == old(Content()) + Bytes(x) && nodes == old(nodes[..d] + ms + nodes[d..])
    {
      ghost var s, ns := image, nodes;
      HasSpace();
      WriteSizeIs(s, d);
      assert rend == ns[d - 1] && rend.next == wpos && wpos == ns[d];
      assert Holds(end, x[|x| - 1]);
      Hang(rend, chain, end, rend.next, head, ns, s, d, ms, x);
      var space := |end.data| - end.pos;
      SetLinked(head, tail, end, if space > 0 then end else wpos, rsize + size, wsize + space, ns, s, d, ms, x);
    }

    method WriteRef(chain: Buffer?, ghost ms: seq<Buffer>, ghost x: seq<Node>)
      requires Valid() && CanLink(chain, ms, x)
      modifies this, nodes, ms
      ensures Valid() && Content() == old(Content()) + Bytes(x)
      ensures nodes == old(nodes[..d] + ms + nodes[d..])
    {
      if chain == null {
        return;
      }
      var end, size := Measure(chain, ms, x);
      if wpos == null {
        LinkLast(chain, end, size, ms, x);
        return;
      }
      HasSpace();
      assert wsize > 0 && wpos.pos < |wpos.data|;
      if rend == null {
        LinkFirst(chain, end, size, ms, x);
        return;
      }
      assert rend == wpos || rend.next == wpos;
      if wpos.pos > 0 {
        LinkAfter(chain, end, size, ms, x);
      } else {
        LinkBefore(chain, end, size, ms, x);
      }
    }

    // ----------------------------------------------------------------
    // Reading

    method Clear()
      modifies this
      ensures Valid() && Content() == [] && nodes == []
    {
      head, rsize, rend, wpos, wsize, tail := null, 0, null, null, 0, null;
      nodes, image, d := [], [], 0;
    }

    method PeekData(size: nat) returns (data: seq<Byte>)
      requires Valid() && size <= rsize
      ensures data == Content()[..size]
    {
      data := [];
      if size == 0 {
        return;
      }
      var pos := head;
      var left := size;
      ghost var c, s := 0, image;
      ContentEnds(s, d);
      assert s[..0] == [];
      while true
        invariant c < |nodes| && pos == nodes[c]
        invariant 0 < left && size == |data| + left && data == Bytes(s[..c])
        decreases |nodes| - c
      {
        assert Holds(pos, s[c]);
        var cap := pos.pos;
        var toRead := if cap >= left then left else cap;
        data := data + pos.data[..toRead];
        if toRead == left {
          CutBytesPeek(s, size, c, left);
          return;
        }
        CutMore(s, size, c, left);
        left := left - toRead;
        pos := pos.next;
        c := c + 1;
      }
    }

    /** `size` bytes of the stream `s` were read, up to the byte `n` of the buffer `c`. */
    ghost predicate WasRead(ns: seq<Buffer>, s: seq<Node>, k: nat, size: nat, c: nat, n: nat)
      reads this
    {
      && |ns| == |s| && Shape(s, k) && EndsAt(s, size, c, n)
      && wpos == At(ns, WriteIndex(s, k)) && wsize == WriteSize(s, k) && tail == LastOf(ns)
      && size <= |Bytes(s)| && rsize == |Bytes(s)| - size
      && k > 0 && rend == (if rsize == 0 then null else ns[k - 1])
    }

    /** The buffer at the head goes, empty and not the write position: what the stream is without it. */
    lemma GoneEnds(ns: seq<Buffer>, s: seq<Node>, k: nat, size: nat, c: nat, n: nat)
      requires WasRead(ns, s, k, size, c, n) && n == |s[c].bytes| && c != WriteIndex(s, k)
      ensures c < k && Shape(s[c + 1..], k - c - 1) && Bytes(s[c + 1..]) == Bytes(s)[size..]
      ensures var ms, t, j := ns[c + 1..], s[c + 1..], k - c - 1;
        if ms == [] then rsize == 0 && wsize == 0
        else
          && rsize == |Bytes(t)| && rend == (if j > 0 then ms[j - 1] else null)
          && wpos == At(ms, WriteIndex(t, j)) && wsize == WriteSize(t, j) && tail == LastOf(ms)
    {
      CutAfter(s, k, size, c, n);
      ContentEnds(s[c + 1..], k - c - 1);
    }

    /** The buffer at the head went, empty and not the write position. */
    lemma HeadGone(ns: seq<Buffer>, s: seq<Node>, k: nat, size: nat, c: nat, n: nat)
      requires WasRead(ns, s, k, size, c, n) && n == |s[c].bytes| && c != WriteIndex(s, k)
      requires IsChain(head, nodes, image)
      requires nodes == ns[c + 1..] && image == s[c + 1..] && d == k - c - 1
      ensures Content() == Bytes(s)[size..]
      ensures nodes != [] ==> Valid()
      ensures nodes == [] ==> rsize == 0 && wsize == 0
    {
      GoneEnds(ns, s, k, size, c, n);
    }

    /** The buffer at the head stays, with data or as the write position. */
    lemma HeadCut(ns: seq<Buffer>, s: seq<Node>, k: nat, size: nat, c: nat, n: nat)
      requires WasRead(ns, s, k, size, c, n) && (n == |s[c].bytes| ==> c == WriteIndex(s, k))
      requires IsChain(head, nodes, image)
      requires nodes == ns[c..] && image == CutFront(s[c..], n) && d == if n == |s[c].bytes| then 0 else k - c
      ensures Content() == Bytes(s)[size..] && Valid()
    {
      CutInside(s, k, size, c, n);
      ContentEnds(image, d);
      CutEnds(ns, WriteIndex(s, k), k, c);
      assert Shaped();
    }

    /** The end of SkipData and ReadData: an empty head which is not the write position goes. */
    method DropHead(ghost ns: seq<Buffer>, ghost s: seq<Node>, ghost k: nat, ghost size: nat, ghost c: nat,
                    ghost n: nat)
      requires WasRead(ns, s, k, size, c, n) && n == |s[c].bytes| && c != WriteIndex(s, k)
      requires IsChain(head, nodes, image) && nodes == ns[c..] && image == CutFront(s[c..], n)
      modifies this, nodes
      ensures Valid() && Content() == Bytes(s)[size..]
      ensures forall b :: b in nodes ==> b in ns
    {
      GoneEnds(ns, s, k, size, c, n);
      assert nodes[1..] == ns[c + 1..] && image[1..] == s[c + 1..];
      var next := MoveHead(head, nodes, image);
      if next == null {
        assert wsize == 0;
        Clear();
      } else {
        SetAll(next, rsize, rend, wpos, wsize, tail, ns[c + 1..], s[c + 1..], k - c - 1);
      }
    }

    /** What decides whether the head is dropped. */
    lemma EmptyHead(ns: seq<Buffer>, s: seq<Node>, k: nat, size: nat, c: nat, n: nat)
      requires WasRead(ns, s, k, size, c, n) && Distinct(ns)
      requires IsChain(head, nodes, image) && nodes == ns[c..] && image == CutFront(s[c..], n)
      ensures head != null && (head.pos == 0 <==> n == |s[c].bytes|) && (head == wpos <==> c == WriteIndex(s, k))
    {
      CutWhere(s, k, size, c, n);
      assert nodes[0] == ns[c];
      assert Holds(head, image[0]);
    }

    /** The beginning of SkipData. */
    method SkipBuffers(size: nat) returns (ghost c: nat, ghost n: nat)
      requires Valid() && 0 < size <= rsize
      modifies this`head, this`nodes, this`image, nodes
      ensures EndsAt(old(image), size, c, n) && IsChain(head, nodes, image)
      ensures if n == |old(image)[c].bytes| && old(image)[c].room == [] then
                nodes == old(nodes)[c + 1..] && image == old(image)[c + 1..]
              else
                nodes == old(nodes)[c..] && image == CutFront(old(image)[c..], n)
      ensures forall i :: 0 <= i < |nodes| ==> nodes[i] in old(nodes)
    {
      ghost var ns, s := nodes, image;
      head, c, n := PropagateOnRead(head, size, ns, s);
      if n == |s[c].bytes| && s[c].room == [] {
        nodes, image := ns[c + 1..], s[c + 1..];
      } else {
        nodes, image := ns[c..], CutFront(s[c..], n);
      }
    }

    method SkipData(size: nat)
      requires Valid() && size <= rsize
      modifies this, nodes
      ensures Valid() && Content() == old(Content())[size..]
      ensures forall b :: b in nodes ==> b in old(nodes)
    {
      if size == 0 {
        SkipNothing();
        return;
      }
      ghost var ns, s, k := nodes, image, d;
      ghost var c, n;
      ContentEnds(s, k);
      c, n := SkipBuffers(size);
      rsize := rsize - size;
      SkipEnd(ns, s, k, size, c, n);
    }

    /** SkipData of no bytes: BuffersPropagateOnRead() does nothing. */
    method SkipNothing()
      requires Valid()
      modifies this
      ensures Valid() && Content() == old(Content()) && nodes == old(nodes)
    {
      ContentEnds(image, d);
      if head == null {
        Clear();
      } else if rsize == 0 {
        rend := null;
      }
    }

    method SkipEnd(ghost ns: seq<Buffer>, ghost s: seq<Node>, ghost k: nat, ghost size: nat, ghost c: nat,
                   ghost n: nat)
      requires |ns| == |s| && Shape(s, k) && Distinct(ns) && k > 0 && rend == ns[k - 1]
      requires EndsAt(s, size, c, n) && size <= |Bytes(s)| && rsize == |Bytes(s)| - size
      requires wpos == At(ns, WriteIndex(s, k)) && wsize == WriteSize(s, k) && tail == LastOf(ns)
      requires IsChain(head, nodes, image)
      requires if n == |s[c].bytes| && s[c].room == [] then nodes == ns[c + 1..] && image == s[c + 1..]
               else nodes == ns[c..] && image == CutFront(s[c..], n)
      modifies this, nodes
      ensures Valid() && Content() == Bytes(s)[size..]
      ensures forall b :: b in nodes ==> b in ns
    {
      CutWhere(s, k, size, c, n);
      ghost var gone := n == |s[c].bytes| && s[c].room == [];
      d := if gone then k - c - 1 else if n == |s[c].bytes| then 0 else k - c;
      if head == null {
        CutAfter(s, k, size, c, n);
        Clear();
      } else if rsize == 0 {
        rend := null;
        if gone {
          HeadGone(ns, s, k, size, c, n);
        } else {
          HeadCut(ns, s, k, size, c, n);
        }
      } else {
        if gone {
          HeadGone(ns, s, k, size, c, n);
          assert Holds(head, image[0]);
        } else {
          EmptyHead(ns, s, k, size, c, n);
          if n < |s[c].bytes| {
            HeadCut(ns, s, k, size, c, n);
          }
        }
        if head.pos == 0 && head != wpos {
          DropHead(ns, s, k, size, c, n);
          assert head != null;
        }
      }
    }

    /** The buffers `ns` without the first `c`. */
    ghost predicate From(ns: seq<Buffer>, s: seq<Node>, c: nat)
      reads this, nodes
    {
      |ns| == |s| && c < |ns| && nodes == ns[c..] && image == s[c..] && IsChain(head, nodes, image)
    }

    lemma HeadIs(ns: seq<Buffer>, s: seq<Node>, c: nat)
      requires From(ns, s, c)
      ensures head == ns[c] && head in nodes && head.pos == |s[c].bytes| && head.data == s[c].bytes + s[c].room
    {
      assert Holds(head, image[0]);
    }

    /** The head is read to its end and goes. */
    method PassHead(ghost ns: seq<Buffer>, ghost s: seq<Node>, ghost c: nat)
      requires From(ns, s, c) && c + 1 < |ns|
      modifies this`head, this`nodes, this`image, nodes
      ensures From(ns, s, c + 1)
    {
      assert nodes[1..] == ns[c + 1..] && image[1..] == s[c + 1..];
      head := MoveHead(head, nodes, image);
      nodes, image := ns[c + 1..], s[c + 1..];
    }

    /** The head is read up to its byte `n`. */
    method CutHead(n: nat, ghost ns: seq<Buffer>, ghost s: seq<Node>, ghost c: nat)
      requires From(ns, s, c) && n <= |s[c].bytes|
      modifies this`image, nodes
      ensures IsChain(head, nodes, image) && image == CutFront(s[c..], n)
    {
      HeadIs(ns, s, c);
      PropagateHead(head, n, nodes, image);
      image := CutFront(image, n);
    }

    /** The loop of ReadData, which drops the buffers it leaves behind. */
    method ReadBuffers(size: nat) returns (data: seq<Byte>, ghost c: nat, ghost n: nat)
      requires Chained() && 0 < size <= |Bytes(image)|
      modifies this`head, this`nodes, this`image, nodes
      ensures EndsAt(old(image), size, c, n) && data == old(Content())[..size]
      ensures IsChain(head, nodes, image)
      ensures nodes == old(nodes)[c..] && image == CutFront(old(image)[c..], n)
    {
      ghost var ns, s := nodes, image;
      var left := size;
      data, c := [], 0;
      assert s[..0] == [] && ns[0..] == ns && s[0..] == s;
      while true
        invariant From(ns, s, c)
        invariant 0 < left && size == |Bytes(s[..c])| + left && data == Bytes(s[..c])
        decreases |ns| - c
      {
        HeadIs(ns, s, c);
        var cap := head.pos;
        var toRead := if cap > left then left else cap;
        data := data + head.data[..toRead];
        assert forall i :: 0 <= i < |nodes| ==> nodes[i] in ns;
        if toRead == left {
          n := left;
          CutBytes(s, size, c, left);
          CutHead(toRead, ns, s, c);
          return;
        }
        CutMore(s, size, c, left);
        left := left - toRead;
        PassHead(ns, s, c);
        c := c + 1;
      }
    }

    method ReadData(size: nat) returns (data: seq<Byte>)
      requires Valid() && size <= rsize
      modifies this, nodes
      ensures data == old(Content())[..size]
      ensures Valid() && Content() == old(Content())[size..]
      ensures forall b :: b in nodes ==> b in old(nodes)
    {
      if size == 0 {
        return [];
      }
      ghost var ns, s, k := nodes, image, d;
      ghost var c, n;
      rsize := rsize - size;
      if rsize == 0 {
        rend := null;
      }
      data, c, n := ReadBuffers(size);
      ReadEnd(ns, s, k, size, c, n);
      assert head == null || rsize > 0 || wsize > 0;
    }

    method ReadEnd(ghost ns: seq<Buffer>, ghost s: seq<Node>, ghost k: nat, ghost size: nat, ghost c: nat,
                   ghost n: nat)
      requires WasRead(ns, s, k, size, c, n) && Distinct(ns)
      requires IsChain(head, nodes, image) && nodes == ns[c..] && image == CutFront(s[c..], n)
      modifies this, nodes
      ensures Valid() && Content() == Bytes(s)[size..]
      ensures head == null || rsize > 0 || wsize > 0
      ensures forall b :: b in nodes ==> b in ns
    {
      EmptyHead(ns, s, k, size, c, n);
      if head.pos == 0 && head != wpos {
        DropHead(ns, s, k, size, c, n);
      } else {
        d := if n == |s[c].bytes| then 0 else k - c;
        HeadCut(ns, s, k, size, c, n);
      }
      SpaceNone(image, d);
      ContentEnds(image, d);
    }

    /** Everything readable as a chain of its own. */
    method PopData() returns (res: Buffer?, ghost ms: seq<Buffer>, ghost x: seq<Node>)
      requires Valid()
      modifies this, nodes
      ensures Valid() && Content() == [] && IsChain(res, ms, x) && Bytes(x) == old(Content())
      ensures ms == old(nodes[..d]) && nodes == old(nodes[d..])
      ensures x == old(image[..d]) && forall i :: 0 <= i < |x| ==> x[i].bytes != []
    {
      PopShape(image, d);
      ghost var ns, s, k := nodes, image, d;
      if rend == null {
        assert rsize == 0;
        ms, x := [], [];
        assert ns[..0] == [] && ns[0..] == ns && s[..0] == [];
        return null, ms, x;
      }
      assert Holds(rend, image[d - 1]);
      assert rsize > 0 && rend.pos > 0;
      res, ms, x := head, ns[..k], s[..k];
      var space := |rend.data| - rend.pos;
      var rest := Detach(rend, head, ns, s, k);
      if rest == null {
        assert ns[k..] == [];
        Clear();
        return;
      }
      SetSpare(rest, wsize - space, ns[k..], s[k..]);
    }

    /** The spare buffers which stay when all data is popped. */
    method SetSpare(first: Buffer, ws: nat, ghost ns: seq<Buffer>, ghost s: seq<Node>)
      requires IsChain(first, ns, s) && Shape(s, 0) && ws == WriteSize(s, 0) && tail == LastOf(ns)
      modifies this
      ensures Valid() && Content() == [] && nodes == ns
    {
      BytesOfEmpty(s);
      SetAll(first, 0, null, first, ws, tail, ns, s, 0);
    }
  }

  /** The ends of a chain are at the same places from its end when it loses the first `c` buffers. */
  lemma CutEnds(ns: seq<Buffer>, w: nat, k: nat, c: nat)
    requires c <= w <= |ns| && c < k <= |ns|
    ensures At(ns[c..], w - c) == At(ns, w) && ns[c..][k - c - 1] == ns[k - 1] && LastOf(ns[c..]) == LastOf(ns)
  {
  }

  lemma SplicedEnds(ns: seq<Buffer>, k: nat, ms: seq<Buffer>)
    requires k <= |ns| && ms != []
    ensures var r := ns[..k] + ms + ns[k..];
      && r[k + |ms| - 1] == ms[|ms| - 1] && At(r, k + |ms|) == At(ns, k)
      && LastOf(r) == if k < |ns| then ns[|ns| - 1] else ms[|ms| - 1]
  {
  }

  /** The first buffer after a full one where a write may go on. */
  lemma {:induction false} FirstSpace(s: seq<Node>, from: nat, w: nat)
    requires from <= w && 0 < w < |s| && s[w].bytes == [] && Writable(s, w) && s[w - 1].room == []
    requires forall i :: 0 <= i < w ==> s[i].bytes != []
    ensures FirstWritable(s, from) == w
    decreases w - from
  {
    if from < w {
      assert from + 1 < w ==> s[from + 1].bytes != [];
      assert !Writable(s, from);
      FirstSpace(s, from + 1, w);
    }
  }

  lemma CutBytesPeek(s: seq<Node>, size: nat, c: nat, left: nat)
    requires c < |s| && 0 < left <= |s[c].bytes| && size == |Bytes(s[..c])| + left
    ensures size <= |Bytes(s)| && Bytes(s)[..size] == Bytes(s[..c]) + s[c].bytes[..left]
  {
    CutBytes(s, size, c, left);
  }

  lemma SpaceUpTo(s: seq<Node>, w: nat, k: nat)
    requires k < |s|
    ensures w <= k ==> |Room(s[w..k + 1])| == (if w < k then |Room(s[w..k])| else 0) + |s[k].room|
  {
    if w <= k {
      var t := s[w..];
      BytesUpTo(t, k - w);
      assert t[..k - w] == s[w..k] && t[..k - w + 1] == s[w..k + 1];
    }
  }
}
