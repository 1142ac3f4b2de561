/**
 * BufferLinkList of src/mg/net/Buffer.cpp: a queue of buffer chains which several
 * queues may share, sent piece by piece.
 */
module BufferLinkLists {
  import opened Buffers
  import opened BufferShapes

  /** All buffers of all links, in order. */
  function Nodes(vs: seq<seq<Node>>): seq<Node> {
    if vs == [] then [] else vs[0] + Nodes(vs[1..])
  }

  /** The size of the first buffer with data, 0 if there is none. */
  function FirstSize(s: seq<Node>): nat {
    if s == [] then 0 else if s[0].bytes != [] then |s[0].bytes| else FirstSize(s[1..])
  }

  function Joined(vecs: seq<seq<Byte>>): seq<Byte> {
    if vecs == [] then [] else Joined(vecs[..|vecs| - 1]) + vecs[|vecs| - 1]
  }

  /** An offset into the first buffer with data. */
  predicate Ready(s: seq<Node>, offset: nat) {
    offset == 0 || offset < FirstSize(s)
  }

  lemma {:induction false} FirstSizeBound(s: seq<Node>)
    ensures FirstSize(s) <= |Bytes(s)| && (FirstSize(s) == 0 <==> Bytes(s) == [])
  {
    if s != [] {
      FirstSizeBound(s[1..]);
    }
  }

  lemma {:induction false} NodesConcat(a: seq<seq<Node>>, b: seq<seq<Node>>)
    ensures Nodes(a + b) == Nodes(a) + Nodes(b)
  {
    if a == [] {
      assert a + b == b;
    } else {
      NodesConcat(a[1..], b);
      assert (a + b)[1..] == a[1..] + b;
      Assoc(a[0], Nodes(a[1..]), Nodes(b));
    }
  }

  /** Dropping the first `k` buffers of the first link. */
  lemma NodesCut(vs: seq<seq<Node>>, k: nat)
    requires vs != [] && k <= |vs[0]|
    ensures Nodes(vs[0 := vs[0][k..]]) == Nodes(vs)[k..]
    ensures Bytes(Nodes(vs)) == Bytes(vs[0][..k]) + Bytes(Nodes(vs)[k..])
  {
    var us := vs[0 := vs[0][k..]];
    assert us[1..] == vs[1..];
    assert Nodes(vs)[k..] == vs[0][k..] + Nodes(vs[1..]);
    BytesSplit(Nodes(vs), k);
    assert Nodes(vs)[..k] == vs[0][..k];
  }

  lemma NodesDrop(vs: seq<seq<Node>>)
    requires vs != []
    ensures Bytes(Nodes(vs)) == Bytes(vs[0]) + Bytes(Nodes(vs[1..]))
  {
    BytesConcat(vs[0], Nodes(vs[1..]));
  }

  class BufferLink {
    var head: Buffer?

    constructor (head: Buffer?)
      ensures this.head == head
    {
      this.head := head;
    }
  }

  class BufferLinkList {
    var links: seq<BufferLink>
    /** The buffers of each link and their values. */
    ghost var chains: seq<seq<Buffer>>
    ghost var vals: seq<seq<Node>>

    ghost function Pool(): set<Buffer>
      reads this
    {
      set i, b | 0 <= i < |chains| && b in chains[i] :: b
    }

    ghost predicate LinkOk(i: nat)
      requires i < |links| == |chains| == |vals|
      reads this, links, Pool()
    {
      assert forall b :: b in chains[i] ==> b in Pool();
      IsChain(links[i].head, chains[i], vals[i])
    }

    ghost predicate Valid()
      reads this, links, Pool()
    {
      && |links| == |chains| == |vals|
      && (forall i, j :: 0 <= i < j < |links| ==> links[i] != links[j])
      && (forall i {:trigger LinkOk(i)} :: 0 <= i < |links| ==> LinkOk(i))
    }

    /** No buffer is in two links. */
    ghost predicate Unshared()
      reads this
    {
      forall i, j, b :: 0 <= i < j < |chains| && b in chains[i] ==> b !in chains[j]
    }

    ghost function Queued(): seq<Byte>
      reads this
    {
      Bytes(Nodes(vals))
    }

    constructor ()
      ensures Valid() && links == [] && Queued() == []
    {
      links, chains, vals := [], [], [];
    }

    method SkipData(offset: nat, count: nat) returns (rest: nat)
      requires Valid() && offset + count <= |Queued()|
      modifies this, links
      ensures Valid() && rest <= |Queued()| && Queued()[rest..] == old(Queued())[offset + count..]
      ensures Ready(Nodes(vals), rest)
      ensures Pool() <= old(Pool()) && forall l :: l in links ==> l in old(links)
      ensures old(Unshared()) ==> Unshared()
    {
      var left := offset + count;
      while left != 0
        invariant Valid() && 0 <= left <= |Queued()| && Queued()[left..] == old(Queued())[offset + count..]
        invariant Pool() <= old(Pool()) && forall l :: l in links ==> l in old(links)
        invariant old(Unshared()) ==> Unshared()
        decreases |links|
      {
        var link := links[0];
        assert link in links;
        var pos := link.head;
        ghost var c, v, k, start := chains[0], vals[0], 0, left;
        ghost var ls, cs, vs := links, chains, vals;
        assert LinkOk(0) && v[..0] == [];
        while pos != null
          invariant k <= |c| && pos == At(c, k)
          invariant left >= 0 && left + |Bytes(v[..k])| == start
          invariant Valid() && links == ls && chains == cs && vals == vs && link.head == At(c, 0)
          decreases |c| - k
        {
          assert LinkOk(0) && Holds(c[k], v[k]);
          BytesUpTo(v, k);
          if pos.pos > left {
            NodesCut(vs, k);
            assert Queued()[start..] == Bytes(Nodes(vs)[k..])[left..];
            ChainFrom(link.head, c, v, k);
            CutLink(pos, c[k..], v[k..]);
            return left;
          }
          left := left - pos.pos;
          pos := pos.next;
          k := k + 1;
        }
        assert v[..|v|] == v;
        NodesDrop(vs);
        assert Queued()[start..] == Bytes(Nodes(vals[1..]))[left..];
        PopFirst();
      }
      rest := 0;
    }

    /** The first link loses its first buffers. */
    method CutLink(pos: Buffer, ghost c: seq<Buffer>, ghost v: seq<Node>)
      requires Valid() && links != [] && IsChain(pos, c, v) && forall b :: b in c ==> b in chains[0]
      modifies this`chains, this`vals, links[0]
      ensures Valid() && links == old(links) && vals == old(vals)[0 := v] && chains == old(chains)[0 := c]
      ensures Pool() <= old(Pool()) && (old(Unshared()) ==> Unshared())
    {
      links[0].head := pos;
      chains, vals := chains[0 := c], vals[0 := v];
      forall i | 0 <= i < |links|
        ensures LinkOk(i)
      {
        if i > 0 {
          assert old(LinkOk(i));
        }
      }
    }

    method PopFirst()
      requires Valid() && links != []
      modifies this
      ensures Valid() && links == old(links)[1..] && vals == old(vals)[1..] && chains == old(chains)[1..]
      ensures Pool() <= old(Pool()) && (old(Unshared()) ==> Unshared())
    {
      links := links[1..];
      chains, vals := chains[1..], vals[1..];
      forall i | 0 <= i < |links|
        ensures LinkOk(i)
      {
        assert old(LinkOk(i + 1));
      }
    }

    /** `head = std::move(head->next)` on the first link. */
    method DropFirst()
      requires Valid() && Unshared() && links != [] && links[0].head != null
      modifies this`chains, this`vals, links[0], links[0].head
      ensures Valid() && Unshared() && links == old(links) && Pool() <= old(Pool())
      ensures |old(vals)| > 0 && |old(vals)[0]| > 0 && vals == old(vals)[0 := old(vals)[0][1..]]
    {
      ghost var c, v := chains[0], vals[0];
      TheLink(0);
      assert c[0] in chains[0];
      links[0].head := MoveHead(links[0].head, c, v);
      chains, vals := chains[0 := c[1..]], vals[0 := v[1..]];
      assert forall b :: b in c[1..] ==> b in c;
      forall i | 0 <= i < |links|
        ensures LinkOk(i)
      {
        if i > 0 {
          assert old(LinkOk(i)) && chains[i] == old(chains)[i];
          assert c[0] !in chains[i];
        }
      }
    }

    method SkipEmptyPrefix(offset: nat) returns (rest: nat)
      requires Valid() && Unshared() && offset <= FirstSize(Nodes(vals))
      modifies this, links, Pool()
      ensures Valid() && Unshared()
      ensures offset <= |old(Queued())| && rest <= |Queued()| && Queued()[rest..] == old(Queued())[offset..]
      ensures if links == [] then rest == 0 else vals[0] != [] && rest < |vals[0][0].bytes|
      ensures Pool() <= old(Pool()) && forall l :: l in links ==> l in old(links)
    {
      rest := offset;
      FirstSizeBound(Nodes(vals));
      if links == [] {
        assert rest == 0;
        return;
      }
      TheLink(0);
      if links[0].head != null {
        assert Holds(links[0].head, vals[0][0]);
        if links[0].head.pos > rest {
          return;
        }
      }
      while links != []
        invariant Valid() && Unshared() && Pool() <= old(Pool()) && forall l :: l in links ==> l in old(links)
        invariant Waits(rest, old(Queued())[offset..])
        decreases |links|
      {
        ghost var n := |links|;
        while links[0].head != null
          invariant Valid() && Unshared() && Pool() <= old(Pool()) && forall l :: l in links ==> l in old(links)
          invariant |links| == n && Waits(rest, old(Queued())[offset..])
          decreases |vals[0]|
        {
          TheLink(0);
          assert Holds(links[0].head, vals[0][0]);
          PassFirst(rest, old(Queued())[offset..]);
          if links[0].head.pos > 0 {
            if rest < links[0].head.pos {
              return;
            }
            assert rest == links[0].head.pos;
            rest := 0;
          }
          assert chains[0][0] in chains[0] && links[0] in links;
          assert links[0].head in Pool();
          DropFirst();
        }
        TheLink(0);
        assert Nodes(vals) == Nodes(vals[1..]);
        PopFirst();
      }
    }

    /** The bytes to send, behind an offset which may be the end of the first buffer with data. */
    ghost predicate Waits(offset: nat, bytes: seq<Byte>)
      reads this
    {
      offset <= FirstSize(Nodes(vals)) && offset <= |Queued()| && Queued()[offset..] == bytes
    }

    lemma PassFirst(offset: nat, bytes: seq<Byte>)
      requires vals != [] && vals[0] != [] && Waits(offset, bytes)
      ensures var b, next := vals[0][0].bytes, Nodes(vals[0 := vals[0][1..]]);
        && (b != [] ==> offset <= |b|)
        && (b == [] || offset == |b| ==>
              var o := if b == [] then offset else 0;
              o <= FirstSize(next) && o <= |Bytes(next)| && Bytes(next)[o..] == bytes)
    {
      var s := Nodes(vals);
      NodesCut(vals, 1);
      assert s[0] == vals[0][0];
      assert Bytes(s) == s[0].bytes + Bytes(s[1..]);
      FirstSizeBound(s[1..]);
      if s[0].bytes == [] {
        assert Bytes(s) == Bytes(s[1..]);
      } else if offset == |s[0].bytes| {
        assert Bytes(s)[offset..] == Bytes(s[1..]);
        assert Bytes(s[1..])[0..] == Bytes(s[1..]);
      }
    }

    method AppendRef(chain: Buffer?, ghost c: seq<Buffer>, ghost v: seq<Node>)
      requires Valid() && IsChain(chain, c, v)
      modifies this
      ensures Valid() && Queued() == old(Queued()) + Bytes(v)
      ensures forall offset :: old(Ready(Nodes(vals), offset)) ==> Ready(Nodes(vals), offset)
      ensures forall l :: l in links ==> l in old(links) || fresh(l)
      ensures forall b :: b in Pool() ==> b in old(Pool()) || b in c
      ensures old(Unshared()) && (forall b :: b in c ==> b !in old(Pool())) ==> Unshared()
    {
      if chain != null {
        var link := new BufferLink(chain);
        links, chains, vals := links + [link], chains + [c], vals + [v];
        forall i | 0 <= i < |links|
          ensures LinkOk(i)
        {
          if i < |links| - 1 {
            assert old(LinkOk(i));
          }
        }
        QueuedAppend(old(vals), v);
        forall offset | old(Ready(Nodes(vals), offset))
          ensures Ready(Nodes(vals), offset)
        {
          FirstSizeAppend(Nodes(old(vals)), v);
        }
        assert chains[|chains| - 1] == c;
      }
    }

    method AppendCopy(data: seq<Byte>)
      requires Valid()
      modifies this
      ensures Valid() && Queued() == old(Queued()) + data && (old(Unshared()) ==> Unshared())
      ensures forall offset :: old(Ready(Nodes(vals), offset)) ==> Ready(Nodes(vals), offset)
      ensures forall l :: l in links ==> l in old(links) || fresh(l)
      ensures forall b :: b in Pool() ==> b in old(Pool()) || fresh(b)
    {
      var head, c, v := BuffersCopy(data);
      ValidKept();
      AppendRef(head, c, v);
    }

    /** BuffersToIOVecsForWrite: the bytes the vectors point to. */
    method Gather(offset: nat, max: nat) returns (vecs: seq<seq<Byte>>)
      requires Valid() && Ready(Nodes(vals), offset)
      ensures Valid() && Gathered(vecs, offset, max)
    {
      vecs := [];
      var off: nat, n: nat := offset, 0;
      StartsLeft(offset, max);
      while n < |links|
        invariant n <= |links| && Valid()
        invariant |vecs| < max || n == 0
        invariant Left(n, 0, vecs, off, offset, max)
      {
        TheLink(n);
        ghost var k;
        vecs, off, k := GatherLink(n, links[n].head, vecs, off, offset, max);
        ValidKept();
        if |vecs| == max {
          EndsLeft(n, k, vecs, off, offset, max);
          return;
        }
        PassLink(n, vecs, off, offset, max);
        n := n + 1;
      }
      EndsLeft(n, 0, vecs, off, offset, max);
    }

    /** The loop over the buffers of a link. */
    method GatherLink(ghost n: nat, head: Buffer?, was: seq<seq<Byte>>, start: nat, ghost offset: nat, max: nat)
      returns (vecs: seq<seq<Byte>>, off: nat, ghost k: nat)
      requires |links| == |chains| == |vals| && n < |links| && IsChain(head, chains[n], vals[n])
      requires Left(n, 0, was, start, offset, max)
      ensures |vecs| <= max && k <= |vals[n]| && Left(n, k, vecs, off, offset, max)
      ensures |vecs| < max ==> k == |vals[n]|
    {
      vecs, off, k := was, start, 0;
      var it := head;
      while it != null && |vecs| < max
        invariant k <= |chains[n]| && it == At(chains[n], k)
        invariant Left(n, k, vecs, off, offset, max)
        decreases |chains[n]| - k
      {
        assert Holds(chains[n][k], vals[n][k]);
        PassBuffer(n, k, vecs, off, offset, max);
        if it.pos > 0 {
          assert off < it.pos;
          assert it.data[off..it.pos] == vals[n][k].bytes[off..];
          vecs := vecs + [it.data[off..it.pos]];
          off := 0;
        }
        it := it.next;
        k := k + 1;
      }
    }

    lemma EndsLeft(n: nat, k: nat, vecs: seq<seq<Byte>>, off: nat, offset: nat, max: nat)
      requires |links| == |chains| == |vals|
      requires Left(n, k, vecs, off, offset, max) && (|vecs| < max ==> n == |links|)
      ensures Gathered(vecs, offset, max)
    {
    }

    /** The vectors are the beginning of the bytes behind the offset, and all of them unless there is no more place. */
    ghost predicate Gathered(vecs: seq<seq<Byte>>, offset: nat, max: nat)
      reads this
    {
      && |vecs| <= max && offset <= |Queued()| && Joined(vecs) <= Queued()[offset..]
      && (|vecs| < max ==> Joined(vecs) == Queued()[offset..])
      && (max > 0 && Queued()[offset..] != [] ==> Joined(vecs) != [])
    }

    twostate lemma ValidKept()
      requires old(Valid()) && unchanged(this) && unchanged(links) && unchanged(Pool())
      ensures Valid()
    {
      forall i | 0 <= i < |links|
        ensures LinkOk(i)
      {
        assert old(LinkOk(i));
        assert forall b :: b in chains[i] ==> b in Pool();
      }
    }

    lemma TheLink(i: nat)
      requires Valid() && i < |links|
      ensures IsChain(links[i].head, chains[i], vals[i])
    {
      assert LinkOk(i);
    }

    lemma StartsLeft(offset: nat, max: nat)
      requires |links| == |chains| == |vals| && Ready(Nodes(vals), offset)
      ensures Left(0, 0, [], offset, offset, max)
    {
      FirstSizeBound(Nodes(vals));
      if vals != [] {
        assert vals[0][0..] == vals[0];
      }
    }

    lemma PassBuffer(n: nat, k: nat, vecs: seq<seq<Byte>>, off: nat, offset: nat, max: nat)
      requires |links| == |chains| == |vals| && n < |vals| && k < |vals[n]|
      requires Left(n, k, vecs, off, offset, max) && |vecs| < max
      ensures var b := vals[n][k].bytes;
        if b == [] then Left(n, k + 1, vecs, off, offset, max)
        else off < |b| && Left(n, k + 1, vecs + [b[off..]], 0, offset, max)
    {
      var s := Behind(n, k);
      assert s[0] == vals[n][k] && s[1..] == Behind(n, k + 1);
      if s[0].bytes != [] {
        TakeVector(s[0].bytes, Bytes(s[1..]), off, vecs);
      } else {
        assert Bytes(s) == Bytes(s[1..]);
      }
    }

    lemma PassLink(n: nat, vecs: seq<seq<Byte>>, off: nat, offset: nat, max: nat)
      requires |links| == |chains| == |vals| && n < |vals|
      requires Left(n, |vals[n]|, vecs, off, offset, max)
      ensures Left(n + 1, 0, vecs, off, offset, max)
    {
      assert Behind(n, |vals[n]|) == Nodes(vals[n + 1..]);
      if n + 1 < |vals| {
        assert vals[n + 1..][1..] == vals[n + 2..];
        assert vals[n + 1][0..] == vals[n + 1];
      }
    }

    /** What Gather has passed so far and what is behind its position. */
    ghost predicate Left(n: nat, k: nat, vecs: seq<seq<Byte>>, off: nat, offset: nat, max: nat)
      requires |links| == |chains| == |vals|
      reads this
    {
      && n <= |vals| && (n < |vals| ==> k <= |vals[n]|)
      && |vecs| <= max && off <= |Bytes(Behind(n, k))| && offset <= |Queued()|
      && Joined(vecs) + Bytes(Behind(n, k))[off..] == Queued()[offset..]
      && Ready(Behind(n, k), off)
      && (vecs != [] ==> Joined(vecs) != [])
    }

    ghost function Behind(n: nat, k: nat): seq<Node>
      requires n <= |vals| && (n < |vals| ==> k <= |vals[n]|)
      reads this
    {
      if n < |vals| then vals[n][k..] + Nodes(vals[n + 1..]) else []
    }
  }

  lemma TakeVector(b: seq<Byte>, rest: seq<Byte>, off: nat, vecs: seq<seq<Byte>>)
    requires off < |b|
    ensures Joined(vecs + [b[off..]]) == Joined(vecs) + b[off..] != []
    ensures Joined(vecs) + (b + rest)[off..] == Joined(vecs + [b[off..]]) + rest[0..]
  {
    var us := vecs + [b[off..]];
    assert us[..|us| - 1] == vecs;
    assert (b + rest)[off..] == b[off..] + rest;
    Assoc(Joined(vecs), b[off..], rest);
  }

  lemma QueuedAppend(vs: seq<seq<Node>>, v: seq<Node>)
    ensures Nodes(vs + [v]) == Nodes(vs) + v
    ensures Bytes(Nodes(vs + [v])) == Bytes(Nodes(vs)) + Bytes(v)
  {
    var one := [v];
    assert one[1..] == [] && Nodes(one) == v + [];
    NodesConcat(vs, one);
    BytesConcat(Nodes(vs), v);
  }

  lemma {:induction false} FirstSizeAppend(a: seq<Node>, b: seq<Node>)
    ensures FirstSize(a) > 0 ==> FirstSize(a + b) == FirstSize(a)
  {
    if a != [] && a[0].bytes == [] {
      FirstSizeAppend(a[1..], b);
      assert (a + b)[1..] == a[1..] + b;
    }
  }

  // ------------------------------------------------------------------
  // BuffersCopy

  /** Copies `data` behind `head`, in new buffers as far as it does not fit. */
  method BuffersCopyAppend(head: Buffer, data: seq<Byte>, ghost n: Node)
    returns (tail: Buffer, ghost c: seq<Buffer>, ghost v: seq<Node>)
    requires Holds(head, n) && head.next == null
    modifies head
    ensures IsChain(head, c, v) && tail == LastOf(c) && c != [] && c[0] == head
    ensures Bytes(v) == n.bytes + data
    ensures data != [] && n.room != [] ==> forall i :: 0 <= i < |v| ==> v[i].bytes != []
    ensures forall i :: 0 < i < |c| ==> fresh(c[i])
  {
    tail, c, v := head, [head], [n];
    assert v[1..] == [];
    if data == [] {
      return;
    }
    var cap := |head.data| - head.pos;
    if cap >= |data| {
      head.Store(data);
      v := [Node(n.bytes + data, head.data[head.pos..])];
      assert v[1..] == [];
      return;
    }
    head.Store(data[..cap]);
    v := [Node(n.bytes + data[..cap], [])];
    assert v[1..] == [];
    var left := data[cap..];
    while true
      invariant IsChain(head, c, v) && tail == LastOf(c) && c != [] && c[0] == head
      invariant left != [] && Bytes(v) + left == n.bytes + data
      invariant n.room != [] ==> forall i :: 0 <= i < |v| ==> v[i].bytes != []
      invariant forall i :: 0 < i < |c| ==> fresh(c[i])
      decreases |left|
    {
      var size := if |left| > COPY_SIZE then COPY_SIZE else |left|;
      ghost var was := Bytes(v);
      tail, c, v := AddCopy(head, tail, left[..size], c, v);
      Assoc(was, left[..size], left[size..]);
      left := left[size..];
      if left == [] {
        break;
      }
    }
  }

  /** A new buffer with `chunk` behind the tail. */
  method AddCopy(ghost head: Buffer, tail: Buffer, chunk: seq<Byte>, ghost c: seq<Buffer>, ghost v: seq<Node>)
      returns (b: Buffer, ghost d: seq<Buffer>, ghost w: seq<Node>)
    requires IsChain(head, c, v) && c != [] && tail == c[|c| - 1] && 0 < |chunk| <= COPY_SIZE
    modifies tail
    ensures fresh(b) && d == c + [b] && |w| == |v| + 1 && w[..|v|] == v && w[|v|].bytes == chunk
    ensures IsChain(head, d, w) && Bytes(w) == Bytes(v) + chunk
  {
    b := new Buffer.NewCopy();
    b.Store(chunk);
    ghost var m := Node(chunk, b.data[|chunk|..]);
    assert b.data[..|chunk|] == chunk;
    assert b.data == m.bytes + m.room;
    GrowChain(head, c, v, tail, b, m);
    d, w := c + [b], v + [m];
  }

  /** `tail = (tail->next = b)`. */
  method GrowChain(ghost head: Buffer?, ghost c: seq<Buffer>, ghost v: seq<Node>, tail: Buffer, b: Buffer,
                   ghost m: Node)
    requires IsChain(head, c, v) && c != [] && tail == c[|c| - 1]
    requires Holds(b, m) && b.next == null && b !in c
    modifies tail
    ensures IsChain(head, c + [b], v + [m]) && Bytes(v + [m]) == Bytes(v) + m.bytes
  {
    var one := [m];
    assert one[1..] == [] && Bytes(one) == m.bytes;
    BytesConcat(v, one);
    assert Holds(tail, v[|c| - 1]);
    tail.next := b;
  }

  method BuffersCopy(data: seq<Byte>) returns (head: Buffer?, ghost c: seq<Buffer>, ghost v: seq<Node>)
    ensures IsChain(head, c, v) && Bytes(v) == data
    ensures forall i :: 0 <= i < |v| ==> v[i].bytes != []
    ensures forall i :: 0 <= i < |c| ==> fresh(c[i])
  {
    if data == [] {
      return null, [], [];
    }
    var b := new Buffer.NewCopy();
    var tail;
    tail, c, v := BuffersCopyAppend(b, data, Node([], b.data));
    head := b;
  }

  // ------------------------------------------------------------------
  // Partial sends

  /** A sender queues more at any time, also while the kernel has the vectors of a send. */
  datatype Round = Queue(data: seq<Byte>) | Start(max: nat) | Commit(accepted: nat)

  function AllData(rounds: seq<Round>): seq<Byte> {
    if rounds == [] then []
    else AllData(rounds[..|rounds| - 1]) + if rounds[|rounds| - 1].Queue? then rounds[|rounds| - 1].data else []
  }

  /** Skip what is sent and gather at most `max` vectors for the kernel. */
  method StartSend(list: BufferLinkList, offset: nat, max: nat) returns (bytes: seq<Byte>, rest: nat)
    requires list.Valid() && list.Unshared() && offset <= FirstSize(Nodes(list.vals))
    modifies list, list.links, list.Pool()
    ensures list.Valid() && list.Unshared() && Ready(Nodes(list.vals), rest)
    ensures list.Pool() <= old(list.Pool()) && forall l :: l in list.links ==> l in old(list.links)
    ensures offset <= |old(list.Queued())| && rest <= |list.Queued()|
    ensures list.Queued()[rest..] == old(list.Queued()[offset..]) && bytes <= list.Queued()[rest..]
    ensures max > 0 && old(list.Queued()[offset..]) != [] ==> bytes != []
  {
    rest := list.SkipEmptyPrefix(offset);
    if list.links == [] {
      return [], rest;
    }
    assert Nodes(list.vals)[0] == list.vals[0][0];
    var vecs := list.Gather(rest, max);
    bytes := Joined(vecs);
  }

  /** The kernel accepted some of the bytes it got. */
  method CommitSend(list: BufferLinkList, offset: nat, bytes: seq<Byte>, accepted: nat)
      returns (sent: seq<Byte>, rest: nat)
    requires list.Valid() && offset <= |list.Queued()| && bytes <= list.Queued()[offset..]
    modifies list, list.links
    ensures list.Valid() && (old(list.Unshared()) ==> list.Unshared()) && Ready(Nodes(list.vals), rest)
    ensures list.Pool() <= old(list.Pool()) && forall l :: l in list.links ==> l in old(list.links)
    ensures rest <= |list.Queued()| && sent == bytes[..if accepted <= |bytes| then accepted else |bytes|]
    ensures sent + list.Queued()[rest..] == old(list.Queued()[offset..])
  {
    sent := if accepted <= |bytes| then bytes[..accepted] else bytes;
    ghost var was := list.Queued();
    rest := list.SkipData(offset, |sent|);
    assert was[offset..] == sent + was[offset + |sent|..];
  }

  /** Whatever the kernel accepts, the bytes go out in the order they were queued, each of them once. */
  method Deliver(list: BufferLinkList, rounds: seq<Round>) returns (sent: seq<Byte>, rest: nat)
    requires list.Valid() && list.Unshared()
    modifies list, list.links, list.Pool()
    ensures list.Valid() && rest <= |list.Queued()|
    ensures sent + list.Queued()[rest..] == old(list.Queued()) + AllData(rounds)
  {
    sent, rest := [], 0;
    var sending, bytes := false, [];
    assert rounds[..0] == [];
    for i := 0 to |rounds|
      invariant list.Valid() && list.Unshared() && Ready(Nodes(list.vals), rest) && rest <= |list.Queued()|
      invariant sent + list.Queued()[rest..] == old(list.Queued()) + AllData(rounds[..i])
      invariant bytes <= list.Queued()[rest..]
      invariant forall b :: b in list.Pool() ==> b in old(list.Pool()) || fresh(b)
      invariant forall l :: l in list.links ==> l in old(list.links) || fresh(l)
    {
      assert rounds[..i + 1][..i] == rounds[..i];
      ghost var was := list.Queued();
      assert forall k :: 0 <= k < |list.links| ==>
        list.links[k] in list.links && (list.links[k] in old(list.links) || fresh(list.links[k]));
      match rounds[i]
      case Queue(data) =>
        list.AppendCopy(data);
        assert (was + data)[rest..] == was[rest..] + data;
        Assoc(sent, was[rest..], data);
        Assoc(old(list.Queued()), AllData(rounds[..i]), data);
      case Start(max) =>
        if !sending {
          bytes, rest := StartSend(list, rest, max);
          sending := true;
        }
      case Commit(accepted) =>
        if sending {
          var part;
          part, rest := CommitSend(list, rest, bytes, accepted);
          Assoc(sent, part, list.Queued()[rest..]);
          sent, sending, bytes := sent + part, false, [];
        }
    }
    assert rounds[..|rounds|] == rounds;
  }
}
