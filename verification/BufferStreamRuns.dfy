/** Any sequence of operations on a BufferStream, against a plain queue of bytes. */
module BufferStreamRuns {
  import opened Buffers
  import opened BufferShapes
  import opened BufferStreams

  /**
   * `Receive` stands for a kernel which filled `size` bytes of the memory at the write position. `Link` links a
   * chain of any buffers, the data and the free memory of each given; one popped from another stream, for instance.
   */
  datatype Op =
    | Reserve(size: nat)
    | Receive(size: nat)
    | Write(data: seq<Byte>)
    | Link(parts: seq<Node>)
    | Read(size: nat)
    | Skip(size: nat)
    | Peek(size: nat)
    | Pop

  /** The operations which add bytes; one whose precondition does not hold is skipped. */
  method Give(stream: BufferStream, op: Op) returns (ghost given: seq<Byte>)
    requires stream.Valid()
    modifies stream, stream.nodes
    ensures stream.Valid() && stream.Content() == old(stream.Content()) + given
    ensures forall i :: 0 <= i < |stream.nodes| ==> stream.nodes[i] in old(stream.nodes) || fresh(stream.nodes[i])
  {
    given := [];
    match op
    case Reserve(size) =>
      stream.EnsureWriteSize(size);
    case Receive(size) =>
      if 0 < size <= stream.wsize {
        given := stream.Space()[..size];
        stream.PropagateWritePos(size);
      }
    case Write(data) =>
      if data == [] || stream.wpos == null || stream.wpos == stream.tail
        || |data| < |stream.wpos.data| - stream.wpos.pos {
        given := data;
        stream.WriteCopy(data);
      }
    case Link(parts) =>
      if forall i :: 0 <= i < |parts| ==> parts[i].bytes != [] {
        given := Bytes(parts);
        Append(stream, parts);
      }
    case _ =>
  }

  /** A chain of new buffers with these values. */
  method BuildChain(parts: seq<Node>) returns (head: Buffer?, ghost ms: seq<Buffer>)
    ensures IsChain(head, ms, parts) && forall i :: 0 <= i < |ms| ==> fresh(ms[i])
  {
    head, ms := null, [];
    var k := |parts|;
    assert parts[k..] == [];
    while k > 0
      invariant k <= |parts| && IsChain(head, ms, parts[k..]) && forall i :: 0 <= i < |ms| ==> fresh(ms[i])
    {
      k := k - 1;
      var b := new Buffer(|parts[k].bytes|, parts[k].bytes + parts[k].room);
      b.next := head;
      assert Holds(b, parts[k]) && parts[k..] == [parts[k]] + parts[k + 1..];
      Prepended(b, head, ms, parts[k + 1..], parts[k]);
      head, ms := b, [b] + ms;
    }
    assert parts[0..] == parts;
  }

  lemma Prepended(b: Buffer, head: Buffer?, ms: seq<Buffer>, s: seq<Node>, n: Node)
    requires IsChain(head, ms, s) && b !in ms && b.next == head && Holds(b, n)
    ensures IsChain(b, [b] + ms, [n] + s)
  {
    var r, t := [b] + ms, [n] + s;
    forall i | 0 <= i < |r|
      ensures Holds(r[i], t[i]) && r[i].next == At(r, i + 1)
    {
      if i > 0 {
        assert r[i] == ms[i - 1] && Holds(ms[i - 1], s[i - 1]) && ms[i - 1].next == At(ms, i);
      }
    }
  }

  /** WriteRef() of a chain. */
  method Append(stream: BufferStream, parts: seq<Node>)
    requires stream.Valid() && forall i :: 0 <= i < |parts| ==> parts[i].bytes != []
    modifies stream, stream.nodes
    ensures stream.Valid() && stream.Content() == old(stream.Content()) + Bytes(parts)
    ensures forall i :: 0 <= i < |stream.nodes| ==> stream.nodes[i] in old(stream.nodes) || fresh(stream.nodes[i])
  {
    var chain, ms := BuildChain(parts);
    stream.WriteRef(chain, ms, parts);
  }

  /** The operations which take bytes or look at them. */
  method Take(stream: BufferStream, op: Op) returns (taken: seq<Byte>, seen: seq<Byte>)
    requires stream.Valid()
    modifies stream, stream.nodes
    ensures stream.Valid() && taken + stream.Content() == old(stream.Content())
    ensures seen <= old(stream.Content())
    ensures forall i :: 0 <= i < |stream.nodes| ==> stream.nodes[i] in old(stream.nodes)
  {
    taken, seen := [], [];
    match op
    case Read(size) =>
      if size <= stream.rsize {
        taken := stream.ReadData(size);
        seen := taken;
      }
    case Skip(size) =>
      if size <= stream.rsize {
        taken := Skipped(stream, size);
      }
    case Peek(size) =>
      if size <= stream.rsize {
        seen := stream.PeekData(size);
      }
    case Pop =>
      taken := Popped(stream);
    case _ =>
  }

  /** SkipData(), with the bytes it drops. */
  method Skipped(stream: BufferStream, size: nat) returns (taken: seq<Byte>)
    requires stream.Valid() && size <= stream.rsize
    modifies stream, stream.nodes
    ensures stream.Valid() && taken + stream.Content() == old(stream.Content())
    ensures forall i :: 0 <= i < |stream.nodes| ==> stream.nodes[i] in old(stream.nodes)
  {
    taken := stream.PeekData(size);
    stream.SkipData(size);
  }

  /** PopData(), with the bytes of the chain it returns. */
  method Popped(stream: BufferStream) returns (taken: seq<Byte>)
    requires stream.Valid()
    modifies stream, stream.nodes
    ensures stream.Valid() && taken + stream.Content() == old(stream.Content())
    ensures forall i :: 0 <= i < |stream.nodes| ==> stream.nodes[i] in old(stream.nodes)
  {
    taken := stream.PeekData(stream.rsize);
    var chain, ms, x := stream.PopData();
  }

  /** One operation and the check behind it. */
  method Play(stream: BufferStream, op: Op) returns (taken: seq<Byte>, ghost given: seq<Byte>, ok: bool)
    requires stream.Valid()
    modifies stream, stream.nodes
    ensures stream.Valid() && ok && taken + stream.Content() == old(stream.Content()) + given
    ensures forall i :: 0 <= i < |stream.nodes| ==> stream.nodes[i] in old(stream.nodes) || fresh(stream.nodes[i])
  {
    given := Give(stream, op);
    var seen;
    taken, seen := Take(stream, op);
    ok := stream.PrivCheck();
    stream.ValidChecked();
  }

  /**
   * Whatever the operations are, the stream passes its check after each of them, and the bytes which went
   * in come out in their order, each of them once.
   */
  method Replay(stream: BufferStream, ops: seq<Op>) returns (taken: seq<Byte>, ghost given: seq<Byte>, ok: bool)
    requires stream.Valid()
    modifies stream, stream.nodes
    ensures stream.Valid() && ok
    ensures taken + stream.Content() == old(stream.Content()) + given
  {
    taken, given, ok := [], [], true;
    for i := 0 to |ops|
      invariant stream.Valid() && ok
      invariant taken + stream.Content() == old(stream.Content()) + given
      invariant forall k :: 0 <= k < |stream.nodes| ==> stream.nodes[k] in old(stream.nodes) || fresh(stream.nodes[k])
    {
      ghost var was := stream.Content();
      var part, more, passed := Play(stream, ops[i]);
      Assoc(taken, was, more);
      Assoc(taken, part, stream.Content());
      Assoc(old(stream.Content()), given, more);
      taken, given, ok := taken + part, given + more, ok && passed;
    }
  }
}
