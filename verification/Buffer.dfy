/** The network buffers of src/mg/net/Buffer.h and what a chain of them means. */
module Buffers {
  type Byte = bv8

  /** The payload of a BufferCopy object of 1024 bytes with a header of 40 (64-bit layout). */
  const COPY_SIZE: nat := 1024 - 40

  /** `data` is the memory from the data pointer up to the capacity; the first `pos` bytes are set. */
  class Buffer {
    var pos: nat
    var data: seq<Byte>
    var next: Buffer?

    constructor (pos: nat, data: seq<Byte>)
      ensures this.pos == pos && this.data == data && this.next == null
    {
      this.pos := pos;
      this.data := data;
      this.next := null;
    }

    /** A new BufferCopy; its memory is arbitrary. */
    constructor NewCopy()
      ensures pos == 0 && |data| == COPY_SIZE && next == null
    {
      pos := 0;
      data := seq(COPY_SIZE, _ => 0);
      next := null;
    }

    /** Drop the first `size` bytes. */
    method Propagate(size: nat)
      requires size <= pos <= |data|
      modifies this
      ensures pos == old(pos) - size && data == old(data)[size..] && next == old(next)
    {
      pos := pos - size;
      data := data[size..];
    }

    /** Copies `chunk` after the data and counts it as data. */
    method Store(chunk: seq<Byte>)
      requires pos + |chunk| <= |data|
      modifies this
      ensures pos == old(pos) + |chunk| && |data| == old(|data|) && next == old(next)
      ensures data[..pos] == old(data[..pos]) + chunk
    {
      data := data[..pos] + chunk + data[pos + |chunk|..];
      pos := pos + |chunk|;
    }
  }

  /** The value of a buffer at one moment: its data and the memory after it. */
  datatype Node = Node(bytes: seq<Byte>, room: seq<Byte>)

  function Bytes(s: seq<Node>): seq<Byte> {
    if s == [] then [] else s[0].bytes + Bytes(s[1..])
  }

  function Room(s: seq<Node>): seq<Byte> {
    if s == [] then [] else s[0].room + Room(s[1..])
  }

  lemma Assoc<T>(a: seq<T>, b: seq<T>, c: seq<T>)
    ensures a + (b + c) == (a + b) + c
  {
  }

  lemma {:induction false} BytesConcat(a: seq<Node>, b: seq<Node>)
    ensures Bytes(a + b) == Bytes(a) + Bytes(b)
  {
    if a == [] {
      assert a + b == b;
      assert Bytes(a) + Bytes(b) == Bytes(b);
    } else {
      BytesConcat(a[1..], b);
      assert (a + b)[1..] == a[1..] + b;
      Assoc(a[0].bytes, Bytes(a[1..]), Bytes(b));
    }
  }

  lemma {:induction false} RoomConcat(a: seq<Node>, b: seq<Node>)
    ensures Room(a + b) == Room(a) + Room(b)
  {
    if a == [] {
      assert a + b == b;
      assert Room(a) + Room(b) == Room(b);
    } else {
      RoomConcat(a[1..], b);
      assert (a + b)[1..] == a[1..] + b;
      Assoc(a[0].room, Room(a[1..]), Room(b));
    }
  }

  lemma {:induction false} BytesOfEmpty(s: seq<Node>)
    requires forall i :: 0 <= i < |s| ==> s[i].bytes == []
    ensures Bytes(s) == []
  {
    if s != [] {
      BytesOfEmpty(s[1..]);
    }
  }

  lemma {:induction false} RoomOfFull(s: seq<Node>)
    requires forall i :: 0 <= i < |s| ==> s[i].room == []
    ensures Room(s) == []
  {
    if s != [] {
      RoomOfFull(s[1..]);
    }
  }

  lemma BytesSplit(s: seq<Node>, i: nat)
    requires i <= |s|
    ensures Bytes(s) == Bytes(s[..i]) + Bytes(s[i..])
    ensures Room(s) == Room(s[..i]) + Room(s[i..])
  {
    assert s == s[..i] + s[i..];
    BytesConcat(s[..i], s[i..]);
    RoomConcat(s[..i], s[i..]);
  }

  lemma BytesAt(s: seq<Node>, i: nat)
    requires i < |s|
    ensures Bytes(s[i..]) == s[i].bytes + Bytes(s[i + 1..])
    ensures Room(s[i..]) == s[i].room + Room(s[i + 1..])
  {
    assert s[i..][1..] == s[i + 1..];
  }

  lemma BytesUpTo(s: seq<Node>, i: nat)
    requires i < |s|
    ensures Bytes(s[..i + 1]) == Bytes(s[..i]) + s[i].bytes
    ensures Room(s[..i + 1]) == Room(s[..i]) + s[i].room
  {
    var one := [s[i]];
    assert s[..i + 1] == s[..i] + one;
    assert one[1..] == [];
    assert Bytes(one) == s[i].bytes && Room(one) == s[i].room;
    BytesConcat(s[..i], one);
    RoomConcat(s[..i], one);
  }

  ghost predicate Holds(b: Buffer, n: Node)
    reads b
  {
    b.pos == |n.bytes| && b.data == n.bytes + n.room
  }

  ghost function LastOf(ns: seq<Buffer>): Buffer? {
    if ns == [] then null else ns[|ns| - 1]
  }

  ghost function At(ns: seq<Buffer>, i: nat): Buffer? {
    if i < |ns| then ns[i] else null
  }

  ghost predicate Distinct(ns: seq<Buffer>) {
    forall i, j :: 0 <= i < j < |ns| ==> ns[i] != ns[j]
  }

  /** `ns` are the distinct buffers reached from `head` over the next pointers, and `s` their values. */
  ghost predicate IsChain(head: Buffer?, ns: seq<Buffer>, s: seq<Node>)
    reads ns
  {
    && |s| == |ns|
    && Distinct(ns)
    && head == At(ns, 0)
    && (forall i {:trigger ns[i].next} :: 0 <= i < |ns| ==> ns[i].next == At(ns, i + 1))
    && (forall i {:trigger Holds(ns[i], s[i])} :: 0 <= i < |ns| ==> Holds(ns[i], s[i]))
  }
}
