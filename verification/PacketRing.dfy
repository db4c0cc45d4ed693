/** The receive queue of a freestanding socket (libposix/net.c:27-31, 167-334): packets are
    stored byte by byte in a ring, and come out as a FIFO of packets. */
module PacketRing {
  import opened CTypes

  type byte = uint8

  const ETH_HEADER: nat := 14
  const SIZE_FIELD: nat := 2
  /** Bytes of the buffer that a payload may not use. */
  const RESERVED: nat := 32

  datatype Packet = Packet(header: seq<byte>, stamp: seq<byte>, payload: seq<byte>)

  /** The 16-bit size as it lies in memory. */
  function SizeBytes(n: uint16): (b: seq<byte>)
    ensures |b| == SIZE_FIELD && SizeOf(b) == n
  {
    [n % 256, n / 256]
  }

  function SizeOf(b: seq<byte>): uint16
    requires |b| == SIZE_FIELD
  {
    (b[0] as int) + 256 * (b[1] as int)
  }

  predicate PacketOk(p: Packet, stampSize: nat, size: nat) {
    |p.header| == ETH_HEADER && |p.stamp| == stampSize && |p.payload| + RESERVED <= size < 0x1_0000
  }

  function Encode(p: Packet): seq<byte> {
    SizeBytes(|p.payload| % 0x1_0000) + p.header + p.stamp + p.payload
  }

  ghost function Flatten(ps: seq<Packet>): seq<byte> {
    if ps == [] then [] else Encode(ps[0]) + Flatten(ps[1..])
  }

  lemma {:induction false} FlattenAppend(ps: seq<Packet>, p: Packet)
    ensures Flatten(ps + [p]) == Flatten(ps) + Encode(p)
  {
    if ps == [] {
      assert [p][1..] == [];
      assert Flatten([p]) == Encode(p) + Flatten([]);
    } else {
      assert (ps + [p])[1..] == ps[1..] + [p];
      FlattenAppend(ps[1..], p);
      assert Flatten(ps + [p]) == Encode(ps[0]) + (Flatten(ps[1..]) + Encode(p));
    }
  }

  /** Position `i` steps after `start` on a ring of `n` bytes. */
  function Pos(start: nat, i: nat, n: nat): nat
    requires start < n && i <= n
  {
    if start + i < n then start + i else start + i - n
  }

  class SockQueue {
    const buf: array<byte>
    /** Size of the hardware timestamp record. */
    const stampSize: nat
    var head: uint16
    var tail: uint16
    var avail: uint16
    var n: uint16
    ghost var packets: seq<Packet>

    /** The ring holds the bytes `s`, from `tail` on, and `head` is the next free position. */
    ghost predicate Holds(s: seq<byte>)
      reads this, buf
    {
      && 0 < buf.Length < 0x1_0000 && head < buf.Length && tail < buf.Length
      && |s| <= buf.Length && head == Pos(tail, |s|, buf.Length)
      && forall i :: 0 <= i < |s| ==> buf[Pos(tail, i, buf.Length)] == s[i]
    }

    ghost predicate PacketsOk()
      reads this
    {
      forall i :: 0 <= i < |packets| ==> PacketOk(packets[i], stampSize, buf.Length)
    }

    /** head, tail, avail and n all describe the same packets. */
    ghost predicate Valid()
      reads this, buf
    {
      && PacketsOk() && n == |packets|
      && Holds(Flatten(packets)) && avail == buf.Length - |Flatten(packets)|
    }

    constructor (size: nat, stampSize: nat)
      requires 0 < size < 0x1_0000
      ensures Valid() && packets == [] && buf.Length == size && this.stampSize == stampSize && fresh(buf)
    {
      buf := new byte[size](_ => 0);
      this.stampSize := stampSize;
      head, tail, avail, n := 0, 0, size, 0;
      packets := [];
    }

    /** One turn of the loop of `wrap_copy_out`. */
    method PutByte(b: byte, ghost s: seq<byte>)
      requires Holds(s) && |s| < buf.Length
      modifies this`head, buf
      ensures Holds(s + [b])
    {
      buf[head] := b;
      head := head + 1;
      if head == buf.Length {
        head := 0;
      }
    }

    /** One turn of the loop of `wrap_copy_in`. */
    method TakeByte(ghost s: seq<byte>) returns (b: byte)
      requires Holds(s) && s != []
      modifies this`tail
      ensures Holds(s[1..]) && b == s[0]
    {
      b := buf[tail];
      assert b == buf[Pos(tail, 0, buf.Length)];
      ghost var oldTail := tail;
      tail := tail + 1;
      if tail == buf.Length {
        tail := 0;
      }
      assert forall k :: 0 <= k < |s| - 1 ==> Pos(tail, k, buf.Length) == Pos(oldTail, k + 1, buf.Length);
    }

    /** `wrap_copy_out`: append bytes at `head`. */
    method WrapCopyOut(src: seq<byte>, ghost s: seq<byte>) returns (len: nat)
      requires Holds(s) && |s| + |src| <= buf.Length
      modifies this`head, buf
      ensures Holds(s + src) && len == |src|
    {
      len := |src|;
      var i := 0;
      assert s + src[..0] == s;
      while i < len
        invariant i <= len && Holds(s + src[..i])
      {
        PutByte(src[i], s + src[..i]);
        assert s + src[..i + 1] == s + src[..i] + [src[i]];
        i := i + 1;
      }
      assert src[..len] == src;
    }

    /** `wrap_copy_in`: take bytes at `tail`. */
    method WrapCopyIn(len: nat, ghost s: seq<byte>) returns (dst: seq<byte>)
      requires Holds(s) && len <= |s|
      modifies this`tail
      ensures Holds(s[len..]) && dst == s[..len]
    {
      dst := [];
      var i := 0;
      assert s[0..] == s;
      while i < len
        invariant i <= len && Holds(s[i..]) && dst == s[..i]
      {
        var b := TakeByte(s[i..]);
        dst := dst + [b];
        assert s[i..][1..] == s[i + 1..];
        i := i + 1;
      }
    }

    /** The four copies that store a packet, with the bookkeeping of `avail`. */
    method PutPacket(p: Packet, ghost s: seq<byte>)
      requires Holds(s) && PacketOk(p, stampSize, buf.Length) && |s| + |Encode(p)| <= buf.Length
      requires |Encode(p)| <= avail
      modifies this`head, this`avail, buf
      ensures Holds(s + Encode(p)) && avail == old(avail) - |Encode(p)|
    {
      ghost var s1 := s + SizeBytes(|p.payload|);
      ghost var s2 := s1 + p.header;
      ghost var s3 := s2 + p.stamp;
      EncodeAppends(p, s);
      var len := WrapCopyOut(SizeBytes(|p.payload|), s);
      avail := avail - len;
      len := WrapCopyOut(p.header, s1);
      avail := avail - len;
      len := WrapCopyOut(p.stamp, s2);
      avail := avail - len;
      len := WrapCopyOut(p.payload, s3);
      avail := avail - len;
    }

    /** The queueing part of `update_rx_queues`: a packet that does not fit is dropped whole. */
    method Enqueue(p: Packet) returns (accepted: bool)
      requires Valid() && PacketOk(p, stampSize, buf.Length)
      modifies this, buf
      ensures Valid()
      ensures accepted <==> |Encode(p)| <= old(avail)
      ensures packets == if accepted then old(packets) + [p] else old(packets)
      ensures !accepted ==> head == old(head) && tail == old(tail) && avail == old(avail) && buf[..] == old(buf[..])
    {
      var required := ETH_HEADER + |p.payload| + stampSize + SIZE_FIELD;
      assert |Encode(p)| == required;
      if avail < required {
        return false;
      }
      CountBound(packets, stampSize, buf.Length);
      FlattenAppend(packets, p);
      PutPacket(p, Flatten(packets));
      n := n + 1;
      packets := packets + [p];
      return true;
    }

    /** The copies that read a packet back, the last one cut to the size of the reader's buffer. */
    method TakePacket(dataLength: nat, ghost p: Packet, ghost rest: seq<byte>)
      returns (header: seq<byte>, stamp: seq<byte>, data: seq<byte>, ghost left: nat)
      requires PacketOk(p, stampSize, buf.Length) && Holds(Encode(p) + rest)
      requires avail == buf.Length - |Encode(p) + rest|
      modifies this`tail, this`avail
      ensures header == p.header && stamp == p.stamp
      ensures left == (if |p.payload| < dataLength then 0 else |p.payload| - dataLength)
      ensures data == p.payload[..|p.payload| - left]
      ensures Holds(p.payload[|p.payload| - left..] + rest) && avail == buf.Length - |rest| - left
    {
      hide Holds, Encode, SizeBytes, SizeOf;
      ghost var afterStamp := p.payload + rest;
      ghost var afterHeader := p.stamp + afterStamp;
      ghost var afterSize := p.header + afterHeader;
      EncodeParts(p, rest);
      var sizeBytes := TakePart(SIZE_FIELD, SizeBytes(|p.payload|), afterSize, SizeBytes(|p.payload|) + afterSize);
      var size := SizeOf(sizeBytes);
      header := TakePart(ETH_HEADER, p.header, afterHeader, afterSize);
      stamp := TakePart(stampSize, p.stamp, afterStamp, afterHeader);
      var take := if size < dataLength then size else dataLength;
      assert afterStamp == p.payload[..take] + (p.payload[take..] + rest);
      data := TakePart(take, p.payload[..take], p.payload[take..] + rest, afterStamp);
      left := size - take;
    }

    /** One `avail += wrap_copy_in(...)`. */
    method TakePart(len: nat, ghost part: seq<byte>, ghost rest: seq<byte>, ghost whole: seq<byte>)
      returns (dst: seq<byte>)
      requires Holds(whole) && whole == part + rest && |part| == len && avail + len < 0x1_0000
      modifies this`tail, this`avail
      ensures dst == part && Holds(rest) && avail == old(avail) + len
    {
      dst := WrapCopyIn(len, whole);
      avail := avail + len;
      assert whole[len..] == rest && whole[..len] == part;
    }

    /** `ptpd_netif_recvfrom` up to the copied data; `dataLength` is the size of the reader's buffer.
        The oldest packet is delivered; the queue stays a queue of packets exactly when the buffer
        was large enough. */
    method Receive(dataLength: nat) returns (header: seq<byte>, stamp: seq<byte>, data: seq<byte>, got: bool)
      requires Valid()
      modifies this
      ensures got <==> old(packets) != []
      ensures !got ==> Valid() && packets == old(packets) && data == []
      ensures got ==>
                var p := old(packets)[0];
                && packets == old(packets)[1..]
                && header == p.header && stamp == p.stamp
                && data == p.payload[..if |p.payload| < dataLength then |p.payload| else dataLength]
                && (Valid() <==> |p.payload| <= dataLength)
    {
      header, stamp, data := [], [], [];
      if n == 0 {
        return header, stamp, data, false;
      }
      ghost var p := packets[0];
      ghost var rest := Flatten(packets[1..]);
      n := n - 1;
      ghost var left: nat;
      header, stamp, data, left := TakePacket(dataLength, p, rest);
      packets := packets[1..];
      if left == 0 {
        assert p.payload[|p.payload| - left..] + rest == rest;
      }
      return header, stamp, data, true;
    }

    /** The room a packet takes and the room that is left, in the terms of the histories below. */
    lemma Room(p: Packet)
      requires Valid() && PacketOk(p, stampSize, buf.Length)
      ensures |Encode(p)| <= avail <==> Used([p]) + Used(packets) <= buf.Length
    {
      UsedIsLength(packets);
      assert Used([p]) == |Encode(p)|;
    }

    /** Any history of arrivals and reads, with a reader whose buffer takes every payload. */
    method Serve(ops: seq<Op>, dataLength: nat) returns (delivered: seq<Packet>)
      requires Valid() && packets == []
      requires forall i :: 0 <= i < |ops| && ops[i].Arrive? ==>
                 PacketOk(ops[i].p, stampSize, buf.Length) && |ops[i].p.payload| <= dataLength
      modifies this, buf
      ensures Valid()
      ensures packets == Run(ops, buf.Length).queue && delivered == Run(ops, buf.Length).delivered
    {
      hide Holds, Encode, Used;
      delivered := [];
      for i := 0 to |ops|
        invariant Valid() && forall k :: 0 <= k < |packets| ==> |packets[k].payload| <= dataLength
        invariant packets == Run(ops[..i], buf.Length).queue && delivered == Run(ops[..i], buf.Length).delivered
      {
        assert ops[..i + 1][..i] == ops[..i];
        match ops[i] {
          case Arrive(p) =>
            Room(p);
            var accepted := Enqueue(p);
          case Read =>
            ghost var before := packets;
            var header, stamp, data, got := Receive(dataLength);
            if got {
              delivered := delivered + [Packet(header, stamp, data)];
              assert data == before[0].payload;
            }
        }
      }
      assert ops[..|ops|] == ops;
    }
  }

  /** A packet takes at least one byte, so the packet counter cannot overflow. */
  lemma {:induction false} CountBound(ps: seq<Packet>, stampSize: nat, size: nat)
    requires forall i :: 0 <= i < |ps| ==> PacketOk(ps[i], stampSize, size)
    ensures |ps| * (ETH_HEADER + SIZE_FIELD) <= |Flatten(ps)|
  {
    if ps != [] {
      CountBound(ps[1..], stampSize, size);
    }
  }

  lemma EncodeAppends(p: Packet, s: seq<byte>)
    requires |p.payload| < 0x1_0000
    ensures s + SizeBytes(|p.payload|) + p.header + p.stamp + p.payload == s + Encode(p)
  {
  }

  lemma EncodeParts(p: Packet, rest: seq<byte>)
    requires |p.payload| < 0x1_0000
    ensures Encode(p) + rest == SizeBytes(|p.payload|) + (p.header + (p.stamp + (p.payload + rest)))
    ensures |Encode(p)| == SIZE_FIELD + |p.header| + |p.stamp| + |p.payload|
  {
    hide SizeBytes, SizeOf;
  }

  // ----- whole histories -----

  datatype Op = Arrive(p: Packet) | Read

  /** Packets queued, delivered and accepted so far. */
  datatype Trace = Trace(queue: seq<Packet>, delivered: seq<Packet>, accepted: seq<Packet>)

  function Used(ps: seq<Packet>): nat
  {
    if ps == [] then 0 else SIZE_FIELD + |ps[0].header| + |ps[0].stamp| + |ps[0].payload| + Used(ps[1..])
  }

  /** What `Enqueue` and `Receive` do to the packets, by their contracts. */
  function Step(t: Trace, op: Op, size: nat): Trace {
    match op
    case Arrive(p) =>
      if Used([p]) + Used(t.queue) <= size then Trace(t.queue + [p], t.delivered, t.accepted + [p]) else t
    case Read =>
      if t.queue == [] then t else Trace(t.queue[1..], t.delivered + [t.queue[0]], t.accepted)
  }

  function Run(ops: seq<Op>, size: nat): Trace
    decreases |ops|
  {
    if ops == [] then Trace([], [], []) else Step(Run(ops[..|ops| - 1], size), ops[|ops| - 1], size)
  }

  lemma {:induction false} UsedIsLength(ps: seq<Packet>)
    ensures Used(ps) == |Flatten(ps)|
  {
    if ps != [] {
      UsedIsLength(ps[1..]);
    }
  }

  lemma {:induction false} UsedAppend(ps: seq<Packet>, p: Packet)
    ensures Used(ps + [p]) == Used(ps) + Used([p])
  {
    if ps == [] {
      assert ps + [p] == [p];
    } else {
      assert (ps + [p])[1..] == ps[1..] + [p];
      UsedAppend(ps[1..], p);
    }
  }

  /** Main result: for any interleaving of arrivals and reads, what was delivered followed by what
      is queued is what was accepted, in order; and the queue never exceeds the buffer. */
  lemma {:induction false} FifoConservation(ops: seq<Op>, size: nat)
    ensures var t := Run(ops, size); t.delivered + t.queue == t.accepted && Used(t.queue) <= size
    decreases |ops|
  {
    if ops != [] {
      var before := Run(ops[..|ops| - 1], size);
      FifoConservation(ops[..|ops| - 1], size);
      match ops[|ops| - 1] {
        case Arrive(p) => UsedAppend(before.queue, p);
        case Read =>
          if before.queue != [] {
            assert before.queue == [before.queue[0]] + before.queue[1..];
          }
      }
    }
  }
}
