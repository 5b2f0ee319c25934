/**
 Framing of the DPS-150 serial protocol: `F0 command type length payload checksum`.

 `FrameBuffer.ExtractPackets` is the receive loop. `Extract` is what one call of it
 computes. `Scan` is the reference parser, which looks at one byte at a time and never
 discards anything it has not read; the loop is proved to agree with it, and what holds
 for every way of cutting the stream into chunks follows from `Scan`.
 */
module Dps150Framing {
  import opened Common

  const HEADER_INPUT: byte := 0xF0
  const HEADER_OUTPUT: byte := 0xF1

  datatype Packet = Packet(command: byte, dataType: byte, payload: seq<byte>)

  datatype Extraction = Extraction(packets: seq<Packet>, rest: seq<byte>)

  datatype PacketError = CommandOutOfRange | DataTypeOutOfRange | PayloadTooLong

  function Sum(bytes: seq<byte>): nat {
    if bytes == [] then 0 else bytes[0] + Sum(bytes[1..])
  }

  function Checksum(dataType: byte, payload: seq<byte>): byte {
    (dataType + |payload| + Sum(payload)) % 256
  }

  predicate Sendable(packet: Packet) {
    |packet.payload| < 256
  }

  /** The bytes of one frame; the payload length must fit in its byte. */
  function Frame(header: byte, packet: Packet): seq<byte>
    requires Sendable(packet)
  {
    [header, packet.command, packet.dataType, |packet.payload|] + packet.payload
    + [Checksum(packet.dataType, packet.payload)]
  }

  function BuildPacket(command: int, dataType: int, payload: seq<byte>, header: byte := HEADER_OUTPUT)
    : (r: Result<seq<byte>, PacketError>)
    ensures r.Ok? <==> 0 <= command <= 255 && 0 <= dataType <= 255 && |payload| <= 255
    ensures r.Ok? ==> r.value == Frame(header, Packet(command, dataType, payload))
  {
    if !(0 <= command <= 0xFF) then Err(CommandOutOfRange)
    else if !(0 <= dataType <= 0xFF) then Err(DataTypeOutOfRange)
    else if |payload| > 0xFF then Err(PayloadTooLong)
    else Ok([header, command, dataType, |payload|] + payload + [Checksum(dataType, payload)])
  }

  /** Bytes from the first input header on; nothing when there is no header. */
  function Strip(bytes: seq<byte>): (r: seq<byte>)
    ensures |r| <= |bytes|
    ensures r != [] ==> r[0] == HEADER_INPUT
  {
    if bytes == [] || bytes[0] == HEADER_INPUT then bytes else Strip(bytes[1..])
  }

  /** Bytes the frame at the front takes, from its length byte. */
  function FrameLength(bytes: seq<byte>): (n: nat)
    requires |bytes| >= 5
  {
    bytes[3] as nat + 5
  }

  /** The buffer starts with a header and holds as many bytes as its length byte asks for. */
  predicate Complete(bytes: seq<byte>) {
    |bytes| >= 5 && |bytes| >= FrameLength(bytes)
  }

  function Candidate(bytes: seq<byte>): Packet
    requires Complete(bytes)
  {
    Packet(bytes[1], bytes[2], bytes[4..4 + bytes[3]])
  }

  predicate ChecksumMatches(bytes: seq<byte>)
    requires Complete(bytes)
  {
    bytes[4 + bytes[3]] == Checksum(bytes[2], Candidate(bytes).payload)
  }

  /** What one call of the receive loop returns and leaves in the buffer. */
  function Extract(buffer: seq<byte>): Extraction
    decreases |buffer|
  {
    if |buffer| < 5 then Extraction([], buffer)
    else
      var tail := Strip(buffer);
      if !Complete(tail) then Extraction([], tail)
      else if ChecksumMatches(tail) then
        Prepend([Candidate(tail)], Extract(tail[FrameLength(tail)..]))
      else Extract(tail[1..])
  }

  class FrameBuffer {
    var data: seq<byte>

    constructor ()
      ensures data == []
    {
      data := [];
    }

    method Extend(chunk: seq<byte>)
      modifies this
      ensures data == old(data) + chunk
    {
      data := data + chunk;
    }

    method Index(value: byte) returns (found: Option<nat>)
      ensures found.None? ==> value !in data
      ensures found.Some? ==> found.value < |data| && data[found.value] == value
      ensures found.Some? ==> value !in data[..found.value]
    {
      var i := 0;
      while i < |data|
        invariant 0 <= i <= |data|
        invariant value !in data[..i]
      {
        if data[i] == value {
          return Some(i);
        }
        i := i + 1;
      }
      return None;
    }

    method ExtractPackets() returns (packets: seq<Packet>)
      modifies this
      ensures Extraction(packets, data) == Extract(old(data))
    {
      hide Checksum, Candidate, ChecksumMatches, Strip, Extract;
      packets := [];
      ghost var whole := Extract(data);
      while |data| >= 5
        invariant whole == Prepend(packets, Extract(data))
        decreases |data|
      {
        ghost var before := data;
        ExtractStep(before);
        var start := Index(HEADER_INPUT);
        if start.None? {
          StripIs(before, |before|);
          data := [];
          break;
        }
        StripIs(before, start.value);
        if start.value > 0 {
          data := data[start.value..];
        }
        ghost var tail := data;
        assert tail == Strip(before);
        if |data| < 5 {
          break;
        }
        var packetLength := FrameLength(data);
        if |data| < packetLength {
          break;
        }
        var raw := data[..packetLength];
        data := data[packetLength..];
        var payload := raw[4..|raw| - 1];
        CandidateOfRaw(tail, raw, payload);
        if raw[|raw| - 1] != Checksum(raw[2], payload) {
          data := raw[1..] + data;
          assert data == tail[1..];
          continue;
        }
        PrependOne(packets, Packet(raw[1], raw[2], payload), Extract(data));
        packets := packets + [Packet(raw[1], raw[2], payload)];
      }
      ExtractShort(data);
    }

    /** The receiver: extend the buffer by each chunk as it comes and take the packets out. */
    method Receive(chunks: seq<seq<byte>>) returns (packets: seq<Packet>)
      modifies this
      ensures Extraction(packets, data) == Feed(old(data), chunks)
      ensures old(data) == [] ==>
        && packets == Extract(Concat(chunks)).packets
        && Strip(data) == Strip(Extract(Concat(chunks)).rest)
    {
      hide Extract, Strip, Concat;
      FeedFromEmpty(chunks);
      ghost var goal := Feed(data, chunks);
      packets := [];
      assert chunks[0..] == chunks && Prepend([], goal) == goal;
      for i := 0 to |chunks|
        invariant goal == Prepend(packets, Feed(data, chunks[i..]))
      {
        assert chunks[i..][0] == chunks[i] && chunks[i..][1..] == chunks[i + 1..];
        ghost var buffer := data + chunks[i];
        Extend(chunks[i]);
        var more := ExtractPackets();
        PrependAll(packets, more, Feed(data, chunks[i + 1..]));
        packets := packets + more;
      }
    }
  }

  function Prepend(packets: seq<Packet>, later: Extraction): Extraction {
    Extraction(packets + later.packets, later.rest)
  }

  lemma PrependOne(packets: seq<Packet>, next: Packet, later: Extraction)
    ensures Prepend(packets, Prepend([next], later)) == Prepend(packets + [next], later)
  {
  }

  lemma PrependAll(a: seq<Packet>, b: seq<Packet>, later: Extraction)
    ensures Prepend(a, Prepend(b, later)) == Prepend(a + b, later)
  {
  }

  lemma ExtractShort(buffer: seq<byte>)
    ensures |buffer| < 5 ==> Extract(buffer) == Extraction([], buffer)
  {
  }

  lemma ExtractStep(buffer: seq<byte>)
    requires |buffer| >= 5
    ensures var tail := Strip(buffer);
      Extract(buffer)
        == if !Complete(tail) then Extraction([], tail)
           else if ChecksumMatches(tail) then Prepend([Candidate(tail)], Extract(tail[FrameLength(tail)..]))
           else Extract(tail[1..])
  {
  }

  lemma CandidateOfRaw(tail: seq<byte>, raw: seq<byte>, payload: seq<byte>)
    requires Complete(tail)
    requires raw == tail[..FrameLength(tail)]
    requires payload == raw[4..|raw| - 1]
    ensures Candidate(tail) == Packet(raw[1], raw[2], payload)
    ensures ChecksumMatches(tail) <==> raw[|raw| - 1] == Checksum(raw[2], payload)
  {
  }

  lemma {:induction false} StripIs(bytes: seq<byte>, at: nat)
    requires at <= |bytes|
    requires HEADER_INPUT !in bytes[..at]
    requires at < |bytes| ==> bytes[at] == HEADER_INPUT
    ensures Strip(bytes) == bytes[at..]
  {
    if at > 0 {
      assert bytes[0] in bytes[..at];
      assert forall b :: b in bytes[1..][..at - 1] ==> b in bytes[..at];
      StripIs(bytes[1..], at - 1);
    }
  }

  // ---------------------------------------------------------------- reference parser

  /** One byte at a time: a byte that starts no valid frame is skipped, an unfinished frame waits. */
  function Scan(stream: seq<byte>): (r: Extraction)
    ensures |r.rest| <= |stream|
    decreases |stream|
  {
    if stream == [] then Extraction([], [])
    else if stream[0] != HEADER_INPUT then Scan(stream[1..])
    else if !Complete(stream) then Extraction([], stream)
    else if ChecksumMatches(stream) then
      Prepend([Candidate(stream)], Scan(stream[FrameLength(stream)..]))
    else Scan(stream[1..])
  }

  lemma {:induction false} ScanStripped(stream: seq<byte>)
    ensures Scan(stream) == Scan(Strip(stream))
  {
    if stream != [] && stream[0] != HEADER_INPUT {
      ScanStripped(stream[1..]);
    }
  }

  /** The receive loop agrees with the reference parser, up to bytes before the first header. */
  lemma {:induction false} ExtractAgreesWithScan(buffer: seq<byte>)
    ensures Extract(buffer).packets == Scan(buffer).packets
    ensures Strip(Extract(buffer).rest) == Scan(buffer).rest
    decreases |buffer|
  {
    var tail := Strip(buffer);
    ScanStripped(buffer);
    if |buffer| < 5 {
      assert !Complete(tail);
    } else if Complete(tail) {
      if ChecksumMatches(tail) {
        ExtractAgreesWithScan(tail[FrameLength(tail)..]);
      } else {
        ExtractAgreesWithScan(tail[1..]);
      }
    }
  }

  lemma CompletePrefix(a: seq<byte>, b: seq<byte>)
    requires Complete(a)
    ensures Complete(a + b) && FrameLength(a + b) == FrameLength(a)
    ensures Candidate(a + b) == Candidate(a)
    ensures ChecksumMatches(a + b) == ChecksumMatches(a)
    ensures (a + b)[FrameLength(a)..] == a[FrameLength(a)..] + b
    ensures (a + b)[1..] == a[1..] + b
  {
  }

  /** Parsing a prefix first and then the rest gives exactly what parsing everything gives. */
  lemma {:induction false} ScanInTwo(a: seq<byte>, b: seq<byte>)
    ensures Scan(a + b) == Prepend(Scan(a).packets, Scan(Scan(a).rest + b))
    decreases |a|
  {
    if a == [] {
      assert a + b == b;
    } else if a[0] != HEADER_INPUT {
      assert (a + b)[1..] == a[1..] + b;
      ScanInTwo(a[1..], b);
    } else if Complete(a) {
      CompletePrefix(a, b);
      if ChecksumMatches(a) {
        var after := a[FrameLength(a)..];
        ScanInTwo(after, b);
        PrependAll([Candidate(a)], Scan(after).packets, Scan(Scan(after).rest + b));
      } else {
        ScanInTwo(a[1..], b);
      }
    } else {
      assert Prepend([], Scan(a + b)) == Scan(a + b);
    }
  }

  lemma {:induction false} ScanFromLeftover(a: seq<byte>, b: seq<byte>)
    ensures Scan(a + b) == Scan(Strip(a) + b)
  {
    if a != [] && a[0] != HEADER_INPUT {
      assert (a + b)[1..] == a[1..] + b;
      ScanFromLeftover(a[1..], b);
    }
  }

  // ---------------------------------------------------------------- chunking

  function Concat(chunks: seq<seq<byte>>): seq<byte> {
    if chunks == [] then [] else chunks[0] + Concat(chunks[1..])
  }

  /** Extend the buffer by each chunk in turn and run the receive loop after each. */
  function Feed(buffer: seq<byte>, chunks: seq<seq<byte>>): Extraction
    decreases |chunks|
  {
    if chunks == [] then Extraction([], buffer)
    else
      var first := Extract(buffer + chunks[0]);
      Prepend(first.packets, Feed(first.rest, chunks[1..]))
  }

  ghost predicate Agree(a: Extraction, b: Extraction) {
    a.packets == b.packets && Strip(a.rest) == b.rest
  }

  lemma OneCallThenMore(head: seq<byte>, more: seq<byte>)
    ensures Scan(head + more) == Prepend(Extract(head).packets, Scan(Extract(head).rest + more))
  {
    ExtractAgreesWithScan(head);
    ScanInTwo(head, more);
    ScanFromLeftover(Extract(head).rest, more);
  }

  lemma {:induction false} FeedIsScan(buffer: seq<byte>, chunks: seq<seq<byte>>)
    requires Scan(buffer) == Extraction([], Strip(buffer))
    ensures Agree(Feed(buffer, chunks), Scan(buffer + Concat(chunks)))
    decreases |chunks|
  {
    if chunks == [] {
      assert buffer + Concat(chunks) == buffer;
    } else {
      var head := buffer + chunks[0];
      var first := Extract(head);
      assert buffer + Concat(chunks) == head + Concat(chunks[1..]);
      OneCallThenMore(head, Concat(chunks[1..]));
      ExtractRestIsQuiet(head);
      FeedIsScan(first.rest, chunks[1..]);
    }
  }

  lemma ExtractRestIsQuiet(buffer: seq<byte>)
    ensures Scan(Extract(buffer).rest) == Extraction([], Strip(Extract(buffer).rest))
  {
    ExtractAgreesWithScan(buffer);
    ScanStripped(Extract(buffer).rest);
    ScanRestIsQuiet(buffer);
  }

  lemma {:induction false} ScanRestIsQuiet(stream: seq<byte>)
    ensures Scan(Scan(stream).rest) == Extraction([], Scan(stream).rest)
    decreases |stream|
  {
    if stream != [] {
      if stream[0] != HEADER_INPUT {
        ScanRestIsQuiet(stream[1..]);
      } else if Complete(stream) {
        if ChecksumMatches(stream) {
          ScanRestIsQuiet(stream[FrameLength(stream)..]);
        } else {
          ScanRestIsQuiet(stream[1..]);
        }
      }
    }
  }

  /**
   Chunking independence: two ways of cutting the same stream give the same packets, and
   leftovers that agree once the bytes before the first header are stripped.
   */
  lemma ChunkingDoesNotMatter(some: seq<seq<byte>>, other: seq<seq<byte>>)
    requires Concat(some) == Concat(other)
    ensures Feed([], some).packets == Feed([], other).packets
    ensures Strip(Feed([], some).rest) == Strip(Feed([], other).rest)
  {
    FeedFromEmpty(some);
    FeedFromEmpty(other);
  }

  lemma FeedFromEmpty(chunks: seq<seq<byte>>)
    ensures Feed([], chunks).packets == Extract(Concat(chunks)).packets
    ensures Strip(Feed([], chunks).rest) == Strip(Extract(Concat(chunks)).rest)
  {
    ExtractAgreesWithScan(Concat(chunks));
    FeedIsScan([], chunks);
    assert [] + Concat(chunks) == Concat(chunks);
  }

  // ---------------------------------------------------------------- round trip

  function Frames(packets: seq<Packet>): seq<byte>
    requires forall p :: p in packets ==> Sendable(p)
  {
    if packets == [] then []
    else
      assert packets[0] in packets;
      Frame(HEADER_INPUT, packets[0]) + Frames(packets[1..])
  }

  lemma FrameParses(packet: Packet, end: seq<byte>)
    requires Sendable(packet)
    ensures var stream := Frame(HEADER_INPUT, packet) + end;
      && Complete(stream) && ChecksumMatches(stream) && Candidate(stream) == packet
      && stream[FrameLength(stream)..] == end
  {
    var stream := Frame(HEADER_INPUT, packet) + end;
    assert stream[4..4 + stream[3]] == packet.payload;
  }

  lemma {:induction false} ExtractFrames(packets: seq<Packet>)
    requires forall p :: p in packets ==> Sendable(p)
    ensures Extract(Frames(packets)) == Extraction(packets, [])
    decreases |packets|
  {
    if packets != [] {
      assert packets[0] in packets;
      FrameParses(packets[0], Frames(packets[1..]));
      assert Frames(packets) == Frame(HEADER_INPUT, packets[0]) + Frames(packets[1..]);
      ExtractFrames(packets[1..]);
      assert packets == [packets[0]] + packets[1..];
    }
  }

  /** Round trip: junk without a header, then whole frames, gives those packets and an empty buffer. */
  lemma RoundTrip(junk: seq<byte>, packets: seq<Packet>)
    requires HEADER_INPUT !in junk
    requires forall p :: p in packets ==> Sendable(p)
    requires packets != []
    ensures Extract(junk + Frames(packets)) == Extraction(packets, [])
  {
    var stream := junk + Frames(packets);
    assert packets[0] in packets;
    assert stream[..|junk|] == junk;
    assert stream[|junk|..] == Frames(packets);
    StripIs(stream, |junk|);
    StripIs(Frames(packets), 0);
    ExtractFrames(packets);
    assert Extract(stream) == Extract(Frames(packets));
  }

  // ---------------------------------------------------------------- the bytes themselves

  lemma {:induction false} SumAppend(payload: seq<byte>, b: byte)
    ensures Sum(payload + [b]) == Sum(payload) + b
  {
    if payload == [] {
      assert payload + [b] == [b] && [b][1..] == [];
    } else {
      assert (payload + [b])[1..] == payload[1..] + [b];
      SumAppend(payload[1..], b);
    }
  }

  /** A packet without payload: its last byte is its type. */
  lemma EmptyPacket(command: byte, dataType: byte, header: byte)
    ensures BuildPacket(command, dataType, [], header) == Ok([header, command, dataType, 0, dataType])
  {
    var head: seq<byte> := [header, command, dataType, 0];
    assert Checksum(dataType, []) == dataType;
    assert head + [] + [dataType] == [header, command, dataType, 0, dataType];
  }

  /** One more payload byte `b` raises the length by one and the last byte by `b + 1`, modulo 256. */
  lemma LongerPacket(command: byte, dataType: byte, payload: seq<byte>, b: byte, header: byte)
    requires |payload| < 255
    ensures var shorter := BuildPacket(command, dataType, payload, header);
      var longer := BuildPacket(command, dataType, payload + [b], header);
      && shorter.Ok? && |shorter.value| == |payload| + 5
      && longer == Ok([header, command, dataType, |payload| + 1] + payload
                      + [b, (shorter.value[|payload| + 4] + b + 1) % 256])
  {
    SumAppend(payload, b);
    var head: seq<byte> := [header, command, dataType, |payload|];
    var longerHead: seq<byte> := [header, command, dataType, |payload| + 1];
    var first, last := Checksum(dataType, payload), Checksum(dataType, payload + [b]);
    assert (head + payload + [first])[|payload| + 4] == first;
    Increment(dataType + |payload| + Sum(payload), b + 1);
    assert last == (first + b + 1) % 256;
    assert BuildPacket(command, dataType, payload, header) == Ok(head + payload + [first]);
    assert BuildPacket(command, dataType, payload + [b], header) == Ok(longerHead + (payload + [b]) + [last]);
    assert longerHead + (payload + [b]) + [last] == longerHead + payload + [b, last];
  }

  lemma Increment(n: nat, more: nat)
    ensures (n % 256 + more) % 256 == (n + more) % 256
  {
  }

  /**
   What has the shape of one frame is taken as a packet exactly when it is the packet that would be
   built from its fields. Anything else is left but for its first byte.
   */
  lemma TakenIffBuilt(frame: seq<byte>)
    requires |frame| >= 5 && frame[0] == 0xF0 && |frame| == frame[3] as nat + 5
    ensures var payload := frame[4..|frame| - 1];
      Extract(frame)
        == if BuildPacket(frame[1], frame[2], payload, 0xF0) == Ok(frame)
           then Extraction([Packet(frame[1], frame[2], payload)], [])
           else Extract(frame[1..])
  {
    var n, payload := |frame| - 5, frame[4..|frame| - 1];
    assert Strip(frame) == frame && Candidate(frame) == Packet(frame[1], frame[2], payload);
    assert frame == [0xF0, frame[1], frame[2], n] + payload + [frame[n + 4]];
    assert frame[FrameLength(frame)..] == [];
    assert ([0xF0, frame[1], frame[2], n] + payload + [Checksum(frame[2], payload)])[n + 4]
        == Checksum(frame[2], payload);
  }

  /** The write of a 5 V setpoint, and the reply that reports one. */
  lemma FiveVolts()
    ensures BuildPacket(0xB1, 0xC1, [0, 0, 160, 64]) == Ok([0xF1, 0xB1, 0xC1, 4, 0, 0, 160, 64, 0xA5])
    ensures Extract([0xF0, 0xA1, 0xC1, 4, 0, 0, 160, 64, 0xA5])
         == Extraction([Packet(0xA1, 0xC1, [0, 0, 160, 64])], [])
  {
    var payload: seq<byte> := [0, 0, 160, 64];
    assert payload[1..] == [0, 160, 64] && payload[1..][1..] == [160, 64] && payload[1..][1..][1..] == [64];
    assert Sum(payload[1..][1..]) == 160 + Sum([64]) && Sum([64]) == 64;
    assert Sum(payload) == 224 && Checksum(0xC1, payload) == 0xA5;
    var reply: seq<byte> := [0xF0, 0xA1, 0xC1, 4, 0, 0, 160, 64, 0xA5];
    assert reply[4..|reply| - 1] == payload;
    assert [0xF0, 0xA1, 0xC1, 4] + payload + [0xA5] == reply;
    assert [0xF1, 0xB1, 0xC1, 4] + payload + [0xA5] == [0xF1, 0xB1, 0xC1, 4, 0, 0, 160, 64, 0xA5];
    TakenIffBuilt(reply);
  }

  // ---------------------------------------------------------------- soundness

  /** The packets are whole valid frames of the stream, in order and not overlapping; `rest` is a later suffix. */
  ghost predicate Located(stream: seq<byte>, packets: seq<Packet>, rest: seq<byte>)
    decreases |packets|
  {
    if packets == [] then |rest| <= |stream| && rest == stream[|stream| - |rest|..]
    else
      && Sendable(packets[0])
      && exists at: nat ::
           && OccursAt(stream, Frame(HEADER_INPUT, packets[0]), at)
           && Located(stream[at + |packets[0].payload| + 5..], packets[1..], rest)
  }

  lemma LocatedNothing(stream: seq<byte>)
    ensures Located(stream, [], stream)
  {
  }

  lemma LocatedLater(stream: seq<byte>, skip: nat, packets: seq<Packet>, rest: seq<byte>)
    requires skip <= |stream|
    requires Located(stream[skip..], packets, rest)
    ensures Located(stream, packets, rest)
  {
    if packets != [] {
      var frame := Frame(HEADER_INPUT, packets[0]);
      var at: nat :| OccursAt(stream[skip..], frame, at)
                  && Located(stream[skip..][at + |packets[0].payload| + 5..], packets[1..], rest);
      assert stream[skip..][at..at + |frame|] == stream[skip + at..skip + at + |frame|];
      assert OccursAt(stream, frame, skip + at);
      assert stream[skip..][at + |packets[0].payload| + 5..]
          == stream[skip + at + |packets[0].payload| + 5..];
    }
  }

  lemma LocatedFirst(tail: seq<byte>, packets: seq<Packet>, rest: seq<byte>)
    requires Complete(tail) && tail[0] == HEADER_INPUT && ChecksumMatches(tail)
    requires Located(tail[FrameLength(tail)..], packets, rest)
    ensures Located(tail, [Candidate(tail)] + packets, rest)
  {
    var all := [Candidate(tail)] + packets;
    assert all[1..] == packets;
    assert tail[0..FrameLength(tail)] == Frame(HEADER_INPUT, Candidate(tail));
    assert OccursAt(tail, Frame(HEADER_INPUT, all[0]), 0);
    assert tail[0 + |all[0].payload| + 5..] == tail[FrameLength(tail)..];
  }

  lemma {:induction false} StripIsSuffix(bytes: seq<byte>)
    ensures Strip(bytes) == bytes[|bytes| - |Strip(bytes)|..]
  {
    if bytes != [] && bytes[0] != HEADER_INPUT {
      StripIsSuffix(bytes[1..]);
    }
  }

  /** Whatever the bytes, every extracted packet is a valid frame found in the stream, in order. */
  lemma {:induction false} ExtractSound(buffer: seq<byte>)
    ensures Located(buffer, Extract(buffer).packets, Extract(buffer).rest)
    decreases |buffer|
  {
    hide Checksum, Candidate, ChecksumMatches, Strip, Located;
    LocatedNothing(buffer);
    if |buffer| >= 5 {
      var tail := Strip(buffer);
      var e := Extract(buffer);
      if !Complete(tail) {
        LocatedNothing(tail);
      } else if ChecksumMatches(tail) {
        ExtractSound(tail[FrameLength(tail)..]);
        var later := Extract(tail[FrameLength(tail)..]);
        LocatedFirst(tail, later.packets, later.rest);
      } else {
        ExtractSound(tail[1..]);
        LocatedLater(tail, 1, e.packets, e.rest);
      }
      StripIsSuffix(buffer);
      LocatedLater(buffer, |buffer| - |tail|, e.packets, e.rest);
    }
  }
}
