/** AMQP 0-9-1 frames (section 4.2.3): AMQP_frame, AMQP_method_frame, break_packet and
    packet_append of fuzzer/Packet.c. */
module Frames {
  import opened Octets
  import opened CText

  const METHOD: byte := 1
  const HEADER: byte := 2
  const BODY: byte := 3
  const HEARTBEAT: byte := 4
  const PROTOCOL_HEADER: byte := 5   // as an enumerator; break_packet also copies octet 5 into it
  const FRAME_END: byte := 0xCE

  const AMQP: seq<byte> := [65, 77, 81, 80]

  datatype Method = Method(classId: nat, methodId: nat, arguments: seq<byte>)

  /** packet_struct. Type 0 is NONE: no frame ends where the size field says. */
  datatype Packet = Packet(kind: byte, channel: nat, size: nat, amqpHeader: seq<byte>, methodPayload: Option<Method>)

  const NO_PACKET: Packet := Packet(0, 0, 0, [], None)

  function FrameOctets(kind: byte, channel: int, payload: seq<byte>): seq<byte>
  {
    [kind] + BE(channel % 0x1_0000, 2) + BE(|payload| % 0x1_0000_0000, 4) + payload + [FRAME_END]
  }

  method AmqpFrame(kind: byte, channel: int, payload: seq<byte>) returns (packet: array<byte>)
    ensures fresh(packet) && packet[..] == FrameOctets(kind, channel, payload)
  {
    hide BE, Stored;
    var size := |payload|;
    var total := size + 4 + 4;
    packet := new byte[total];
    packet[0] := kind;
    ShortInChar(packet, channel, 1, total);
    assert packet[..3] == [kind] + BE(channel % 0x1_0000, 2);
    IntInChar(packet, size, 3, total);
    assert packet[..7] == packet[..3] + BE(size % 0x1_0000_0000, 4);
    ghost var head := packet[..7];
    CopyIn(packet, 7, payload);
    assert packet[..7 + size] == head + payload;
    packet[total - 1] := FRAME_END;
    assert packet[..] == packet[..7 + size] + [FRAME_END];
  }

  method AmqpMethodFrame(channel: int, classId: int, methodId: int, payload: seq<byte>) returns (packet: array<byte>)
    ensures fresh(packet)
    ensures packet[..] == FrameOctets(METHOD, channel, BE(classId % 0x1_0000, 2) + BE(methodId % 0x1_0000, 2) + payload)
  {
    hide BE, Stored;
    var full := new byte[|payload| + 4];
    ShortInChar(full, classId, 0, full.Length);
    assert full[..2] == BE(classId % 0x1_0000, 2);
    ShortInChar(full, methodId, 2, full.Length);
    assert full[..4] == BE(classId % 0x1_0000, 2) + BE(methodId % 0x1_0000, 2);
    ghost var ids := full[..4];
    CopyIn(full, 4, payload);
    assert full[..] == ids + payload;
    packet := AmqpFrame(METHOD, channel, full[..]);
  }

  /** break_packet on the octets it may read. None: it reads past them. */
  function BreakPacket(packet: seq<byte>): Option<Packet>
  {
    if |packet| < 8 then None
    else if packet[..4] == AMQP then Some(Packet(PROTOCOL_HEADER, 0, 0, packet[..8], None))
    else
      var size := CharInInt(packet, 3) % 0x1_0000_0000;
      BreakFrame(packet, size, (7 + size) % 0x1_0000_0000)
  }

  /** The rest of break_packet, once the size field is read; `end` is where frame-end must be. */
  function BreakFrame(packet: seq<byte>, size: nat, end: nat): Option<Packet>
    requires |packet| >= 8
  {
    if end >= |packet| then None
    else if packet[end] != FRAME_END then Some(NO_PACKET)
    else
      var channel := CharInShort(packet, 1) % 0x1_0000;
      if packet[0] != METHOD then Some(Packet(packet[0], channel, size, [], None))
      else if size < 4 || 7 + size > |packet| then None
      else Some(Packet(METHOD, channel, size, [], Some(MethodAt(packet, size))))
  }

  function MethodAt(packet: seq<byte>, size: nat): Method
    requires 4 <= size && 7 + size <= |packet|
  {
    Method(CharInShort(packet, 7) % 0x1_0000, CharInShort(packet, 9) % 0x1_0000, packet[11..7 + size])
  }

  method CopyHeader(packet: seq<byte>) returns (header: array<byte>)
    requires |packet| >= 8
    ensures header[..] == packet[..8]
  {
    header := new byte[8];
    for i := 0 to 8
      invariant header[..i] == packet[..i]
    {
      header[i] := packet[i];
    }
  }

  /** break_packet as it runs: the header is copied octet by octet, the arguments in one go. */
  method BreakPacketOctets(packet: seq<byte>) returns (result: Option<Packet>)
    ensures result == BreakPacket(packet)
  {
    hide CharInShort, CharInInt;
    if |packet| < 8 { return None; }
    if packet[..4] == AMQP {
      var header := CopyHeader(packet);
      return Some(Packet(PROTOCOL_HEADER, 0, 0, header[..], None));
    }
    var channel, size := CharInShort(packet, 1) % 0x1_0000, CharInInt(packet, 3) % 0x1_0000_0000;
    var end := (7 + size) % 0x1_0000_0000;
    if end >= |packet| { return None; }
    if packet[end] != FRAME_END { return Some(NO_PACKET); }
    if packet[0] != METHOD { return Some(Packet(packet[0], channel, size, [], None)); }
    if size < 4 || 7 + size > |packet| { return None; }
    var arguments := new byte[size - 4](_ => 0);
    CopyIn(arguments, 0, packet[11..7 + size]);
    assert arguments[..] == packet[11..7 + size];
    var classId, methodId := CharInShort(packet, 7) % 0x1_0000, CharInShort(packet, 9) % 0x1_0000;
    result := Some(Packet(METHOD, channel, size, [], Some(Method(classId, methodId, arguments[..]))));
  }

  /* --- Reading back what was built --- */

  lemma Unsigned16(v: int)
    ensures Signed16(v) % 0x1_0000 == v % 0x1_0000
  {
  }

  lemma FrameFields(kind: byte, channel: int, payload: seq<byte>, tail: seq<byte>)
    ensures var f := FrameOctets(kind, channel, payload) + tail;
            && |f| == |payload| + 8 + |tail|
            && f[0] == kind
            && f[7..7 + |payload|] == payload
            && f[7 + |payload|] == FRAME_END
            && CharInShort(f, 1) % 0x1_0000 == channel % 0x1_0000
            && CharInInt(f, 3) == Signed32(if Bit15(|payload|) then |payload| - 0x1_0000 else |payload|)
  {
    var f := FrameOctets(kind, channel, payload) + tail;
    var size := BE(|payload| % 0x1_0000_0000, 4);
    assert f == [kind] + BE(channel % 0x1_0000, 2) + (size + payload + [FRAME_END] + tail);
    ShortRoundTrip(channel, [kind], size + payload + [FRAME_END] + tail);
    Unsigned16(channel);
    assert f == ([kind] + BE(channel % 0x1_0000, 2)) + size + (payload + [FRAME_END] + tail);
    IntRoundTrip(|payload|, [kind] + BE(channel % 0x1_0000, 2), payload + [FRAME_END] + tail);
  }

  /** A payload whose size field reads back as written. */
  predicate PlainSize(n: nat) { n < 0x8000_0000 && !Bit15(n) }

  lemma PlainSizeReads(n: nat)
    requires n < 0x8000_0000
    ensures Signed32(if Bit15(n) then n - 0x1_0000 else n) % 0x1_0000_0000 == n <==> !Bit15(n)
  {
  }

  /** The packet a frame should break into. */
  function Framed(kind: byte, channel: int, payload: seq<byte>): Packet
    requires kind == METHOD ==> |payload| >= 4
  {
    Packet(kind, channel % 0x1_0000, |payload|, [],
           if kind == METHOD then Some(Method(Value(payload[..2]), Value(payload[2..4]), payload[4..])) else None)
  }

  lemma ShortIsValue(s: seq<byte>, i: nat)
    requires i + 2 <= |s|
    ensures CharInShort(s, i) % 0x1_0000 == Value(s[i..i + 2])
  {
    var w := s[i..i + 2];
    assert w[..1] == [w[0]] && w[..1][..0] == [];
    assert Value(w[..1]) == Value([]) * RADIX + w[0];
    Unsigned16((s[i] as int) * 0x100 + s[i + 1]);
  }

  /** What char_in_int makes of a 32-bit number. */
  function Misread(v: nat): int { Signed32(if Bit15(v) then v - 0x1_0000 else v) }

  lemma IntIsValue(s: seq<byte>, i: nat)
    requires i + 4 <= |s|
    ensures var v := Value(s[i..i + 4]); v < 0x1_0000_0000 && CharInInt(s, i) == Misread(v)
  {
    var w := s[i..i + 4];
    ValueBound(w);
    PowFour();
    BEOfValue(w);
    IntHalves(Value(w), s, i);
    HalvesSum(Value(w));
  }

  /** The size break_packet takes from a size field, and where it then looks for the frame-end. */
  function SizeRead(v: nat): nat { Misread(v) % 0x1_0000_0000 }

  function EndRead(v: nat): nat { (7 + SizeRead(v)) % 0x1_0000_0000 }

  /** break_packet stays inside a buffer unless its frame-end lies beyond, or a METHOD frame that
      ends properly is too short for its ids or wraps around. */
  lemma BreakPacketStrays(packet: seq<byte>)
    requires |packet| >= 8
    ensures BreakPacket(packet) == None <==>
              var v := Value(packet[3..7]);
              && packet[..4] != AMQP
              && (EndRead(v) < |packet| ==>
                    && packet[0] == METHOD && packet[EndRead(v)] == FRAME_END
                    && !(4 <= SizeRead(v) <= |packet| - 7))
  {
    hide CharInInt, Value, Misread;
    IntIsValue(packet, 3);
  }

  /** Otherwise, on the octets: no packet unless a frame-end stands where the size field says; then the
      type is the first octet, the channel the next two, and a METHOD frame's payload its class id, its
      method id and arguments. */
  lemma BreakPacketReads(packet: seq<byte>)
    requires |packet| >= 8 && packet[..4] != AMQP && EndRead(Value(packet[3..7])) < |packet|
    ensures var r, size, end := BreakPacket(packet), SizeRead(Value(packet[3..7])), EndRead(Value(packet[3..7]));
            && (packet[end] != 0xCE ==> r.Some? && r.value.kind == 0 && r.value.methodPayload == None)
            && (packet[end] == 0xCE && packet[0] != METHOD ==>
                  r == Some(Packet(packet[0], Value(packet[1..3]), size, [], None)))
            && (packet[end] == 0xCE && packet[0] == METHOD && 4 <= size <= |packet| - 7 ==>
                  && r.Some?
                  && r.value.(methodPayload := None) == Packet(METHOD, Value(packet[1..3]), size, [], None)
                  && r.value.methodPayload
                  == Some(Method(Value(packet[7..9]), Value(packet[9..11]), packet[11..7 + size])))
  {
    hide CharInInt, CharInShort, Value, Misread;
    IntIsValue(packet, 3);
    ShortIsValue(packet, 1);
    if |packet| >= 11 {
      ShortIsValue(packet, 7);
      ShortIsValue(packet, 9);
    }
  }

  /** A protocol header is known by its first four octets, and keeps all eight. */
  lemma BreakHeader(packet: seq<byte>)
    ensures |packet| < 8 ==> BreakPacket(packet) == None
    ensures |packet| >= 8 && packet[..4] == [65, 77, 81, 80] ==>
              BreakPacket(packet) == Some(Packet(5, 0, 0, packet[..8], None))
  {
  }

  lemma ReportedSize(packet: seq<byte>)
    requires |packet| >= 8 && packet[0] != AMQP[0]
    ensures var r := BreakPacket(packet);
            r.Some? ==> r.value == NO_PACKET || r.value.size == CharInInt(packet, 3) % 0x1_0000_0000
  {
    assert packet[..4][0] != AMQP[0];
  }

  lemma MethodReads(f: seq<byte>, size: nat)
    requires 4 <= size && 7 + size <= |f|
    ensures var p := f[7..7 + size]; MethodAt(f, size) == Method(Value(p[..2]), Value(p[2..4]), p[4..])
  {
    ShortIsValue(f, 7);
    ShortIsValue(f, 9);
    var p := f[7..7 + size];
    assert f[7..9] == [f[7], f[8]] && p[..2] == [p[0], p[1]];
    assert f[9..11] == [f[9], f[10]] && p[2..4] == [p[2], p[3]];
    assert f[11..7 + size] == p[4..];
  }

  lemma FrameReads(kind: byte, channel: int, payload: seq<byte>, f: seq<byte>)
    requires kind == METHOD ==> |payload| >= 4
    requires |f| >= |payload| + 8 && f[0] == kind && f[7..7 + |payload|] == payload && f[7 + |payload|] == FRAME_END
    requires CharInShort(f, 1) % 0x1_0000 == channel % 0x1_0000
    ensures BreakFrame(f, |payload|, 7 + |payload|) == Some(Framed(kind, channel, payload))
  {
    if kind == METHOD { MethodReads(f, |payload|); }
  }

  lemma SizeArithmetic(n: nat)
    requires n < 0x8000_0000
    ensures n % 0x1_0000_0000 == n && (7 + n) % 0x1_0000_0000 == 7 + n
  {
  }

  /** Self-delimiting frames: break_packet recovers a frame of type 1 to 4 and ignores what
      follows it, exactly when bit 15 of the payload length is clear. */
  lemma FrameRoundTrip(kind: byte, channel: int, payload: seq<byte>, tail: seq<byte>)
    requires METHOD <= kind <= HEARTBEAT && |payload| < 0x8000_0000 && (kind == METHOD ==> |payload| >= 4)
    ensures BreakPacket(FrameOctets(kind, channel, payload) + tail) == Some(Framed(kind, channel, payload))
            <==> !Bit15(|payload|)
  {
    var f := FrameOctets(kind, channel, payload) + tail;
    FrameFields(kind, channel, payload, tail);
    if Bit15(|payload|) {
      ReportedSize(f);
      PlainSizeReads(|payload|);
    } else {
      FrameReads(kind, channel, payload, f);
      SizeArithmetic(|payload|);
      assert f[..4][0] == kind;
    }
  }

  /** A frame of 32768 octets is lost: its size is read as -32768. */
  lemma LongFrameExample(payload: seq<byte>)
    requires |payload| == 0x8000
    ensures BreakPacket(FrameOctets(BODY, 0, payload)) != Some(Framed(BODY, 0, payload))
  {
    hide FrameOctets, BreakPacket, Framed;
    FrameRoundTrip(BODY, 0, payload, []);
    assert FrameOctets(BODY, 0, payload) + [] == FrameOctets(BODY, 0, payload);
  }

  /* --- The listener's loop over one buffer --- */

  /** How far the listener counts itself to be after this packet; it stops at 1. */
  function Parsed(p: Packet): int { Signed32(p.size + 7) }

  /** The listener takes the frame at the head of its buffer again, without polling in between,
      exactly when the size field is read as -7 and so the first octet is its frame-end. */
  lemma TakenAgain(packet: seq<byte>)
    requires 8 <= |packet| <= 0x8000_0000
    requires BreakPacket(packet).Some? && BreakPacket(packet).value.kind != 0
    ensures Parsed(BreakPacket(packet).value) < 1 <==> packet[0] == FRAME_END && Value(packet[3..7]) == 0xFFF9
  {
    hide Value;
    IntIsValue(packet, 3);
    assert packet[..4] == AMQP ==> packet[..4][0] == packet[0];
    ReadAsMinusSeven(Value(packet[3..7]));
  }

  lemma ReadAsMinusSeven(v: nat)
    requires v < 0x1_0000_0000
    ensures EndRead(v) == 0 <==> v == 0xFFF9
    ensures Signed32(SizeRead(v) + 7) == Signed32(EndRead(v))
  {
    MisreadFrom(v);
    hide Misread;
    var m := Misread(v);
    assert EndRead(v) == (7 + m) % 0x1_0000_0000;
  }

  lemma MisreadFrom(v: nat)
    requires v < 0x1_0000_0000
    ensures -0x8000_0000 <= Misread(v) < 0x8000_0000 && (Misread(v) == -7 <==> v == 0xFFF9)
  {
    if Misread(v) == -7 { assert Bit15(v); }
  }

  lemma TakenAgainExample(packet: seq<byte>)
    requires packet == [0xCE, 0, 0, 0, 0, 0xFF, 0xF9, 0]
    ensures BreakPacket(packet) == Some(Packet(0xCE, 0, 0xFFFF_FFF9, [], None))
    ensures Parsed(BreakPacket(packet).value) == 0
  {
    assert packet[..4][0] == 0xCE;
    assert CharInInt(packet, 3) == -7;
  }

  /* --- Sequences of frames --- */

  datatype Frame = Frame(kind: byte, channel: nat, payload: seq<byte>)
  {
    predicate Valid()
    {
      && METHOD <= kind <= HEARTBEAT
      && channel < 0x1_0000
      && PlainSize(|payload|)
      && (kind == METHOD ==> |payload| >= 4)
    }

    function Octets(): (s: seq<byte>)
      ensures |s| == |payload| + 8
    {
      FrameOctets(kind, channel, payload)
    }
  }

  function Stream(fs: seq<Frame>): seq<byte>
  {
    if fs == [] then [] else fs[0].Octets() + Stream(fs[1..])
  }

  /** The length a frame's own size field gives it, envelope included. */
  function FullLength(packet: seq<byte>): int
    requires |packet| >= 7
  {
    CharInInt(packet, 3) + 8
  }

  method PacketAppend(packet1: seq<byte>, packet2: seq<byte>) returns (appended: array<byte>)
    requires |packet1| >= 7 && 0 <= FullLength(packet1) <= |packet1|
    requires |packet2| >= 7 && 0 <= FullLength(packet2) <= |packet2|
    ensures fresh(appended)
    ensures appended[..] == packet1[..FullLength(packet1)] + packet2[..FullLength(packet2)]
  {
    var length1 := CharInInt(packet1, 3) + 8;
    var length2 := CharInInt(packet2, 3) + 8;
    appended := new byte[length1 + length2](_ => 0);
    CopyIn(appended, 0, packet1[..length1]);
    CopyIn(appended, length1, packet2[..length2]);
    assert appended[..length1] == packet1[..length1] && appended[length1..] == packet2[..length2];
  }

  /** packet_append finds exactly the frame at the head of whatever it is given. */
  lemma FullLengthOfFrame(f: Frame, more: seq<byte>)
    requires f.Valid()
    ensures var s := f.Octets() + more;
            |s| >= 7 && FullLength(s) == |f.Octets()| && s[..FullLength(s)] == f.Octets()
  {
    FrameFields(f.kind, f.channel, f.payload, more);
  }

  /** The first frame of a stream is the one break_packet reports, and it says where the rest is. */
  lemma FirstFrame(fs: seq<Frame>)
    requires fs != [] && fs[0].Valid()
    ensures BreakPacket(Stream(fs)) == Some(Framed(fs[0].kind, fs[0].channel, fs[0].payload))
    ensures var size := BreakPacket(Stream(fs)).value.size;
            size + 8 <= |Stream(fs)| && Stream(fs)[..size + 8] == fs[0].Octets() &&
                Stream(fs)[size + 8..] == Stream(fs[1..])
  {
    FrameRoundTrip(fs[0].kind, fs[0].channel, fs[0].payload, Stream(fs[1..]));
  }

  lemma SameHead(fs: seq<Frame>, gs: seq<Frame>)
    requires fs != [] && gs != [] && fs[0].Valid() && gs[0].Valid() && Stream(fs) == Stream(gs)
    ensures fs[0] == gs[0] && Stream(fs[1..]) == Stream(gs[1..])
  {
    FirstFrame(fs);
    FirstFrame(gs);
    SameFrame(fs[0], gs[0]);
  }

  lemma SameFrame(f: Frame, g: Frame)
    requires f.Valid() && g.Valid() && f.Octets() == g.Octets()
    requires Framed(f.kind, f.channel, f.payload) == Framed(g.kind, g.channel, g.payload)
    ensures f == g
  {
    PayloadOf(f);
    PayloadOf(g);
  }

  /** Hence appended frames split in one way only. */
  lemma {:induction false} UniqueSplit(fs: seq<Frame>, gs: seq<Frame>)
    requires forall f | f in fs + gs :: f.Valid()
    requires Stream(fs) == Stream(gs)
    ensures fs == gs
  {
    if fs != [] && gs != [] {
      assert fs[0] in fs + gs && gs[0] in fs + gs;
      SameHead(fs, gs);
      assert forall f | f in fs[1..] + gs[1..] :: f in fs + gs;
      UniqueSplit(fs[1..], gs[1..]);
      assert fs == [fs[0]] + fs[1..] && gs == [gs[0]] + gs[1..];
    }
  }

  lemma PayloadOf(f: Frame)
    ensures f.Octets()[7..7 + |f.payload|] == f.payload
  {
    FrameFields(f.kind, f.channel, f.payload, []);
    assert f.Octets() + [] == f.Octets();
  }
}
