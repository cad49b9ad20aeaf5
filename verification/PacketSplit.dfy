// Cutting the byte stream of the L3 tunnel into IP packets, as it arrives in arbitrary pieces; and the
// frame that carries one packet the other way.
module PacketSplit {
  import opened Bytes

  type Packet = seq<Byte>

  datatype Error = BadLength(length: int, header: int) | BadVersion(version: int)

  datatype Result = Split(packets: seq<Packet>, rest: seq<Byte>) | Malformed(error: Error)

  // What the first bytes of a non-empty stream say: not enough of them, a packet of some length, or nonsense.
  datatype Head = NeedMore | Declares(length: nat) | Bad(error: Error)

  function ReadHead(stream: seq<Byte>): (h: Head)
    requires stream != []
    ensures h.Declares? ==> h.length >= 20
  {
    if stream[0] / 16 == 4 then
      if |stream| < 4 then NeedMore
      else
        var header, length := stream[0] % 16 * 4, BigEndian16(stream[2], stream[3]);
        if header < 20 || length < header then Bad(BadLength(length, header)) else Declares(length)
    else if stream[0] / 16 == 6 then
      if |stream| < 6 then NeedMore else Declares(40 + BigEndian16(stream[4], stream[5]))
    else Bad(BadVersion(stream[0] / 16))
  }

  function Prepend(packets: seq<Packet>, r: Result): Result {
    if r.Split? then Split(packets + r.packets, r.rest) else r
  }

  function SplitPackets(stream: seq<Byte>): Result {
    if stream == [] then Split([], [])
    else
      match ReadHead(stream)
      case NeedMore => Split([], stream)
      case Bad(e) => Malformed(e)
      case Declares(n) =>
        if |stream| < n then Split([], stream) else Prepend([stream[..n]], SplitPackets(stream[n..]))
  }

  method SplitIncomingIPPackets(input: seq<Byte>) returns (result: Result)
    ensures result == SplitPackets(input)
  {
    var stream, packets := input, [];
    while |stream| > 0
      invariant SplitPackets(input) == Prepend(packets, SplitPackets(stream))
    {
      var packetLen;
      if stream[0] / 16 == 4 {
        if |stream| < 4 { return Split(packets, stream); }
        var headerLen := stream[0] % 16 * 4;
        packetLen := BigEndian16(stream[2], stream[3]);
        if headerLen < 20 || packetLen < headerLen { return Malformed(BadLength(packetLen, headerLen)); }
      } else if stream[0] / 16 == 6 {
        if |stream| < 6 { return Split(packets, stream); }
        packetLen := 40 + BigEndian16(stream[4], stream[5]);
      } else {
        return Malformed(BadVersion(stream[0] / 16));
      }
      if |stream| < packetLen { return Split(packets, stream); }
      PrependTwice(packets, [stream[..packetLen]], SplitPackets(stream[packetLen..]));
      packets := packets + [stream[..packetLen]];
      stream := stream[packetLen..];
    }
    return Split(packets, []);
  }

  lemma PrependTwice(a: seq<Packet>, b: seq<Packet>, r: Result)
    ensures Prepend(a, Prepend(b, r)) == Prepend(a + b, r)
  {
    if r.Split? { assert a + (b + r.packets) == a + b + r.packets; }
  }

  // ---- What a split means.

  function Concat(packets: seq<Packet>): seq<Byte> {
    if packets == [] then [] else packets[0] + Concat(packets[1..])
  }

  // A packet of the length its own header declares: the total length of section 3.1 of RFC 791, in its
  // third and fourth byte, which is no less than the header's own length in 32-bit words and five of them.
  predicate IsIPv4Packet(p: seq<Byte>) {
    && |p| >= 20 && p[0] / 16 == 4 && |p| == p[2] as int * 256 + p[3] as int
    && p[0] % 16 >= 5 && |p| >= 4 * (p[0] % 16)
  }

  // Likewise the payload length of section 3 of RFC 8200, in the fifth and sixth byte, behind 40 bytes of header.
  predicate IsIPv6Packet(p: seq<Byte>) {
    |p| >= 40 && p[0] / 16 == 6 && |p| == 40 + p[4] as int * 256 + p[5] as int
  }

  predicate IsWhole(packet: Packet) {
    IsIPv4Packet(packet) || IsIPv6Packet(packet)
  }

  // The start of a packet that is not all there yet, or nothing.
  predicate IsIncomplete(rest: seq<Byte>) {
    || rest == []
    || (rest[0] / 16 == 4
        && (|rest| < 4 || var length := rest[2] as int * 256 + rest[3] as int;
              rest[0] % 16 >= 5 && length >= 4 * (rest[0] % 16) && |rest| < length))
    || (rest[0] / 16 == 6 && (|rest| < 6 || |rest| < 40 + rest[4] as int * 256 + rest[5] as int))
  }

  // This is how the splitter reads the first bytes.
  lemma ReadHeadMeans(stream: seq<Byte>)
    requires stream != []
    ensures IsWhole(stream) <==> ReadHead(stream) == Declares(|stream|)
    ensures IsIncomplete(stream) <==> ReadHead(stream).NeedMore? || (ReadHead(stream).Declares? && |stream| < ReadHead(stream).length)
  {}

  // What makes a stream malformed where it is looked at: another version, or an IPv4 packet whose header
  // is too short or does not fit into it.
  lemma BadExactly(stream: seq<Byte>)
    requires stream != []
    ensures var version := stream[0] / 16;
      && (version != 4 && version != 6 <==> ReadHead(stream) == Bad(BadVersion(version)))
      && (version == 4 && |stream| >= 4 ==>
            var header, length := 4 * (stream[0] % 16), stream[2] as int * 256 + stream[3] as int;
            (ReadHead(stream) == Bad(BadLength(length, header)) <==> header < 20 || length < header))
      && (version == 6 || (version == 4 && |stream| < 4) ==> !ReadHead(stream).Bad?)
      && (ReadHead(stream).Bad? ==> SplitPackets(stream) == Malformed(ReadHead(stream).error))
  {}

  // Whatever begins with a packet delivers it first, and then what the rest of the stream holds.
  lemma FirstPacketComesOut(p: Packet, more: seq<Byte>)
    requires IsWhole(p)
    ensures SplitPackets(p + more) == Prepend([p], SplitPackets(more))
  {
    ReadHeadMeans(p);
    HeadGrows(p, more);
    assert (p + more)[..|p|] == p && (p + more)[|p|..] == more;
  }

  // The packets are whole ones, and with the rest they are the stream; the rest is the start of a packet.
  predicate IsExact(stream: seq<Byte>, packets: seq<Packet>, rest: seq<Byte>) {
    && Concat(packets) + rest == stream
    && (forall i :: 0 <= i < |packets| ==> IsWhole(packets[i]))
    && IsIncomplete(rest)
  }

  lemma {:induction false} SplitIsExact(stream: seq<Byte>)
    ensures var r := SplitPackets(stream); r.Split? ==> IsExact(stream, r.packets, r.rest)
  {
    if stream != [] && ReadHead(stream).Declares? && |stream| >= ReadHead(stream).length {
      var n := ReadHead(stream).length;
      SplitIsExact(stream[n..]);
      WholeHead(stream);
      var tail := SplitPackets(stream[n..]);
      if tail.Split? { ExactCons(stream[..n], stream[n..], tail.packets, tail.rest); }
    }
  }

  lemma ExactCons(p: Packet, stream: seq<Byte>, packets: seq<Packet>, rest: seq<Byte>)
    requires IsWhole(p) && IsExact(stream, packets, rest)
    ensures IsExact(p + stream, [p] + packets, rest)
  {
    hide IsWhole, IsIncomplete;
    ConcatCons(p, packets);
    assert p + Concat(packets) + rest == p + (Concat(packets) + rest);
  }

  lemma WholeHead(stream: seq<Byte>)
    requires stream != [] && ReadHead(stream).Declares? && |stream| >= ReadHead(stream).length
    ensures var n := ReadHead(stream).length; IsWhole(stream[..n]) && stream[..n] + stream[n..] == stream
  {
    HeadGrows(stream[..ReadHead(stream).length], stream[ReadHead(stream).length..]);
  }

  lemma ConcatCons(p: Packet, ps: seq<Packet>)
    ensures Concat([p] + ps) == p + Concat(ps)
  {
    assert ([p] + ps)[1..] == ps;
  }

  // Whole packets, one after the other, come out as they went in: no other cut is possible.
  lemma {:induction false} SplitOfWholePackets(packets: seq<Packet>, rest: seq<Byte>)
    requires (forall i :: 0 <= i < |packets| ==> IsWhole(packets[i])) && IsIncomplete(rest)
    ensures SplitPackets(Concat(packets) + rest) == Split(packets, rest)
  {
    var stream := Concat(packets) + rest;
    if packets == [] {
      assert stream == rest;
    } else {
      var p := packets[0];
      assert IsWhole(p);
      SplitOfWholePackets(packets[1..], rest);
      assert stream == p + (Concat(packets[1..]) + rest);
      HeadGrows(p, Concat(packets[1..]) + rest);
      assert stream[..|p|] == p && stream[|p|..] == Concat(packets[1..]) + rest;
      assert [p] + packets[1..] == packets;
    }
  }

  // ---- Chunking.

  // More bytes do not change what the first bytes said.
  lemma HeadGrows(a: seq<Byte>, b: seq<Byte>)
    requires a != []
    ensures !ReadHead(a).NeedMore? ==> ReadHead(a + b) == ReadHead(a)
  {}

  // Splitting more of the stream goes on where splitting the first part stopped; an error stays.
  lemma {:induction false} SplitGoesOn(a: seq<Byte>, b: seq<Byte>)
    ensures var r := SplitPackets(a);
      SplitPackets(a + b) == if r.Split? then Prepend(r.packets, SplitPackets(r.rest + b)) else r
    decreases |a|
  {
    hide ReadHead, SplitPackets, Prepend;
    if a != [] && ReadHead(a).Declares? && |a| >= ReadHead(a).length {
      var n := ReadHead(a).length;
      SplitGoesOn(a[n..], b);
      SplitUnfolds(a, b);
      var tail := SplitPackets(a[n..]);
      PrependTo([a[..n]], tail);
      if tail.Split? { PrependTwice([a[..n]], tail.packets, SplitPackets(tail.rest + b)); }
    } else {
      NoneWhole(a, b);
    }
  }

  lemma PrependTo(packets: seq<Packet>, r: Result)
    ensures Prepend(packets, r) == if r.Split? then Split(packets + r.packets, r.rest) else r
  {}

  // A stream that starts with a whole packet, with and without more bytes behind it.
  lemma SplitUnfolds(a: seq<Byte>, b: seq<Byte>)
    requires a != [] && ReadHead(a).Declares? && |a| >= ReadHead(a).length
    ensures var n := ReadHead(a).length;
      && SplitPackets(a) == Prepend([a[..n]], SplitPackets(a[n..]))
      && SplitPackets(a + b) == Prepend([a[..n]], SplitPackets(a[n..] + b))
  {
    var n := ReadHead(a).length;
    HeadGrows(a, b);
    hide ReadHead, Prepend;
    assert (a + b)[..n] == a[..n] && (a + b)[n..] == a[n..] + b;
  }

  // A stream that does not: it is kept, or stays malformed with the same error.
  lemma NoneWhole(a: seq<Byte>, b: seq<Byte>)
    requires a == [] || !ReadHead(a).Declares? || |a| < ReadHead(a).length
    ensures SplitPackets(a) == Split([], a) || (SplitPackets(a).Malformed? && SplitPackets(a + b) == SplitPackets(a))
    ensures Prepend([], SplitPackets(a + b)) == SplitPackets(a + b)
  {
    if a != [] { HeadGrows(a, b); }
    if SplitPackets(a + b).Split? { assert [] + SplitPackets(a + b).packets == SplitPackets(a + b).packets; }
  }

  // The reading loop: what it delivered, what it holds back, or the error it stopped with.
  datatype Reader = Reader(delivered: seq<Packet>, stream: seq<Byte>, failed: Option<Error>)

  function Receive(r: Reader, chunk: seq<Byte>): Reader {
    if r.failed.Some? then r
    else
      match SplitPackets(r.stream + chunk)
      case Split(packets, rest) => Reader(r.delivered + packets, rest, None)
      case Malformed(e) => r.(failed := Some(e))
  }

  function Feed(chunks: seq<seq<Byte>>): Reader {
    if chunks == [] then Reader([], [], None)
    else Receive(Feed(chunks[..|chunks| - 1]), chunks[|chunks| - 1])
  }

  function Joined(chunks: seq<seq<Byte>>): seq<Byte> {
    if chunks == [] then [] else Joined(chunks[..|chunks| - 1]) + chunks[|chunks| - 1]
  }

  // The packets before the first nonsense, if any.
  function GoodPackets(stream: seq<Byte>): seq<Packet> {
    if stream == [] || !ReadHead(stream).Declares? || |stream| < ReadHead(stream).length then []
    else
      var n := ReadHead(stream).length;
      [stream[..n]] + GoodPackets(stream[n..])
  }

  lemma {:induction false} GoodOfSplit(stream: seq<Byte>)
    ensures SplitPackets(stream).Split? ==> SplitPackets(stream).packets == GoodPackets(stream)
  {
    if stream != [] && ReadHead(stream).Declares? && |stream| >= ReadHead(stream).length {
      GoodOfSplit(stream[ReadHead(stream).length..]);
    }
  }

  // A stream that starts with a whole packet, and what follows when more bytes are added.
  lemma GoodUnfolds(a: seq<Byte>, b: seq<Byte>)
    requires a != [] && ReadHead(a).Declares? && |a| >= ReadHead(a).length
    ensures var n := ReadHead(a).length;
      && GoodPackets(a) == [a[..n]] + GoodPackets(a[n..])
      && GoodPackets(a + b) == [a[..n]] + GoodPackets(a[n..] + b)
      && SplitPackets(a) == Prepend([a[..n]], SplitPackets(a[n..]))
  {
    var n := ReadHead(a).length;
    HeadGrows(a, b);
    assert (a + b)[..n] == a[..n] && (a + b)[n..] == a[n..] + b;
  }

  lemma {:induction false} GoodGoesOn(a: seq<Byte>, b: seq<Byte>)
    requires SplitPackets(a).Split?
    ensures GoodPackets(a + b) == GoodPackets(a) + GoodPackets(SplitPackets(a).rest + b)
    decreases |a|
  {
    hide ReadHead, GoodPackets, SplitPackets;
    if a != [] && ReadHead(a).Declares? && |a| >= ReadHead(a).length {
      GoodUnfolds(a, b);
      GoodGoesOn(a[ReadHead(a).length..], b);
    } else {
      NothingWhole(a);
    }
  }

  lemma NothingWhole(a: seq<Byte>)
    requires SplitPackets(a).Split? && (a == [] || !ReadHead(a).Declares? || |a| < ReadHead(a).length)
    ensures GoodPackets(a) == [] && SplitPackets(a).rest == a
  {}

  lemma {:induction false} GoodStays(a: seq<Byte>, b: seq<Byte>)
    requires SplitPackets(a).Malformed?
    ensures GoodPackets(a + b) == GoodPackets(a)
    decreases |a|
  {
    HeadGrows(a, b);
    if ReadHead(a).Declares? && |a| >= ReadHead(a).length {
      var n := ReadHead(a).length;
      GoodStays(a[n..], b);
      assert (a + b)[..n] == a[..n] && (a + b)[n..] == a[n..] + b;
    }
  }

  // The stream and its pieces: the reader fails exactly when the whole stream is malformed, and with the
  // same error; otherwise it has delivered the stream's packets and holds back its rest, whatever the pieces.
  lemma {:induction false} ChunkingDoesNotMatter(chunks: seq<seq<Byte>>)
    ensures var r, whole := Feed(chunks), SplitPackets(Joined(chunks));
      && (r.failed.Some? <==> whole.Malformed?)
      && (whole.Malformed? ==> r.failed == Some(whole.error))
      && (whole.Split? ==> r.delivered == whole.packets && r.stream == whole.rest)
  {
    if chunks != [] {
      var front, chunk := chunks[..|chunks| - 1], chunks[|chunks| - 1];
      ChunkingDoesNotMatter(front);
      SplitGoesOn(Joined(front), chunk);
    }
  }

  // The bytes the reader was looking at when it failed.
  function FailingInput(chunks: seq<seq<Byte>>): seq<Byte>
    requires Feed(chunks).failed.Some?
  {
    var front := chunks[..|chunks| - 1];
    if Feed(front).failed.Some? then FailingInput(front) else Feed(front).stream + chunks[|chunks| - 1]
  }

  // On a malformed stream the pieces do matter: what was delivered is a beginning of the packets before
  // the nonsense, and all of them exactly when the last look at the buffer had none of them in it.
  lemma {:induction false} MalformedDropsPackets(chunks: seq<seq<Byte>>)
    requires Feed(chunks).failed.Some?
    ensures var good := GoodPackets(Joined(chunks));
      && Feed(chunks).delivered + GoodPackets(FailingInput(chunks)) == good
      && (Feed(chunks).delivered == good <==> GoodPackets(FailingInput(chunks)) == [])
  {
    var front, chunk := chunks[..|chunks| - 1], chunks[|chunks| - 1];
    ChunkingDoesNotMatter(front);
    if Feed(front).failed.Some? {
      MalformedDropsPackets(front);
      GoodStays(Joined(front), chunk);
    } else {
      GoodGoesOn(Joined(front), chunk);
      GoodOfSplit(Joined(front));
    }
  }

  lemma FeedAppend(chunks: seq<seq<Byte>>, chunk: seq<Byte>)
    ensures Feed(chunks + [chunk]) == Receive(Feed(chunks), chunk)
    ensures Joined(chunks + [chunk]) == Joined(chunks) + chunk
  {
    assert (chunks + [chunk])[..|chunks|] == chunks;
  }

  // The same malformed stream, its good packet delivered or not.
  lemma SamePacketsSplitDifferently(packet: Packet)
    requires IsWhole(packet)
    ensures Joined([packet] + [[0]]) == Joined([packet + [0]])
    ensures Feed([packet] + [[0]]).delivered == [packet] && Feed([packet + [0]]).delivered == []
    ensures Feed([packet] + [[0]]).failed == Feed([packet + [0]]).failed == Some(BadVersion(0))
  {
    hide IsWhole, Feed, Joined, SplitPackets, ReadHead;
    var bad: seq<Byte> := [0];
    OnePacket(packet);
    BadByte();
    SplitGoesOn(packet, bad);
    FeedNothing();
    FeedOne(packet);
    FeedOne(packet + bad);
    FeedAppend([packet], bad);
    assert [] + bad == bad;
  }

  lemma BadByte()
    ensures SplitPackets([0]) == Malformed(BadVersion(0))
  {}

  lemma FeedOne(chunk: seq<Byte>)
    ensures Feed([chunk]) == Receive(Reader([], [], None), chunk) && Joined([chunk]) == chunk
    ensures [] + chunk == chunk
  {
    hide Receive;
    FeedAppend([], chunk);
    FeedNothing();
    assert [] + [chunk] == [chunk];
  }

  lemma FeedNothing()
    ensures Feed([]) == Reader([], [], None) && Joined([]) == []
  {}

  lemma OnePacket(packet: Packet)
    requires IsWhole(packet)
    ensures SplitPackets(packet) == Split([packet], [])
  {
    SplitOfWholePackets([packet], []);
    assert Concat([packet]) + [] == packet;
  }

  // ---- The frame of one outgoing packet, and the parser of such payloads.

  const L3_VERSION: Byte := 0x05
  const CMD_DATA_REQ: Byte := 0x14

  // getDataPayload; byte and uint16 conversions keep the low bits of the lengths.
  function DataPayload(token: seq<Byte>, packet: Packet): seq<Byte> {
    [L3_VERSION, CMD_DATA_REQ] + (DataHeader(token, |packet|) + packet)
  }

  function DataHeader(token: seq<Byte>, length: nat): seq<Byte> {
    [|token| % 0x100] + token + [0, 0, 1, High(length % 0x1_0000), Low(length % 0x1_0000)]
  }

  datatype Parsed = Packets(packets: seq<Packet>) | TooShort | TokenOverflow | LengthOverflow | DataOverflow

  // The loop of parseDataPayload over `count` packets from `idx`.
  function ParsePackets(payload: seq<Byte>, idx: nat, count: nat): Parsed
    requires idx <= |payload|
    decreases count
  {
    if count == 0 then Packets([])
    else if idx + 2 > |payload| then LengthOverflow
    else
      var length := BigEndian16(payload[idx], payload[idx + 1]);
      if idx + 2 + length > |payload| then DataOverflow
      else
        match ParsePackets(payload, idx + 2 + length, count - 1)
        case Packets(rest) => Packets([payload[idx + 2..idx + 2 + length]] + rest)
        case e => e
  }

  method ParseDataPayload(payload: seq<Byte>) returns (parsed: Parsed)
    ensures parsed == ParsePayload(payload)
  {
    if |payload| < 4 { return TooShort; }
    var tokenLen: int := payload[0];
    var idx: nat := 1 + tokenLen;
    if |payload| < idx + 3 { return TokenOverflow; }
    idx := idx + 2;
    var count := payload[idx];
    idx := idx + 1;
    var packets: seq<Packet> := [];
    var i := 0;
    while i < count
      invariant i <= count && idx <= |payload|
      invariant ParsePayload(payload) == After(packets, ParsePackets(payload, idx, count - i))
    {
      if idx + 2 > |payload| { return LengthOverflow; }
      var plen := BigEndian16(payload[idx], payload[idx + 1]);
      idx := idx + 2;
      if idx + plen > |payload| { return DataOverflow; }
      AfterTwice(packets, payload[idx..idx + plen], ParsePackets(payload, idx + plen, count - i - 1));
      packets := packets + [payload[idx..idx + plen]];
      idx := idx + plen;
      i := i + 1;
    }
    return Packets(packets);
  }

  function ParsePayload(payload: seq<Byte>): Parsed {
    if |payload| < 4 then TooShort
    else
      var tokenLen: int := payload[0];
      if |payload| < tokenLen + 4 then TokenOverflow else ParsePackets(payload, tokenLen + 4, payload[tokenLen + 3])
  }

  function After(packets: seq<Packet>, rest: Parsed): Parsed {
    if rest.Packets? then Packets(packets + rest.packets) else rest
  }

  lemma AfterTwice(packets: seq<Packet>, p: Packet, rest: Parsed)
    ensures After(packets, After([p], rest)) == After(packets + [p], rest)
  {
    if rest.Packets? { assert packets + ([p] + rest.packets) == packets + [p] + rest.packets; }
  }

  // A packet that fits its length field comes back out of its frame if the token fits its length byte,
  // which is why longer tokens are refused before a frame is made.
  lemma FrameRoundTrip(token: seq<Byte>, packet: Packet)
    requires |token| <= 0xFF && |packet| <= 0xFFFF
    ensures ParsePayload(DataPayload(token, packet)[2..]) == Packets([packet])
  {
    var payload := DataPayload(token, packet)[2..];
    PayloadFields(token, packet);
    hide DataPayload;
    assert ParsePackets(payload, |token| + 6 + |packet|, 0) == Packets([]);
  }

  // Packets behind their lengths, as a payload may carry several of them.
  function Packed(packets: seq<Packet>): seq<Byte>
    requires forall i :: 0 <= i < |packets| ==> |packets[i]| <= 0xFFFF
  {
    if packets == [] then []
    else [High(|packets[0]|), Low(|packets[0]|)] + packets[0] + Packed(packets[1..])
  }

  // Parsing gets past all packets that are there.
  lemma {:induction false} ParsingGoesOn(payload: seq<Byte>, idx: nat, packets: seq<Packet>, rest: seq<Byte>, more: nat)
    requires forall i :: 0 <= i < |packets| ==> |packets[i]| <= 0xFFFF
    requires idx <= |payload| && payload[idx..] == Packed(packets) + rest
    ensures idx + |Packed(packets)| <= |payload|
    ensures ParsePackets(payload, idx, |packets| + more) ==
              After(packets, ParsePackets(payload, idx + |Packed(packets)|, more))
    decreases packets
  {
    hide ParsePackets, After, BigEndian16;
    if packets == [] {
      AfterNothing(ParsePackets(payload, idx, more));
    } else {
      hide Packed;
      var p, tail := packets[0], packets[1..];
      PackedStarts(payload, idx, packets, rest);
      ParsingGoesOn(payload, idx + 2 + |p|, tail, rest, more);
      OneParsed(payload, idx, |p|, |packets| + more);
      AfterConcat(p, tail, ParsePackets(payload, idx + |Packed(packets)|, more));
      assert [p] + tail == packets;
    }
  }

  lemma PackedStarts(payload: seq<Byte>, idx: nat, packets: seq<Packet>, rest: seq<Byte>)
    requires packets != [] && forall i :: 0 <= i < |packets| ==> |packets[i]| <= 0xFFFF
    requires idx <= |payload| && payload[idx..] == Packed(packets) + rest
    ensures var p := packets[0];
      && idx + 2 + |p| <= |payload| && |Packed(packets)| == 2 + |p| + |Packed(packets[1..])|
      && BigEndian16(payload[idx], payload[idx + 1]) == |p| && payload[idx + 2..idx + 2 + |p|] == p
      && payload[idx + 2 + |p|..] == Packed(packets[1..]) + rest
  {
    var p, more := packets[0], Packed(packets[1..]);
    var head: seq<Byte> := [High(|p|), Low(|p|)];
    assert Packed(packets) == head + p + more;
    hide Packed;
    Regroup(head, p, more, rest);
    PieceAt(payload, idx, head, p + (more + rest));
    PieceAt(payload, idx + 2, p, more + rest);
    assert payload[idx] == head[0] && payload[idx + 1] == head[1];
  }

  lemma Regroup(a: seq<Byte>, b: seq<Byte>, c: seq<Byte>, d: seq<Byte>)
    ensures a + b + c + d == a + (b + (c + d))
  {}

  lemma PieceAt(s: seq<Byte>, at: nat, piece: seq<Byte>, rest: seq<Byte>)
    requires at <= |s| && s[at..] == piece + rest
    ensures at + |piece| <= |s| && s[at..at + |piece|] == piece && s[at + |piece|..] == rest
    ensures forall i :: 0 <= i < |piece| ==> s[at + i] == piece[i]
  {
    assert |s[at..]| == |piece| + |rest|;
    assert forall i :: 0 <= i < |s| - at ==> s[at + i] == s[at..][i];
  }

  lemma Behind(a: seq<Byte>, b: seq<Byte>)
    ensures (a + b)[..|a|] == a && (a + b)[|a|..] == b
  {}

  lemma AfterNothing(rest: Parsed)
    ensures After([], rest) == rest
  {
    if rest.Packets? { assert [] + rest.packets == rest.packets; }
  }

  lemma AfterConcat(p: Packet, tail: seq<Packet>, rest: Parsed)
    ensures After([p], After(tail, rest)) == After([p] + tail, rest)
  {
    if rest.Packets? { assert [p] + (tail + rest.packets) == [p] + tail + rest.packets; }
  }

  lemma OneParsed(payload: seq<Byte>, idx: nat, length: nat, count: nat)
    requires count > 0 && idx + 2 + length <= |payload| && BigEndian16(payload[idx], payload[idx + 1]) == length
    ensures ParsePackets(payload, idx, count) ==
              After([payload[idx + 2..idx + 2 + length]], ParsePackets(payload, idx + 2 + length, count - 1))
  {}

  // A payload whose token and packets are all there gives the packets, if it says how many; if it says
  // more, it is cut short in a length or in the data behind one, and that is the error.
  lemma PayloadParses(token: seq<Byte>, a: Byte, b: Byte, packets: seq<Packet>, count: Byte, rest: seq<Byte>)
    requires |token| <= 0xFF && |packets| <= count && forall i :: 0 <= i < |packets| ==> |packets[i]| <= 0xFFFF
    requires count == |packets| || |rest| < 2 || |rest| < 2 + BigEndian16(rest[0], rest[1])
    ensures var n: Byte := |token|;
      ParsePayload([n] + token + [a, b, count] + Packed(packets) + rest) ==
        if count == |packets| then Packets(packets) else if |rest| < 2 then LengthOverflow else DataOverflow
  {
    var n: Byte := |token|;
    HeadOf(token, a, b, count, Packed(packets), rest);
    hide ParsePackets, Packed, ParsePayload, BigEndian16;
    PacketsParse([n] + token + [a, b, count] + Packed(packets) + rest, |token| + 4, packets, count, rest);
  }

  lemma PacketsParse(payload: seq<Byte>, idx: nat, packets: seq<Packet>, count: nat, rest: seq<Byte>)
    requires |packets| <= count && forall i :: 0 <= i < |packets| ==> |packets[i]| <= 0xFFFF
    requires idx <= |payload| && payload[idx..] == Packed(packets) + rest
    requires count == |packets| || |rest| < 2 || |rest| < 2 + BigEndian16(rest[0], rest[1])
    ensures ParsePackets(payload, idx, count) ==
              if count == |packets| then Packets(packets) else if |rest| < 2 then LengthOverflow else DataOverflow
  {
    hide ParsePackets, Packed, BigEndian16;
    var end := idx + |Packed(packets)|;
    ParsingGoesOn(payload, idx, packets, rest, count - |packets|);
    PieceAt(payload, idx, Packed(packets), rest);
    ParsingEnds(payload, end, count - |packets|);
    assert packets + [] == packets;
  }

  lemma HeadOf(token: seq<Byte>, a: Byte, b: Byte, count: Byte, packed: seq<Byte>, rest: seq<Byte>)
    requires |token| <= 0xFF
    ensures var n: Byte := |token|;
      var payload := [n] + token + [a, b, count] + packed + rest;
      && payload[|token| + 4..] == packed + rest
      && ParsePayload(payload) == ParsePackets(payload, |token| + 4, count)
  {
    var n: Byte := |token|;
    var before := [n] + token + [a, b, count];
    hide ParsePackets;
    assert before + packed + rest == before + (packed + rest);
    Behind(before, packed + rest);
    assert before[0] == n && before[|token| + 3] == count;
  }

  lemma ParsingEnds(payload: seq<Byte>, idx: nat, count: nat)
    requires idx <= |payload|
    ensures count == 0 ==> ParsePackets(payload, idx, count) == Packets([])
    ensures count > 0 && |payload| - idx < 2 ==> ParsePackets(payload, idx, count) == LengthOverflow
    ensures count > 0 && |payload| - idx >= 2 && |payload| - idx < 2 + BigEndian16(payload[idx..][0], payload[idx..][1]) ==>
              ParsePackets(payload, idx, count) == DataOverflow
  {}

  // A payload that ends before the count is short of its token, or of everything.
  lemma HeadCutShort(payload: seq<Byte>)
    ensures ParsePayload(payload) == TooShort <==> |payload| < 4
    ensures |payload| >= 4 ==> (ParsePayload(payload) == TokenOverflow <==> |payload| < payload[0] as int + 4)
  {
    if |payload| >= 4 {
      var tokenLen: int := payload[0];
      if |payload| >= tokenLen + 4 { PacketsNeverShort(payload, tokenLen + 4, payload[tokenLen + 3]); }
    }
  }

  lemma {:induction false} PacketsNeverShort(payload: seq<Byte>, idx: nat, count: nat)
    requires idx <= |payload|
    ensures !ParsePackets(payload, idx, count).TooShort? && !ParsePackets(payload, idx, count).TokenOverflow?
    decreases count
  {
    if count > 0 && idx + 2 <= |payload| {
      var length := BigEndian16(payload[idx], payload[idx + 1]);
      if idx + 2 + length <= |payload| { PacketsNeverShort(payload, idx + 2 + length, count - 1); }
    }
  }

  // The frame, byte by byte: version and command, the token behind its length, two reserved bytes, a count
  // of one, and the packet behind its length, high byte first.
  lemma FrameLayout(token: seq<Byte>, packet: Packet)
    requires |token| <= 0xFF && |packet| <= 0xFFFF
    ensures var f, n := DataPayload(token, packet), |token|;
      && |f| == n + 8 + |packet| && f[0] == 0x05 && f[1] == 0x14 && f[2] == n && f[3..n + 3] == token
      && f[n + 3] == 0 && f[n + 4] == 0 && f[n + 5] == 1
      && f[n + 6] as int * 256 + f[n + 7] as int == |packet| && f[n + 8..] == packet
  {
    var header := DataHeader(token, |packet|);
    HeaderFields(token, |packet|);
    assert header[1..|token| + 1] == token && header[|token| + 1] == 0 && header[|token| + 2] == 0;
    hide DataHeader;
    assert DataPayload(token, packet)[2..] == header + packet;
  }

  // Where the fields of the frame are, after the version and the command.
  lemma PayloadFields(token: seq<Byte>, packet: Packet)
    requires |token| <= 0xFF && |packet| <= 0xFFFF
    ensures var payload, n := DataPayload(token, packet)[2..], |token|;
      && |payload| == n + 6 + |packet| && payload[0] == n && payload[n + 3] == 1
      && BigEndian16(payload[n + 4], payload[n + 5]) == |packet|
      && payload[n + 6..n + 6 + |packet|] == packet
  {
    var header := DataHeader(token, |packet|);
    HeaderFields(token, |packet|);
    hide DataHeader;
    assert DataPayload(token, packet)[2..] == header + packet;
  }

  lemma HeaderFields(token: seq<Byte>, length: Uint16)
    requires |token| <= 0xFF
    ensures var h, n := DataHeader(token, length), |token|;
      |h| == n + 6 && h[0] == n && h[n + 3] == 1 && BigEndian16(h[n + 4], h[n + 5]) == length
  {}
}
