// The packets a capture file is given: made-up IPv4 or IPv6 headers and TCP headers around captured
// payload, with checksums that verify and sequence numbers that follow the payload.
module Pcap {
  import opened Bytes
  import opened Checksum

  const MAX_TCP_PAYLOAD := 60000

  function Be16(n: Uint16): seq<Byte> { [High(n), Low(n)] }

  function Be32(n: Uint32): seq<Byte> { Be16(n / 0x1_0000) + Be16(n % 0x1_0000) }

  function Cut16(n: int): Uint16 { n % 0x1_0000 }

  // ---- The packets as values, with the checksum fields given.

  function TcpHeader(srcPort: int, dstPort: int, seqno: Uint32, ackno: Uint32, check: Uint16): seq<Byte> {
    Be16(Cut16(srcPort)) + Be16(Cut16(dstPort)) + Be32(seqno) + Be32(ackno) + [0x50, 0x18, 0xFF, 0xFF] + Be16(check) + [0, 0]
  }

  function IPv4Header(src: seq<Byte>, dst: seq<Byte>, total: nat, check: Uint16): seq<Byte> {
    [0x45, 0] + Be16(Cut16(total)) + [0, 0, 0, 0, 64, 6] + Be16(check) + (src + dst)
  }

  function IPv6Header(src: seq<Byte>, dst: seq<Byte>, length: nat): seq<Byte> {
    [0x60, 0, 0, 0] + Be16(Cut16(length)) + [6, 64] + (src + dst)
  }

  // The pseudo-headers: section 3.1 of RFC 9293 and section 8.1 of RFC 8200.
  function Pseudo4(src: seq<Byte>, dst: seq<Byte>, length: nat): seq<Byte> {
    src + dst + [0, 6] + Be16(Cut16(length))
  }

  function Pseudo6(src: seq<Byte>, dst: seq<Byte>, length: nat): seq<Byte> {
    src + dst + Be32(length % 0x1_0000_0000) + [0, 0, 0, 6]
  }

  // The checksum that goes into the field, computed over the field as zero.
  function IPv4Check(src: seq<Byte>, dst: seq<Byte>, total: nat): Uint16 {
    Internet(IPv4Header(src, dst, total, 0))
  }

  function TcpCheck(pseudo: seq<Byte>, srcPort: int, dstPort: int, seqno: Uint32, ackno: Uint32,
          payload: seq<Byte>): Uint16 {
    Internet(pseudo + (TcpHeader(srcPort, dstPort, seqno, ackno, 0) + payload))
  }

  function IPv4Packet(src: seq<Byte>, dst: seq<Byte>, srcPort: int, dstPort: int, seqno: Uint32, ackno: Uint32,
          payload: seq<Byte>): seq<Byte> {
    var check := TcpCheck(Pseudo4(src, dst, 20 + |payload|), srcPort, dstPort, seqno, ackno, payload);
    IPv4Header(src, dst, 40 + |payload|, IPv4Check(src, dst, 40 + |payload|)) + TcpHeader(srcPort, dstPort, seqno, ackno, check) + payload
  }

  function IPv6Packet(src: seq<Byte>, dst: seq<Byte>, srcPort: int, dstPort: int, seqno: Uint32, ackno: Uint32,
          payload: seq<Byte>): seq<Byte> {
    var check := TcpCheck(Pseudo6(src, dst, 20 + |payload|), srcPort, dstPort, seqno, ackno, payload);
    IPv6Header(src, dst, 20 + |payload|) + TcpHeader(srcPort, dstPort, seqno, ackno, check) + payload
  }

  // ---- They verify: the receiver's sum over header, or pseudo-header and segment, folds to all ones.

  // The header before and after its checksum field.
  lemma TcpHeaderParts(srcPort: int, dstPort: int, seqno: Uint32, ackno: Uint32, check: Uint16)
    ensures var front := Be16(Cut16(srcPort)) + Be16(Cut16(dstPort)) + Be32(seqno) + Be32(ackno) + [0x50, 0x18, 0xFF, 0xFF];
      && |front| == 16 && TcpHeader(srcPort, dstPort, seqno, ackno, check) == front + [High(check), Low(check)] + [0, 0]
      && |TcpHeader(srcPort, dstPort, seqno, ackno, check)| == 20
  {}

  lemma SegmentVerifies(pseudo: seq<Byte>, srcPort: int, dstPort: int, seqno: Uint32, ackno: Uint32, payload: seq<Byte>)
    requires |pseudo| % 2 == 0
    ensures var check := TcpCheck(pseudo, srcPort, dstPort, seqno, ackno, payload);
      Internet(pseudo + (TcpHeader(srcPort, dstPort, seqno, ackno, check) + payload)) == 0
  {
    var front := Be16(Cut16(srcPort)) + Be16(Cut16(dstPort)) + Be32(seqno) + Be32(ackno) + [0x50, 0x18, 0xFF, 0xFF];
    var check := TcpCheck(pseudo, srcPort, dstPort, seqno, ackno, payload);
    TcpHeaderParts(srcPort, dstPort, seqno, ackno, 0);
    TcpHeaderParts(srcPort, dstPort, seqno, ackno, check);
    hide TcpHeader, Internet;
    Regroup(pseudo, front, [0, 0], [0, 0], payload);
    Regroup(pseudo, front, [High(check), Low(check)], [0, 0], payload);
    FieldVerifies(pseudo + front, [0, 0] + payload);
  }

  lemma Regroup(a: seq<Byte>, b: seq<Byte>, c: seq<Byte>, d: seq<Byte>, e: seq<Byte>)
    ensures a + (b + c + d + e) == a + b + c + (d + e)
  {}

  lemma IPv4HeaderVerifies(src: seq<Byte>, dst: seq<Byte>, total: nat)
    requires |src| == 4 && |dst| == 4
    ensures |IPv4Header(src, dst, total, IPv4Check(src, dst, total))| == 20
    ensures Internet(IPv4Header(src, dst, total, IPv4Check(src, dst, total))) == 0
  {
    var front := [0x45, 0] + Be16(Cut16(total)) + [0, 0, 0, 0, 64, 6];
    FieldVerifies(front, src + dst);
  }

  // The number in two or four octets, high octet first.
  function At2(s: seq<Byte>, i: nat): int
    requires i + 2 <= |s|
  {
    s[i] as int * 0x100 + s[i + 1] as int
  }

  function At4(s: seq<Byte>, i: nat): int
    requires i + 4 <= |s|
  {
    At2(s, i) * 0x1_0000 + At2(s, i + 2)
  }

  // The header of section 3.1 of RFC 9293, octet by octet but for the checksum: ports, sequence and
  // acknowledgment numbers, five words of header, PSH and ACK, the largest window, no urgent data.
  ghost predicate TcpFields(h: seq<Byte>, srcPort: int, dstPort: int, seqno: Uint32, ackno: Uint32) {
    && |h| == 20
    && At2(h, 0) == srcPort % 0x1_0000 && At2(h, 2) == dstPort % 0x1_0000 && At4(h, 4) == seqno && At4(h, 8) == ackno
    && h[12] == 0x50 && h[13] == 0x18 && At2(h, 14) == 0xFFFF && At2(h, 18) == 0
  }

  // The header of section 3.1 of RFC 791, but for the checksum: version 4 with five words of header, the
  // total length, no fragment, 64 hops, TCP, the addresses.
  ghost predicate IPv4Fields(h: seq<Byte>, src: seq<Byte>, dst: seq<Byte>, total: nat) {
    && |h| == 20
    && h[0] == 0x45 && h[1] == 0 && At2(h, 2) == total && At4(h, 4) == 0 && h[8] == 64 && h[9] == 6
    && h[12..16] == src && h[16..] == dst
  }

  // The header of section 3 of RFC 8200: version 6, the payload length, TCP, 64 hops, the addresses.
  ghost predicate IPv6Fields(h: seq<Byte>, src: seq<Byte>, dst: seq<Byte>, length: nat) {
    && |h| == 40
    && At4(h, 0) == 0x6000_0000 && At2(h, 4) == length && h[6] == 6 && h[7] == 64
    && h[8..24] == src && h[24..] == dst
  }

  // What the checksum covers in front of a segment: section 3.1 of RFC 9293, section 8.1 of RFC 8200.
  ghost predicate IsPseudo4(p: seq<Byte>, src: seq<Byte>, dst: seq<Byte>, length: nat) {
    |p| == 12 && p[..4] == src && p[4..8] == dst && p[8] == 0 && p[9] == 6 && At2(p, 10) == length
  }

  ghost predicate IsPseudo6(p: seq<Byte>, src: seq<Byte>, dst: seq<Byte>, length: nat) {
    |p| == 40 && p[..16] == src && p[16..32] == dst && At4(p, 32) == length && At4(p, 36) == 6
  }

  lemma TcpHeaderFields(srcPort: int, dstPort: int, seqno: Uint32, ackno: Uint32, check: Uint16)
    ensures TcpFields(TcpHeader(srcPort, dstPort, seqno, ackno, check), srcPort, dstPort, seqno, ackno)
  {
    var h := TcpHeader(srcPort, dstPort, seqno, ackno, check);
    assert h[4..8] == Be32(seqno) && h[8..12] == Be32(ackno);
    Be32Read(seqno);
    Be32Read(ackno);
  }

  lemma Be32Read(n: Uint32)
    ensures |Be32(n)| == 4 && At4(Be32(n), 0) == n
  {}

  // For every address pair, port, sequence number and payload a capture can hand over: the lengths in the
  // headers are the real ones, the IPv4 header verifies, and so does the segment with its pseudo-header.
  lemma IPv4PacketVerifies(src: seq<Byte>, dst: seq<Byte>, srcPort: int, dstPort: int, seqno: Uint32,
          ackno: Uint32, payload: seq<Byte>)
    requires |src| == 4 && |dst| == 4 && |payload| <= MAX_TCP_PAYLOAD
    ensures var p := IPv4Packet(src, dst, srcPort, dstPort, seqno, ackno, payload);
      && |p| == 40 + |payload| && p[40..] == payload
      && IPv4Fields(p[..20], src, dst, |p|)
      && TcpFields(p[20..40], srcPort, dstPort, seqno, ackno)
      && Internet(p[..20]) == 0
      && var pseudo := Pseudo4(src, dst, |p| - 20);
         IsPseudo4(pseudo, src, dst, |p| - 20) && Internet(pseudo + p[20..]) == 0 && |pseudo + p[20..]| <= SAFE_LENGTH
  {
    hide IPv4Header, TcpHeader, IPv4Fields, TcpFields, Internet, Pseudo4, TcpCheck, IPv4Check;
    var pseudo := Pseudo4(src, dst, 20 + |payload|);
    Pseudo4Layout(src, dst, 20 + |payload|);
    var check := TcpCheck(pseudo, srcPort, dstPort, seqno, ackno, payload);
    var header, tcp := IPv4Header(src, dst, 40 + |payload|, IPv4Check(src, dst, 40 + |payload|)), TcpHeader(srcPort, dstPort, seqno, ackno, check);
    IPv4HeaderVerifies(src, dst, 40 + |payload|);
    IPv4HeaderFields(src, dst, 40 + |payload|, IPv4Check(src, dst, 40 + |payload|));
    SegmentVerifies(pseudo, srcPort, dstPort, seqno, ackno, payload);
    TcpHeaderParts(srcPort, dstPort, seqno, ackno, check);
    TcpHeaderFields(srcPort, dstPort, seqno, ackno, check);
    Parts(header, tcp, payload);
    assert |pseudo + (tcp + payload)| == 12 + 20 + |payload|;
  }

  lemma IPv4HeaderFields(src: seq<Byte>, dst: seq<Byte>, total: nat, check: Uint16)
    requires |src| == 4 && |dst| == 4 && total < 0x1_0000
    ensures IPv4Fields(IPv4Header(src, dst, total, check), src, dst, total)
  {
    var h := IPv4Header(src, dst, total, check);
    var front := [0x45, 0] + Be16(Cut16(total)) + [0, 0, 0, 0, 64, 6] + Be16(check);
    assert front[2] == High(total) && front[3] == Low(total);
    EndsWithAddresses(front, src, dst);
    assert h[16..] == h[16..20];
  }

  lemma EndsWithAddresses(front: seq<Byte>, src: seq<Byte>, dst: seq<Byte>)
    requires |src| == |dst|
    ensures var h, n := front + (src + dst), |front|;
      h[n..n + |src|] == src && h[n + |src|..n + 2 * |src|] == dst && forall i :: 0 <= i < n ==> h[i] == front[i]
  {}

  lemma Pseudo4Layout(src: seq<Byte>, dst: seq<Byte>, length: nat)
    requires |src| == 4 && |dst| == 4 && length < 0x1_0000
    ensures |Pseudo4(src, dst, length)| == 12 && IsPseudo4(Pseudo4(src, dst, length), src, dst, length)
  {}

  lemma Pseudo6Layout(src: seq<Byte>, dst: seq<Byte>, length: nat)
    requires |src| == 16 && |dst| == 16 && length < 0x1_0000_0000
    ensures |Pseudo6(src, dst, length)| == 40 && IsPseudo6(Pseudo6(src, dst, length), src, dst, length)
  {
    Be32Read(length);
    assert Pseudo6(src, dst, length)[32..36] == Be32(length);
  }

  // A packet of a header, a TCP header and a payload, taken apart again.
  lemma Parts(header: seq<Byte>, tcp: seq<Byte>, payload: seq<Byte>)
    requires |tcp| == 20
    ensures var p, n := header + tcp + payload, |header|;
      && p[..n] == header && p[n..] == tcp + payload && p[n + 20..] == payload && p[n..n + 20] == tcp
      && forall i, j :: 0 <= i <= j <= n ==> p[i..j] == header[i..j]
  {}

  lemma IPv6PacketVerifies(src: seq<Byte>, dst: seq<Byte>, srcPort: int, dstPort: int, seqno: Uint32,
          ackno: Uint32, payload: seq<Byte>)
    requires |src| == 16 && |dst| == 16 && |payload| <= MAX_TCP_PAYLOAD
    ensures var p := IPv6Packet(src, dst, srcPort, dstPort, seqno, ackno, payload);
      && |p| == 60 + |payload| && p[60..] == payload
      && IPv6Fields(p[..40], src, dst, |p| - 40)
      && TcpFields(p[40..60], srcPort, dstPort, seqno, ackno)
      && var pseudo := Pseudo6(src, dst, |p| - 40);
         IsPseudo6(pseudo, src, dst, |p| - 40) && Internet(pseudo + p[40..]) == 0 && |pseudo + p[40..]| <= SAFE_LENGTH
  {
    hide IPv6Header, TcpHeader, IPv6Fields, TcpFields, Internet, Pseudo6, TcpCheck;
    var pseudo := Pseudo6(src, dst, 20 + |payload|);
    Pseudo6Layout(src, dst, 20 + |payload|);
    var check := TcpCheck(pseudo, srcPort, dstPort, seqno, ackno, payload);
    var header, tcp := IPv6Header(src, dst, 20 + |payload|), TcpHeader(srcPort, dstPort, seqno, ackno, check);
    IPv6HeaderFields(src, dst, 20 + |payload|);
    SegmentVerifies(pseudo, srcPort, dstPort, seqno, ackno, payload);
    TcpHeaderParts(srcPort, dstPort, seqno, ackno, check);
    TcpHeaderFields(srcPort, dstPort, seqno, ackno, check);
    Parts(header, tcp, payload);
    assert |pseudo + (tcp + payload)| == 40 + 20 + |payload|;
  }

  lemma IPv6HeaderFields(src: seq<Byte>, dst: seq<Byte>, length: nat)
    requires |src| == 16 && |dst| == 16 && length < 0x1_0000
    ensures IPv6Fields(IPv6Header(src, dst, length), src, dst, length)
  {
    var h := IPv6Header(src, dst, length);
    var front := [0x60, 0, 0, 0] + Be16(Cut16(length)) + [6, 64];
    assert front[4] == High(length) && front[5] == Low(length) && front[6] == 6;
    EndsWithAddresses(front, src, dst);
    assert h[24..] == h[24..40];
  }

  // ---- The serialisers, filling a packet buffer in place.

  // `data` written over `s` from `at`.
  ghost function Patch(s: seq<Byte>, at: nat, data: seq<Byte>): (r: seq<Byte>)
    requires at + |data| <= |s|
    ensures |r| == |s|
  {
    s[..at] + data + s[at + |data|..]
  }

  // Writing on where the last write ended.
  lemma PatchOn(s: seq<Byte>, at: nat, x: seq<Byte>, y: seq<Byte>)
    requires at + |x| + |y| <= |s|
    ensures Patch(Patch(s, at, x), at + |x|, y) == Patch(s, at, x + y)
  {}

  // Zero bytes that nobody writes are as good as written.
  lemma PatchZeros(s: seq<Byte>, at: nat, x: seq<Byte>, zeros: seq<Byte>)
    requires at + |x| + |zeros| <= |s|
    requires forall i :: 0 <= i < |zeros| ==> zeros[i] == 0 == s[at + |x| + i]
    ensures Patch(s, at, x) == Patch(s, at, x + zeros)
  {}

  method PutByte(a: array<Byte>, at: nat, n: Byte)
    requires at < a.Length
    modifies a
    ensures a[..] == Patch(old(a[..]), at, [n])
  {
    a[at] := n;
  }

  method PutUint16(a: array<Byte>, at: nat, n: Uint16)
    requires at + 2 <= a.Length
    modifies a
    ensures a[..] == Patch(old(a[..]), at, Be16(n))
  {
    a[at], a[at + 1] := High(n), Low(n);
  }

  method PutUint32(a: array<Byte>, at: nat, n: Uint32)
    requires at + 4 <= a.Length
    modifies a
    ensures a[..] == Patch(old(a[..]), at, Be32(n))
  {
    PatchOn(a[..], at, Be16(n / 0x1_0000), Be16(n % 0x1_0000));
    hide Patch;
    PutUint16(a, at, n / 0x1_0000);
    PutUint16(a, at + 2, n % 0x1_0000);
  }

  method Copy(a: array<Byte>, at: nat, data: seq<Byte>)
    requires at + |data| <= a.Length
    modifies a
    ensures a[..] == Patch(old(a[..]), at, data)
  {
    forall i | 0 <= i < |data| { a[at + i] := data[i]; }
  }

  ghost predicate ZeroAt(s: seq<Byte>, at: nat, n: nat) {
    at + n <= |s| && forall i :: at <= i < at + n ==> s[i] == 0
  }

  // writeTCPHeader into the zero bytes at `at`; the checksum stays zero.
  method WriteTCPHeader(a: array<Byte>, at: nat, srcPort: int, dstPort: int, seqno: Uint32, ackno: Uint32)
    requires ZeroAt(a[..], at, 20)
    modifies a
    ensures a[..] == Patch(old(a[..]), at, TcpHeader(srcPort, dstPort, seqno, ackno, 0))
  {
    TcpHeaderPatched(a[..], at, srcPort, dstPort, seqno, ackno);
    hide Patch, TcpHeader, ZeroAt;
    PutUint16(a, at, Cut16(srcPort));
    PutUint16(a, at + 2, Cut16(dstPort));
    PutUint32(a, at + 4, seqno);
    PutUint32(a, at + 8, ackno);
    PutByte(a, at + 12, 5 * 16);
    PutByte(a, at + 13, 0x18);
    PutUint16(a, at + 14, 65535);
  }

  // The writes of writeTCPHeader, one after the other, are one write of the header.
  lemma TcpHeaderPatched(s: seq<Byte>, at: nat, srcPort: int, dstPort: int, seqno: Uint32, ackno: Uint32)
    requires ZeroAt(s, at, 20)
    ensures |TcpHeader(srcPort, dstPort, seqno, ackno, 0)| == 20
    ensures
      var s1 := Patch(s, at, Be16(Cut16(srcPort)));
      var s2 := Patch(s1, at + 2, Be16(Cut16(dstPort)));
      var s3 := Patch(s2, at + 4, Be32(seqno));
      var s4 := Patch(s3, at + 8, Be32(ackno));
      Patch(Patch(Patch(s4, at + 12, [0x50]), at + 13, [0x18]), at + 14, [0xFF, 0xFF])
        == Patch(s, at, TcpHeader(srcPort, dstPort, seqno, ackno, 0))
  {
    var p1, p2, p3, p4 := Be16(Cut16(srcPort)), Be16(Cut16(dstPort)), Be32(seqno), Be32(ackno);
    TcpHeaderParts(srcPort, dstPort, seqno, ackno, 0);
    var front := p1 + p2 + p3 + p4 + [0x50] + [0x18] + [0xFF, 0xFF];
    assert front + [0, 0, 0, 0] == TcpHeader(srcPort, dstPort, seqno, ackno, 0);
    PatchZeros(s, at, front, [0, 0, 0, 0]);
    hide Patch, TcpHeader, ZeroAt;
    PatchOn(s, at, p1, p2);
    PatchOn(s, at, p1 + p2, p3);
    PatchOn(s, at, p1 + p2 + p3, p4);
    PatchOn(s, at, p1 + p2 + p3 + p4, [0x50]);
    PatchOn(s, at, p1 + p2 + p3 + p4 + [0x50], [0x18]);
    PatchOn(s, at, p1 + p2 + p3 + p4 + [0x50] + [0x18], [0xFF, 0xFF]);
  }

  // The IPv4 header, its checksum included.
  method WriteIPv4Header(a: array<Byte>, src: seq<Byte>, dst: seq<Byte>)
    requires ZeroAt(a[..], 0, 20) && |src| == 4 && |dst| == 4
    modifies a
    ensures a[..] == Patch(old(a[..]), 0, IPv4Header(src, dst, a.Length, IPv4Check(src, dst, a.Length)))
  {
    ghost var s := a[..];
    FillIPv4Header(a, src, dst);
    ghost var zeroed := IPv4Header(src, dst, a.Length, 0);
    assert a[..20] == zeroed;
    var check := FoldingChecksum(a[..20]);
    PutUint16(a, 10, check);
    IPv4FieldPatched(s, src, dst, a.Length, check);
  }

  lemma IPv4FieldPatched(s: seq<Byte>, src: seq<Byte>, dst: seq<Byte>, total: nat, check: Uint16)
    requires |s| >= 20 && |src| == 4 && |dst| == 4
    ensures |IPv4Header(src, dst, total, check)| == |IPv4Header(src, dst, total, 0)| == 20
    ensures Patch(Patch(s, 0, IPv4Header(src, dst, total, 0)), 10, Be16(check)) == Patch(s, 0, IPv4Header(src, dst, total, check))
  {
    var front := [0x45, 0] + Be16(Cut16(total)) + [0, 0, 0, 0, 64, 6];
    PatchInside(s, front, Be16(0), Be16(check), src + dst);
  }

  // Overwriting the middle of what was written at the front.
  lemma PatchInside(s: seq<Byte>, front: seq<Byte>, was: seq<Byte>, now: seq<Byte>, rest: seq<Byte>)
    requires |was| == |now| && |front + was + rest| <= |s|
    ensures Patch(Patch(s, 0, front + was + rest), |front|, now) == Patch(s, 0, front + now + rest)
  {}

  // The fields in the order of the header; the checksum stays zero.
  method FillIPv4Header(a: array<Byte>, src: seq<Byte>, dst: seq<Byte>)
    requires ZeroAt(a[..], 0, 20) && |src| == 4 && |dst| == 4
    modifies a
    ensures a[..] == Patch(old(a[..]), 0, IPv4Header(src, dst, a.Length, 0))
  {
    ghost var s := a[..];
    ghost var length := Be16(Cut16(a.Length));
    PatchZeros(s, 0, [0x45], [0]);
    PatchOn(s, 0, [0x45, 0], length);
    PatchZeros(s, 0, [0x45, 0] + length, [0, 0, 0, 0]);
    PatchOn(s, 0, [0x45, 0] + length + [0, 0, 0, 0], [64]);
    PatchOn(s, 0, [0x45, 0] + length + [0, 0, 0, 0] + [64], [6]);
    PatchZeros(s, 0, [0x45, 0] + length + [0, 0, 0, 0] + [64] + [6], [0, 0]);
    PatchOn(s, 0, [0x45, 0] + length + [0, 0, 0, 0] + [64] + [6] + [0, 0], src);
    PatchOn(s, 0, [0x45, 0] + length + [0, 0, 0, 0] + [64] + [6] + [0, 0] + src, dst);
    assert [0x45] + [0] == [0x45, 0];
    assert [0x45, 0] + length + [0, 0, 0, 0] + [64] + [6] + [0, 0] + src + dst == IPv4Header(src, dst, a.Length, 0);
    hide Patch, IPv4Header, ZeroAt;
    PutByte(a, 0, 0x45);
    PutUint16(a, 2, Cut16(a.Length));
    PutByte(a, 8, 64);
    PutByte(a, 9, 6);
    Copy(a, 12, src);
    Copy(a, 16, dst);
  }

  // The IPv6 header.
  method WriteIPv6Header(a: array<Byte>, src: seq<Byte>, dst: seq<Byte>)
    requires ZeroAt(a[..], 0, 40) && |src| == 16 && |dst| == 16
    modifies a
    ensures a[..] == Patch(old(a[..]), 0, IPv6Header(src, dst, a.Length - 40))
  {
    ghost var s := a[..];
    ghost var length := Be16(Cut16(a.Length - 40));
    PatchZeros(s, 0, [0x60], [0, 0, 0]);
    PatchOn(s, 0, [0x60, 0, 0, 0], length);
    PatchOn(s, 0, [0x60, 0, 0, 0] + length, [6]);
    PatchOn(s, 0, [0x60, 0, 0, 0] + length + [6], [64]);
    PatchOn(s, 0, [0x60, 0, 0, 0] + length + [6] + [64], src);
    PatchOn(s, 0, [0x60, 0, 0, 0] + length + [6] + [64] + src, dst);
    assert [0x60] + [0, 0, 0] == [0x60, 0, 0, 0];
    assert [0x60, 0, 0, 0] + length + [6] + [64] + src + dst == IPv6Header(src, dst, a.Length - 40);
    hide Patch, IPv6Header, ZeroAt;
    PutByte(a, 0, 0x60);
    PutUint16(a, 4, Cut16(a.Length - 40));
    PutByte(a, 6, 6);
    PutByte(a, 7, 64);
    Copy(a, 8, src);
    Copy(a, 24, dst);
  }

  // The TCP header and the payload after an IP header of length `at`, then the checksum over the
  // pseudo-header and both.
  method FillSegment(a: array<Byte>, at: nat, pseudo: seq<Byte>, srcPort: int, dstPort: int, seqno: Uint32,
          ackno: Uint32, payload: seq<Byte>)
    requires a.Length == at + 20 + |payload| && ZeroAt(a[..], at, 20) && |payload| <= MAX_TCP_PAYLOAD && |pseudo| <= 40
    modifies a
    ensures a[..] == old(a[..at])
                     + TcpHeader(srcPort, dstPort, seqno, ackno, TcpCheck(pseudo, srcPort, dstPort, seqno, ackno, payload)) + payload
  {
    ghost var s := a[..];
    TcpHeaderParts(srcPort, dstPort, seqno, ackno, 0);
    PatchOn(s, at, TcpHeader(srcPort, dstPort, seqno, ackno, 0), payload);
    PatchToEnd(s, at, TcpHeader(srcPort, dstPort, seqno, ackno, 0) + payload);
    WriteTCPHeader(a, at, srcPort, dstPort, seqno, ackno);
    Copy(a, at + 20, payload);
    hide Patch, TcpHeader;
    assert a[at..] == TcpHeader(srcPort, dstPort, seqno, ackno, 0) + payload;
    var check := FoldingChecksum(pseudo + a[at..]);
    PutUint16(a, at + 16, check);
    FieldPatched(s[..at], srcPort, dstPort, seqno, ackno, check, payload);
  }

  lemma PatchToEnd(s: seq<Byte>, at: nat, x: seq<Byte>)
    requires at + |x| == |s|
    ensures Patch(s, at, x) == s[..at] + x && (s[..at] + x)[at..] == x
  {}

  lemma FieldPatched(front: seq<Byte>, srcPort: int, dstPort: int, seqno: Uint32, ackno: Uint32, check: Uint16,
          payload: seq<Byte>)
    ensures |TcpHeader(srcPort, dstPort, seqno, ackno, 0)| == 20
    ensures Patch(front + (TcpHeader(srcPort, dstPort, seqno, ackno, 0) + payload), |front| + 16, Be16(check))
         == front + TcpHeader(srcPort, dstPort, seqno, ackno, check) + payload
  {
    var tcp := Be16(Cut16(srcPort)) + Be16(Cut16(dstPort)) + Be32(seqno) + Be32(ackno) + [0x50, 0x18, 0xFF, 0xFF];
    TcpHeaderParts(srcPort, dstPort, seqno, ackno, 0);
    TcpHeaderParts(srcPort, dstPort, seqno, ackno, check);
    hide TcpHeader;
    PatchMiddle(front, tcp, [High(0), Low(0)], Be16(check), [0, 0], payload);
  }

  lemma PatchMiddle(front: seq<Byte>, a: seq<Byte>, was: seq<Byte>, now: seq<Byte>, b: seq<Byte>, c: seq<Byte>)
    requires |was| == |now|
    ensures Patch(front + (a + was + b + c), |front| + |a|, now) == front + (a + now + b) + c
  {}

  method SerializeIPv4TCP(src: seq<Byte>, dst: seq<Byte>, srcPort: int, dstPort: int, seqno: Uint32,
          ackno: Uint32, payload: seq<Byte>)
      returns (packet: array<Byte>)
    requires |src| == 4 && |dst| == 4 && |payload| <= MAX_TCP_PAYLOAD
    ensures fresh(packet) && packet[..] == IPv4Packet(src, dst, srcPort, dstPort, seqno, ackno, payload)
  {
    packet := new Byte[40 + |payload|](i => 0);
    IPv4HeaderVerifies(src, dst, packet.Length);
    var pseudo := src + dst + [0, 6] + Be16(Cut16(packet.Length - 20));
    WriteIPv4Header(packet, src, dst);
    assert packet[..20] == IPv4Header(src, dst, packet.Length, IPv4Check(src, dst, packet.Length));
    FillSegment(packet, 20, pseudo, srcPort, dstPort, seqno, ackno, payload);
  }

  method SerializeIPv6TCP(src: seq<Byte>, dst: seq<Byte>, srcPort: int, dstPort: int, seqno: Uint32,
          ackno: Uint32, payload: seq<Byte>)
      returns (packet: array<Byte>)
    requires |src| == 16 && |dst| == 16 && |payload| <= MAX_TCP_PAYLOAD
    ensures fresh(packet) && packet[..] == IPv6Packet(src, dst, srcPort, dstPort, seqno, ackno, payload)
  {
    packet := new Byte[60 + |payload|](i => 0);
    var pseudo := src + dst + Be32((packet.Length - 40) % 0x1_0000_0000) + [0, 0, 0, 6];
    WriteIPv6Header(packet, src, dst);
    assert packet[..40] == IPv6Header(src, dst, packet.Length - 40);
    FillSegment(packet, 40, pseudo, srcPort, dstPort, seqno, ackno, payload);
  }

  // ---- Streams.

  datatype Event = Event(outgoing: bool, local: Endpoint, remote: Endpoint, payload: seq<Byte>)

  datatype Endpoint = Endpoint(ip: seq<Byte>, port: int)

  // The sequence numbers that the next packet of each direction takes.
  datatype Sequences = Sequences(send: Uint32, receive: Uint32)

  // The connection id in the high bits, and half of the low ones between the directions.
  function FirstSequences(connID: Uint32): Sequences {
    var base: Uint32 := connID * 0x10_0000 % 0x1_0000_0000;
    Sequences(Add32(base, 1), Add32(base, 0x8_0000))
  }

  function Advance(q: Sequences, e: Event): Sequences {
    if e.outgoing then q.(send := Add32(q.send, |e.payload|)) else q.(receive := Add32(q.receive, |e.payload|))
  }

  function PacketFor(q: Sequences, e: Event): Option<seq<Byte>> {
    var (src, dst) := if e.outgoing then (e.local, e.remote) else (e.remote, e.local);
    var (seqno, ackno) := if e.outgoing then (q.send, q.receive) else (q.receive, q.send);
    if To4(src.ip).Some? && To4(dst.ip).Some? then
      Some(IPv4Packet(To4(src.ip).value, To4(dst.ip).value, src.port, dst.port, seqno, ackno, e.payload))
    else if |src.ip| == 16 && |dst.ip| == 16 && To4(src.ip).None? && To4(dst.ip).None? then
      Some(IPv6Packet(src.ip, dst.ip, src.port, dst.port, seqno, ackno, e.payload))
    else None
  }

  class StreamState {
    var sendSeq: Uint32
    var receiveSeq: Uint32

    constructor (connID: Uint32)
      ensures View() == FirstSequences(connID)
    {
      sendSeq, receiveSeq := FirstSequences(connID).send, FirstSequences(connID).receive;
    }

    function View(): Sequences
      reads this
    {
      Sequences(sendSeq, receiveSeq)
    }

    method Packet(e: Event) returns (packet: Option<array<Byte>>)
      requires |e.payload| <= MAX_TCP_PAYLOAD
      modifies this
      ensures View() == Advance(old(View()), e)
      ensures (if packet.Some? then Some(packet.value[..]) else None) == PacketFor(old(View()), e)
    {
      var src, dst, seqno, ackno;
      if e.outgoing {
        src, dst, seqno, ackno := e.local, e.remote, sendSeq, receiveSeq;
        sendSeq := Add32(sendSeq, |e.payload|);
      } else {
        src, dst, seqno, ackno := e.remote, e.local, receiveSeq, sendSeq;
        receiveSeq := Add32(receiveSeq, |e.payload|);
      }
      var src4, dst4 := To4(src.ip), To4(dst.ip);
      if src4.Some? && dst4.Some? {
        var p := SerializeIPv4TCP(src4.value, dst4.value, src.port, dst.port, seqno, ackno, e.payload);
        return Some(p);
      }
      // A four-byte address would become a sixteen-byte one here, but it is refused for being IPv4 anyway.
      if |src.ip| != 16 || |dst.ip| != 16 || src4.Some? || dst4.Some? { return None; }
      var p := SerializeIPv6TCP(src.ip, dst.ip, src.port, dst.port, seqno, ackno, e.payload);
      return Some(p);
    }
  }

  function After(q: Sequences, events: seq<Event>): Sequences {
    if events == [] then q else Advance(After(q, events[..|events| - 1]), events[|events| - 1])
  }

  function Carried(events: seq<Event>, outgoing: bool): nat {
    if events == [] then 0
    else
      var last := events[|events| - 1];
      Carried(events[..|events| - 1], outgoing) + if last.outgoing == outgoing then |last.payload| else 0
  }

  // After any events, each direction's next sequence number is its first one plus the bytes it carried,
  // modulo 2^32; the packets of a direction therefore follow each other without gap or overlap.
  lemma {:induction false} SequenceFollowsPayload(q: Sequences, events: seq<Event>)
    ensures After(q, events).send == Add32(q.send, Carried(events, true))
    ensures After(q, events).receive == Add32(q.receive, Carried(events, false))
  {
    if events != [] {
      var front, e := events[..|events| - 1], events[|events| - 1];
      SequenceFollowsPayload(q, front);
      AddTwice(q.send, Carried(front, true), |e.payload|);
      AddTwice(q.receive, Carried(front, false), |e.payload|);
    }
  }

  lemma AddTwice(a: Uint32, m: nat, n: nat)
    ensures Add32(Add32(a, m), n) == Add32(a, m + n)
  {}

  // A packet with these endpoints, numbers and payload, as its octets say: an IPv4 packet if the sender's
  // address is one of IPv4, IPv4-mapped ones included.
  ghost predicate IsSegment(p: seq<Byte>, sender: Endpoint, receiver: Endpoint, seqno: Uint32, ackno: Uint32, payload: seq<Byte>) {
    var ipv4 := To4(sender.ip).Some?;
    var n := if ipv4 then 20 else 40;
    && |p| == n + 20 + |payload| && p[n + 20..] == payload
    && TcpFields(p[n..n + 20], sender.port, receiver.port, seqno, ackno)
    && (ipv4 ==> To4(receiver.ip).Some? && IPv4Fields(p[..20], To4(sender.ip).value, To4(receiver.ip).value, |p|))
    && (!ipv4 ==> IPv6Fields(p[..40], sender.ip, receiver.ip, |p| - 40))
  }

  predicate SameFamily(a: seq<Byte>, b: seq<Byte>) {
    (To4(a).Some? && To4(b).Some?) || (To4(a).None? && To4(b).None? && |a| == 16 && |b| == 16)
  }

  // The packet of a payload after any events of a connection: refused exactly for endpoints of different
  // families; otherwise from the local to the remote endpoint if outgoing and back if not, numbered by the
  // bytes its own direction carried before, and acknowledging those of the other one.
  lemma SegmentsFollow(connID: Uint32, events: seq<Event>, outgoing: bool, local: Endpoint, remote: Endpoint, payload: seq<Byte>)
    requires |payload| <= MAX_TCP_PAYLOAD
    ensures var p := PacketFor(After(FirstSequences(connID), events), Event(outgoing, local, remote, payload));
      var sent: Uint32 := (connID * 0x10_0000 + 1 + Carried(events, true)) % 0x1_0000_0000;
      var received: Uint32 := (connID * 0x10_0000 + 0x8_0000 + Carried(events, false)) % 0x1_0000_0000;
      && (p.Some? <==> SameFamily(local.ip, remote.ip))
      && (p.Some? && outgoing ==> IsSegment(p.value, local, remote, sent, received, payload))
      && (p.Some? && !outgoing ==> IsSegment(p.value, remote, local, received, sent, payload))
  {
    var first := FirstSequences(connID);
    var q := After(first, events);
    SequenceFollowsPayload(first, events);
    FirstPlus(connID, Carried(events, true));
    FirstPlus(connID, Carried(events, false));
    hide Carried, After, FirstSequences, Add32, PacketFor, IsSegment, SameFamily;
    if outgoing {
      PacketIsSegment(q, Event(outgoing, local, remote, payload), local, remote, q.send, q.receive);
    } else {
      PacketIsSegment(q, Event(outgoing, local, remote, payload), remote, local, q.receive, q.send);
    }
  }

  lemma FirstPlus(connID: Uint32, n: nat)
    ensures Add32(FirstSequences(connID).send, n) == (connID * 0x10_0000 + 1 + n) % 0x1_0000_0000
    ensures Add32(FirstSequences(connID).receive, n) == (connID * 0x10_0000 + 0x8_0000 + n) % 0x1_0000_0000
  {
    var base: Uint32 := connID * 0x10_0000 % 0x1_0000_0000;
    AddTwice(base, 1, n);
    AddTwice(base, 0x8_0000, n);
    ModPlusMultiple(base + 1 + n, connID * 0x10_0000 / 0x1_0000_0000, 0x1_0000_0000);
    ModPlusMultiple(base + 0x8_0000 + n, connID * 0x10_0000 / 0x1_0000_0000, 0x1_0000_0000);
  }

  lemma PacketIsSegment(q: Sequences, e: Event, sender: Endpoint, receiver: Endpoint, seqno: Uint32, ackno: Uint32)
    requires |e.payload| <= MAX_TCP_PAYLOAD
    requires (sender, receiver, seqno, ackno) ==
             if e.outgoing then (e.local, e.remote, q.send, q.receive) else (e.remote, e.local, q.receive, q.send)
    ensures PacketFor(q, e).Some? ==> IsSegment(PacketFor(q, e).value, sender, receiver, seqno, ackno, e.payload)
    ensures PacketFor(q, e).Some? <==> SameFamily(e.local.ip, e.remote.ip)
  {
    hide IPv4Packet, IPv6Packet, IPv4Fields, IPv6Fields, TcpFields, Internet, Pseudo4, Pseudo6;
    var a, b := To4(sender.ip), To4(receiver.ip);
    if a.Some? && b.Some? {
      IPv4PacketVerifies(a.value, b.value, sender.port, receiver.port, seqno, ackno, e.payload);
    } else if |sender.ip| == |receiver.ip| == 16 && a.None? && b.None? {
      IPv6PacketVerifies(sender.ip, receiver.ip, sender.port, receiver.port, seqno, ackno, e.payload);
    }
  }

  function Joined(chunks: seq<seq<Byte>>): seq<Byte> {
    if chunks == [] then [] else Joined(chunks[..|chunks| - 1]) + chunks[|chunks| - 1]
  }

  lemma JoinedNothing()
    ensures Joined([]) == []
  {}

  lemma JoinedMore(chunks: seq<seq<Byte>>, payload: seq<Byte>, n: nat)
    requires n <= |payload|
    ensures Joined(chunks + [payload[..n]]) + payload[n..] == Joined(chunks) + payload
  {
    assert (chunks + [payload[..n]])[..|chunks|] == chunks;
    assert Joined(chunks) + payload[..n] + payload[n..] == Joined(chunks) + payload;
  }

  // capturePayload: what was read or written, in pieces that fit a packet.
  method CapturePayload(input: seq<Byte>) returns (chunks: seq<seq<Byte>>)
    ensures Joined(chunks) == input
    ensures forall i :: 0 <= i < |chunks| ==> 0 < |chunks[i]| <= MAX_TCP_PAYLOAD
  {
    hide Joined;
    var payload := input;
    chunks := [];
    JoinedNothing();
    while |payload| > 0
      invariant Joined(chunks) + payload == input
      invariant forall i :: 0 <= i < |chunks| ==> 0 < |chunks[i]| <= MAX_TCP_PAYLOAD
    {
      var chunkSize := if |payload| < MAX_TCP_PAYLOAD then |payload| else MAX_TCP_PAYLOAD;
      JoinedMore(chunks, payload, chunkSize);
      chunks := chunks + [payload[..chunkSize]];
      payload := payload[chunkSize..];
    }
  }
}
