// The TCP packets a capture file is made of: headers written in place around
// a payload, with checksums that the rest of the program would accept.
module PcapPackets {
  import opened Prelude
  import C = Checksum

  const MAX_TCP_PAYLOAD := 60000

  type Addr4 = s: seq<byte> | |s| == 4 witness [0, 0, 0, 0]

  function Bytes2(n: nat): seq<byte> {
    [n / 0x100 % 0x100, n % 0x100]
  }

  function Bytes4(n: uint32): seq<byte> {
    [n / 0x100_0000, n / 0x1_0000 % 0x100, n / 0x100 % 0x100, n % 0x100]
  }

  function Zeros(n: nat): seq<byte> {
    seq(n, i => 0)
  }

  // ---- The packet ----

  function IPHeader(src: Addr4, dst: Addr4, length: nat, field: uint16): seq<byte> {
    [0x45, 0] + Bytes2(length) + [0, 0, 0, 0, 64, 6] + Bytes2(field) + src + dst
  }

  function TCPHeader(srcPort: nat, dstPort: nat, number: uint32, ack: uint32, field: uint16): seq<byte> {
    Bytes2(srcPort) + Bytes2(dstPort) + Bytes4(number) + Bytes4(ack) + [0x50, 0x18, 0xFF, 0xFF] + Bytes2(field) + [0, 0]
  }

  // What the TCP checksum covers.
  function Pseudo(src: Addr4, dst: Addr4, segment: seq<byte>): seq<byte> {
    src + dst + [0, 6] + Bytes2(|segment|) + segment
  }

  function Segment(srcPort: nat, dstPort: nat, number: uint32, ack: uint32, field: uint16,
                   payload: seq<byte>): seq<byte> {
    TCPHeader(srcPort, dstPort, number, ack, field) + payload
  }

  function Serialized(src: Addr4, dst: Addr4, srcPort: nat, dstPort: nat, number: uint32, ack: uint32,
                      payload: seq<byte>): seq<byte> {
    var length := 40 + |payload|;
    IPHeader(src, dst, length, C.ChecksumOf(IPHeader(src, dst, length, 0)))
    + Segment(srcPort, dstPort, number, ack,
              C.ChecksumOf(Pseudo(src, dst, Segment(srcPort, dstPort, number, ack, 0, payload))), payload)
  }

  // ---- What its readers make of it ----

  lemma Shapes(src: Addr4, dst: Addr4, length: nat, srcPort: nat, dstPort: nat, number: uint32, ack: uint32,
               field: uint16, payload: seq<byte>)
    ensures |IPHeader(src, dst, length, field)| == 20
    ensures C.WithField(IPHeader(src, dst, length, 0), 10, field) == IPHeader(src, dst, length, field)
    ensures |TCPHeader(srcPort, dstPort, number, ack, field)| == 20
    ensures C.WithField(TCPHeader(srcPort, dstPort, number, ack, 0), 16, field) == TCPHeader(srcPort, dstPort, number, ack, field)
  {
  }

  // The other checksum implementation accepts the header, and the TCP checksum over the pseudo header
  // and the segment is zero; the payload is unchanged behind both headers.
  lemma SerializedIsSound(src: Addr4, dst: Addr4, srcPort: nat, dstPort: nat, number: uint32, ack: uint32,
                          payload: seq<byte>)
    requires |payload| <= MAX_TCP_PAYLOAD
    ensures var packet := Serialized(src, dst, srcPort, dstPort, number, ack, payload);
            && |packet| == 40 + |payload| && packet[40..] == payload
            && C.Verified(packet) == None
            && C.ChecksumOf(Pseudo(src, dst, packet[20..])) == 0
  {
    HeaderIsSound(src, dst, srcPort, dstPort, number, ack, payload);
    SegmentIsSound(src, dst, srcPort, dstPort, number, ack, payload);
  }

  lemma Parts(src: Addr4, dst: Addr4, srcPort: nat, dstPort: nat, number: uint32, ack: uint32, payload: seq<byte>)
    ensures var packet := Serialized(src, dst, srcPort, dstPort, number, ack, payload);
            var length := 40 + |payload|;
            && |packet| == length && packet[40..] == payload
            && packet[..20] == IPHeader(src, dst, length, C.ChecksumOf(IPHeader(src, dst, length, 0)))
            && packet[20..] == Segment(srcPort, dstPort, number, ack,
                 C.ChecksumOf(Pseudo(src, dst, Segment(srcPort, dstPort, number, ack, 0, payload))), payload)
  {
    hide IPHeader, TCPHeader, C.ChecksumOf, Pseudo;
    var length := 40 + |payload|;
    Shapes(src, dst, length, srcPort, dstPort, number, ack, C.ChecksumOf(IPHeader(src, dst, length, 0)), payload);
    Shapes(src, dst, length, srcPort, dstPort, number, ack,
           C.ChecksumOf(Pseudo(src, dst, Segment(srcPort, dstPort, number, ack, 0, payload))), payload);
  }

  // A packet is accepted whose first 20 bytes are a header that carries its own checksum.
  lemma SoundHeader(header: seq<byte>, rest: seq<byte>)
    requires |header| == 20 && header[0] == 0x45 && BigEndian(header[2], header[3]) == 20 + |rest|
    requires C.FieldAt(header, 10) == C.ChecksumOf(C.WithField(header, 10, 0))
    ensures C.Verified(header + rest) == None
  {
    hide C.ChecksumOf;
    var packet := header + rest;
    assert forall k :: 0 <= k < 20 ==> packet[k] == header[k];
    assert C.WithField(packet, 10, 0)[..20] == C.WithField(header, 10, 0);
  }

  lemma HeaderIsSound(src: Addr4, dst: Addr4, srcPort: nat, dstPort: nat, number: uint32, ack: uint32,
                      payload: seq<byte>)
    requires |payload| <= MAX_TCP_PAYLOAD
    ensures C.Verified(Serialized(src, dst, srcPort, dstPort, number, ack, payload)) == None
  {
    var packet := Serialized(src, dst, srcPort, dstPort, number, ack, payload);
    var length := 40 + |payload|;
    var field := C.ChecksumOf(IPHeader(src, dst, length, 0));
    Parts(src, dst, srcPort, dstPort, number, ack, payload);
    Shapes(src, dst, length, srcPort, dstPort, number, ack, field, payload);
    Shapes(src, dst, length, srcPort, dstPort, number, ack, 0, payload);
    var plain, header := IPHeader(src, dst, length, 0), IPHeader(src, dst, length, field);
    assert packet == header + packet[20..];
    HeaderFields(src, dst, length, field);
    hide Serialized, C.ChecksumOf, IPHeader, TCPHeader, C.WithField, C.FieldAt, C.Verified;
    C.FieldIsThere(plain, 10, field);
    C.FieldTwice(plain, 10, field, 0);
    SoundHeader(header, packet[20..]);
  }

  lemma HeaderFields(src: Addr4, dst: Addr4, length: nat, field: uint16)
    requires length < 0x1_0000
    ensures var header := IPHeader(src, dst, length, field);
            |header| == 20 && header[0] == 0x45 && BigEndian(header[2], header[3]) == length
  {
  }

  lemma PseudoField(src: Addr4, dst: Addr4, srcPort: nat, dstPort: nat, number: uint32, ack: uint32, field: uint16,
                    payload: seq<byte>)
    ensures |Pseudo(src, dst, Segment(srcPort, dstPort, number, ack, 0, payload))| == 32 + |payload|
    ensures C.WithField(Pseudo(src, dst, Segment(srcPort, dstPort, number, ack, 0, payload)), 28, field) ==
            Pseudo(src, dst, Segment(srcPort, dstPort, number, ack, field, payload))
  {
    Shapes(src, dst, 0, srcPort, dstPort, number, ack, field, payload);
    Shapes(src, dst, 0, srcPort, dstPort, number, ack, 0, payload);
    hide TCPHeader;
    var front := src + dst + [0, 6] + Bytes2(20 + |payload|);
    var tcp := TCPHeader(srcPort, dstPort, number, ack, 0);
    assert |front| == 12;
    assert Pseudo(src, dst, Segment(srcPort, dstPort, number, ack, 0, payload)) == front + tcp + payload;
    assert Pseudo(src, dst, Segment(srcPort, dstPort, number, ack, field, payload)) ==
           front + C.WithField(tcp, 16, field) + payload;
  }

  lemma SegmentIsSound(src: Addr4, dst: Addr4, srcPort: nat, dstPort: nat, number: uint32, ack: uint32,
                       payload: seq<byte>)
    requires |payload| <= MAX_TCP_PAYLOAD
    ensures var packet := Serialized(src, dst, srcPort, dstPort, number, ack, payload);
            |packet| == 40 + |payload| && packet[40..] == payload && C.ChecksumOf(Pseudo(src, dst, packet[20..])) == 0
  {
    Parts(src, dst, srcPort, dstPort, number, ack, payload);
    var pseudo := Pseudo(src, dst, Segment(srcPort, dstPort, number, ack, 0, payload));
    PseudoField(src, dst, srcPort, dstPort, number, ack, C.ChecksumOf(pseudo), payload);
    PseudoField(src, dst, srcPort, dstPort, number, ack, 0, payload);
    hide C.ChecksumOf, Pseudo, Segment, Serialized, C.WithField;
    C.StoredChecksumCancels(pseudo, 28);
  }

  // ---- Writing it in place ----

  function Over(b: seq<byte>, at: nat, s: seq<byte>): seq<byte>
    requires at + |s| <= |b|
  {
    b[..at] + s + b[at + |s|..]
  }

  method Put(a: array<byte>, at: nat, s: seq<byte>)
    requires at + |s| <= a.Length
    modifies a
    ensures a[..] == Over(old(a[..]), at, s)
  {
    forall k | 0 <= k < |s| {
      a[at + k] := s[k];
    }
  }

  // The next bytes of a buffer that is zero from there on.
  method PutNext(a: array<byte>, ghost built: seq<byte>, at: nat, s: seq<byte>) returns (ghost more: seq<byte>)
    requires |built| <= at && at + |s| <= a.Length && a[..] == built + Zeros(a.Length - |built|)
    modifies a
    ensures more == built + Zeros(at - |built|) + s && |more| == at + |s|
    ensures a[..] == more + Zeros(a.Length - |more|)
  {
    Put(a, at, s);
    more := built + Zeros(at - |built|) + s;
  }

  method WriteTCPHeader(a: array<byte>, ghost built: seq<byte>, at: nat, srcPort: nat, dstPort: nat, number: uint32,
                        ack: uint32)
    returns (ghost more: seq<byte>)
    requires |built| == at && at + 20 <= a.Length && a[..] == built + Zeros(a.Length - |built|)
    modifies a
    ensures more == built + TCPHeader(srcPort, dstPort, number, ack, 0)
    ensures a[..] == more + Zeros(a.Length - |more|) && |more| == at + 20
  {
    hide Zeros, Bytes2, Bytes4;
    Sizes(srcPort, dstPort, number, ack);
    more := PutNext(a, built, at, Bytes2(srcPort));
    more := PutNext(a, more, at + 2, Bytes2(dstPort));
    more := PutNext(a, more, at + 4, Bytes4(number));
    more := PutNext(a, more, at + 8, Bytes4(ack));
    more := PutNext(a, more, at + 12, [0x50]);
    more := PutNext(a, more, at + 13, [0x18]);
    more := PutNext(a, more, at + 14, [0xFF, 0xFF]);
    HeaderBuilt(built, srcPort, dstPort, number, ack);
    ZerosSplit(4, a.Length - |more| - 4);
    assert more + Zeros(a.Length - |more|) == more + Zeros(4) + Zeros(a.Length - |more| - 4);
    more := more + Zeros(4);
  }

  lemma Sizes(srcPort: nat, dstPort: nat, number: uint32, ack: uint32)
    ensures |Bytes2(srcPort)| == |Bytes2(dstPort)| == 2 && |Bytes4(number)| == |Bytes4(ack)| == 4
    ensures forall n :: |Zeros(n)| == n
  {
  }

  lemma ZerosSplit(a: nat, b: nat)
    ensures Zeros(a + b) == Zeros(a) + Zeros(b) && Zeros(0) == []
  {
  }

  lemma HeaderBuilt(built: seq<byte>, srcPort: nat, dstPort: nat, number: uint32, ack: uint32)
    ensures built + Zeros(0) + Bytes2(srcPort) + Zeros(0) + Bytes2(dstPort) + Zeros(0) + Bytes4(number) + Zeros(0)
            + Bytes4(ack) + Zeros(0) + [0x50] + Zeros(0) + [0x18] + Zeros(0) + [0xFF, 0xFF] + Zeros(4)
            == built + TCPHeader(srcPort, dstPort, number, ack, 0)
  {
    assert Zeros(4) == [0, 0, 0, 0];
    hide Bytes2, Bytes4;
    assert Bytes2(0) == [0, 0] by { ZeroBytes(); }
  }

  lemma ZeroBytes()
    ensures Bytes2(0) == [0, 0]
  {
  }

  method WriteIPHeader(a: array<byte>, src: Addr4, dst: Addr4)
    requires a.Length >= 20 && a[..] == Zeros(a.Length)
    modifies a
    ensures a[..] == IPHeader(src, dst, a.Length, 0) + Zeros(a.Length - 20)
  {
    hide Zeros, Bytes2;
    Sizes(a.Length, 0, 0, 0);
    ghost var built: seq<byte> := [];
    assert a[..] == [] + Zeros(a.Length);
    built := PutNext(a, built, 0, [0x45]);
    built := PutNext(a, built, 2, Bytes2(a.Length));
    built := PutNext(a, built, 8, [64]);
    built := PutNext(a, built, 9, [6]);
    built := PutNext(a, built, 12, src);
    built := PutNext(a, built, 16, dst);
    IPHeaderBuilt(src, dst, a.Length);
  }

  lemma IPHeaderBuilt(src: Addr4, dst: Addr4, length: nat)
    ensures [] + Zeros(0) + [0x45] + Zeros(1) + Bytes2(length) + Zeros(4) + [64] + Zeros(0) + [6] + Zeros(2) + src
            + Zeros(0) + dst == IPHeader(src, dst, length, 0)
  {
    assert Zeros(4) == [0, 0, 0, 0] && Zeros(2) == [0, 0] && Zeros(1) == [0];
    hide Bytes2;
    ZeroBytes();
  }

  // The pseudo header and the segment, in a buffer of their own.
  method PseudoChecksum(src: Addr4, dst: Addr4, segment: seq<byte>) returns (r: uint16)
    ensures r == C.ChecksumOf(Pseudo(src, dst, segment))
  {
    hide Zeros, Bytes2, C.ChecksumOf;
    var pseudo := new byte[12 + |segment|](i => 0);
    AllZeros(pseudo[..]);
    Sizes(|segment|, 0, 0, 0);
    ghost var built: seq<byte> := [];
    assert pseudo[..] == [] + Zeros(pseudo.Length);
    built := PutNext(pseudo, built, 0, src);
    built := PutNext(pseudo, built, 4, dst);
    built := PutNext(pseudo, built, 9, [6]);
    built := PutNext(pseudo, built, 10, Bytes2(|segment|));
    built := PutNext(pseudo, built, 12, segment);
    PseudoBuilt(src, dst, segment);
    r := C.FoldLoop(pseudo[..]);
  }

  lemma AllZeros(b: seq<byte>)
    requires forall k :: 0 <= k < |b| ==> b[k] == 0
    ensures b == Zeros(|b|)
  {
  }

  lemma PseudoBuilt(src: Addr4, dst: Addr4, segment: seq<byte>)
    ensures [] + Zeros(0) + src + Zeros(0) + dst + Zeros(1) + [6] + Zeros(0) + Bytes2(|segment|) + Zeros(0) + segment
            + Zeros(0) == Pseudo(src, dst, segment)
  {
    assert Zeros(1) == [0];
    hide Bytes2;
  }

  // Storing a 16-bit field in the middle of a buffer.
  lemma FieldStored(front: seq<byte>, b: seq<byte>, back: seq<byte>, at: nat, field: uint16)
    requires at + 2 <= |b|
    ensures Over(front + b + back, |front| + at, Bytes2(field)) == front + C.WithField(b, at, field) + back
    ensures |Bytes2(field)| == 2
  {
    assert Bytes2(field) == [field / 0x100, field % 0x100];
  }

  method StoreIPChecksum(a: array<byte>, src: Addr4, dst: Addr4, field: uint16)
    requires a.Length >= 20 && a[..] == IPHeader(src, dst, a.Length, 0) + Zeros(a.Length - 20)
    modifies a
    ensures a[..] == IPHeader(src, dst, a.Length, field) + Zeros(a.Length - 20)
  {
    Shapes(src, dst, a.Length, 0, 0, 0, 0, field, []);
    hide IPHeader, Zeros, Bytes2;
    ghost var zeros := Zeros(a.Length - 20);
    FieldStored([], IPHeader(src, dst, a.Length, 0), zeros, 10, field);
    assert a[..] == [] + IPHeader(src, dst, a.Length, 0) + zeros;
    Put(a, 10, Bytes2(field));
    assert a[..] == [] + IPHeader(src, dst, a.Length, field) + zeros;
  }

  method StoreTCPChecksum(a: array<byte>, ghost header: seq<byte>, ghost tcp: seq<byte>, field: uint16,
                          ghost payload: seq<byte>)
    requires |header| == 20 && |tcp| == 20 && a[..] == header + tcp + payload
    modifies a
    ensures a[..] == header + C.WithField(tcp, 16, field) + payload
  {
    hide Bytes2;
    FieldStored(header, tcp, payload, 16, field);
    Put(a, 36, Bytes2(field));
  }

  lemma HeaderSizes(src: Addr4, dst: Addr4, length: nat, srcPort: nat, dstPort: nat, number: uint32, ack: uint32)
    ensures |IPHeader(src, dst, length, 0)| == 20 && |TCPHeader(srcPort, dstPort, number, ack, 0)| == 20
    ensures Zeros(0) == []
  {
  }

  // The packet, its two checksums stored last over their zeroed fields.
  method SerializeIPv4TCP(src: Addr4, dst: Addr4, srcPort: nat, dstPort: nat, number: uint32, ack: uint32,
                          payload: seq<byte>)
    returns (packet: array<byte>)
    ensures fresh(packet) && packet[..] == Serialized(src, dst, srcPort, dstPort, number, ack, payload)
  {
    hide Zeros, Bytes2, Bytes4, C.ChecksumOf, IPHeader, TCPHeader, Pseudo;
    var length := 40 + |payload|;
    packet := new byte[length](i => 0);
    AllZeros(packet[..]);
    Sizes(0, 0, 0, 0);
    WriteIPHeader(packet, src, dst);
    HeaderSizes(src, dst, length, srcPort, dstPort, number, ack);
    var header := packet[..20];
    assert header == IPHeader(src, dst, length, 0);
    var field := C.FoldLoop(header);
    StoreIPChecksum(packet, src, dst, field);
    ghost var full := IPHeader(src, dst, length, field);
    ghost var tcp := TCPHeader(srcPort, dstPort, number, ack, 0);
    ghost var built := full;
    built := WriteTCPHeader(packet, built, 20, srcPort, dstPort, number, ack);
    built := PutNext(packet, built, 40, payload);
    assert packet[..] == full + tcp + payload;
    assert packet[20..] == Segment(srcPort, dstPort, number, ack, 0, payload);
    var sum := PseudoChecksum(src, dst, packet[20..]);
    StoreTCPChecksum(packet, full, tcp, sum, payload);
    Shapes(src, dst, length, srcPort, dstPort, number, ack, sum, payload);
    assert packet[..] == full + Segment(srcPort, dstPort, number, ack, sum, payload);
  }

  // ---- The packet on its bytes ----

  // Two bytes hold a number, the high byte first.
  predicate Holds2(p: seq<byte>, at: nat, n: int) {
    at + 2 <= |p| && 256 * (p[at] as int) + p[at + 1] == n
  }

  predicate Holds4(p: seq<byte>, at: nat, n: int) {
    at + 4 <= |p| && 65536 * (256 * (p[at] as int) + p[at + 1]) + 256 * (p[at + 2] as int) + p[at + 3] == n
  }

  // Where each field of the two headers is.
  lemma PacketOnBytes(src: Addr4, dst: Addr4, srcPort: uint16, dstPort: uint16, number: uint32, ack: uint32,
                      payload: seq<byte>)
    requires |payload| <= MAX_TCP_PAYLOAD
    ensures var p := Serialized(src, dst, srcPort, dstPort, number, ack, payload);
            && |p| == 40 + |payload| && p[0] == 0x45 && p[1] == 0 && Holds2(p, 2, |p|) && p[4..8] == [0, 0, 0, 0]
            && p[8] == 64 && p[9] == 6 && p[12..16] == src && p[16..20] == dst
            && Holds2(p, 20, srcPort) && Holds2(p, 22, dstPort) && Holds4(p, 24, number) && Holds4(p, 28, ack)
            && p[32] == 0x50 && p[33] == 0x18 && Holds2(p, 34, 65535) && Holds2(p, 38, 0)
            && p[40..] == payload
  {
    Parts(src, dst, srcPort, dstPort, number, ack, payload);
    var p := Serialized(src, dst, srcPort, dstPort, number, ack, payload);
    hide Serialized, C.ChecksumOf, Pseudo;
    IPBytes(src, dst, |p|, C.ChecksumOf(IPHeader(src, dst, |p|, 0)), p);
    TCPBytes(srcPort, dstPort, number, ack,
             C.ChecksumOf(Pseudo(src, dst, Segment(srcPort, dstPort, number, ack, 0, payload))), payload, p);
  }

  lemma IPBytes(src: Addr4, dst: Addr4, length: nat, field: uint16, p: seq<byte>)
    requires length < 65536 && |p| >= 20 && p[..20] == IPHeader(src, dst, length, field)
    ensures p[0] == 0x45 && p[1] == 0 && Holds2(p, 2, length) && p[4..8] == [0, 0, 0, 0]
    ensures p[8] == 64 && p[9] == 6 && p[12..16] == src && p[16..20] == dst
  {
    var h := p[..20];
    assert forall i :: 0 <= i < 20 ==> p[i] == h[i];
  }

  lemma TCPBytes(srcPort: uint16, dstPort: uint16, number: uint32, ack: uint32, field: uint16, payload: seq<byte>,
                 p: seq<byte>)
    requires |p| >= 20 && p[20..] == Segment(srcPort, dstPort, number, ack, field, payload)
    ensures |p| >= 40
    ensures Holds2(p, 20, srcPort) && Holds2(p, 22, dstPort) && Holds4(p, 24, number) && Holds4(p, 28, ack)
    ensures p[32] == 0x50 && p[33] == 0x18 && Holds2(p, 34, 65535) && Holds2(p, 38, 0)
  {
    var h := TCPHeader(srcPort, dstPort, number, ack, field);
    assert p[20..] == h + payload;
    TCPHeaderBytes(srcPort, dstPort, number, ack, field);
    hide TCPHeader, Segment;
    assert forall i :: 0 <= i < 20 ==> p[20 + i] == p[20..][i] == h[i];
  }

  lemma TCPHeaderBytes(srcPort: uint16, dstPort: uint16, number: uint32, ack: uint32, field: uint16)
    ensures var h := TCPHeader(srcPort, dstPort, number, ack, field);
            && |h| == 20 && Holds2(h, 0, srcPort) && Holds2(h, 2, dstPort) && Holds4(h, 4, number) && Holds4(h, 8, ack)
            && h[12] == 0x50 && h[13] == 0x18 && Holds2(h, 14, 65535) && Holds2(h, 18, 0)
  {
    BytesOf(srcPort, number);
    BytesOf(dstPort, ack);
    hide Bytes2, Bytes4;
    Sizes(srcPort, dstPort, number, ack);
    Sizes(field, 0, 0, 0);
    var h := TCPHeader(srcPort, dstPort, number, ack, field);
    assert h[0..2] == Bytes2(srcPort) && h[2..4] == Bytes2(dstPort) && h[4..8] == Bytes4(number) && h[8..12] == Bytes4(ack);
    assert h[12..16] == [0x50, 0x18, 0xFF, 0xFF] && h[18..] == [0, 0];
  }

  lemma BytesOf(n: uint16, m: uint32)
    ensures Holds2(Bytes2(n), 0, n) && Holds4(Bytes4(m), 0, m)
  {
    FourDigits(m);
    assert n / 0x100 % 0x100 == n / 0x100;
  }

  lemma FourDigits(m: uint32)
    ensures 65536 * (256 * (m / 0x100_0000) + m / 0x1_0000 % 0x100) + 256 * (m / 0x100 % 0x100) + m % 0x100 == m
    ensures m / 0x100_0000 < 0x100
  {
    var hi, lo := m / 0x1_0000, m % 0x1_0000;
    UpperDigit(m);
    LowerDigit(m);
    assert hi == 256 * (hi / 0x100) + hi % 0x100 && lo == 256 * (lo / 0x100) + lo % 0x100;
  }

  lemma UpperDigit(m: uint32)
    ensures m / 0x1_0000 / 0x100 == m / 0x100_0000 < 0x100
  {
  }

  lemma LowerDigit(m: uint32)
    ensures m % 0x1_0000 / 0x100 == m / 0x100 % 0x100 && m % 0x1_0000 % 0x100 == m % 0x100
  {
    var k := m / 0x1_0000;
    assert m == 0x1_0000 * k + m % 0x1_0000;
    assert m / 0x100 == 0x100 * k + m % 0x1_0000 / 0x100;
  }

  // What the TCP checksum covers, byte by byte: both addresses, zero, the protocol, the length of the segment,
  // and the segment.
  lemma PseudoOnBytes(src: Addr4, dst: Addr4, segment: seq<byte>)
    requires |segment| < 65536
    ensures var p := Pseudo(src, dst, segment);
            && |p| == 12 + |segment| && p[..4] == src && p[4..8] == dst && p[8] == 0 && p[9] == 6
            && Holds2(p, 10, |segment|) && p[12..] == segment
  {
  }
}
