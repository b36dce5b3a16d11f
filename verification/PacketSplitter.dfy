// The splitter that cuts a byte stream, as it arrives, into IP packets.
module PacketSplitter {
  import opened Prelude

  const MAX_PACKET := 40 + 0xFFFF

  type Packet = seq<byte>

  // What the first bytes of a non-empty stream say about its first packet.
  datatype Head = NeedMore | Invalid | Length(n: nat)

  function HeadOf(s: seq<byte>): (head: Head)
    ensures head.Length? ==> 20 <= head.n <= MAX_PACKET
    ensures head.NeedMore? ==> |s| < 6
  {
    if s == [] then NeedMore
    else if s[0] / 0x10 == 4 then
      if |s| < 4 then NeedMore else
      var headerLen := s[0] % 0x10 * 4;
      var packetLen := BigEndian(s[2], s[3]);
      if headerLen < 20 || packetLen < headerLen then Invalid else Length(packetLen)
    else if s[0] / 0x10 == 6 then
      if |s| < 6 then NeedMore else Length(40 + BigEndian(s[4], s[5]))
    else Invalid
  }

  // The packets at the head of a stream, and the bytes left over.
  datatype Cut = Cut(packets: seq<Packet>, rest: seq<byte>)

  function Split(s: seq<byte>): Result<Cut, string> {
    if s == [] then Ok(Cut([], [])) else
    match HeadOf(s)
    case NeedMore => Ok(Cut([], s))
    case Invalid => Err("invalid packet")
    case Length(n) =>
      if |s| < n then Ok(Cut([], s)) else Prefixed([s[..n]], Split(s[n..]))
  }

  function Prefixed(packets: seq<Packet>, cut: Result<Cut, string>): Result<Cut, string> {
    if cut.Ok? then Ok(Cut(packets + cut.value.packets, cut.value.rest)) else cut
  }

  method SplitIncomingIPPackets(data: seq<byte>) returns (cut: Result<Cut, string>)
    ensures cut == Split(data)
  {
    var packets: seq<Packet> := [];
    var stream := data;
    assert Prefixed([], Split(data)) == Split(data) by { NoPrefix(Split(data)); }
    while |stream| > 0
      invariant Prefixed(packets, Split(stream)) == Split(data)
      decreases |stream|
    {
      assert packets + [] == packets;
      var head := HeadOf(stream);
      match head {
        case NeedMore => return Ok(Cut(packets, stream));
        case Invalid => return Err("invalid packet");
        case Length(n) =>
          if |stream| < n {
            return Ok(Cut(packets, stream));
          }
          PrefixTwice(packets, [stream[..n]], Split(stream[n..]));
          packets := packets + [stream[..n]];
          stream := stream[n..];
      }
    }
    assert packets + [] == packets;
    return Ok(Cut(packets, []));
  }

  lemma NoPrefix(cut: Result<Cut, string>)
    ensures Prefixed([], cut) == cut
  {
    if cut.Ok? {
      assert [] + cut.value.packets == cut.value.packets;
    }
  }

  lemma PrefixTwice(a: seq<Packet>, b: seq<Packet>, cut: Result<Cut, string>)
    ensures Prefixed(a, Prefixed(b, cut)) == Prefixed(a + b, cut)
  {
    if cut.Ok? {
      assert a + (b + cut.value.packets) == a + b + cut.value.packets;
    }
  }

  // Less than the packet it begins.
  predicate IsPartial(rest: seq<byte>) {
    HeadOf(rest).NeedMore? || (HeadOf(rest).Length? && |rest| < HeadOf(rest).n)
  }

  lemma NothingNeedsMore()
    ensures HeadOf([]) == NeedMore
  {
  }

  // The packets followed by the rest are the stream.
  lemma {:induction false} NothingIsLost(s: seq<byte>)
    requires Split(s).Ok?
    ensures Joined(Split(s).value.packets) + Split(s).value.rest == s
    decreases |s|
  {
    SplitCases(s);
    JoinNone();
    hide HeadOf, Split, Joined;
    if s != [] && HeadOf(s).Length? && HeadOf(s).n <= |s| {
      var n := HeadOf(s).n;
      var more := Split(s[n..]).value;
      NothingIsLost(s[n..]);
      JoinOne(s[..n], more.packets);
      assert s[..n] + Joined(more.packets) + more.rest == s[..n] + (Joined(more.packets) + more.rest);
    }
  }

  lemma JoinNone()
    ensures Joined<byte>([]) == []
    ensures forall s: seq<byte> :: [] + s == s
  {
  }

  lemma SplitCases(s: seq<byte>)
    ensures if s != [] && HeadOf(s).Length? && HeadOf(s).n <= |s|
            then Split(s) == Prefixed([s[..HeadOf(s).n]], Split(s[HeadOf(s).n..]))
            else Split(s).Err? || Split(s).value == Cut([], s)
  {
  }

  lemma JoinOne(p: Packet, more: seq<Packet>)
    ensures Joined([p] + more) == p + Joined(more)
  {
    assert ([p] + more)[1..] == more;
  }

  // Each packet is as long as it says, and the rest is less than the packet it begins, so less than one
  // packet of the greatest length.
  lemma {:induction false} PacketsAreWhole(s: seq<byte>)
    requires Split(s).Ok?
    ensures forall p :: p in Split(s).value.packets ==> HeadOf(p) == Length(|p|) && WellFormed(p)
    ensures IsPartial(Split(s).value.rest) && |Split(s).value.rest| < MAX_PACKET
    decreases |s|
  {
    hide HeadOf, WellFormed;
    NothingNeedsMore();
    HeadOnBytes(s);
    if s != [] && HeadOf(s).Length? && HeadOf(s).n <= |s| {
      var n := HeadOf(s).n;
      PacketsAreWhole(s[n..]);
      HeadGrows(s[..n], s[n..]);
      assert s[..n] + s[n..] == s;
    }
  }

  // More bytes never change what is already known.
  lemma HeadGrows(s: seq<byte>, t: seq<byte>)
    ensures !HeadOf(s).NeedMore? ==> HeadOf(s + t) == HeadOf(s)
    ensures HeadOf(s + t).Length? && HeadOf(s + t).n <= |s| ==> HeadOf(s) == HeadOf(s + t)
  {
  }

  // Splitting what has arrived, and later the rest with what follows, is splitting the whole; an invalid
  // packet is found either way.
  lemma {:induction false} SplitInTwo(s: seq<byte>, t: seq<byte>)
    ensures Split(s).Err? ==> Split(s + t) == Split(s)
    ensures Split(s).Ok? ==> Split(s + t) == Prefixed(Split(s).value.packets, Split(Split(s).value.rest + t))
    decreases |s|
  {
    if s == [] {
      assert s + t == t && [] + t == t;
      NoPrefix(Split(t));
    } else {
      HeadGrows(s, t);
      if HeadOf(s).Length? && HeadOf(s).n <= |s| {
        var n := HeadOf(s).n;
        SplitInTwo(s[n..], t);
        assert (s + t)[..n] == s[..n] && (s + t)[n..] == s[n..] + t;
        if Split(s[n..]).Ok? {
          var more := Split(s[n..]).value;
          PrefixTwice([s[..n]], more.packets, Split(more.rest + t));
        }
      } else if Split(s).Ok? {
        NoPrefix(Split(s + t));
      }
    }
  }

  // The stream as a connection receives it, payload by payload.
  function Fed(rest: seq<byte>, payloads: seq<seq<byte>>): Result<Cut, string>
    decreases |payloads|
  {
    if payloads == [] then Ok(Cut([], rest)) else
    var cut := Split(rest + payloads[0]);
    if cut.Err? then cut else Prefixed(cut.value.packets, Fed(cut.value.rest, payloads[1..]))
  }

  lemma RestStaysWhole(s: seq<byte>)
    requires Split(s).Ok?
    ensures Split(Split(s).value.rest) == Ok(Cut([], Split(s).value.rest))
  {
    PacketsAreWhole(s);
  }

  // However the stream is cut into payloads, the same packets come out and the same bytes are kept; and
  // an invalid packet is found in one cutting if it is found in any.
  lemma {:induction false} ChunkingIsIrrelevant(rest: seq<byte>, payloads: seq<seq<byte>>)
    requires Split(rest) == Ok(Cut([], rest))
    ensures Fed(rest, payloads) == Split(rest + Joined(payloads))
    decreases |payloads|
  {
    if payloads == [] {
      assert rest + [] == rest;
    } else {
      var s, more := rest + payloads[0], Joined(payloads[1..]);
      assert rest + Joined(payloads) == s + more;
      SplitInTwo(s, more);
      if Split(s).Ok? {
        RestStaysWhole(s);
        ChunkingIsIrrelevant(Split(s).value.rest, payloads[1..]);
      }
    }
  }

  // ---- What the packets are, on their bytes ----

  // An IPv4 packet is as long as its bytes 2 and 3 say, an IPv6 packet 40 bytes longer than its bytes 4 and 5.
  predicate WellFormed(p: Packet) {
    || (|p| >= 20 && p[0] / 16 == 4 && 20 <= p[0] % 16 * 4 <= |p| && |p| == 256 * (p[2] as int) + p[3])
    || (|p| >= 40 && p[0] / 16 == 6 && |p| == 40 + 256 * (p[4] as int) + p[5])
  }

  // No packet begins like this.
  predicate BadStart(s: seq<byte>) {
    && s != [] && s[0] / 16 != 6
    && (s[0] / 16 == 4 ==> |s| >= 4 && (s[0] % 16 < 5 || 256 * (s[2] as int) + s[3] < s[0] % 16 * 4))
  }

  // A packet may begin like this, and more bytes are needed to complete it.
  predicate Incomplete(s: seq<byte>) {
    || s == []
    || (s[0] / 16 == 4 && !BadStart(s) && (|s| < 4 || |s| < 256 * (s[2] as int) + s[3]))
    || (s[0] / 16 == 6 && (|s| < 6 || |s| < 40 + 256 * (s[4] as int) + s[5]))
  }

  predicate AllWellFormed(packets: seq<Packet>) {
    forall i :: 0 <= i < |packets| ==> WellFormed(packets[i])
  }

  lemma HeadOnBytes(s: seq<byte>)
    ensures BadStart(s) <==> s != [] && HeadOf(s).Invalid?
    ensures Incomplete(s) <==> IsPartial(s)
    ensures s != [] && HeadOf(s).Length? && HeadOf(s).n <= |s| ==> WellFormed(s[..HeadOf(s).n])
    ensures WellFormed(s) ==> HeadOf(s) == Length(|s|)
  {
  }

  lemma ErrorMeans(s: seq<byte>)
    ensures !(s != [] && HeadOf(s).Length? && HeadOf(s).n <= |s|) ==> (Split(s).Err? <==> s != [] && HeadOf(s).Invalid?)
    ensures !(s != [] && HeadOf(s).Length? && HeadOf(s).n <= |s|) && Split(s).Ok? ==> IsPartial(s)
  {
  }

  // What an answer says: the packets are well formed and make up the stream together with the rest, which
  // is less than a packet; for an invalid stream, a bad start follows some well-formed packets.
  lemma {:induction false} SplitDecomposes(s: seq<byte>) returns (packets: seq<Packet>, rest: seq<byte>)
    ensures AllWellFormed(packets) && s == Joined(packets) + rest
    ensures if Split(s).Ok? then Split(s) == Ok(Cut(packets, rest)) && Incomplete(rest) else BadStart(rest)
    decreases |s|
  {
    HeadOnBytes(s);
    SplitCases(s);
    JoinNone();
    ErrorMeans(s);
    hide Split, HeadOf, WellFormed, BadStart, Incomplete, Joined;
    if s != [] && HeadOf(s).Length? && HeadOf(s).n <= |s| {
      var n := HeadOf(s).n;
      var more;
      more, rest := SplitDecomposes(s[n..]);
      packets := [s[..n]] + more;
      JoinOne(s[..n], more);
      assert s == s[..n] + (Joined(more) + rest);
    } else {
      packets, rest := [], s;
    }
  }

  // Conversely, whatever is put together like this is taken apart like this.
  lemma {:induction false} DecompositionSplits(packets: seq<Packet>, rest: seq<byte>)
    requires AllWellFormed(packets)
    ensures Incomplete(rest) ==> Split(Joined(packets) + rest) == Ok(Cut(packets, rest))
    ensures BadStart(rest) ==> Split(Joined(packets) + rest).Err?
  {
    if packets == [] {
      assert Joined(packets) + rest == rest;
      HeadOnBytes(rest);
    } else {
      var first, more := packets[0], packets[1..];
      DecompositionSplits(more, rest);
      HeadOnBytes(first);
      assert packets == [first] + more;
      assert Joined(packets) + rest == first + (Joined(more) + rest);
      if Split(Joined(more) + rest).Ok? {
        OnePacketMore(first, Joined(more) + rest, Split(Joined(more) + rest).value);
      } else {
        HeadGrows(first, Joined(more) + rest);
        assert (first + (Joined(more) + rest))[|first|..] == Joined(more) + rest;
      }
    }
  }

  // Any well-formed packets, one after the other, are split into exactly those packets.
  lemma PacketsSplit(packets: seq<Packet>)
    requires AllWellFormed(packets)
    ensures Split(Joined(packets)) == Ok(Cut(packets, []))
  {
    DecompositionSplits(packets, []);
    assert Joined(packets) + [] == Joined(packets);
  }

  // The splitting of any stream, without a word about how it is found: what comes out is the one way to
  // take the stream apart; and there is an error exactly when a bad start follows well-formed packets.
  lemma SplitIsTheDecomposition(s: seq<byte>, packets: seq<Packet>, rest: seq<byte>)
    ensures Split(s) == Ok(Cut(packets, rest)) <==> AllWellFormed(packets) && s == Joined(packets) + rest && Incomplete(rest)
    ensures Split(s).Err? <==>
            exists before: seq<Packet>, bad: seq<byte> :: AllWellFormed(before) && s == Joined(before) + bad && BadStart(bad)
  {
    hide Split, Incomplete, BadStart, WellFormed, Joined;
    var before, tail := SplitDecomposes(s);
    if AllWellFormed(packets) && s == Joined(packets) + rest {
      DecompositionSplits(packets, rest);
    }
    forall before: seq<Packet>, bad: seq<byte> | AllWellFormed(before) && s == Joined(before) + bad && BadStart(bad)
      ensures Split(s).Err?
    {
      DecompositionSplits(before, bad);
    }
  }

  // The smallest case: a valid packet before an invalid one is found when it arrives alone, and not when
  // both arrive together.
  lemma InvalidPacketTakesOthersWithIt(p: Packet, bad: byte)
    requires p != [] && HeadOf(p) == Length(|p|) && bad / 0x10 != 4 && bad / 0x10 != 6
    ensures Split(p) == Ok(Cut([p], []))
    ensures Split(p + [bad]).Err?
  {
    assert p[..|p|] == p && p[|p|..] == [];
    assert [p] + [] == [p];
    HeadGrows(p, [bad]);
    assert (p + [bad])[|p|..] == [bad];
    assert HeadOf([bad]) == Invalid;
  }

  // ---- What is delivered ----

  // The packets a cutting delivers: those found in each payload, up to the one that makes the stream invalid.
  function Delivered(rest: seq<byte>, payloads: seq<seq<byte>>): seq<Packet>
    decreases |payloads|
  {
    if payloads == [] || Split(rest + payloads[0]).Err? then [] else
    var cut := Split(rest + payloads[0]).value;
    cut.packets + Delivered(cut.rest, payloads[1..])
  }

  // The whole packets at the head of a stream, before its end or its first invalid header.
  function Whole(s: seq<byte>): seq<Packet> {
    if s == [] || !HeadOf(s).Length? || |s| < HeadOf(s).n then []
    else [s[..HeadOf(s).n]] + Whole(s[HeadOf(s).n..])
  }

  // The same packets on their bytes, in a valid stream or before the bad start of an invalid one.
  lemma {:induction false} WholeOnBytes(packets: seq<Packet>, rest: seq<byte>)
    requires AllWellFormed(packets) && (Incomplete(rest) || BadStart(rest))
    ensures Whole(Joined(packets) + rest) == packets
  {
    hide HeadOf, WellFormed, Incomplete, BadStart;
    if packets == [] {
      assert Joined(packets) + rest == rest;
      HeadOnBytes(rest);
    } else {
      var first, later := packets[0], Joined(packets[1..]) + rest;
      HeadOnBytes(first);
      HeadGrows(first, later);
      NothingNeedsMore();
      assert Joined(packets) + rest == first + later;
      assert (first + later)[..|first|] == first && (first + later)[|first|..] == later;
      WholeOnBytes(packets[1..], rest);
      assert packets == [first] + packets[1..];
    }
  }

  lemma {:induction false} SplitFindsWhole(s: seq<byte>)
    requires Split(s).Ok?
    ensures Split(s).value.packets == Whole(s)
    decreases |s|
  {
    if s != [] && HeadOf(s).Length? && HeadOf(s).n <= |s| {
      SplitFindsWhole(s[HeadOf(s).n..]);
    }
  }

  // The first k payloads are fine, and the next one, if there is one, makes the stream invalid.
  predicate Reveals(rest: seq<byte>, payloads: seq<seq<byte>>, k: nat) {
    && k <= |payloads| && Split(rest + Joined(payloads[..k])).Ok?
    && (k < |payloads| ==> Split(rest + Joined(payloads[..k + 1])).Err?)
  }

  // A cutting delivers the whole packets completed before the payload that reveals the invalid header.
  lemma {:induction false} DeliveredBeforeReveal(rest: seq<byte>, payloads: seq<seq<byte>>, k: nat)
    requires Split(rest) == Ok(Cut([], rest)) && Reveals(rest, payloads, k)
    ensures Delivered(rest, payloads) == Whole(rest + Joined(payloads[..k]))
    decreases |payloads|
  {
    hide Split, Whole, HeadOf;
    SplitFindsWhole(rest + Joined(payloads[..k]));
    if k == 0 {
      assert rest + Joined(payloads[..0]) == rest;
      if payloads != [] {
        assert payloads[..1] == [payloads[0]];
        assert Joined([payloads[0]]) == payloads[0];
      }
    } else {
      FirstPayload(rest, payloads, k);
      var s := rest + payloads[0];
      var cut, more := Split(s).value, Joined(payloads[1..][..k - 1]);
      RestStaysWhole(s);
      if k < |payloads| {
        FirstPayload(rest, payloads, k + 1);
      }
      DeliveredBeforeReveal(cut.rest, payloads[1..], k - 1);
      SplitFindsWhole(cut.rest + more);
    }
  }

  lemma FirstPayload(rest: seq<byte>, payloads: seq<seq<byte>>, k: nat)
    requires 0 < k <= |payloads|
    ensures var s, more := rest + payloads[0], Joined(payloads[1..][..k - 1]);
            && (Split(rest + Joined(payloads[..k])).Ok? ==> Split(s).Ok?)
            && (Split(s).Ok? ==>
                  Split(rest + Joined(payloads[..k])) == Prefixed(Split(s).value.packets, Split(Split(s).value.rest + more)))
  {
    hide Split;
    var s, more := rest + payloads[0], Joined(payloads[1..][..k - 1]);
    assert payloads[..k][1..] == payloads[1..][..k - 1];
    assert rest + Joined(payloads[..k]) == s + more;
    SplitInTwo(s, more);
  }

  // Some payload reveals it, or none does.
  lemma {:induction false} SomethingReveals(payloads: seq<seq<byte>>, n: nat) returns (k: nat)
    requires n <= |payloads| && Split(Joined(payloads[..n])).Ok?
    ensures Reveals([], payloads, k)
    decreases |payloads| - n
  {
    hide Split;
    assert forall m :: 0 <= m <= |payloads| ==> [] + Joined(payloads[..m]) == Joined(payloads[..m]);
    if n == |payloads| || Split(Joined(payloads[..n + 1])).Err? {
      k := n;
    } else {
      k := SomethingReveals(payloads, n + 1);
    }
  }

  lemma {:induction false} WholeGrows(s: seq<byte>, t: seq<byte>)
    ensures Whole(s) <= Whole(s + t)
    decreases |s|
  {
    if s != [] && HeadOf(s).Length? && HeadOf(s).n <= |s| {
      var n := HeadOf(s).n;
      HeadGrows(s, t);
      assert (s + t)[..n] == s[..n] && (s + t)[n..] == s[n..] + t;
      WholeGrows(s[n..], t);
    }
  }

  lemma {:induction false} JoinedInTwo(a: seq<seq<byte>>, b: seq<seq<byte>>)
    ensures Joined(a + b) == Joined(a) + Joined(b)
  {
    if a == [] {
      assert a + b == b;
    } else {
      assert (a + b)[1..] == a[1..] + b;
      JoinedInTwo(a[1..], b);
    }
  }

  // No cutting delivers anything but the first of the whole packets.
  lemma DeliveredIsPrefix(payloads: seq<seq<byte>>)
    ensures Delivered([], payloads) <= Whole(Joined(payloads))
  {
    hide Split, Delivered, Whole;
    NothingToSplit();
    assert payloads[..0] == [];
    var k := SomethingReveals(payloads, 0);
    DeliveredBeforeReveal([], payloads, k);
    assert payloads == payloads[..k] + payloads[k..];
    JoinedInTwo(payloads[..k], payloads[k..]);
    assert [] + Joined(payloads[..k]) == Joined(payloads[..k]);
    WholeGrows(Joined(payloads[..k]), Joined(payloads[k..]));
  }

  // The bytes after the first n whole packets.
  lemma {:induction false} AfterWhole(s: seq<byte>, n: nat) returns (tail: seq<byte>)
    requires n <= |Whole(s)|
    ensures Joined(Whole(s)[..n]) + tail == s
    ensures Split(Joined(Whole(s)[..n])) == Ok(Cut(Whole(s)[..n], []))
    decreases |s|
  {
    hide Split, Whole, Joined, HeadOf;
    if n == 0 {
      NothingToSplit();
      JoinNone();
      assert Whole(s)[..0] == [];
      tail := s;
    } else {
      var later := FirstWhole(s);
      var first, packets := Whole(s)[0], Whole(later)[..n - 1];
      tail := AfterWhole(later, n - 1);
      assert Whole(s)[..n] == [first] + packets;
      JoinOne(first, packets);
      assert first + (Joined(packets) + tail) == first + Joined(packets) + tail;
      OnePacketMore(first, Joined(packets), Cut(packets, []));
    }
  }

  lemma FirstWhole(s: seq<byte>) returns (later: seq<byte>)
    requires Whole(s) != []
    ensures Whole(s) == [Whole(s)[0]] + Whole(later) && s == Whole(s)[0] + later && |later| < |s|
    ensures HeadOf(Whole(s)[0]) == Length(|Whole(s)[0]|)
  {
    later := s[HeadOf(s).n..];
    assert s[..HeadOf(s).n] + later == s;
    HeadGrows(s[..HeadOf(s).n], later);
  }

  lemma OnePacketMore(first: Packet, later: seq<byte>, cut: Cut)
    requires HeadOf(first) == Length(|first|) && Split(later) == Ok(cut)
    ensures Split(first + later) == Ok(Cut([first] + cut.packets, cut.rest))
  {
    HeadGrows(first, later);
    assert (first + later)[..|first|] == first && (first + later)[|first|..] == later;
  }

  // In an invalid stream, what can be delivered is exactly any first part of the whole packets.
  lemma PossibleDeliveries(s: seq<byte>, packets: seq<Packet>)
    requires Split(s).Err?
    ensures (exists payloads: seq<seq<byte>> :: Joined(payloads) == s && Delivered([], payloads) == packets) <==>
            packets <= Whole(s)
  {
    hide Split, Whole, Delivered, Joined;
    if packets <= Whole(s) {
      var tail := AfterWhole(s, |packets|);
      assert Whole(s)[..|packets|] == packets;
      DeliverInTwo(Joined(packets), packets, tail);
    }
    forall payloads: seq<seq<byte>> | Joined(payloads) == s
      ensures Delivered([], payloads) <= Whole(s)
    {
      DeliveredIsPrefix(payloads);
    }
  }

  lemma DeliverInTwo(s: seq<byte>, packets: seq<Packet>, tail: seq<byte>)
    requires Split(s) == Ok(Cut(packets, [])) && Split(s + tail).Err?
    ensures Joined([s, tail]) == s + tail && Delivered([], [s, tail]) == packets
  {
    hide Split;
    SplitInTwo(s, tail);
    assert [s, tail][1..] == [tail] && [tail][1..] == [];
    assert Joined([tail]) == tail && [] + s == s && [] + tail == tail;
    assert Delivered([], [tail]) == [];
  }

  ghost predicate SameHoweverCut(s: seq<byte>) {
    forall a: seq<seq<byte>>, b: seq<seq<byte>> :: Joined(a) == s && Joined(b) == s ==> Delivered([], a) == Delivered([], b)
  }

  // Delivery does not depend on the cutting if and only if the stream is valid or has no whole packet before
  // its invalid header.
  lemma DeliveryDependsOnCutting(s: seq<byte>)
    ensures SameHoweverCut(s) <==> Split(s).Ok? || Whole(s) == []
  {
    hide Split, Whole, Delivered, Joined;
    if Split(s).Ok? {
      forall a: seq<seq<byte>> | Joined(a) == s
        ensures Delivered([], a) == Whole(s)
      {
        ValidDelivery(a);
      }
    } else if Whole(s) == [] {
      forall a: seq<seq<byte>> | Joined(a) == s
        ensures Delivered([], a) == []
      {
        DeliveredIsPrefix(a);
      }
    } else {
      PossibleDeliveries(s, []);
      PossibleDeliveries(s, Whole(s));
      var a: seq<seq<byte>> :| Joined(a) == s && Delivered([], a) == [];
      var b: seq<seq<byte>> :| Joined(b) == s && Delivered([], b) == Whole(s);
      assert Delivered([], a) != Delivered([], b);
    }
  }

  lemma ValidDelivery(payloads: seq<seq<byte>>)
    requires Split(Joined(payloads)).Ok?
    ensures Delivered([], payloads) == Whole(Joined(payloads))
  {
    hide Split, Whole, Delivered;
    NothingToSplit();
    assert payloads[..|payloads|] == payloads && [] + Joined(payloads) == Joined(payloads);
    DeliveredBeforeReveal([], payloads, |payloads|);
  }

  // The connection's side of it.
  class Receiver {
    var dataStream: seq<byte>
    var closed: bool

    constructor ()
      ensures dataStream == [] && !closed
    {
      dataStream, closed := [], false;
    }

    ghost predicate Valid()
      reads this
    {
      Split(dataStream) == Ok(Cut([], dataStream)) && |dataStream| < MAX_PACKET
    }

    // One payload; an invalid packet closes the connection.
    method Receive(payload: seq<byte>) returns (packets: seq<Packet>)
      requires Valid() && !closed
      modifies this
      ensures Valid()
      ensures if Split(old(dataStream) + payload).Ok?
              then !closed && Split(old(dataStream) + payload) == Ok(Cut(packets, dataStream))
              else closed && packets == [] && dataStream == old(dataStream)
    {
      var cut := SplitIncomingIPPackets(dataStream + payload);
      match cut {
        case Err(_) =>
          closed := true;
          packets := [];
        case Ok(Cut(found, remaining)) =>
          PacketsAreWhole(dataStream + payload);
          RestStaysWhole(dataStream + payload);
          packets, dataStream := found, remaining;
      }
    }

    // A whole stream, payload by payload, until it ends or turns out invalid.
    method ReceiveAll(payloads: seq<seq<byte>>) returns (packets: seq<Packet>)
      requires dataStream == [] && !closed
      modifies this
      ensures closed <==> Split(Joined(payloads)).Err?
      ensures !closed ==> Split(Joined(payloads)) == Ok(Cut(packets, dataStream))
      ensures packets == Delivered([], payloads)
    {
      hide Split, Prefixed, Joined, Delivered;
      packets := [];
      ghost var whole := Fed([], payloads);
      assert Split([]) == Ok(Cut([], [])) by { NothingToSplit(); }
      ChunkingIsIrrelevant([], payloads);
      assert [] + Joined(payloads) == Joined(payloads);
      NoPrefix(whole);
      assert payloads[0..] == payloads;
      for k := 0 to |payloads|
        invariant Valid() && !closed && Prefixed(packets, Fed(dataStream, payloads[k..])) == whole
        invariant packets + Delivered(dataStream, payloads[k..]) == Delivered([], payloads)
      {
        FedStep(dataStream, payloads, k, packets);
        DeliveredStep(dataStream, payloads, k, packets);
        var more := Receive(payloads[k]);
        if closed {
          return;
        }
        packets := packets + more;
      }
      FedAll(dataStream, payloads, packets);
      DeliveredAll(dataStream, payloads, packets);
    }
  }

  lemma NothingToSplit()
    ensures Split([]) == Ok(Cut([], []))
  {
  }

  lemma FedStep(rest: seq<byte>, payloads: seq<seq<byte>>, k: nat, packets: seq<Packet>)
    requires k < |payloads|
    ensures Split(rest + payloads[k]).Err? ==> Prefixed(packets, Fed(rest, payloads[k..])).Err?
    ensures Split(rest + payloads[k]).Ok? ==>
              var cut := Split(rest + payloads[k]).value;
              Prefixed(packets, Fed(rest, payloads[k..])) == Prefixed(packets + cut.packets, Fed(cut.rest, payloads[k + 1..]))
  {
    assert payloads[k..][0] == payloads[k] && payloads[k..][1..] == payloads[k + 1..];
    if Split(rest + payloads[k]).Ok? {
      var cut := Split(rest + payloads[k]).value;
      PrefixTwice(packets, cut.packets, Fed(cut.rest, payloads[k + 1..]));
    }
  }

  lemma FedAll(rest: seq<byte>, payloads: seq<seq<byte>>, packets: seq<Packet>)
    ensures Prefixed(packets, Fed(rest, payloads[|payloads|..])) == Ok(Cut(packets, rest))
  {
    assert packets + [] == packets;
  }

  lemma DeliveredStep(rest: seq<byte>, payloads: seq<seq<byte>>, k: nat, packets: seq<Packet>)
    requires k < |payloads|
    ensures Split(rest + payloads[k]).Err? ==> packets + Delivered(rest, payloads[k..]) == packets
    ensures Split(rest + payloads[k]).Ok? ==>
              var cut := Split(rest + payloads[k]).value;
              packets + Delivered(rest, payloads[k..]) == packets + cut.packets + Delivered(cut.rest, payloads[k + 1..])
  {
    hide Split;
    assert payloads[k..][0] == payloads[k] && payloads[k..][1..] == payloads[k + 1..];
  }

  lemma DeliveredAll(rest: seq<byte>, payloads: seq<seq<byte>>, packets: seq<Packet>)
    ensures packets + Delivered(rest, payloads[|payloads|..]) == packets
  {
  }
}
