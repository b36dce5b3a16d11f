// The framed byte stream of the TCP tunnel: what is written in frames of at
// most 65535 bytes, and how reads of any size put it together again.
module FramedStream {
  import opened Prelude

  const MAX_CHUNK := 0xFFFF
  const CLOSE_FRAME: seq<byte> := [0x01, 0x01, 0x00, 0x00]

  datatype ReadError = EOF | UnexpectedEOF | BadHeader(header: seq<byte>)

  // ---- What a framed stream means ----

  function Frame(chunk: seq<byte>): seq<byte>
    requires |chunk| <= MAX_CHUNK
  {
    [0x01, 0x00, |chunk| / 0x100, |chunk| % 0x100] + chunk
  }

  function Frames(data: seq<byte>): seq<byte> {
    if data == [] then []
    else if |data| <= MAX_CHUNK then Frame(data)
    else Frame(data[..MAX_CHUNK]) + Frames(data[MAX_CHUNK..])
  }

  // The payload of the frames at the head of a stream, and how it ends.
  datatype Content = Content(payload: seq<byte>, ending: ReadError)

  function Decoded(s: seq<byte>): Content
    decreases |s|
  {
    if s == [] then Content([], EOF)
    else if |s| < 4 then Content([], UnexpectedEOF)
    else if s[0] == 0x01 && s[1] == 0x00 then
      var length := BigEndian(s[2], s[3]);
      var rest := s[4..];
      if |rest| < length then Content([], if rest == [] then EOF else UnexpectedEOF)
      else var more := Decoded(rest[length..]); Content(rest[..length] + more.payload, more.ending)
    else if s[0] == 0x01 && s[1] == 0x01 then Content([], EOF)
    else Content([], BadHeader(s[..4]))
  }

  // The first frame of a stream, by its header.
  lemma HeadDecodes(s: seq<byte>)
    ensures |s| < 4 ==> Decoded(s) == Content([], if s == [] then EOF else UnexpectedEOF)
    ensures |s| >= 4 && s[0] == 0x01 && s[1] == 0x00 ==>
              var length, rest := BigEndian(s[2], s[3]), s[4..];
              Decoded(s) == if |rest| < length then Content([], if rest == [] then EOF else UnexpectedEOF)
                            else Content(rest[..length] + Decoded(rest[length..]).payload, Decoded(rest[length..]).ending)
    ensures |s| >= 4 && s[0] == 0x01 && s[1] == 0x01 ==> Decoded(s) == Content([], EOF)
    ensures |s| >= 4 && !(s[0] == 0x01 && (s[1] == 0x00 || s[1] == 0x01)) ==> Decoded(s) == Content([], BadHeader(s[..4]))
  {
  }

  lemma FrameDecodes(chunk: seq<byte>, rest: seq<byte>)
    requires |chunk| <= MAX_CHUNK
    ensures Decoded(Frame(chunk) + rest) == Content(chunk + Decoded(rest).payload, Decoded(rest).ending)
  {
    var s := Frame(chunk) + rest;
    assert BigEndian(s[2], s[3]) == |chunk|;
    assert s[4..] == chunk + rest;
    assert (chunk + rest)[..|chunk|] == chunk && (chunk + rest)[|chunk|..] == rest;
  }

  // One whole chunk at a time.
  lemma FramesStep(data: seq<byte>)
    requires |data| >= MAX_CHUNK
    ensures Frames(data) == Frame(data[..MAX_CHUNK]) + Frames(data[MAX_CHUNK..])
  {
    if |data| == MAX_CHUNK {
      assert data[..MAX_CHUNK] == data && data[MAX_CHUNK..] == [];
      assert Frame(data) + [] == Frame(data);
    }
  }

  lemma ShortFrames(data: seq<byte>)
    requires |data| <= MAX_CHUNK
    ensures Frames(data) == if data == [] then [] else Frame(data)
  {
  }

  lemma {:induction false} FramesDecode(data: seq<byte>, rest: seq<byte>)
    ensures Decoded(Frames(data) + rest) == Content(data + Decoded(rest).payload, Decoded(rest).ending)
    decreases |data|
  {
    hide Frames, Frame, Decoded;
    if |data| < MAX_CHUNK {
      ShortFrames(data);
      if data == [] {
        assert [] + rest == rest && data + Decoded(rest).payload == Decoded(rest).payload;
      } else {
        FrameDecodes(data, rest);
      }
    } else {
      var chunk, more := data[..MAX_CHUNK], data[MAX_CHUNK..];
      FramesStep(data);
      FramesDecode(more, rest);
      FrameDecodes(chunk, Frames(more) + rest);
      assert Frame(chunk) + Frames(more) + rest == Frame(chunk) + (Frames(more) + rest);
      assert chunk + (more + Decoded(rest).payload) == data + Decoded(rest).payload by {
        assert chunk + more == data;
      }
    }
  }

  lemma {:induction false} FramesAppend(data: seq<byte>, chunk: seq<byte>)
    requires |data| % MAX_CHUNK == 0 && 0 < |chunk| <= MAX_CHUNK
    ensures Frames(data + chunk) == Frames(data) + Frame(chunk)
    decreases |data|
  {
    hide Frames, Frame;
    if data == [] {
      ShortFrames(data);
      ShortFrames(chunk);
      assert data + chunk == chunk && [] + Frame(chunk) == Frame(chunk);
    } else {
      var first, more := data[..MAX_CHUNK], data[MAX_CHUNK..];
      assert |more| % MAX_CHUNK == 0;
      FramesAppend(more, chunk);
      FramesStep(data);
      FramesStep(data + chunk);
      assert (data + chunk)[..MAX_CHUNK] == first && (data + chunk)[MAX_CHUNK..] == more + chunk;
      assert Frame(first) + (Frames(more) + Frame(chunk)) == Frame(first) + Frames(more) + Frame(chunk);
    }
  }

  function NextChunk(b: seq<byte>, written: nat): (r: seq<byte>)
    requires written <= |b|
    ensures |r| <= MAX_CHUNK && written + |r| <= |b| && (r == [] ==> written == |b|)
    ensures written + |r| == |b| || |r| == MAX_CHUNK
  {
    b[written..if |b| - written < MAX_CHUNK then |b| else written + MAX_CHUNK]
  }

  function Written(writes: seq<seq<byte>>): seq<byte> {
    if writes == [] then [] else Frames(writes[0]) + Written(writes[1..])
  }

  // The round trip: any writes, of any sizes, followed by the close frame, mean their concatenation and
  // then the end of the stream; whatever comes after the close frame is not looked at.
  lemma {:induction false} WritesDecode(writes: seq<seq<byte>>, after: seq<byte>)
    ensures Decoded(Written(writes) + CLOSE_FRAME + after) == Content(Joined(writes), EOF)
  {
    if writes == [] {
      assert Written(writes) + CLOSE_FRAME + after == CLOSE_FRAME + after;
    } else {
      hide Frames, Decoded;
      WritesDecode(writes[1..], after);
      var rest := Written(writes[1..]) + CLOSE_FRAME + after;
      FramesDecode(writes[0], rest);
      assert Written(writes) + CLOSE_FRAME + after == Frames(writes[0]) + rest;
    }
  }

  // ---- The connection ----

  // The transport is the bytes still to come and the log of those sent.
  class TcpTunnelConn {
    const reuse: bool
    var input: seq<byte>
    var readBuf: seq<byte>
    var output: seq<byte>
    var closed: bool

    constructor (input: seq<byte>, reuse: bool)
      ensures this.input == input && readBuf == [] && output == [] && !closed && this.reuse == reuse
    {
      this.input, this.reuse := input, reuse;
      readBuf, output, closed := [], [], false;
    }

    // What the reads to come will return, and how they will end.
    function ToRead(): Content
      reads this
    {
      Content(readBuf + Decoded(input).payload, Decoded(input).ending)
    }

    // io.ReadFull: all n bytes, or an error that tells whether there was anything.
    method ReadFull(n: nat) returns (data: seq<byte>, err: Option<ReadError>)
      modifies this`input
      ensures if |old(input)| >= n then err == None && data == old(input)[..n] && input == old(input)[n..]
              else input == [] && err == Some(if old(input) == [] then EOF else UnexpectedEOF)
    {
      if |input| >= n {
        data, input, err := input[..n], input[n..], None;
      } else {
        data, err := [], Some(if input == [] then EOF else UnexpectedEOF);
        input := [];
      }
    }

    // A read into a buffer of the given size returns the next bytes of the content, at least one, and
    // takes exactly those; it fails when none are left, and only then, with the content's ending.
    method Read(size: nat) returns (data: seq<byte>, err: Option<ReadError>)
      modifies this`input, this`readBuf
      ensures size == 0 ==> data == [] && err == None && ToRead() == old(ToRead())
      ensures size > 0 && old(ToRead()).payload != [] ==>
                && err == None && 1 <= |data| <= size
                && old(ToRead()).payload == data + ToRead().payload && ToRead().ending == old(ToRead()).ending
      ensures size > 0 && old(ToRead()).payload == [] ==> data == [] && err == Some(old(ToRead()).ending)
    {
      hide Decoded, BigEndian;
      data, err := [], None;
      if size == 0 {
        return;
      }
      if |readBuf| > 0 {
        var n := if size < |readBuf| then size else |readBuf|;
        data := readBuf[..n];
        readBuf := readBuf[n..];
        return;
      }
      while true
        invariant readBuf == [] && data == [] && Decoded(input) == Decoded(old(input))
        decreases |input|
      {
        HeadDecodes(input);
        var header;
        header, err := ReadFull(4);
        if err.Some? {
          return;
        }
        if header[0] == 0x01 && header[1] == 0x00 {
          var length := BigEndian(header[2], header[3]);
          if length == 0 {
            continue;
          }
          var payload;
          payload, err := ReadFull(length);
          if err.Some? {
            return;
          }
          var n := if length <= size then length else size;
          data := payload[..n];
          readBuf := payload[n..];
          return;
        }
        if header[0] == 0x01 && header[1] == 0x01 {
          err := Some(EOF);
        } else {
          err := Some(BadHeader(header));
        }
        return;
      }
    }

    // Writing sends the data in frames. The transport takes `accepts(k)` bytes of the k-th frame; when that is
    // not all of it the write fails, having sent whole frames for the bytes it reports and part of the next.
    method Write(b: seq<byte>, accepts: nat -> nat) returns (written: nat, ok: bool)
      modifies this`output
      ensures ok ==> written == |b| && output == old(output) + Frames(b)
      ensures !ok ==> written < |b| && written % MAX_CHUNK == 0
      ensures !ok ==> var whole := old(output) + Frames(b[..written]);
                      whole <= output < whole + Frame(NextChunk(b, written))
      ensures (forall k :: accepts(k) >= 4 + MAX_CHUNK) ==> ok
    {
      hide Frames;
      written := 0;
      ShortFrames(b[..0]);
      while written < |b|
        invariant written <= |b| && (written < |b| ==> written % MAX_CHUNK == 0)
        invariant output == old(output) + Frames(b[..written])
      {
        var chunk := NextChunk(b, written);
        var frame := Frame(chunk);
        FramesAppend(b[..written], chunk);
        assert b[..written] + chunk == b[..written + |chunk|];
        var taken := accepts(written / MAX_CHUNK);
        if taken < |frame| {
          output := output + frame[..taken];
          return written, false;
        }
        output := output + frame;
        written := written + |chunk|;
      }
      assert b[..|b|] == b;
      return written, true;
    }

    // The close frame is sent once, and only on a connection that can be used again.
    method CloseWrite()
      modifies this`output, this`closed
      ensures closed
      ensures output == if old(closed) || !reuse then old(output) else old(output) + CLOSE_FRAME
    {
      if !closed {
        closed := true;
        if reuse {
          output := output + CLOSE_FRAME;
        }
      }
    }

    // Reads of any positive sizes, until one fails: together they return a prefix of the content, one
    // byte at least each; once it is used up the next read reports the ending.
    method ReadMany(sizes: seq<nat>) returns (got: seq<byte>, err: Option<ReadError>)
      requires forall k :: 0 <= k < |sizes| ==> sizes[k] > 0
      modifies this`input, this`readBuf
      ensures got <= old(ToRead()).payload
      ensures err.Some? ==> got == old(ToRead()).payload && err.value == old(ToRead()).ending
      ensures err.None? ==> |got| >= |sizes|
      ensures |sizes| > |old(ToRead()).payload| ==> err.Some?
    {
      got, err := [], None;
      for k := 0 to |sizes|
        invariant err == None && |got| >= k
        invariant old(ToRead()) == Content(got + ToRead().payload, ToRead().ending)
      {
        var data;
        ghost var before := ToRead();
        data, err := Read(sizes[k]);
        if err.Some? {
          return;
        }
        assert got + before.payload == got + data + ToRead().payload;
        got := got + data;
      }
    }
  }

  method SendAll(writes: seq<seq<byte>>) returns (sent: seq<byte>)
    ensures sent == Written(writes) + CLOSE_FRAME
  {
    hide Frames;
    var sender := new TcpTunnelConn([], true);
    assert writes[0..] == writes && [] + Written(writes) == Written(writes);
    for k := 0 to |writes|
      invariant sender.output + Written(writes[k..]) == Written(writes) && !sender.closed
    {
      ghost var before := sender.output;
      var written, ok := sender.Write(writes[k], n => 4 + MAX_CHUNK);
      assert writes[k..][0] == writes[k] && writes[k..][1..] == writes[k + 1..];
      assert before + (Frames(writes[k]) + Written(writes[k + 1..])) == sender.output + Written(writes[k + 1..]);
    }
    sender.CloseWrite();
    sent := sender.output;
  }

  // Both ends together: whatever one side wrote before closing, the other side reads, in reads of any
  // sizes, and then the end.
  method RoundTrip(writes: seq<seq<byte>>, sizes: seq<nat>, after: seq<byte>)
    returns (got: seq<byte>, err: Option<ReadError>)
    requires forall k :: 0 <= k < |sizes| ==> sizes[k] > 0
    ensures got <= Joined(writes) && (err.Some? ==> got == Joined(writes) && err.value == EOF)
    ensures err.None? ==> |sizes| <= |got|
    ensures |sizes| > |Joined(writes)| ==> err == Some(EOF)
  {
    var sent := SendAll(writes);
    WritesDecode(writes, after);
    var receiver := new TcpTunnelConn(sent + after, true);
    assert receiver.ToRead() == Content(Joined(writes), EOF);
    got, err := receiver.ReadMany(sizes);
  }

  // ---- The bytes on the wire ----

  // The k-th chunk of the data lies behind k whole frames, after 01 00 and its length, high byte first.
  lemma {:induction false} FramesOnBytes(data: seq<byte>, k: nat)
    requires 0xFFFF * k < |data|
    ensures FrameLiesAt(Frames(data), (0xFFFF + 4) * k, data[0xFFFF * k..ChunkEnd(data, k)])
    decreases k
  {
    hide Frames, Frame, FrameLiesAt;
    if k > 0 {
      var later := data[0xFFFF..];
      FramesOnBytes(later, k - 1);
      FramesLater(data, k);
      LiesLater(Frame(data[..0xFFFF]), Frames(later), (0xFFFF + 4) * (k - 1),
                later[0xFFFF * (k - 1)..ChunkEnd(later, k - 1)]);
      SameChunk(data, k);
    } else {
      FirstFrame(data);
    }
  }

  lemma SameChunk(data: seq<byte>, k: nat)
    requires k > 0 && 0xFFFF * k < |data|
    ensures var later := data[0xFFFF..];
            later[0xFFFF * (k - 1)..ChunkEnd(later, k - 1)] == data[0xFFFF * k..ChunkEnd(data, k)]
  {
  }

  function ChunkEnd(data: seq<byte>, k: nat): (end: nat)
    requires 0xFFFF * k < |data|
    ensures 0xFFFF * k < end <= |data|
  {
    if |data| - 0xFFFF * k < 0xFFFF then |data| else 0xFFFF * (k + 1)
  }

  predicate FrameLiesAt(s: seq<byte>, at: nat, chunk: seq<byte>) {
    && at + 4 + |chunk| <= |s| && s[at] == 1 && s[at + 1] == 0
    && 256 * (s[at + 2] as int) + s[at + 3] == |chunk|
    && s[at + 4..at + 4 + |chunk|] == chunk
  }

  lemma LiesLater(front: seq<byte>, s: seq<byte>, at: nat, chunk: seq<byte>)
    requires FrameLiesAt(s, at, chunk)
    ensures FrameLiesAt(front + s, |front| + at, chunk)
  {
  }

  lemma FirstFrame(data: seq<byte>)
    requires data != []
    ensures FrameLiesAt(Frames(data), 0, data[..ChunkEnd(data, 0)])
  {
    var first := data[..ChunkEnd(data, 0)];
    assert |data| <= MAX_CHUNK ==> first == data;
    assert Frame(first) == [1, 0, |first| / 0x100, |first| % 0x100] + first;
    var rest := Frames(data)[|Frame(first)|..];
    assert Frames(data) == Frame(first) + rest;
    hide Frames;
  }

  lemma FramesLater(data: seq<byte>, k: nat)
    requires k > 0 && 0xFFFF * k < |data|
    ensures |Frame(data[..0xFFFF])| == 0xFFFF + 4 && Frames(data) == Frame(data[..0xFFFF]) + Frames(data[0xFFFF..])
  {
  }

  // Nothing else is on the wire.
  lemma {:induction false} FramesLength(data: seq<byte>)
    ensures |Frames(data)| == |data| + 4 * ((|data| + 0xFFFE) / 0xFFFF)
    decreases |data|
  {
    if |data| > MAX_CHUNK {
      FramesLength(data[MAX_CHUNK..]);
    }
  }
}
