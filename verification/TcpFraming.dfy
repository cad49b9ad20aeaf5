// The TCP tunnel's framed mode: writes are cut into frames of at most 65535 bytes, reads put the payload
// together again into buffers of any size, and an end frame closes the stream.
module TcpFraming {
  import opened Bytes

  const MAX_CHUNK := 0xFFFF

  function DataHeader(length: Uint16): seq<Byte> {
    [0x01, 0x00, High(length), Low(length)]
  }

  const END_FRAME: seq<Byte> := [0x01, 0x01, 0x00, 0x00]

  // What Write puts on the connection.
  function Encode(b: seq<Byte>): seq<Byte>
    decreases |b|
  {
    if b == [] then []
    else
      var n := if |b| < MAX_CHUNK then |b| else MAX_CHUNK;
      DataHeader(n) + b[..n] + Encode(b[n..])
  }

  // How a read ends: with data, at the end of the stream, in the middle of a frame, or at nonsense.
  datatype Outcome = Data | Eof | Unexpected | BadHeader

  // What is still to come from the peer, and the rest of a frame that did not fit the last buffer.
  datatype Source = Source(input: seq<Byte>, readBuf: seq<Byte>)

  // io.ReadFull with only `available` bytes to come.
  function Short(available: nat): Outcome {
    if available == 0 then Eof else Unexpected
  }

  function ReadFrame(input: seq<Byte>, size: nat): (Source, seq<Byte>, Outcome)
    requires size > 0
    decreases |input|
  {
    if |input| < 4 then (Source([], []), [], Short(|input|))
    else if input[0] == 0x01 && input[1] == 0x00 then
      var length := BigEndian16(input[2], input[3]);
      var rest := input[4..];
      if length == 0 then ReadFrame(rest, size)
      else if |rest| < length then (Source([], []), [], Short(|rest|))
      else if length <= size then (Source(rest[length..], []), rest[..length], Data)
      else (Source(rest[length..], rest[size..length]), rest[..size], Data)
    else if input[0] == 0x01 && input[1] == 0x01 then (Source(input[4..], []), [], Eof)
    else (Source(input[4..], []), [], BadHeader)
  }

  function ReadOnce(s: Source, size: nat): (Source, seq<Byte>, Outcome) {
    if size == 0 then (s, [], Data)
    else if s.readBuf != [] then
      var n := if |s.readBuf| < size then |s.readBuf| else size;
      (Source(s.input, s.readBuf[n..]), s.readBuf[..n], Data)
    else ReadFrame(s.input, size)
  }

  ghost predicate IsEndOf(part: seq<Byte>, all: seq<Byte>) {
    |part| <= |all| && part == all[|all| - |part|..]
  }

  // A read that failed in the middle of a payload has put the last bytes of the input into the buffer,
  // or none, and has left the rest of it alone.
  ghost predicate CutShort(was: seq<Byte>, now: seq<Byte>, input: seq<Byte>) {
    exists k :: 0 <= k <= |now| == |was| && IsEndOf(now[..k], input) && now[k..] == was[k..]
  }

  class TcpTunnelConn {
    var sent: seq<Byte>     // everything the connection took
    var input: seq<Byte>    // everything the peer is still going to send
    var readBuf: seq<Byte>
    var writeClosed: bool   // closeWriteOnce has run
    var halfClosed: bool    // the transport's own write side is closed
    const reuse: bool

    constructor (input: seq<Byte>, reuse: bool)
      ensures View() == Source(input, []) && sent == [] && !writeClosed && !halfClosed && this.reuse == reuse
    {
      sent, this.input, readBuf, writeClosed, halfClosed, this.reuse := [], input, [], false, false, reuse;
    }

    function View(): Source
      reads this
    {
      Source(input, readBuf)
    }

    // io.ReadFull: `n` bytes from the peer, or those that still came and how the input ran short.
    method ReadFull(n: nat) returns (data: seq<Byte>, outcome: Outcome)
      modifies this`input
      ensures |old(input)| >= n ==> data == old(input)[..n] && outcome == Data && input == old(input)[n..]
      ensures |old(input)| < n ==> data == old(input) && outcome == Short(|data|) && input == []
    {
      if |input| < n {
        data, outcome, input := input, Short(|input|), [];
      } else {
        data, outcome := input[..n], Data;
        input := input[n..];
      }
    }

    method Read(b: array<Byte>) returns (n: nat, outcome: Outcome)
      modifies this`input, this`readBuf, b
      ensures n <= b.Length && (View(), b[..n], outcome) == ReadOnce(old(View()), b.Length)
      ensures outcome != Unexpected ==> b[n..] == old(b[n..])
      ensures outcome == Unexpected ==> CutShort(old(b[..]), b[..], old(input))
    {
      if b.Length == 0 { return 0, Data; }
      if readBuf != [] {
        n := if |readBuf| < b.Length then |readBuf| else b.Length;
        Fill(b, readBuf[..n]);
        readBuf := readBuf[n..];
        return n, Data;
      }
      while true
        invariant readBuf == [] && b[..] == old(b[..])
        invariant IsEndOf(input, old(input))
        invariant ReadFrame(input, b.Length) == ReadFrame(old(input), b.Length)
        decreases |input|
      {
        ghost var all := input;
        var header, got := ReadFull(4);
        if got != Data {
          assert b[..] == [] + b[..];
          return 0, got;
        }
        assert IsEndOf(input, all);
        if header[0] == 0x01 && header[1] == 0x00 {
          var length := BigEndian16(header[2], header[3]);
          if length == 0 { continue; }
          n, outcome := ReadPayload(b, length, all);
          return;
        } else if header[0] == 0x01 && header[1] == 0x01 {
          return 0, Eof;
        } else {
          return 0, BadHeader;
        }
      }
    }

    // The payload of a frame into the buffer, and into readBuf what does not fit.
    method ReadPayload(b: array<Byte>, length: Uint16, ghost all: seq<Byte>) returns (n: nat, outcome: Outcome)
      requires b.Length > 0 && length > 0 && readBuf == [] && |all| >= 4 && input == all[4..]
      requires all[0] == 0x01 && all[1] == 0x00 && BigEndian16(all[2], all[3]) == length
      modifies this`input, this`readBuf, b
      ensures n <= b.Length && (View(), b[..n], outcome) == ReadFrame(all, b.Length)
      ensures outcome != Unexpected ==> b[n..] == old(b[n..])
      ensures outcome == Unexpected ==> CutShort(old(b[..]), b[..], all)
    {
      var payload;
      payload, outcome := ReadFull(length);
      if outcome != Data {
        if length <= b.Length { Fill(b, payload); }
        return 0, outcome;
      }
      ReadFrameUnfolds(all, length, b.Length);
      hide ReadFrame;
      if length <= b.Length {
        Fill(b, payload);
        return length, Data;
      }
      Fill(b, payload[..b.Length]);
      readBuf := payload[b.Length..];
      assert payload[..b.Length] == all[4..][..b.Length] && payload[b.Length..] == all[4..][b.Length..length];
      return b.Length, Data;
    }

    method Fill(b: array<Byte>, data: seq<Byte>)
      requires |data| <= b.Length
      modifies b
      ensures b[..|data|] == data && b[|data|..] == old(b[|data|..])
    {
      forall i | 0 <= i < |data| { b[i] := data[i]; }
    }

    // `takes` is the number of frames the connection takes before it fails, if it does.
    method Write(b: seq<Byte>, takes: Option<nat>) returns (written: nat, ok: bool)
      modifies this`sent
      ensures written <= |b| && sent == old(sent) + Encode(b[..written])
      ensures ok ==> written == |b|
      ensures !ok ==> takes.Some? && written == takes.value * MAX_CHUNK < |b|
      ensures takes.None? || takes.value * MAX_CHUNK >= |b| ==> ok
    {
      hide Encode;
      written, ok := 0, true;
      var frames := 0;
      EncodeNothing(b);
      while written < |b|
        invariant 0 <= written <= |b| && sent == old(sent) + Encode(b[..written])
        invariant written == frames * MAX_CHUNK || written == |b| <= frames * MAX_CHUNK
        invariant takes.Some? ==> frames <= takes.value
        decreases |b| - written
      {
        if takes == Some(frames) { return written, false; }
        var chunkSize := if |b| - written < MAX_CHUNK then |b| - written else MAX_CHUNK;
        EncodeNext(b, written, chunkSize, frames);
        sent := sent + (DataHeader(chunkSize) + b[written..written + chunkSize]);
        written := written + chunkSize;
        frames := frames + 1;
      }
      assert b[..written] == b;
    }

    method CloseWrite()
      modifies this`sent, this`writeClosed, this`halfClosed
      ensures writeClosed
      ensures sent == old(sent) + (if !old(writeClosed) && reuse then END_FRAME else [])
      ensures halfClosed == (old(halfClosed) || (!old(writeClosed) && !reuse))
    {
      if !writeClosed {
        writeClosed := true;
        if reuse { sent := sent + END_FRAME; } else { halfClosed := true; }
      }
    }
  }

  // Full chunks followed by one more chunk encode one after the other.
  lemma {:induction false} EncodeAppend(a: seq<Byte>, chunk: seq<Byte>, frames: nat)
    requires |a| == frames * MAX_CHUNK && 0 < |chunk| <= MAX_CHUNK
    ensures Encode(a + chunk) == Encode(a) + (DataHeader(|chunk|) + chunk)
    decreases |a|
  {
    if a == [] {
      assert a + chunk == chunk && chunk[|chunk|..] == [];
      assert chunk[..|chunk|] == chunk;
    } else {
      EncodeAppend(a[MAX_CHUNK..], chunk, frames - 1);
      FullChunk(a, chunk);
      hide Encode, DataHeader;
      Assoc(DataHeader(MAX_CHUNK) + a[..MAX_CHUNK], Encode(a[MAX_CHUNK..]), DataHeader(|chunk|) + chunk);
    }
  }

  // The first frame is the same, whatever follows.
  lemma FullChunk(a: seq<Byte>, more: seq<Byte>)
    requires |a| >= MAX_CHUNK
    ensures Encode(a) == DataHeader(MAX_CHUNK) + a[..MAX_CHUNK] + Encode(a[MAX_CHUNK..])
    ensures Encode(a + more) == DataHeader(MAX_CHUNK) + a[..MAX_CHUNK] + Encode(a[MAX_CHUNK..] + more)
  {
    assert (a + more)[..MAX_CHUNK] == a[..MAX_CHUNK] && (a + more)[MAX_CHUNK..] == a[MAX_CHUNK..] + more;
  }

  lemma EncodeNothing(b: seq<Byte>)
    ensures Encode(b[..0]) == []
  {}

  lemma EncodeNext(b: seq<Byte>, written: nat, n: nat, frames: nat)
    requires written == frames * MAX_CHUNK && written + n <= |b| && 0 < n <= MAX_CHUNK
    ensures Encode(b[..written + n]) == Encode(b[..written]) + (DataHeader(n) + b[written..written + n])
  {
    EncodeAppend(b[..written], b[written..written + n], frames);
    assert b[..written] + b[written..written + n] == b[..written + n];
  }

  // ---- Any writes, any reads.

  // Everything written, and what it looks like on the connection.
  function Written(writes: seq<seq<Byte>>): seq<Byte> {
    if writes == [] then [] else writes[0] + Written(writes[1..])
  }

  function OnTheWire(writes: seq<seq<Byte>>): seq<Byte> {
    if writes == [] then [] else Encode(writes[0]) + OnTheWire(writes[1..])
  }

  // ---- What a reader can expect of a stream that ends, or is cut off, after any number of bytes.

  type Chunk = c: seq<Byte> | |c| <= MAX_CHUNK

  function Wire(chunks: seq<Chunk>): seq<Byte> {
    if chunks == [] then [] else DataHeader(|chunks[0]|) + chunks[0] + Wire(chunks[1..])
  }

  function Payload(chunks: seq<Chunk>): seq<Byte> {
    if chunks == [] then [] else chunks[0] + Payload(chunks[1..])
  }

  function Stream(chunks: seq<Chunk>, closed: bool): seq<Byte> {
    Wire(chunks) + if closed then END_FRAME else []
  }

  // The payload of the frames that are wholly within the first `n` bytes.
  function Arrived(chunks: seq<Chunk>, n: nat): seq<Byte> {
    if chunks == [] || n < 4 + |chunks[0]| then [] else chunks[0] + Arrived(chunks[1..], n - 4 - |chunks[0]|)
  }

  // How reading the first `n` bytes ends: a reader cannot tell a cut between two frames, or between a
  // header and its payload, from the end of the stream.
  function Ending(chunks: seq<Chunk>, n: nat): Outcome {
    if chunks != [] && n >= 4 + |chunks[0]| then Ending(chunks[1..], n - 4 - |chunks[0]|)
    else if n == 0 || n == 4 then Eof
    else Unexpected
  }

  ghost predicate Holds(s: Source, chunks: seq<Chunk>, closed: bool, n: nat) {
    n <= |Stream(chunks, closed)| && s.input == Stream(chunks, closed)[..n]
  }

  lemma SizeOfHeader(n: Uint16)
    ensures |DataHeader(n)| == 4 && BigEndian16(DataHeader(n)[2], DataHeader(n)[3]) == n
  {}

  // Reading a frame whose payload is all there.
  lemma ReadFrameUnfolds(input: seq<Byte>, n: Uint16, size: nat)
    requires |input| >= 4 + n && input[0] == 0x01 && input[1] == 0x00
    requires BigEndian16(input[2], input[3]) == n && size > 0
    ensures n == 0 ==> ReadFrame(input, size) == ReadFrame(input[4..], size)
    ensures 0 < n <= size ==> ReadFrame(input, size) == (Source(input[4..][n..], []), input[4..][..n], Data)
    ensures n > size ==> ReadFrame(input, size) == (Source(input[4..][n..], input[4..][size..n]), input[4..][..size], Data)
  {}

  // The first `n` bytes, from the first frame's header on.
  lemma FirstFrame(chunks: seq<Chunk>, closed: bool, n: nat)
    requires chunks != [] && 4 <= n <= |Stream(chunks, closed)|
    ensures var c, input := chunks[0], Stream(chunks, closed)[..n];
      && input[0] == 0x01 && input[1] == 0x00 && BigEndian16(input[2], input[3]) == |c|
      && (n >= 4 + |c| ==> input[4..][..|c|] == c && Holds(Source(input[4..][|c|..], []), chunks[1..], closed, n - 4 - |c|))
  {
    hide Stream, Wire, DataHeader;
    SizeOfHeader(|chunks[0]|);
    StreamUnfolds(chunks, closed);
    CutBehindHeader(DataHeader(|chunks[0]|), chunks[0], Stream(chunks[1..], closed), n);
    HeaderStarts(|chunks[0]|);
  }

  lemma CutBehindHeader(header: seq<Byte>, c: seq<Byte>, rest: seq<Byte>, n: nat)
    requires |header| == 4 <= n <= 4 + |c| + |rest|
    ensures var input := (header + c + rest)[..n];
      && (forall i :: 0 <= i < 4 ==> input[i] == header[i])
      && (n >= 4 + |c| ==> input[4..][..|c|] == c && input[4..][|c|..] == rest[..n - 4 - |c|])
  {}

  lemma HeaderStarts(n: Uint16)
    ensures DataHeader(n)[0] == 0x01 && DataHeader(n)[1] == 0x00
  {}

  lemma StreamUnfolds(chunks: seq<Chunk>, closed: bool)
    requires chunks != []
    ensures Stream(chunks, closed) == DataHeader(|chunks[0]|) + chunks[0] + Stream(chunks[1..], closed)
  {
    hide DataHeader;
    var frame, end := DataHeader(|chunks[0]|) + chunks[0], if closed then END_FRAME else [];
    assert frame + Wire(chunks[1..]) + end == frame + (Wire(chunks[1..]) + end);
  }

  // One frame read from the first `n` bytes: a piece of what arrives, or the end when nothing does.
  lemma {:induction false} ReadFrameStep(chunks: seq<Chunk>, closed: bool, n: nat, size: nat)
      returns (chunks': seq<Chunk>, n': nat)
    requires n <= |Stream(chunks, closed)| && size > 0
    ensures var (s, got, outcome) := ReadFrame(Stream(chunks, closed)[..n], size);
      if outcome == Data then
        && Holds(s, chunks', closed, n') && 0 < |got| <= size
        && got + (s.readBuf + Arrived(chunks', n')) == Arrived(chunks, n) && Ending(chunks', n') == Ending(chunks, n)
      else got == [] && Arrived(chunks, n) == [] && outcome == Ending(chunks, n)
    decreases chunks
  {
    hide Stream, ReadFrame;
    chunks', n' := chunks, n;
    var input := Stream(chunks, closed)[..n];
    if chunks == [] || n < 4 + |chunks[0]| {
      NothingArrives(chunks, closed, n, size);
    } else {
      var c := chunks[0];
      FirstFrame(chunks, closed, n);
      ReadFrameUnfolds(input, |c|, size);
      chunks', n' := chunks[1..], n - 4 - |c|;
      if c == [] {
        assert input[4..][0..] == input[4..];
        assert Arrived(chunks, n) == Arrived(chunks', n');
        chunks', n' := ReadFrameStep(chunks', closed, n', size);
      } else {
        Piece(input[4..], c, Arrived(chunks', n'), size);
      }
    }
  }

  lemma NothingArrives(chunks: seq<Chunk>, closed: bool, n: nat, size: nat)
    requires n <= |Stream(chunks, closed)| && size > 0 && (chunks == [] || n < 4 + |chunks[0]|)
    ensures var (s, got, outcome) := ReadFrame(Stream(chunks, closed)[..n], size);
      got == [] && outcome == Ending(chunks, n)
  {
    assert chunks == [] ==> Stream(chunks, closed) == if closed then END_FRAME else [];
    hide Stream, ReadFrame, DataHeader;
    var input := Stream(chunks, closed)[..n];
    if chunks == [] || n < 4 {
      assert n == 4 ==> input == END_FRAME;
      ReadShort(input, 0, size);
    } else {
      FirstFrame(chunks, closed, n);
      ReadShort(input, |chunks[0]|, size);
    }
  }

  // Too little for a header, an end frame, or a header with too little behind it.
  lemma ReadShort(input: seq<Byte>, length: Uint16, size: nat)
    requires size > 0
    requires |input| < 4 || input == END_FRAME
      || (input[0] == 0x01 && input[1] == 0x00 && BigEndian16(input[2], input[3]) == length && |input| < 4 + length)
    ensures var (s, got, outcome) := ReadFrame(input, size);
      got == [] && outcome == if |input| == 0 || |input| == 4 then Eof else Unexpected
  {}

  // A payload is handed out in one piece or in two.
  lemma Piece(input: seq<Byte>, c: seq<Byte>, more: seq<Byte>, size: nat)
    requires |input| >= |c| && input[..|c|] == c
    ensures input[..|c|] + ([] + more) == c + more
    ensures size < |c| ==> input[..size] + (input[size..|c|] + more) == c + more
  {
    if size < |c| {
      assert input[..size] + input[size..|c|] == c;
      Assoc(input[..size], input[size..|c|], more);
    }
  }

  // Reads of any sizes, up to the first that does not return data: what they returned, and how it ended.
  function ReadAll(s: Source, sizes: seq<nat>): (seq<Byte>, Outcome)
    decreases sizes
  {
    if sizes == [] then ([], Data)
    else
      var (s', got, outcome) := ReadOnce(s, sizes[0]);
      if outcome != Data then ([], outcome)
      else
        var (more, last) := ReadAll(s', sizes[1..]);
        (got + more, last)
  }

  lemma ReadOnceStep(s: Source, chunks: seq<Chunk>, closed: bool, n: nat, size: nat)
      returns (chunks': seq<Chunk>, n': nat)
    requires Holds(s, chunks, closed, n) && size > 0
    ensures var (s', got, outcome) := ReadOnce(s, size);
      var all := s.readBuf + Arrived(chunks, n);
      if outcome == Data then
        && Holds(s', chunks', closed, n') && 0 < |got| <= |all|
        && got + (s'.readBuf + Arrived(chunks', n')) == all && Ending(chunks', n') == Ending(chunks, n)
      else got == [] && all == [] && outcome == Ending(chunks, n)
  {
    hide Stream, ReadFrame, Arrived, Ending;
    chunks', n' := chunks, n;
    if s.readBuf == [] {
      chunks', n' := ReadFrameStep(chunks, closed, n, size);
      assert s.readBuf + Arrived(chunks, n) == Arrived(chunks, n);
    } else {
      var (s', got, _) := ReadOnce(s, size);
      assert got + s'.readBuf == s.readBuf;
      assert got + s'.readBuf + Arrived(chunks, n) == got + (s'.readBuf + Arrived(chunks, n));
    }
  }

  predicate AllPositive(sizes: seq<nat>) {
    forall i :: 0 <= i < |sizes| ==> sizes[i] > 0
  }

  // From any state of the reader: the reads return a beginning of what arrives, all of it once they report
  // an end, and that end is the one the cut stands for; non-empty buffers get there in the end.
  lemma {:induction false} ReadsArePrefix(s: Source, chunks: seq<Chunk>, closed: bool, n: nat, sizes: seq<nat>)
    requires Holds(s, chunks, closed, n)
    ensures var (got, outcome) := ReadAll(s, sizes);
      var all := s.readBuf + Arrived(chunks, n);
      && got <= all && (outcome == Data || (got == all && outcome == Ending(chunks, n)))
      && (AllPositive(sizes) && |sizes| > |all| ==> outcome != Data)
    decreases sizes
  {
    hide Holds, Arrived, Ending;
    if sizes != [] {
      var (s', got, outcome) := ReadOnce(s, sizes[0]);
      assert AllPositive(sizes) ==> AllPositive(sizes[1..]);
      if sizes[0] == 0 {
        ReadsArePrefix(s, chunks, closed, n, sizes[1..]);
      } else {
        var chunks', n' := ReadOnceStep(s, chunks, closed, n, sizes[0]);
        hide ReadOnce;
        if outcome == Data { ReadsArePrefix(s', chunks', closed, n', sizes[1..]); }
      }
    }
  }

  // ---- The frames of a sender.

  function Cut(b: seq<Byte>): seq<Chunk>
    decreases |b|
  {
    if b == [] then []
    else
      var n := if |b| < MAX_CHUNK then |b| else MAX_CHUNK;
      [b[..n]] + Cut(b[n..])
  }

  function CutAll(writes: seq<seq<Byte>>): seq<Chunk> {
    if writes == [] then [] else Cut(writes[0]) + CutAll(writes[1..])
  }

  ghost predicate NoneEmpty(chunks: seq<Chunk>) {
    forall i :: 0 <= i < |chunks| ==> chunks[i] != []
  }

  lemma {:induction false} CutIsEncoded(b: seq<Byte>)
    ensures Wire(Cut(b)) == Encode(b) && Payload(Cut(b)) == b && NoneEmpty(Cut(b))
    decreases |b|
  {
    hide DataHeader;
    if b != [] {
      var n := if |b| < MAX_CHUNK then |b| else MAX_CHUNK;
      CutIsEncoded(b[n..]);
      assert Cut(b) == [b[..n]] + Cut(b[n..]) && Cut(b)[1..] == Cut(b[n..]);
      assert b[..n] + b[n..] == b;
    }
  }

  lemma {:induction false} WireConcat(a: seq<Chunk>, b: seq<Chunk>)
    ensures Wire(a + b) == Wire(a) + Wire(b) && Payload(a + b) == Payload(a) + Payload(b)
  {
    hide DataHeader;
    if a == [] {
      assert a + b == b;
    } else {
      assert (a + b)[0] == a[0] && (a + b)[1..] == a[1..] + b;
      WireConcat(a[1..], b);
      Assoc(DataHeader(|a[0]|) + a[0], Wire(a[1..]), Wire(b));
      Assoc(a[0], Payload(a[1..]), Payload(b));
    }
  }

  lemma Assoc(a: seq<Byte>, b: seq<Byte>, c: seq<Byte>)
    ensures a + b + c == a + (b + c)
  {}

  lemma {:induction false} CutAllIsWritten(writes: seq<seq<Byte>>)
    ensures Wire(CutAll(writes)) == OnTheWire(writes) && Payload(CutAll(writes)) == Written(writes)
    ensures NoneEmpty(CutAll(writes))
  {
    if writes != [] {
      CutIsEncoded(writes[0]);
      CutAllIsWritten(writes[1..]);
      WireConcat(Cut(writes[0]), CutAll(writes[1..]));
    }
  }

  // What arrives of a sender's bytes, and whether the end looks like one.
  lemma {:induction false} ArrivedIs(chunks: seq<Chunk>, n: nat)
    requires NoneEmpty(chunks)
    ensures Arrived(chunks, n) <= Payload(chunks)
    ensures Arrived(chunks, n) == Payload(chunks) <==> n >= |Wire(chunks)|
    ensures n >= |Wire(chunks)| ==> (Ending(chunks, n) == Eof <==> n - |Wire(chunks)| in {0, 4})
    decreases chunks
  {
    if chunks != [] {
      SizeOfHeader(|chunks[0]|);
      hide DataHeader;
      if n >= 4 + |chunks[0]| {
        ArrivedIs(chunks[1..], n - 4 - |chunks[0]|);
        assert Payload(chunks)[|chunks[0]|..] == Payload(chunks[1..]);
        assert Arrived(chunks, n)[|chunks[0]|..] == Arrived(chunks[1..], n - 4 - |chunks[0]|);
      } else {
        assert Payload(chunks)[..|chunks[0]|] == chunks[0];
      }
    }
  }

  // `n` bytes end between two frames, or between a header and its payload.
  ghost predicate AtFrame(chunks: seq<Chunk>, n: nat) {
    exists k :: 0 <= k <= |chunks| && (n == |Wire(chunks[..k])| || n == |Wire(chunks[..k])| + 4)
  }

  lemma {:induction false} EndingIsEof(chunks: seq<Chunk>, n: nat)
    requires NoneEmpty(chunks)
    ensures Ending(chunks, n) == Eof <==> AtFrame(chunks, n)
    decreases chunks
  {
    assert chunks[..0] == [];
    if chunks != [] {
      var size := 4 + |chunks[0]|;
      SizeOfHeader(|chunks[0]|);
      hide DataHeader;
      forall k | 0 < k <= |chunks| ensures |Wire(chunks[..k])| == size + |Wire(chunks[1..][..k - 1])| {
        assert chunks[..k][1..] == chunks[1..][..k - 1];
      }
      if n >= size {
        EndingIsEof(chunks[1..], n - size);
        if AtFrame(chunks[1..], n - size) {
          var k :| 0 <= k <= |chunks| - 1
            && (n - size == |Wire(chunks[1..][..k])| || n - size == |Wire(chunks[1..][..k])| + 4);
          assert |Wire(chunks[..k + 1])| == size + |Wire(chunks[1..][..k])|;
        }
      } else if n == 0 || n == 4 {
        assert n == |Wire(chunks[..0])| || n == |Wire(chunks[..0])| + 4;
      }
    }
  }

  // What one side writes in any number of calls, and then perhaps closes, the other side reads with buffers
  // of any sizes: always a beginning of it, whole when the end is reported, and the end is reported at the
  // latest after as many non-empty buffers as there are bytes.
  lemma RoundTrip(writes: seq<seq<Byte>>, closed: bool, sizes: seq<nat>)
    ensures var input := OnTheWire(writes) + if closed then END_FRAME else [];
      var (got, outcome) := ReadAll(Source(input, []), sizes);
      && got <= Written(writes) && (outcome == Data || outcome == Eof)
      && (outcome == Eof ==> got == Written(writes))
      && (AllPositive(sizes) && |sizes| > |Written(writes)| ==> outcome == Eof)
  {
    hide Encode, OnTheWire, Written, ReadAll, AllPositive;
    var chunks := CutAll(writes);
    CutAllIsWritten(writes);
    var input := Stream(chunks, closed);
    ArrivedIs(chunks, |input|);
    assert input[..|input|] == input;
    assert [] + Arrived(chunks, |input|) == Arrived(chunks, |input|);
    ReadsArePrefix(Source(input, []), chunks, closed, |input|, sizes);
  }

  // The same when the connection ends after the first `n` bytes. Enough reads return exactly the payload of
  // the frames that came through whole; they take the end for a regular one exactly when it falls between
  // two frames or right behind a header, even though bytes are missing whenever it comes before the last.
  lemma TruncationIsSilent(writes: seq<seq<Byte>>, closed: bool, n: nat, sizes: seq<nat>)
    requires AllPositive(sizes) && |sizes| > |Written(writes)|
    requires n <= |OnTheWire(writes) + if closed then END_FRAME else []|
    ensures var input := OnTheWire(writes) + if closed then END_FRAME else [];
      var (got, outcome) := ReadAll(Source(input[..n], []), sizes);
      && got == Arrived(CutAll(writes), n) && got <= Written(writes)
      && (outcome == Eof || outcome == Unexpected)
      && (outcome == Eof <==> AtFrame(CutAll(writes), n))
      && (got == Written(writes) <==> n >= |OnTheWire(writes)|)
  {
    hide Encode, OnTheWire, Written, ReadAll, AllPositive, AtFrame, Arrived;
    var chunks := CutAll(writes);
    CutAllIsWritten(writes);
    ArrivedIs(chunks, n);
    EndingIsEof(chunks, n);
    assert [] + Arrived(chunks, n) == Arrived(chunks, n);
    ReadsArePrefix(Source(Stream(chunks, closed)[..n], []), chunks, closed, n, sizes);
    EndsSomehow(chunks, n);
  }

  lemma {:induction false} EndsSomehow(chunks: seq<Chunk>, n: nat)
    ensures Ending(chunks, n) == Eof || Ending(chunks, n) == Unexpected
    decreases chunks
  {
    if chunks != [] && n >= 4 + |chunks[0]| { EndsSomehow(chunks[1..], n - 4 - |chunks[0]|); }
  }

  // The bytes of a frame: a one and a zero, the length with its high byte first, and the payload; and the
  // four bytes of the end frame.
  lemma WireFormat(b: seq<Byte>)
    requires 0 < |b| <= 0xFFFF
    ensures Encode(b) == [0x01, 0x00, |b| / 0x100, |b| % 0x100] + b && END_FRAME == [0x01, 0x01, 0x00, 0x00]
  {
    assert b[..|b|] == b && b[|b|..] == [] && Encode([]) == [];
  }

  // Whatever else stands where a header should be is reported as such.
  lemma BadHeaderExactly(input: seq<Byte>, size: nat)
    requires |input| >= 4 && size > 0
    ensures !(input[0] == 0x01 && input[1] <= 0x01) ==> ReadFrame(input, size).2 == BadHeader
    ensures input[0] == 0x01 && input[1] == 0x01 ==> ReadFrame(input, size).2 == Eof
  {}

  // A connection that breaks right behind the header of the only frame: the byte is lost, and the reader
  // is told that the stream has ended.
  lemma HeaderThenNothing()
    ensures var input := OnTheWire([[7]]);
      |input| == 5 && ReadAll(Source(input[..4], []), [1]) == ([], Eof) && Written([[7]]) == [7]
  {
    assert Encode([7]) == DataHeader(1) + [7] + Encode([]);
    assert OnTheWire([[7]]) == [0x01, 0x00, 0, 1, 7];
    var input := OnTheWire([[7]])[..4];
    assert input == [0x01, 0x00, 0, 1];
    assert ReadFrame(input, 1) == (Source([], []), [], Eof);
  }
}
