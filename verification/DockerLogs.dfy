/** The multiplexed log stream of a Docker engine (packages/utils/src/docker-engine.ts). */
module DockerLogs {
  import opened Wrappers

  type Byte = b: int | 0 <= b < 256

  /** One frame: stream byte, three bytes the decoder never looks at, length, payload. */
  datatype Frame = Frame(stream: Byte, padding: (Byte, Byte, Byte), payload: seq<Byte>)

  predicate ValidFrame(f: Frame) {
    && (f.stream == 1 || f.stream == 2)
    && |f.payload| < 0x1_0000_0000
  }

  predicate ValidFrames(fs: seq<Frame>) {
    forall f :: f in fs ==> ValidFrame(f)
  }

  // ----- What an engine sends -------------------------------------------------

  function UInt32BE(n: nat): (b: seq<Byte>)
    requires n < 0x1_0000_0000
    ensures |b| == 4
  {
    [n / 0x100_0000, n / 0x1_0000 % 0x100, n / 0x100 % 0x100, n % 0x100]
  }

  function ReadUInt32BE(buffer: seq<Byte>, at: nat): (n: nat)
    requires at + 4 <= |buffer|
    ensures n < 0x1_0000_0000
  {
    Word(buffer[at], buffer[at + 1], buffer[at + 2], buffer[at + 3])
  }

  function Word(b0: int, b1: int, b2: int, b3: int): int {
    b0 * 0x100_0000 + b1 * 0x1_0000 + b2 * 0x100 + b3
  }

  function Header(f: Frame): (h: seq<Byte>)
    requires ValidFrame(f)
    ensures |h| == 8
  {
    [f.stream, f.padding.0, f.padding.1, f.padding.2] + UInt32BE(|f.payload|)
  }

  function FrameBytes(f: Frame): (b: seq<Byte>)
    requires ValidFrame(f)
    ensures |b| == 8 + |f.payload|
  {
    Header(f) + f.payload
  }

  function Encode(fs: seq<Frame>): seq<Byte>
    requires ValidFrames(fs)
  {
    if fs == [] then [] else FrameBytes(fs[0]) + Encode(fs[1..])
  }

  function Payloads(fs: seq<Frame>): seq<Byte> {
    if fs == [] then [] else fs[0].payload + Payloads(fs[1..])
  }

  /** The buffer is the encoding of some non-empty list of frames. */
  ghost predicate Framed(buffer: seq<Byte>) {
    exists fs :: EncodesAs(fs, buffer)
  }

  ghost predicate EncodesAs(fs: seq<Frame>, buffer: seq<Byte>) {
    fs != [] && ValidFrames(fs) && Encode(fs) == buffer
  }

  // ----- Unique decomposition -------------------------------------------------

  lemma ReadHeader(f: Frame, rest: seq<Byte>)
    requires ValidFrame(f)
    ensures ReadUInt32BE(Header(f) + rest, 4) == |f.payload|
  {
    var n := |f.payload|;
    assert (Header(f) + rest)[4..8] == UInt32BE(n);
    assert n / 0x100 == n / 0x1_0000 * 0x100 + n / 0x100 % 0x100;
    assert n / 0x1_0000 == n / 0x100_0000 * 0x100 + n / 0x1_0000 % 0x100;
    var b := Header(f) + rest;
    assert b[4] == UInt32BE(n)[0] && b[5] == UInt32BE(n)[1] && b[6] == UInt32BE(n)[2] && b[7] == UInt32BE(n)[3];
  }

  /** The frame at the front of a buffer, if the eight header bytes and the payload fit. */
  function FirstFrame(buffer: seq<Byte>): (f: Option<Frame>)
    ensures f.Some? ==> ValidFrame(f.value) && 8 + |f.value.payload| <= |buffer|
  {
    if |buffer| < 8 then None
    else
      var size := ReadUInt32BE(buffer, 4);
      if (buffer[0] != 1 && buffer[0] != 2) || 8 + size > |buffer| then None
      else Some(Frame(buffer[0], (buffer[1], buffer[2], buffer[3]), buffer[8..8 + size]))
  }

  /** An encoded frame gives its length after the stream byte and the padding, the most significant byte first. */
  lemma LengthIsBigEndian(f: Frame)
    requires ValidFrame(f)
    ensures var (b4: int, b5: int, b6: int, b7: int) := (Header(f)[4], Header(f)[5], Header(f)[6], Header(f)[7]);
      Header(f)[0] == f.stream && |f.payload| == b4 * 16777216 + b5 * 65536 + b6 * 256 + b7
  {
    var n := |f.payload|;
    assert n / 0x100 == n / 0x1_0000 * 0x100 + n / 0x100 % 0x100;
    assert n / 0x1_0000 == n / 0x100_0000 * 0x100 + n / 0x1_0000 % 0x100;
  }

  /** Where the front of a buffer is a frame: output or error, with the payload's length, the most significant byte
      first, in the second four bytes. */
  lemma FirstFrameExactly(buffer: seq<Byte>)
    ensures |buffer| < 8 ==> FirstFrame(buffer) == None
    ensures |buffer| >= 8 ==>
      var (b4: int, b5: int, b6: int, b7: int) := (buffer[4], buffer[5], buffer[6], buffer[7]);
      var size := b4 * 16777216 + b5 * 65536 + b6 * 256 + b7;
      && (FirstFrame(buffer).Some? <==> buffer[0] in {1, 2} && 8 + size <= |buffer|)
      && (FirstFrame(buffer).Some? ==>
          FirstFrame(buffer).value.stream == buffer[0] && FirstFrame(buffer).value.payload == buffer[8..8 + size])
  {
  }

  lemma WordDigits(b0: int, b1: int, b2: int, b3: int)
    requires 0 <= b0 < 256 && 0 <= b1 < 256 && 0 <= b2 < 256 && 0 <= b3 < 256
    ensures var n := Word(b0, b1, b2, b3);
      n / 0x100_0000 == b0 && n / 0x1_0000 % 0x100 == b1 && n / 0x100 % 0x100 == b2 && n % 0x100 == b3
  {
    var n := Word(b0, b1, b2, b3);
    assert n / 0x100 == (b0 * 0x100 + b1) * 0x100 + b2;
    assert n / 0x1_0000 == b0 * 0x100 + b1;
  }

  lemma HeaderOfRead(b: seq<Byte>)
    requires |b| >= 8
    ensures UInt32BE(ReadUInt32BE(b, 4)) == b[4..8]
  {
    WordDigits(b[4], b[5], b[6], b[7]);
  }

  lemma PrefixIsFirstFrame(buffer: seq<Byte>, f: Frame)
    requires ValidFrame(f) && FrameBytes(f) <= buffer
    ensures FirstFrame(buffer) == Some(f)
  {
    var n := |f.payload|;
    var rest := buffer[8 + n..];
    assert buffer == Header(f) + (f.payload + rest);
    ReadHeader(f, f.payload + rest);
    assert buffer[8..8 + n] == f.payload;
    assert buffer[..4] == Header(f)[..4];
  }

  lemma FirstFrameBytes(buffer: seq<Byte>, f: Frame)
    requires FirstFrame(buffer) == Some(f)
    ensures FrameBytes(f) == buffer[..8 + |f.payload|]
  {
    HeaderOfRead(buffer);
    assert UInt32BE(|f.payload|) == buffer[4..8];
    assert Header(f) == buffer[..8];
  }

  /** A buffer starts with a frame exactly when the frame's bytes are its prefix. */
  lemma FirstFrameIsPrefix(buffer: seq<Byte>, f: Frame)
    requires ValidFrame(f)
    ensures FirstFrame(buffer) == Some(f) <==> FrameBytes(f) <= buffer
  {
    if FrameBytes(f) <= buffer {
      PrefixIsFirstFrame(buffer, f);
    }
    if FirstFrame(buffer) == Some(f) {
      FirstFrameBytes(buffer, f);
    }
  }

  /** A buffer is the encoding of at most one list of frames. */
  lemma {:induction false} UniqueFrames(fs: seq<Frame>, gs: seq<Frame>)
    requires ValidFrames(fs) && ValidFrames(gs) && Encode(fs) == Encode(gs)
    ensures fs == gs
  {
    if fs != [] && gs != [] {
      var buffer := Encode(fs);
      FirstFrameIsPrefix(buffer, fs[0]);
      FirstFrameIsPrefix(buffer, gs[0]);
      var n := 8 + |fs[0].payload|;
      assert Encode(fs[1..]) == buffer[n..] && Encode(gs[1..]) == buffer[n..];
      UniqueFrames(fs[1..], gs[1..]);
      assert fs == [fs[0]] + fs[1..] && gs == [gs[0]] + gs[1..];
    }
  }

  lemma {:induction false} EncodeAppend(fs: seq<Frame>, f: Frame)
    requires ValidFrames(fs) && ValidFrame(f)
    ensures ValidFrames(fs + [f])
    ensures Encode(fs + [f]) == Encode(fs) + FrameBytes(f)
  {
    if fs == [] {
      assert Encode([f]) == FrameBytes(f) + Encode([f][1..]);
    } else {
      EncodeAppend(fs[1..], f);
      assert (fs + [f])[1..] == fs[1..] + [f];
    }
  }

  lemma {:induction false} PayloadsAppend(fs: seq<Frame>, f: Frame)
    ensures Payloads(fs + [f]) == Payloads(fs) + f.payload
  {
    if fs != [] {
      PayloadsAppend(fs[1..], f);
      assert (fs + [f])[1..] == fs[1..] + [f];
    }
  }

  /** Frames read so far are the beginning of any list that encodes to the buffer. */
  lemma {:induction false} FramesReadAreForced(read: seq<Frame>, fs: seq<Frame>)
    requires ValidFrames(read) && ValidFrames(fs) && Encode(read) <= Encode(fs)
    ensures read <= fs
    ensures Encode(fs[|read|..]) == Encode(fs)[|Encode(read)|..]
  {
    if read != [] {
      var buffer := Encode(fs);
      assert FrameBytes(read[0]) <= Encode(read);
      assert fs != [];
      FirstFrameIsPrefix(buffer, read[0]);
      FirstFrameIsPrefix(buffer, fs[0]);
      var n := 8 + |fs[0].payload|;
      assert Encode(fs[1..]) == buffer[n..] && Encode(read[1..]) == Encode(read)[n..];
      assert Encode(read[1..]) <= Encode(fs[1..]);
      FramesReadAreForced(read[1..], fs[1..]);
      assert read == [read[0]] + read[1..] && fs == [fs[0]] + fs[1..];
      assert fs[1..][|read| - 1..] == fs[|read|..];
    }
  }

  /** When the bytes left do not start with a frame and are not empty, nothing encodes to the buffer. */
  lemma NotFramed(read: seq<Frame>, buffer: seq<Byte>)
    requires ValidFrames(read) && Encode(read) < buffer
    requires FirstFrame(buffer[|Encode(read)|..]) == None
    ensures !Framed(buffer)
  {
    if Framed(buffer) {
      var fs :| EncodesAs(fs, buffer);
      FramesReadAreForced(read, fs);
      var left := fs[|read|..];
      assert left != [] && FrameBytes(left[0]) <= Encode(left);
      FirstFrameIsPrefix(buffer[|Encode(read)|..], left[0]);
    }
  }

  lemma FramedIsLong(buffer: seq<Byte>)
    requires Framed(buffer)
    ensures |buffer| >= 8
  {
    var fs :| EncodesAs(fs, buffer);
    assert |Header(fs[0])| == 8;
  }

  // ----- The decoder ----------------------------------------------------------

  function Concat(chunks: seq<seq<Byte>>): seq<Byte> {
    if chunks == [] then [] else chunks[0] + Concat(chunks[1..])
  }

  lemma {:induction false} ConcatAppend(chunks: seq<seq<Byte>>, chunk: seq<Byte>)
    ensures Concat(chunks + [chunk]) == Concat(chunks) + chunk
  {
    if chunks == [] {
      assert chunks + [chunk] == [chunk];
    } else {
      ConcatAppend(chunks[1..], chunk);
      assert (chunks + [chunk])[1..] == chunks[1..] + [chunk];
    }
  }

  /** Taking one more frame extends the bytes read by exactly that frame. */
  lemma FrameTaken(read: seq<Frame>, buffer: seq<Byte>, f: Frame)
    requires ValidFrames(read) && Encode(read) <= buffer
    requires FirstFrame(buffer[|Encode(read)|..]) == Some(f)
    ensures ValidFrames(read + [f])
    ensures Encode(read + [f]) == buffer[..|Encode(read)| + 8 + |f.payload|]
    ensures Payloads(read + [f]) == Payloads(read) + f.payload
  {
    var left := buffer[|Encode(read)|..];
    FirstFrameIsPrefix(left, f);
    EncodeAppend(read, f);
    PayloadsAppend(read, f);
    assert buffer == Encode(read) + left;
  }

  /** The bytes that are then decoded as UTF-8: every payload of a framed buffer,
      and the whole buffer when it is not a list of frames. */
  method DecodeDockerLogs(buffer: array<Byte>) returns (text: seq<Byte>)
    ensures forall fs :: EncodesAs(fs, buffer[..]) ==> text == Payloads(fs)
    ensures !Framed(buffer[..]) ==> text == buffer[..]
  {
    if buffer.Length < 8 {
      if Framed(buffer[..]) { FramedIsLong(buffer[..]); }
      return buffer[..];
    }
    var chunks: seq<seq<Byte>> := [];
    var offset := 0;
    ghost var read: seq<Frame> := [];
    while offset + 8 <= buffer.Length
      invariant 0 <= offset <= buffer.Length
      invariant offset == 0 <==> read == []
      invariant ValidFrames(read) && Encode(read) == buffer[..offset]
      invariant Concat(chunks) == Payloads(read)
      decreases buffer.Length - offset
    {
      var stream := buffer[offset];
      var size := ReadUInt32BE(buffer[..], offset + 4);
      var nextOffset := offset + 8 + size;
      ghost var bytes := buffer[..];
      ghost var left := bytes[offset..];
      assert left[0] == stream && ReadUInt32BE(left, 4) == size;
      if (stream != 1 && stream != 2) || size < 0 || nextOffset > buffer.Length {
        NotFramed(read, bytes);
        return buffer[..];
      }
      ghost var f := FirstFrame(left).value;
      assert f.payload == buffer[offset + 8..nextOffset];
      FrameTaken(read, bytes, f);
      ConcatAppend(chunks, f.payload);
      chunks := chunks + [buffer[offset + 8..nextOffset]];
      read := read + [f];
      offset := nextOffset;
    }
    if offset != buffer.Length {
      NotFramed(read, buffer[..]);
      return buffer[..];
    }
    assert EncodesAs(read, buffer[..]);
    forall fs | EncodesAs(fs, buffer[..]) ensures fs == read {
      UniqueFrames(fs, read);
    }
    text := Concat(chunks);
  }
}
