/** Length-prefixed frames on the bus's sockets: a 4-byte big-endian length, then that many bytes. */
module Frames {
  import opened Wrappers

  type Byte = b: int | 0 <= b < 256

  const MAX_FRAME_BYTES := 8 * 1024 * 1024
  const TWO_32 := 0x1_0000_0000

  /** What read_frame returns: a frame, the end of the stream, or an error. */
  datatype Read = Frame(bytes: seq<Byte>) | EndOfStream | TooLong(len: nat) | CutShort

  /** `(len as u32).to_be_bytes()`. */
  function BigEndian(len: nat): (h: seq<Byte>)
    ensures |h| == 4
  {
    [len / 0x100_0000 % 256, len / 0x1_0000 % 256, len / 0x100 % 256, len % 256]
  }

  function Value(h: seq<Byte>): nat
    requires |h| == 4
  {
    0x100_0000 * (h[0] as int) + 0x1_0000 * (h[1] as int) + 0x100 * (h[2] as int) + h[3] as int
  }

  lemma HeaderRoundTrip(len: nat)
    ensures Value(BigEndian(len)) == len % TWO_32
    ensures len < TWO_32 ==> Value(BigEndian(len)) == len
    ensures len >= TWO_32 ==> Value(BigEndian(len)) < len
  {
    var a, b, c := len / 0x100_0000, len / 0x1_0000, len / 0x100;
    assert b == 256 * a + b % 256 by { Shift(b, a, len / 0x1_0000 / 256); }
    assert c == 256 * b + c % 256;
    assert len == 256 * c + len % 256;
    assert a == 256 * (len / TWO_32) + a % 256;
  }

  lemma Shift(b: nat, a: nat, q: nat)
    requires q == b / 256 && a == q
    ensures b == 256 * a + b % 256
  {
  }

  function FrameBytes(b: seq<Byte>): seq<Byte> {
    BigEndian(|b|) + b
  }

  /** What reading one frame makes of a stream: the result, and how many bytes are used up. */
  function ReadOf(data: seq<Byte>): Read {
    if |data| < 4 then EndOfStream
    else
      var len := Value(data[..4]);
      if len > MAX_FRAME_BYTES then TooLong(len)
      else if |data| < 4 + len then CutShort
      else Frame(data[4..4 + len])
  }

  class Stream {
    var data: seq<Byte>
    var written: seq<Byte>

    constructor (data: seq<Byte>)
      ensures this.data == data && written == []
    {
      this.data, written := data, [];
    }

    /** `read_exact`: all or nothing of the result, but the stream is used up either way. */
    method ReadExact(n: nat) returns (bytes: Option<seq<Byte>>)
      modifies this`data
      ensures bytes == if n <= |old(data)| then Some(old(data)[..n]) else None
      ensures data == if n <= |old(data)| then old(data)[n..] else []
    {
      if n > |data| {
        data := [];
        return None;
      }
      bytes := Some(data[..n]);
      data := data[n..];
    }

    /** A stream that ends within a header counts as ended; one that ends within a body does not. */
    method ReadFrame() returns (r: Read)
      modifies this`data
      ensures r == ReadOf(old(data))
      ensures r.Frame? ==> |old(data)| >= 4 + |r.bytes| && data == old(data)[4 + |r.bytes|..] && Value(old(data)[..4]) == |r.bytes|
    {
      var header := ReadExact(4);
      if header.None? {
        return EndOfStream;
      }
      var len := Value(header.value);
      if len > MAX_FRAME_BYTES {
        return TooLong(len);
      }
      var body := ReadExact(len);
      return if body.Some? then Frame(body.value) else CutShort;
    }

    method WriteFrame(b: seq<Byte>)
      modifies this`written
      ensures written == old(written) + FrameBytes(b)
    {
      var header := BigEndian(|b|);
      written := written + header;
      written := written + b;
      assert old(written) + (header + b) == (old(written) + header) + b;
    }

    /** The writer task: one frame after another. */
    method WriteAll(frames: seq<seq<Byte>>)
      modifies this`written
      ensures written == old(written) + Encode(frames)
    {
      assert Encode(frames[..0]) == [];
      for i := 0 to |frames|
        invariant written == old(written) + Encode(frames[..i])
      {
        EncodeMore(frames[..i], frames[i]);
        assert frames[..i + 1] == frames[..i] + [frames[i]];
        WriteFrame(frames[i]);
      }
      assert frames[..|frames|] == frames;
    }

    /** The reader's loop: until the stream ends, or fails. */
    method ReadAll() returns (frames: seq<seq<Byte>>)
      modifies this`data
      ensures frames == Decode(old(data))
    {
      frames := [];
      hide ReadOf;
      while true
        invariant frames + Decode(data) == Decode(old(data))
        decreases |data|
      {
        var r := ReadFrame();
        if !r.Frame? {
          assert frames + [] == frames;
          return;
        }
        assert frames + ([r.bytes] + Decode(data)) == (frames + [r.bytes]) + Decode(data);
        frames := frames + [r.bytes];
      }
    }
  }

  /** A frame is read back as it was written exactly when it is within the limit. */
  lemma FrameRoundTrip(b: seq<Byte>, rest: seq<Byte>)
    ensures ReadOf(FrameBytes(b) + rest) == Frame(b) <==> |b| <= MAX_FRAME_BYTES
  {
    var data := FrameBytes(b) + rest;
    HeaderRoundTrip(|b|);
    assert data[..4] == BigEndian(|b|);
    assert data[4..4 + |b|] == b;
    hide BigEndian, Value;
  }

  // ----- streams of frames

  function Encode(frames: seq<seq<Byte>>): seq<Byte> {
    if frames == [] then [] else FrameBytes(frames[0]) + Encode(frames[1..])
  }

  /** The frames read until the stream ends or fails. */
  function Decode(data: seq<Byte>): (frames: seq<seq<Byte>>)
    decreases |data|
  {
    var r := ReadOf(data);
    if r.Frame? then [r.bytes] + Decode(data[4 + |r.bytes|..]) else []
  }

  lemma {:induction false} EncodeMore(frames: seq<seq<Byte>>, b: seq<Byte>)
    ensures Encode(frames + [b]) == Encode(frames) + FrameBytes(b)
  {
    hide FrameBytes;
    if frames == [] {
      assert [b][1..] == [] && Encode([]) == [];
    } else {
      EncodeMore(frames[1..], b);
      assert (frames + [b])[1..] == frames[1..] + [b];
    }
  }

  predicate Sendable(frames: seq<seq<Byte>>) {
    forall i :: 0 <= i < |frames| ==> |frames[i]| <= MAX_FRAME_BYTES
  }

  /** A frame that is cut is no frame. */
  lemma CutFrame(b: seq<Byte>, cut: seq<Byte>)
    requires |b| <= MAX_FRAME_BYTES && cut < FrameBytes(b)
    ensures !ReadOf(cut).Frame?
  {
    HeaderRoundTrip(|b|);
    hide BigEndian, Value;
    if |cut| >= 4 {
      assert cut[..4] == FrameBytes(b)[..4] == BigEndian(|b|);
    }
  }

  lemma CutAfterFrame(frame: seq<Byte>, rest: seq<Byte>, n: nat)
    requires |frame| <= n <= |frame + rest|
    ensures (frame + rest)[..n] == frame + rest[..n - |frame|] && (frame + rest)[..n][|frame|..] == rest[..n - |frame|]
  {
  }

  /** Wherever a stream of frames is cut, what is read are the first of the frames, whole; and
      nothing is lost of a stream that is not cut. */
  lemma {:induction false} CutStream(frames: seq<seq<Byte>>, n: nat)
    requires Sendable(frames) && n <= |Encode(frames)|
    ensures Decode(Encode(frames)[..n]) <= frames
    ensures n == |Encode(frames)| ==> Decode(Encode(frames)[..n]) == frames
  {
    if frames != [] {
      var b, tail := frames[0], frames[1..];
      var frame, m := FrameBytes(b), 4 + |b|;
      hide ReadOf, BigEndian;
      if n < m {
        assert Encode(frames)[..n] == frame[..n];
        CutFrame(b, frame[..n]);
      } else {
        var rest := Encode(tail)[..n - m];
        CutAfterFrame(frame, Encode(tail), n);
        FrameRoundTrip(b, rest);
        assert Sendable(tail);
        CutStream(tail, n - m);
        hide Encode, FrameBytes;
        assert Decode(frame + rest) == [b] + Decode(rest);
        assert frames == [b] + tail;
      }
    }
  }

  /** From the writer's task to the other end's reader, over a connection that fails after `n` bytes:
      the first of the frames arrive, whole and in order, and all of them if none is cut off. */
  method Relay(frames: seq<seq<Byte>>, n: nat) returns (received: seq<seq<Byte>>)
    requires Sendable(frames)
    ensures received <= frames && (n >= |Encode(frames)| ==> received == frames)
  {
    var sender := new Stream([]);
    sender.WriteAll(frames);
    assert sender.written == Encode(frames);
    var cut := if n < |sender.written| then n else |sender.written|;
    var receiver := new Stream(sender.written[..cut]);
    CutStream(frames, cut);
    received := receiver.ReadAll();
  }
}
