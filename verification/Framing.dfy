/** Length-prefixed framing with a stolen flag bit, and the buffered stream reader
    that frames are read from. */
module Framing {
  import opened Bytes

  const MAX_MESSAGE_SIZE: nat := 100 * 1024 * 1024
  const BINARY_FLAG: nat := 0x8000_0000

  datatype Kind = Json | Binary
  datatype Frame = Frame(kind: Kind, payload: seq<byte>)

  /** The header word. Payload lengths stay below the flag, so `length | flag` is a sum,
      `word & flag` a comparison and `word & ~flag` a remainder. */
  function HeaderWord(f: Frame): (w: nat)
    requires |f.payload| <= MAX_MESSAGE_SIZE
    ensures w < Pow256(4)
  {
    Pow256Values();
    |f.payload| + if f.kind == Binary then BINARY_FLAG else 0
  }

  /** encode_frame and encode_binary_frame; None is the "too large" ProtocolError. */
  function Encode(f: Frame): (r: Option<seq<byte>>)
    ensures r.None? <==> |f.payload| > MAX_MESSAGE_SIZE
    ensures r.Some? ==> |r.value| == 4 + |f.payload|
  {
    if |f.payload| > MAX_MESSAGE_SIZE then None
    else Some(Pack(4, HeaderWord(f)) + f.payload)
  }

  predicate Sendable(f: Frame) {
    0 < |f.payload| <= MAX_MESSAGE_SIZE
  }

  predicate AllSendable(frames: seq<Frame>) {
    forall i :: 0 <= i < |frames| ==> Sendable(frames[i])
  }

  function EncodeAll(frames: seq<Frame>): seq<byte>
    requires AllSendable(frames)
  {
    if frames == [] then [] else Encode(frames[0]).value + EncodeAll(frames[1..])
  }

  /** What one attempt to read a frame finds at the front of a finite stream. */
  datatype Found = Got(frame: Frame, rest: seq<byte>) | Short | Malformed

  function Next(stream: seq<byte>): (r: Found)
    ensures r.Got? ==> |r.rest| < |stream| && Sendable(r.frame)
  {
    if |stream| < 4 then Short
    else
      var word := Unpack(stream[..4]);
      var length := word % BINARY_FLAG;
      if length == 0 || length > MAX_MESSAGE_SIZE then Malformed
      else if |stream| < 4 + length then Short
      else Got(Frame(if word >= BINARY_FLAG then Binary else Json, stream[4..4 + length]), stream[4 + length..])
  }

  /** Reading until something stops the loop: the stream ran out, or a header is malformed. */
  datatype Reading = Reading(frames: seq<Frame>, malformed: bool, leftover: nat)

  function ReadingOf(stream: seq<byte>): Reading
    decreases |stream|
  {
    match Next(stream)
    case Short => Reading([], false, |stream|)
    case Malformed => Reading([], true, |stream|)
    case Got(f, rest) =>
      var r := ReadingOf(rest);
      Reading([f] + r.frames, r.malformed, r.leftover)
  }

  lemma NextOfEncoded(f: Frame, tail: seq<byte>)
    requires Sendable(f)
    ensures Next(Encode(f).value + tail) == Got(f, tail)
  {
    var header := Pack(4, HeaderWord(f));
    var stream := Encode(f).value + tail;
    assert stream[..4] == header;
    UnpackPack(4, HeaderWord(f));
    var n := |f.payload|;
    assert HeaderWord(f) % BINARY_FLAG == n;
    assert stream[4..4 + n] == f.payload;
    assert stream[4 + n..] == tail;
  }

  /** Concatenated frames are read back as exactly that list, with the right kinds and
      nothing left over. */
  lemma {:induction false} RoundTrip(frames: seq<Frame>)
    requires AllSendable(frames)
    ensures ReadingOf(EncodeAll(frames)) == Reading(frames, false, 0)
  {
    if frames != [] {
      NextOfEncoded(frames[0], EncodeAll(frames[1..]));
      RoundTrip(frames[1..]);
      assert frames == [frames[0]] + frames[1..];
    }
  }

  /** A frame the encoder produces is readable exactly when its payload is non-empty. */
  lemma ReadableIffNonEmpty(f: Frame, tail: seq<byte>)
    requires |f.payload| <= MAX_MESSAGE_SIZE
    ensures Next(Encode(f).value + tail) == Got(f, tail) <==> f.payload != []
    ensures f.payload == [] ==> Next(Encode(f).value + tail) == Malformed
  {
    if f.payload == [] {
      var stream := Encode(f).value + tail;
      assert stream[..4] == Pack(4, HeaderWord(f));
      UnpackPack(4, HeaderWord(f));
    } else {
      NextOfEncoded(f, tail);
    }
  }

  /** More bytes never change what was already read: a prefix of the stream yields a
      prefix of the frames. */
  lemma {:induction false} ReadingIsMonotone(a: seq<byte>, b: seq<byte>)
    requires a <= b
    ensures ReadingOf(a).frames <= ReadingOf(b).frames
    decreases |a|
  {
    var fa := Next(a);
    if fa.Got? {
      assert a[..4] == b[..4];
      var n := Unpack(a[..4]) % BINARY_FLAG;
      assert a[4..4 + n] == b[4..4 + n];
      assert a[4 + n..] <= b[4 + n..];
      assert Next(b) == Got(fa.frame, b[4 + n..]);
      ReadingIsMonotone(fa.rest, b[4 + n..]);
    }
  }

  /** Decoding any prefix of an encoded list gives a prefix of the list. */
  lemma PrefixDecodesToPrefix(frames: seq<Frame>, received: seq<byte>)
    requires AllSendable(frames)
    requires received <= EncodeAll(frames)
    ensures ReadingOf(received).frames <= frames
  {
    RoundTrip(frames);
    ReadingIsMonotone(received, EncodeAll(frames));
  }

  datatype ReadResult = Data(data: seq<byte>) | IncompleteRead(partial: seq<byte>)

  /** RelayedStreamReader. `arriving` holds the segments the network has yet to deliver:
      each time readexactly waits it is woken by the next one, or by EOF once they run out. */
  class StreamReader {
    var buffer: seq<byte>
    var eof: bool
    var arriving: seq<seq<byte>>

    constructor (segments: seq<seq<byte>>)
      ensures Stream() == Flatten(segments)
      ensures buffer == [] && !eof && arriving == segments
    {
      buffer, eof, arriving := [], false, segments;
    }

    /** Every byte this reader can still return. */
    ghost function Stream(): seq<byte>
      reads this
    {
      if eof then buffer else buffer + Flatten(arriving)
    }

    method FeedData(data: seq<byte>)
      modifies this`buffer
      ensures buffer == if old(eof) then old(buffer) else old(buffer) + data
    {
      if eof || data == [] {
        return;
      }
      buffer := buffer + data;
    }

    method FeedEof()
      modifies this`eof
      ensures eof
    {
      if eof {
        return;
      }
      eof := true;
    }

    /** Exactly n bytes of the stream, or IncompleteRead with all of it when it is shorter;
        how the stream was cut into segments does not matter. */
    method ReadExactly(n: nat) returns (r: ReadResult)
      modifies this
      ensures |old(Stream())| >= n ==> r == Data(old(Stream())[..n]) && Stream() == old(Stream())[n..]
      ensures |old(Stream())| < n ==> r == IncompleteRead(old(Stream())) && Stream() == []
    {
      ghost var stream := Stream();
      while |buffer| < n
        invariant Stream() == stream
        decreases !eof, |arriving|
      {
        if eof {
          var partial := buffer;
          buffer := [];
          return IncompleteRead(partial);
        }
        if arriving == [] {
          FeedEof();
        } else {
          var segment := arriving[0];
          arriving := arriving[1..];
          FeedData(segment);
          assert Stream() == stream;
        }
      }
      r := Data(buffer[..n]);
      buffer := buffer[n..];
    }

    /** _read_raw: one frame, consuming exactly its bytes. */
    method ReadFrame() returns (r: Option<Frame>, malformed: bool)
      modifies this
      ensures Next(old(Stream())).Got? ==>
                r == Some(Next(old(Stream())).frame) && Stream() == Next(old(Stream())).rest
      ensures r.None? <==> !Next(old(Stream())).Got?
      ensures malformed <==> Next(old(Stream())).Malformed?
    {
      ghost var stream := Stream();
      var h := ReadExactly(4);
      if h.IncompleteRead? {
        return None, false;
      }
      var word := Unpack(h.data);
      var length := word % BINARY_FLAG;
      if length == 0 || length > MAX_MESSAGE_SIZE {
        return None, true;
      }
      assert |stream| >= 4 && stream[..4] == h.data;
      ghost var afterHeader := Stream();
      assert afterHeader == stream[4..];
      var p := ReadExactly(length);
      if p.IncompleteRead? {
        return None, false;
      }
      assert stream[4..][..length] == stream[4..4 + length];
      assert stream[4..][length..] == stream[4 + length..];
      return Some(Frame(if word >= BINARY_FLAG then Binary else Json, p.data)), false;
    }

    /** Read until the stream ends: the frames depend only on the bytes, never on how they
        were segmented. */
    method ReadAll() returns (frames: seq<Frame>, malformed: bool)
      modifies this
      ensures frames == ReadingOf(old(Stream())).frames
      ensures malformed == ReadingOf(old(Stream())).malformed
    {
      frames, malformed := [], false;
      ghost var stream := Stream();
      var done := false;
      while !done
        invariant !done ==> Continues(stream, frames, Stream())
        invariant done ==> frames == ReadingOf(stream).frames && malformed == ReadingOf(stream).malformed
        decreases !done, |Stream()|
      {
        ghost var here := Stream();
        var f, bad := ReadFrame();
        if f.None? {
          done, malformed := true, bad;
        } else {
          ContinuesOn(stream, frames, here);
          frames := frames + [f.value];
        }
      }
    }
  }

  /** What is left to read, after the frames read so far, is the rest of the reading. */
  ghost predicate Continues(stream: seq<byte>, frames: seq<Frame>, here: seq<byte>) {
    && ReadingOf(stream).frames == frames + ReadingOf(here).frames
    && ReadingOf(stream).malformed == ReadingOf(here).malformed
  }

  lemma ContinuesOn(stream: seq<byte>, frames: seq<Frame>, here: seq<byte>)
    requires Continues(stream, frames, here) && Next(here).Got?
    ensures Continues(stream, frames + [Next(here).frame], Next(here).rest)
  {
    var f, later := Next(here).frame, ReadingOf(Next(here).rest).frames;
    assert frames + ([f] + later) == (frames + [f]) + later;
  }

  /** Frames written to one end and delivered in any segmentation come out as they went in. */
  method Transmit(frames: seq<Frame>, segments: seq<seq<byte>>) returns (received: seq<Frame>, malformed: bool)
    requires AllSendable(frames)
    requires Flatten(segments) == EncodeAll(frames)
    ensures received == frames && !malformed
  {
    RoundTrip(frames);
    var reader := new StreamReader(segments);
    received, malformed := reader.ReadAll();
  }
}
