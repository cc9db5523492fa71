/** Length-prefixed frames on a byte stream. Encoding and decoding a frame's body is a parameter. */
module Framing {
  import opened Basics

  const MAX_FRAME_BYTES: nat := 8 * 1024 * 1024

  /** How frame bodies are encoded and decoded. */
  datatype Codec<!F> = Codec(encode: F -> Bytes, decode: Bytes -> Option<F>)

  ghost predicate Inverse<F(!new)>(codec: Codec<F>) {
    forall frame :: codec.decode(codec.encode(frame)) == Some(frame)
  }

  function BigEndian(n: nat): (header: Bytes)
    requires n < 0x1_0000_0000
    ensures |header| == 4
  {
    [(n / 0x100_0000) as byte, (n / 0x1_0000 % 0x100) as byte, (n / 0x100 % 0x100) as byte, (n % 0x100) as byte]
  }

  function FromBigEndian(header: Bytes): nat
    requires |header| == 4
  {
    header[0] as nat * 0x100_0000 + header[1] as nat * 0x1_0000 + header[2] as nat * 0x100 + header[3] as nat
  }

  lemma HeaderRoundTrip(n: nat)
    requires n < 0x1_0000_0000
    ensures FromBigEndian(BigEndian(n)) == n
  {
    var a, b, c := n / 0x100, n / 0x1_0000, n / 0x100_0000;
    assert n == a * 0x100 + n % 0x100;
    assert a == b * 0x100 + a % 0x100;
    assert b == c * 0x100 + b % 0x100;
  }

  predicate Encodable<F>(codec: Codec<F>, frame: F) {
    1 <= |codec.encode(frame)| <= MAX_FRAME_BYTES
  }

  /** The bytes `write_frame` puts on the stream, or none and an error. */
  function Written<F>(codec: Codec<F>, frame: F): Option<Bytes> {
    var body := codec.encode(frame);
    if Encodable(codec, frame) then Some(BigEndian(|body|) + body) else None
  }

  /** A frame is written exactly if its body is not empty and at most 8 MiB: the length in four bytes, the most
      significant first, then the body. */
  lemma WrittenExactly<F>(codec: Codec<F>, frame: F)
    ensures var body, bytes := codec.encode(frame), Written(codec, frame);
            && (bytes.Some? <==> 1 <= |body| <= 8_388_608)
            && (bytes.Some? ==>
                  && |bytes.value| == |body| + 4 && bytes.value[4..] == body
                  && bytes.value[0] as nat * 16_777_216 + bytes.value[1] as nat * 65_536
                     + bytes.value[2] as nat * 256 + bytes.value[3] as nat == |body|)
  {
    var body := codec.encode(frame);
    if Encodable(codec, frame) {
      HeaderRoundTrip(|body|);
      var bytes := Written(codec, frame).value;
      assert bytes[..4] == BigEndian(|body|);
    }
  }

  datatype Outcome<F> = Got(frame: F) | EndOfStream | Failed

  /** One `read_frame`: what it returns and what it leaves on the stream. */
  function Read<F>(codec: Codec<F>, stream: Bytes): (r: (Outcome<F>, Bytes))
    ensures |r.1| <= |stream|
    ensures r.0.Got? ==> |r.1| < |stream|
  {
    if |stream| < 4 then (EndOfStream, [])
    else
      var length := FromBigEndian(stream[..4]);
      var rest := stream[4..];
      if length == 0 || length > MAX_FRAME_BYTES then (Failed, rest)
      else if |rest| < length then (Failed, [])
      else
        var frame := codec.decode(rest[..length]);
        (if frame.Some? then Got(frame.value) else Failed, rest[length..])
  }

  /** What a read makes of a header: a length of zero or beyond 8 MiB is refused before the body is looked at, and a
      body that is not all there is refused as well. */
  lemma HeaderDecides<F>(codec: Codec<F>, n: nat, rest: Bytes)
    requires n < 0x1_0000_0000
    ensures var (outcome, left) := Read(codec, BigEndian(n) + rest);
            if n == 0 || n > 8_388_608 then outcome == Failed && left == rest
            else if |rest| < n then outcome == Failed && left == []
            else left == rest[n..] && outcome == (match codec.decode(rest[..n])
                                                  case Some(frame) => Got(frame)
                                                  case None => Failed)
  {
    var stream := BigEndian(n) + rest;
    assert stream[..4] == BigEndian(n) && stream[4..] == rest;
    HeaderRoundTrip(n);
  }

  /** Reading until the stream ends or a read fails: the frames, and whether it ended cleanly. */
  function ReadAll<F>(codec: Codec<F>, stream: Bytes): (seq<F>, bool)
    decreases |stream|
  {
    var (outcome, rest) := Read(codec, stream);
    match outcome
    case Got(frame) =>
      var (frames, clean) := ReadAll(codec, rest);
      ([frame] + frames, clean)
    case EndOfStream => ([], true)
    case Failed => ([], false)
  }

  ghost predicate AllEncodable<F>(codec: Codec<F>, frames: seq<F>) {
    forall i :: 0 <= i < |frames| ==> Encodable(codec, frames[i])
  }

  function Concatenated<F>(codec: Codec<F>, frames: seq<F>): Bytes
    requires forall i :: 0 <= i < |frames| ==> Encodable(codec, frames[i])
  {
    if frames == [] then [] else Written(codec, frames[0]).value + Concatenated(codec, frames[1..])
  }

  /** A whole frame is read back, whatever follows it. */
  lemma ReadWritten<F(!new)>(codec: Codec<F>, frame: F, more: Bytes)
    requires Inverse(codec) && Encodable(codec, frame)
    ensures Read(codec, Written(codec, frame).value + more) == (Got(frame), more)
  {
    var body := codec.encode(frame);
    var stream := BigEndian(|body|) + body + more;
    HeaderRoundTrip(|body|);
    assert stream[..4] == BigEndian(|body|);
    assert stream[4..] == body + more;
    assert (body + more)[..|body|] == body && (body + more)[|body|..] == more;
  }

  /** Part of a frame reads as the end of the stream if the cut is in the length, and as an error if it is
      in the body. */
  lemma ReadPart<F>(codec: Codec<F>, frame: F, k: nat)
    requires Encodable(codec, frame) && k < |Written(codec, frame).value|
    ensures Read(codec, Written(codec, frame).value[..k]).0 == if k < 4 then EndOfStream else Failed
  {
    var body := codec.encode(frame);
    var written := Written(codec, frame).value;
    if k >= 4 {
      HeaderRoundTrip(|body|);
      assert written[..k][..4] == BigEndian(|body|);
    }
  }

  /** How many frames lie wholly within the first `k` bytes, and how many bytes are left over. */
  function WholeFrames<F>(codec: Codec<F>, frames: seq<F>, k: nat): (r: (nat, nat))
    requires forall i :: 0 <= i < |frames| ==> Encodable(codec, frames[i])
    ensures r.0 <= |frames|
  {
    if frames == [] then (0, k)
    else
      var size := 4 + |codec.encode(frames[0])|;
      if k < size then (0, k)
      else
        var (n, over) := WholeFrames(codec, frames[1..], k - size);
        (n + 1, over)
  }

  lemma CutInFirst<F(!new)>(codec: Codec<F>, frames: seq<F>, k: nat)
    requires frames != [] && AllEncodable(codec, frames) && k < |Written(codec, frames[0]).value|
    ensures k <= |Concatenated(codec, frames)|
    ensures ReadAll(codec, Concatenated(codec, frames)[..k]) == ([], k < 4)
  {
    ReadPart(codec, frames[0], k);
    assert Concatenated(codec, frames)[..k] == Written(codec, frames[0]).value[..k];
  }

  lemma CutLater<F(!new)>(codec: Codec<F>, frames: seq<F>, k: nat)
    requires Inverse(codec) && frames != [] && AllEncodable(codec, frames)
    requires |Written(codec, frames[0]).value| <= k <= |Concatenated(codec, frames)|
    ensures var later := ReadAll(codec, Concatenated(codec, frames[1..])[..k - |Written(codec, frames[0]).value|]);
            ReadAll(codec, Concatenated(codec, frames)[..k]) == ([frames[0]] + later.0, later.1)
  {
    var first, later := Written(codec, frames[0]).value, Concatenated(codec, frames[1..]);
    var rest := k - |first|;
    assert Concatenated(codec, frames)[..k] == first + later[..rest];
    ReadWritten(codec, frames[0], later[..rest]);
  }

  /** Cut the stream anywhere: reading returns exactly the frames that arrived whole, in order, and then
      ends cleanly if and only if the cut fell on a boundary or inside a length. */
  lemma {:induction false} CutStream<F(!new)>(codec: Codec<F>, frames: seq<F>, k: nat)
    requires Inverse(codec) && AllEncodable(codec, frames) && k <= |Concatenated(codec, frames)|
    ensures var (n, over) := WholeFrames(codec, frames, k);
            ReadAll(codec, Concatenated(codec, frames)[..k]) == (frames[..n], over < 4)
  {
    if frames != [] {
      var size := 4 + |codec.encode(frames[0])|;
      assert |Written(codec, frames[0]).value| == size;
      if k < size {
        CutInFirst(codec, frames, k);
        assert WholeFrames(codec, frames, k) == (0, k);
      } else {
        assert |Concatenated(codec, frames)| == size + |Concatenated(codec, frames[1..])|;
        CutStream(codec, frames[1..], k - size);
        CutLater(codec, frames, k);
        var (n, over) := WholeFrames(codec, frames[1..], k - size);
        assert WholeFrames(codec, frames, k) == (n + 1, over);
        assert frames[..n + 1] == [frames[0]] + frames[1..][..n];
      }
    }
  }

  lemma {:induction false} WholeStream<F>(codec: Codec<F>, frames: seq<F>)
    requires AllEncodable(codec, frames)
    ensures WholeFrames(codec, frames, |Concatenated(codec, frames)|) == (|frames|, 0)
  {
    if frames != [] {
      WholeStream(codec, frames[1..]);
    }
  }

  /** Reading what was written returns it, and then the end of the stream. */
  lemma StreamRoundTrip<F(!new)>(codec: Codec<F>, frames: seq<F>)
    requires Inverse(codec) && AllEncodable(codec, frames)
    ensures ReadAll(codec, Concatenated(codec, frames)) == (frames, true)
  {
    var all := Concatenated(codec, frames);
    CutStream(codec, frames, |all|);
    WholeStream(codec, frames);
    assert all[..|all|] == all && frames[..|frames|] == frames;
  }

  /** A pipe: bytes written and not yet read. */
  class Pipe {
    var unread: Bytes

    constructor ()
      ensures unread == []
    {
      unread := [];
    }

    /** Fills a buffer of the given size; at the end of the stream what is left is used up. */
    method ReadExact(size: nat) returns (buffer: Option<Bytes>)
      modifies this
      ensures |old(unread)| >= size ==> buffer == Some(old(unread)[..size]) && unread == old(unread)[size..]
      ensures |old(unread)| < size ==> buffer == None && unread == []
    {
      if |unread| < size {
        unread := [];
        return None;
      }
      buffer := Some(unread[..size]);
      unread := unread[size..];
    }

    method ReadFrame<F>(codec: Codec<F>) returns (outcome: Outcome<F>)
      modifies this
      ensures (outcome, unread) == Read(codec, old(unread))
    {
      var header := ReadExact(4);
      if header.None? {
        return EndOfStream;
      }
      var length := FromBigEndian(header.value);
      if length == 0 || length > MAX_FRAME_BYTES {
        return Failed;
      }
      var body := ReadExact(length);
      if body.None? {
        return Failed;
      }
      var frame := codec.decode(body.value);
      outcome := if frame.Some? then Got(frame.value) else Failed;
    }

    /** An error leaves the pipe as it was. */
    method WriteFrame<F>(codec: Codec<F>, frame: F) returns (ok: bool)
      modifies this
      ensures ok == Encodable(codec, frame)
      ensures unread == old(unread) + if ok then Written(codec, frame).value else []
    {
      var body := codec.encode(frame);
      if |body| == 0 || |body| > MAX_FRAME_BYTES {
        return false;
      }
      unread := unread + BigEndian(|body|);
      unread := unread + body;
      ok := true;
    }

    /** The read loop of either side. */
    method ReadFrames<F>(codec: Codec<F>) returns (frames: seq<F>, clean: bool)
      modifies this
      ensures (frames, clean) == ReadAll(codec, old(unread))
    {
      frames, clean := [], false;
      var done := false;
      assert [] + ReadAll(codec, unread).0 == ReadAll(codec, unread).0;
      while !done
        invariant !done ==> ReadAll(codec, old(unread)) == (frames + ReadAll(codec, unread).0, ReadAll(codec, unread).1)
        invariant done ==> ReadAll(codec, old(unread)) == (frames, clean)
        decreases !done, |unread|
      {
        ghost var all, later := ReadAll(codec, unread), ReadAll(codec, Read(codec, unread).1);
        var outcome := ReadFrame(codec);
        match outcome
        case Got(frame) =>
          assert frames + ([frame] + later.0) == frames + [frame] + later.0;
          frames := frames + [frame];
        case EndOfStream =>
          assert all == ([], true) && frames + [] == frames;
          done, clean := true, true;
        case Failed =>
          assert all == ([], false) && frames + [] == frames;
          done, clean := true, false;
      }
    }
  }
}
