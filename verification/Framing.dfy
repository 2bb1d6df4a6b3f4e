/**
 The frames around a message body (Shared/framing.h): fragments of at most
 MAX_MESSAGE bytes behind a 4-byte header whose top bit says that more follow.
 */
module Framing {
  import opened Protocol
  import opened Seqs
  import opened Codec

  const HEADER := 4
  const MORE_FLAG := 0x8000_0000
  const MAX_REASSEMBLED := 16 * MAX_MESSAGE

  /** A decoded header: false `ok` means the length is over the fragment cap. */
  datatype Header = Header(len: nat, more: bool, ok: bool)

  function EncodeHeader(chunk: nat, more: bool): seq<byte>
    requires chunk <= MAX_MESSAGE
  {
    EncodeNum(HEADER, chunk + if more then MORE_FLAG else 0) // the flag bit is clear in chunk, so + is |
  }

  function DecodeHeader(bytes: seq<byte>): (h: Header)
    requires |bytes| >= HEADER
    ensures h.ok ==> h.len <= MAX_MESSAGE
  {
    var raw := NumOf(bytes[..HEADER]);
    Header(raw % MORE_FLAG, raw >= MORE_FLAG, raw % MORE_FLAG <= MAX_MESSAGE)
  }

  lemma HeaderRoundTrip(chunk: nat, more: bool, tail: seq<byte>)
    requires chunk <= MAX_MESSAGE
    ensures DecodeHeader(EncodeHeader(chunk, more) + tail) == Header(chunk, more, true)
  {
    Widths();
    NumOfEncode(HEADER, chunk + if more then MORE_FLAG else 0);
    assert (EncodeHeader(chunk, more) + tail)[..HEADER] == EncodeHeader(chunk, more);
  }

  /** The fragment stream of one body: full fragments, then a last one with the flag clear. */
  function Frames(body: seq<byte>): seq<byte>
    decreases |body|
  {
    if |body| <= MAX_MESSAGE then EncodeHeader(|body|, false) + body
    else EncodeHeader(MAX_MESSAGE, true) + body[..MAX_MESSAGE] + Frames(body[MAX_MESSAGE..])
  }

  /** The next fragment of what is left of the body from `offset` on. */
  lemma FramesStep(body: seq<byte>, offset: nat, chunk: nat, more: bool)
    requires offset <= |body| && offset + chunk <= |body| && more == (offset + chunk < |body|)
    requires chunk == if |body| - offset < MAX_MESSAGE then |body| - offset else MAX_MESSAGE
    ensures Frames(body[offset..])
         == EncodeHeader(chunk, more) + body[offset..offset + chunk]
            + if more then Frames(body[offset + chunk..]) else []
  {
    var left := body[offset..];
    hide EncodeHeader;
    if more {
      assert left[..chunk] == body[offset..offset + chunk] && left[chunk..] == body[offset + chunk..];
    } else {
      assert body[offset..offset + chunk] == left;
    }
  }

  /** FrameMessage's do/while over the encoded body. */
  method FrameMessage(m: Msg) returns (frames: seq<byte>)
    ensures frames == Frames(Encode(m))
    ensures |Encode(m)| <= MAX_MESSAGE ==> frames == EncodeNum(HEADER, |Encode(m)|) + Encode(m)
  {
    hide Encode, EncodeHeader;
    var body := Encode(m);
    frames := [];
    var offset, done := 0, false;
    ghost var pending := Frames(body);
    assert body[0..] == body && [] + pending == pending;
    while !done
      invariant 0 <= offset <= |body|
      invariant pending == if done then [] else Frames(body[offset..])
      invariant frames + pending == Frames(body)
      decreases |body| - offset, !done
    {
      var chunk := if |body| - offset < MAX_MESSAGE then |body| - offset else MAX_MESSAGE;
      var more := offset + chunk < |body|;
      FramesStep(body, offset, chunk, more);
      var header, piece := EncodeHeader(chunk, more), body[offset..offset + chunk];
      pending := if more then Frames(body[offset + chunk..]) else [];
      Assoc(frames, header + piece, pending);
      Assoc(frames, header, piece);
      frames := frames + header + piece;
      offset := offset + chunk;
      done := offset >= |body|;
    }
    assert frames + [] == frames;
    ShortFrame(body);
  }

  /** A body within one fragment is framed as a plain length prefix, flag clear. */
  lemma ShortFrame(body: seq<byte>)
    ensures |body| <= MAX_MESSAGE ==> Frames(body) == EncodeNum(HEADER, |body|) + body
  {
  }

  /** AppendFragment: the grown body, unless it would pass the reassembly cap. */
  method AppendFragment(body: seq<byte>, payload: seq<byte>) returns (ok: bool, grown: seq<byte>)
    ensures ok <==> |body| + |payload| <= MAX_REASSEMBLED
    ensures grown == if ok then body + payload else body
  {
    if |body| + |payload| > MAX_REASSEMBLED { return false, body; }
    return true, body + payload;
  }

  /** Every header there is: 31 bits of length, at most 1024, and the flag on top. */
  lemma HeaderMeaning(raw: u32, tail: seq<byte>)
    ensures DecodeHeader(EncodeNum(4, raw) + tail) == Header(raw % 0x8000_0000, raw >= 0x8000_0000, raw % 0x8000_0000 <= 1024)
  {
    Widths();
    NumOfEncode(4, raw);
    assert (EncodeNum(4, raw) + tail)[..4] == EncodeNum(4, raw);
  }

  /** A longer body goes out in fragments of 1024 bytes, each but the last with the flag set. */
  lemma LongFrame(body: seq<byte>)
    requires |body| > 1024
    ensures Frames(body) == EncodeNum(4, 1024 + 0x8000_0000) + body[..1024] + Frames(body[1024..])
  {
    hide EncodeNum;
  }
}
