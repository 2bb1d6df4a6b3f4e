/**
 The two readers of the fragment stream: the client's buffered CarveServer and
 the server's ReadLoop coroutine.
 */
module Readers {
  import opened Protocol
  import opened Seqs
  import opened Codec
  import opened Framing

  /**
   A reader's progress: the messages delivered, the bytes not yet consumed, the
   fragments gathered, and whether the connection is still up. A closed reader
   keeps no buffers: it never looks at them again.
   */
  datatype Carved = Carved(msgs: seq<Msg>, rx: seq<byte>, partial: seq<byte>, open: bool)

  const CLOSED := Carved([], [], [], false)

  function After(m: Msg, c: Carved): Carved {
    c.(msgs := [m] + c.msgs)
  }

  function AfterAll(ms: seq<Msg>, c: Carved): Carved {
    c.(msgs := ms + c.msgs)
  }

  /** The client checks the cap once a fragment has fully arrived. */
  function Carve(rx: seq<byte>, partial: seq<byte>): Carved
    decreases |rx|, 0
  {
    if |rx| < HEADER then Carved([], rx, partial, true)
    else
      var h := DecodeHeader(rx);
      if !h.ok then CLOSED
      else if |rx| < HEADER + h.len then Carved([], rx, partial, true)
      else if |partial| + h.len > MAX_REASSEMBLED then CLOSED
      else Gather(rx[HEADER + h.len..], partial + rx[HEADER..HEADER + h.len], h.more)
  }

  /** A whole fragment has been appended; deliver the message if it was the last. */
  function Gather(rest: seq<byte>, body: seq<byte>, more: bool): Carved
    decreases |rest|, 1
  {
    if more then Carve(rest, body)
    else if Decode(body).Bad? then CLOSED
    else After(Decode(body).value, Carve(rest, []))
  }

  /** The server checks the cap as soon as it has the header. */
  function Read(rx: seq<byte>, body: seq<byte>): Carved
    decreases |rx|
  {
    if |rx| < HEADER then Carved([], rx, body, true)
    else
      var h := DecodeHeader(rx);
      if !h.ok then CLOSED
      else if |body| + h.len > MAX_REASSEMBLED then CLOSED
      else if |rx| < HEADER + h.len then Carved([], rx, body, true)
      else
        var rest, grown := rx[HEADER + h.len..], body + rx[HEADER..HEADER + h.len];
        if h.more then Read(rest, grown)
        else if Decode(grown).Bad? then CLOSED
        else After(Decode(grown).value, Read(rest, []))
  }

  // ------------------------------------------------------------ agreement

  /** A header over the reassembly cap whose fragment has not fully arrived. */
  predicate Overdue(c: Carved) {
    && c.open && |c.rx| >= HEADER
    && DecodeHeader(c.rx).ok
    && |c.rx| < HEADER + DecodeHeader(c.rx).len
    && |c.partial| + DecodeHeader(c.rx).len > MAX_REASSEMBLED
  }

  /**
   On every byte stream both readers deliver the same messages. They are in the
   same state too, except that on an overdue fragment the server has already
   hung up while the client still waits.
   */
  lemma {:induction false} ReadersAgree(rx: seq<byte>, body: seq<byte>)
    ensures Read(rx, body).msgs == Carve(rx, body).msgs
    ensures Read(rx, body) == if Overdue(Carve(rx, body)) then CLOSED.(msgs := Carve(rx, body).msgs) else Carve(rx, body)
    decreases |rx|
  {
    hide Decode, DecodeHeader;
    if |rx| >= HEADER {
      var h := DecodeHeader(rx);
      if h.ok && |rx| >= HEADER + h.len && |body| + h.len <= MAX_REASSEMBLED {
        var grown := body + rx[HEADER..HEADER + h.len];
        ReadersAgree(rx[HEADER + h.len..], if h.more then grown else []);
      }
    }
  }

  // ---------------------------------------------------------------- chunking

  /** More bytes never change what the bytes so far already decided. */
  lemma {:induction false} CarveMore(rx: seq<byte>, partial: seq<byte>, t: seq<byte>)
    ensures var c := Carve(rx, partial);
            Carve(rx + t, partial) == if c.open then AfterAll(c.msgs, Carve(c.rx + t, c.partial)) else c
    decreases |rx|
  {
    hide Decode, DecodeHeader;
    if |rx| >= HEADER {
      SameHeader(rx, t);
      var h := DecodeHeader(rx);
      if h.ok && |rx| >= HEADER + h.len && |partial| + h.len <= MAX_REASSEMBLED {
        var body := partial + rx[HEADER..HEADER + h.len];
        assert (rx + t)[HEADER..HEADER + h.len] == rx[HEADER..HEADER + h.len];
        assert (rx + t)[HEADER + h.len..] == rx[HEADER + h.len..] + t;
        CarveMore(rx[HEADER + h.len..], if h.more then body else [], t);
      }
    }
  }

  lemma SameHeader(rx: seq<byte>, t: seq<byte>)
    requires |rx| >= HEADER
    ensures DecodeHeader(rx + t) == DecodeHeader(rx)
  {
    assert (rx + t)[..HEADER] == rx[..HEADER];
  }

  /** One poll: the newly drained bytes join the buffer, then everything complete is carved. */
  function Poll(c: Carved, chunk: seq<byte>): Carved {
    if !c.open then c else AfterAll(c.msgs, Carve(c.rx + chunk, c.partial))
  }

  function PollAll(chunks: seq<seq<byte>>): Carved {
    if chunks == [] then Carved([], [], [], true)
    else Poll(PollAll(chunks[..|chunks| - 1]), chunks[|chunks| - 1])
  }

  function Concat(chunks: seq<seq<byte>>): seq<byte> {
    if chunks == [] then [] else Concat(chunks[..|chunks| - 1]) + chunks[|chunks| - 1]
  }

  /** However a stream is split across polls, the outcome is that of one pass over all of it. */
  lemma {:induction false} ChunkingIndependence(chunks: seq<seq<byte>>)
    ensures PollAll(chunks) == Carve(Concat(chunks), [])
  {
    hide Carve;
    if chunks == [] {
      NothingYet();
    } else {
      var before, last := chunks[..|chunks| - 1], chunks[|chunks| - 1];
      ChunkingIndependence(before);
      CarveMore(Concat(before), [], last);
    }
  }

  lemma NothingYet()
    ensures Carve([], []) == Carved([], [], [], true)
  {
  }

  // -------------------------------------------------------------- round trip

  /** A complete frame within the caps is consumed whole. */
  lemma CarveFrame(chunk: seq<byte>, more: bool, rest: seq<byte>, partial: seq<byte>)
    requires |chunk| <= MAX_MESSAGE && |partial| + |chunk| <= MAX_REASSEMBLED
    ensures Carve(EncodeHeader(|chunk|, more) + (chunk + rest), partial) == Gather(rest, partial + chunk, more)
  {
    hide DecodeHeader, Gather, Decode;
    var rx := EncodeHeader(|chunk|, more) + (chunk + rest);
    HeaderRoundTrip(|chunk|, more, chunk + rest);
    assert rx[HEADER..HEADER + |chunk|] == chunk && rx[HEADER + |chunk|..] == rest;
  }

  /** A framed body is reassembled and decoded, whatever follows it. */
  lemma {:induction false} FramesCarve(partial: seq<byte>, body: seq<byte>, tail: seq<byte>)
    requires |partial| + |body| <= MAX_REASSEMBLED
    ensures Carve(Frames(body) + tail, partial)
         == if Decode(partial + body).Bad? then CLOSED else After(Decode(partial + body).value, Carve(tail, []))
    decreases |body|
  {
    hide Decode, Carve, EncodeHeader;
    if |body| <= MAX_MESSAGE {
      Assoc(EncodeHeader(|body|, false), body, tail);
      CarveFrame(body, false, tail, partial);
    } else {
      var chunk, rest := body[..MAX_MESSAGE], body[MAX_MESSAGE..];
      Assoc(EncodeHeader(MAX_MESSAGE, true) + chunk, Frames(rest), tail);
      Assoc(EncodeHeader(MAX_MESSAGE, true), chunk, Frames(rest) + tail);
      CarveFrame(chunk, true, Frames(rest) + tail, partial);
      FramesCarve(partial + chunk, rest, tail);
      Assoc(partial, chunk, rest);
      assert chunk + rest == body;
    }
  }

  /** A body over the cap closes either reader, wherever the cap is crossed. */
  lemma {:induction false} FramesRefused(partial: seq<byte>, body: seq<byte>, tail: seq<byte>)
    requires |partial| <= MAX_REASSEMBLED < |partial| + |body|
    ensures Carve(Frames(body) + tail, partial) == CLOSED
    decreases |body|
  {
    hide Decode, Gather, EncodeHeader, DecodeHeader;
    if |body| <= MAX_MESSAGE {
      Assoc(EncodeHeader(|body|, false), body, tail);
      CarveOversized(body, false, tail, partial);
    } else {
      var chunk, rest := body[..MAX_MESSAGE], body[MAX_MESSAGE..];
      Assoc(EncodeHeader(MAX_MESSAGE, true) + chunk, Frames(rest), tail);
      Assoc(EncodeHeader(MAX_MESSAGE, true), chunk, Frames(rest) + tail);
      if |partial| + MAX_MESSAGE > MAX_REASSEMBLED {
        CarveOversized(chunk, true, Frames(rest) + tail, partial);
      } else {
        CarveFrame(chunk, true, Frames(rest) + tail, partial);
        GatherMore(Frames(rest) + tail, partial + chunk);
        FramesRefused(partial + chunk, rest, tail);
      }
    }
  }

  lemma GatherMore(rest: seq<byte>, body: seq<byte>)
    ensures Gather(rest, body, true) == Carve(rest, body)
  {
    hide Decode;
  }

  lemma CarveOversized(chunk: seq<byte>, more: bool, rest: seq<byte>, partial: seq<byte>)
    requires |chunk| <= MAX_MESSAGE && |partial| + |chunk| > MAX_REASSEMBLED
    ensures Carve(EncodeHeader(|chunk|, more) + (chunk + rest), partial) == CLOSED
  {
    hide DecodeHeader, Gather, Decode;
    HeaderRoundTrip(|chunk|, more, chunk + rest);
  }

  /**
   A framed message gets through exactly if its body is at most 16384 bytes
   and decodes; anything else closes the connection at once, on both sides.
   */
  lemma FramedIffFits(body: seq<byte>, tail: seq<byte>)
    ensures Carve(Frames(body) + tail, [])
         == if |body| <= 16384 && Decode(body).Ok? then After(Decode(body).value, Carve(tail, [])) else CLOSED
    ensures |body| > 16384 || Decode(body).Bad? ==> Read(Frames(body) + tail, []) == CLOSED
  {
    hide Carve, Read, Decode, Frames;
    assert [] + body == body;
    if |body| <= MAX_REASSEMBLED { FramesCarve([], body, tail); } else { FramesRefused([], body, tail); }
    ReadersAgree(Frames(body) + tail, []);
  }

  /** Nothing longer than the cap is ever gathered or delivered. */
  lemma {:induction false} CarvedWithinCap(rx: seq<byte>, partial: seq<byte>)
    requires |partial| <= 16384
    ensures var c := Carve(rx, partial);
            |c.partial| <= 16384 && forall i :: 0 <= i < |c.msgs| ==> |Encode(c.msgs[i])| <= 16384
    decreases |rx|
  {
    hide Decode, DecodeHeader, Encode;
    if |rx| >= HEADER {
      var h := DecodeHeader(rx);
      if h.ok && |rx| >= HEADER + h.len && |partial| + h.len <= MAX_REASSEMBLED {
        var body := partial + rx[HEADER..HEADER + h.len];
        CarvedWithinCap(rx[HEADER + h.len..], if h.more then body else []);
        if !h.more && Decode(body).Ok? { DecodedSize(body); }
      }
    }
  }

  /** The bytes of a run of messages, sent back to back. */
  function Wire(ms: seq<Msg>): seq<byte> {
    if ms == [] then [] else Frames(Encode(ms[0])) + Wire(ms[1..])
  }

  predicate Sendable(m: Msg) {
    |Encode(m)| <= MAX_REASSEMBLED
  }

  lemma SendableRepresentable(m: Msg)
    requires Sendable(m)
    ensures Representable(m)
  {
    MembersLength(m);
  }

  /** A reader fed the frames of messages within the cap delivers exactly those, and holds nothing back. */
  lemma {:induction false} WireRoundTrip(ms: seq<Msg>)
    requires forall i :: 0 <= i < |ms| ==> Sendable(ms[i])
    ensures Carve(Wire(ms), []) == Carved(ms, [], [], true)
    ensures Read(Wire(ms), []) == Carved(ms, [], [], true)
  {
    hide Carve, Read, Encode, Decode;
    ReadersAgree(Wire(ms), []);
    if ms == [] {
      NothingYet();
    } else {
      WireRoundTrip(ms[1..]);
      SendableRepresentable(ms[0]);
      RoundTrip(ms[0], []);
      assert Encode(ms[0]) + [] == Encode(ms[0]) && [] + Encode(ms[0]) == Encode(ms[0]);
      FramesCarve([], Encode(ms[0]), Wire(ms[1..]));
      assert [ms[0]] + ms[1..] == ms;
    }
  }

  /** Message boundaries do not depend on how the socket cuts the stream. */
  lemma WireInChunks(ms: seq<Msg>, chunks: seq<seq<byte>>)
    requires (forall i :: 0 <= i < |ms| ==> Sendable(ms[i])) && Concat(chunks) == Wire(ms)
    ensures PollAll(chunks) == Carved(ms, [], [], true)
  {
    hide Carve, Read;
    ChunkingIndependence(chunks);
    WireRoundTrip(ms);
  }

  /** While the stream is still arriving, a prefix of the messages is delivered and nothing is refused. */
  lemma PrefixDelivers(ms: seq<Msg>, chunks: seq<seq<byte>>)
    requires (forall i :: 0 <= i < |ms| ==> Sendable(ms[i])) && Concat(chunks) <= Wire(ms)
    ensures PollAll(chunks).open && PollAll(chunks).msgs <= ms
  {
    hide Carve, Read, Wire;
    ChunkingIndependence(chunks);
    WireRoundTrip(ms);
    var seen := Concat(chunks);
    CarveMore(seen, [], Wire(ms)[|seen|..]);
    assert seen + Wire(ms)[|seen|..] == Wire(ms);
  }

  // ----------------------------------------------------------- the coroutine

  /** ReadLoop over the bytes received so far; it stops where it would wait for more. */
  method ReadLoop(stream: seq<byte>) returns (msgs: seq<Msg>, open: bool)
    ensures msgs == Read(stream, []).msgs && open == Read(stream, []).open
  {
    hide Decode, DecodeHeader;
    var at, body: seq<byte> := 0, [];
    msgs, open := [], true;
    assert stream[0..] == stream;
    while true
      invariant 0 <= at <= |stream|
      invariant AfterAll(msgs, Read(stream[at..], body)) == Read(stream, [])
      decreases |stream| - at
    {
      var left := stream[at..];
      if |left| < HEADER { return; } // waiting for a header
      var h := DecodeHeader(left);
      if !h.ok { return msgs, false; } // protocol error
      if |body| + h.len > MAX_REASSEMBLED { return msgs, false; } // over the cap
      if |left| < HEADER + h.len { return; } // waiting for the fragment
      body := body + left[HEADER..HEADER + h.len];
      at := at + HEADER + h.len;
      assert stream[at..] == left[HEADER + h.len..];
      if !h.more {
        var m := Decode(body);
        if m.Bad? { return msgs, false; }
        body := [];
        ConcatCons(msgs, m.value, Read(stream[at..], []).msgs);
        msgs := msgs + [m.value];
      }
    }
  }
}
