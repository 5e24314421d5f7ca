/** Writing a message: one METHOD frame, one HEADER frame, and the body cut into BODY
    frames that fit the negotiated frame size. */
module Publishing {
  import opened Results
  import opened Octets
  import opened Frames
  import opened Methods
  import opened ContentHeader
  import opened Assembler
  import opened ReadLoop
  import opened MethodCodec
  import opened ContentHeaderCodec
  import opened FieldTableCodec

  /** The pieces of a body: all but the last of them full. */
  function Pieces(body: octets, size: nat): (r: seq<octets>)
    requires 0 < size
    ensures Concat(r) == body
    ensures forall i :: 0 <= i < |r| ==> 0 < |r[i]| <= size
  {
    if body == [] then []
    else if |body| <= size then
      var r := [body];
      assert r[1..] == [] && Concat(r) == body + Concat([]);
      r
    else
      var r := [body[..size]] + Pieces(body[size..], size);
      assert r[1..] == Pieces(body[size..], size);
      r
  }

  function CeilingDivide(n: nat, d: nat): nat
    requires 0 < d
  {
    (n + d - 1) / d
  }

  lemma CeilingDivideLess(n: nat, d: nat)
    requires 0 < d <= n
    ensures CeilingDivide(n, d) == 1 + CeilingDivide(n - d, d)
  {
    var m := n - 1;
    assert (m + d) / d == m / d + 1 by {
      var q, r := m / d, m % d;
      assert m + d == (q + 1) * d + r;
      QuotientIs(m + d, d, q + 1, r);
    }
  }

  /** A body needs exactly its length over the piece size, rounded up. */
  lemma {:induction false} PieceCount(body: octets, size: nat)
    requires 0 < size
    ensures |Pieces(body, size)| == CeilingDivide(|body|, size)
    decreases |body|
  {
    if body == [] {
      QuotientIs(size - 1, size, 0, size - 1);
    } else if |body| <= size {
      QuotientIs(|body| + size - 1, size, 1, |body| - 1);
    } else {
      CeilingDivideLess(|body|, size);
      PieceCount(body[size..], size);
    }
  }

  /** The frames of one message.  An empty body still gets one, empty, BODY frame. */
  function MessageFrames(channel: int, payload: octets, header: octets, body: octets, size: nat): seq<Frame>
    requires 0 < size
  {
    [Frame(METHOD, channel, payload), Frame(HEADER, channel, header)] + BodyFramesOf(channel, body, size)
  }

  function BodyFramesOf(channel: int, body: octets, size: nat): seq<Frame>
    requires 0 < size
  {
    Bodies(channel, if body == [] then [[]] else Pieces(body, size))
  }

  datatype Message = Message(channel: int, method_: Method, properties: Properties, body: octets)

  function FramesOf(m: Message, frameMax: nat): Result<seq<Frame>> {
    var payload :- EncodeMethod(m.method_);
    var header :- EncodeHeader(BASIC, |m.body|, m.properties);
    if frameMax <= FRAME_OVERHEAD then Err(FrameTooLarge)
    else Ok(MessageFrames(m.channel, payload, header, m.body, frameMax - FRAME_OVERHEAD))
  }

  function WireOf(m: Message, frameMax: nat): Result<octets> {
    var frames :- FramesOf(m, frameMax);
    Stream(frames, frameMax)
  }

  lemma {:induction false} StreamOk(frames: seq<Frame>, frameMax: nat)
    ensures Stream(frames, frameMax).Ok?
       <==> forall i :: 0 <= i < |frames| ==> EncodeFrame(frames[i], frameMax).Ok?
  {
    hide EncodeFrame;
    if frames != [] {
      StreamOk(frames[1..], frameMax);
      assert forall i :: 1 <= i < |frames| ==> frames[i] == frames[1..][i - 1];
      assert Stream(frames, frameMax).Ok?
        <==> EncodeFrame(frames[0], frameMax).Ok? && Stream(frames[1..], frameMax).Ok?;
    }
  }

  lemma {:induction false} BodyFrames(channel: int, parts: seq<octets>)
    ensures forall i :: 0 <= i < |parts| ==> Bodies(channel, parts)[i] == Frame(BODY, channel, parts[i])
  {
    if parts != [] {
      BodyFrames(channel, parts[1..]);
    }
  }

  /** Fragmentation.  A message whose method and properties encode can be written under a
      frame limit if and only if its channel is in range and its METHOD and HEADER frames
      fit: the body always does, whatever its size. */
  lemma OnlyMethodAndHeaderMustFit(m: Message, frameMax: nat)
    requires frameMax < 0x1_0000_0000 && EncodeMethod(m.method_).Ok?
    requires EncodeHeader(BASIC, |m.body|, m.properties).Ok?
    ensures WireOf(m, frameMax).Ok?
       <==> && 0 <= m.channel <= 0xFFFF
            && |EncodeMethod(m.method_).value| + FRAME_OVERHEAD <= frameMax
            && |EncodeHeader(BASIC, |m.body|, m.properties).value| + FRAME_OVERHEAD <= frameMax
  {
    hide EncodeMethod, EncodeHeader, Stream, Wire;
    var payload, header := EncodeMethod(m.method_).value, EncodeHeader(BASIC, |m.body|, m.properties).value;
    if frameMax <= FRAME_OVERHEAD {
      PayloadIsNotEmpty(m.method_);
    } else {
      var parts := if m.body == [] then [[]] else Pieces(m.body, frameMax - FRAME_OVERHEAD);
      var frames := MessageFrames(m.channel, payload, header, m.body, frameMax - FRAME_OVERHEAD);
      BodyFrames(m.channel, parts);
      StreamOk(frames, frameMax);
      assert frames[0] == Frame(METHOD, m.channel, payload) && frames[1] == Frame(HEADER, m.channel, header);
      assert forall i :: 2 <= i < |frames| ==> frames[i] == Frame(BODY, m.channel, parts[i - 2]);
    }
  }

  /** Every frame of a message that can be written is within the negotiated size, and every
      BODY frame but the last is exactly as long as that. */
  lemma WrittenFramesFit(m: Message, frameMax: nat, i: nat)
    requires WireOf(m, frameMax).Ok? && i < |FramesOf(m, frameMax).value|
    ensures var frames := FramesOf(m, frameMax).value;
      var wire := EncodeFrame(frames[i], frameMax);
      && wire.Ok? && FRAME_OVERHEAD <= |wire.value| <= frameMax
      && (2 <= i < |frames| - 1 ==> |wire.value| == frameMax)
  {
    hide EncodeMethod, EncodeHeader, Stream;
    var frames := FramesOf(m, frameMax).value;
    StreamOk(frames, frameMax);
    var size := frameMax - FRAME_OVERHEAD;
    var parts := if m.body == [] then [[]] else Pieces(m.body, size);
    BodyFrames(m.channel, parts);
    if 2 <= i < |frames| - 1 {
      AllButLastAreFull(m.body, size, i - 2);
      assert frames[i] == Frame(BODY, m.channel, parts[i - 2]);
    }
  }

  lemma {:induction false} AllButLastAreFull(body: octets, size: nat, i: nat)
    requires 0 < size && i + 1 < |Pieces(body, size)|
    ensures |Pieces(body, size)[i]| == size
    decreases i
  {
    if i > 0 {
      AllButLastAreFull(body[size..], size, i - 1);
    }
  }

  /** One iteration of the splitting loop gets on iff the piece size is positive.  With a frame
      limit of exactly the overhead it would never end; but then the METHOD frame, written
      first, does not fit, so the loop is only reached with room for at least four octets. */
  lemma SplittingLoopGetsOn(m: Message, frameMax: nat, offset: nat)
    requires EncodeMethod(m.method_).Ok? && FRAME_OVERHEAD <= frameMax && offset < |m.body|
    ensures var size := MaxFramePayload(frameMax).value;
      && (offset < offset + |Slice(m.body, offset, offset + size)| <==> frameMax != FRAME_OVERHEAD)
      && (EncodeFrame(Frame(METHOD, m.channel, EncodeMethod(m.method_).value), frameMax).Ok? ==> 4 <= size)
  {
    PayloadIsNotEmpty(m.method_);
    hide EncodeMethod;
  }

  lemma PayloadIsNotEmpty(m: Method)
    requires EncodeMethod(m).Ok?
    ensures 4 <= |EncodeMethod(m).value|
  {}

  // ---------------------------------------------------------------- the writer

  /** The sending half of the connection: frames go to `written` one at a time. */
  class AmqpWriter {
    const frameMax: nat
    var written: octets

    constructor (frameMax: nat)
      ensures this.frameMax == frameMax && written == []
    {
      this.frameMax := frameMax;
      written := [];
    }

    method WriteFrame(f: Frame) returns (r: Result<octets>)
      modifies this`written
      ensures r == EncodeFrame(f, frameMax)
      ensures written == if r.Ok? then old(written) + r.value else old(written)
    {
      r := EncodeFrameInPlace(f, frameMax);
      if r.Ok? {
        written := written + r.value;
      }
    }

    /** The body-splitting loop. */
    method WriteBody(channel: int, body: octets) returns (r: Result<()>)
      requires FRAME_OVERHEAD < frameMax
      modifies this`written
      ensures var s := Stream(BodyFramesOf(channel, body, frameMax - FRAME_OVERHEAD), frameMax);
        && (r.Ok? <==> s.Ok?) && (r.Ok? ==> written == old(written) + s.value)
      ensures old(written) <= written
    {
      hide EncodeFrame, Stream, Pieces, Bodies;
      var payloadMax := MaxFramePayload(frameMax).value;
      if body == [] {
        OneFrame(channel, frameMax);
        var only :- WriteFrame(Frame(BODY, channel, []));
        return Ok(());
      }
      var offset := 0;
      ghost var sent: octets := [];
      assert body[offset..] == body;
      ghost var goal := Stream(BodyFramesOf(channel, body, payloadMax), frameMax);
      AfterNothing(goal);
      while offset < |body|
        invariant 0 <= offset <= |body| && written == old(written) + sent
        invariant goal == After(sent, Stream(Bodies(channel, Pieces(body[offset..], payloadMax)), frameMax))
      {
        var chunk := Slice(body, offset, offset + payloadMax);
        NextPiece(channel, body, offset, payloadMax, frameMax, sent);
        var wire :- WriteFrame(Frame(BODY, channel, chunk));
        offset := offset + |chunk|;
        sent := sent + wire;
      }
      NoPieces(channel, body[offset..], payloadMax, frameMax);
      assert sent + [] == sent;
      return Ok(());
    }

    /** The write burst of a publish.  On success exactly the message's frames have been
        appended; on failure some whole frames may have been, and nothing is taken back. */
    method WriteMessage(m: Message) returns (r: Result<()>)
      modifies this`written
      ensures r.Ok? <==> WireOf(m, frameMax).Ok?
      ensures r.Ok? ==> written == old(written) + WireOf(m, frameMax).value
      ensures old(written) <= written
    {
      hide EncodeMethod, EncodeHeader, EncodeFrame, Stream, BodyFramesOf, WireOf;
      WirePlan(m, frameMax);
      var payload :- EncodeMethodPayload(m.method_);
      var first :- WriteFrame(Frame(METHOD, m.channel, payload));
      var header :- EncodeContentHeader(BASIC, |m.body|, m.properties);
      var second :- WriteFrame(Frame(HEADER, m.channel, header));
      r := WriteBody(m.channel, m.body);
      if r.Ok? {
        ghost var bodies := Stream(BodyFramesOf(m.channel, m.body, frameMax - FRAME_OVERHEAD), frameMax).value;
        assert old(written) + (first + second + bodies) == old(written) + first + second + bodies;
      }
    }
  }

  // Steps of the writer's proof.

  lemma WirePlan(m: Message, frameMax: nat)
    ensures var (payload, header) := (EncodeMethod(m.method_), EncodeHeader(BASIC, |m.body|, m.properties));
      payload.Ok? ==>
        var e := EncodeFrame(Frame(METHOD, m.channel, payload.value), frameMax);
        && (e.Ok? ==> FRAME_OVERHEAD < frameMax)
        && (e.Err? || header.Err? ==> WireOf(m, frameMax).Err?)
        && (e.Ok? && header.Ok? ==>
              var h := EncodeFrame(Frame(HEADER, m.channel, header.value), frameMax);
              var s := Stream(BodyFramesOf(m.channel, m.body, frameMax - FRAME_OVERHEAD), frameMax);
              WireOf(m, frameMax) == if h.Err? then h else After(e.value + h.value, s))
    ensures EncodeMethod(m.method_).Err? ==> WireOf(m, frameMax).Err?
  {
    hide EncodeMethod, EncodeHeader, Stream, BodyFramesOf, Wire;
    if EncodeMethod(m.method_).Ok? {
      PayloadIsNotEmpty(m.method_);
      if EncodeHeader(BASIC, |m.body|, m.properties).Ok? && FRAME_OVERHEAD < frameMax {
        TwoFrames(Frame(METHOD, m.channel, EncodeMethod(m.method_).value),
                  Frame(HEADER, m.channel, EncodeHeader(BASIC, |m.body|, m.properties).value),
                  BodyFramesOf(m.channel, m.body, frameMax - FRAME_OVERHEAD), frameMax);
      }
    }
  }

  lemma OneFrame(channel: int, frameMax: nat)
    ensures Stream(Bodies(channel, [[]]), frameMax) == EncodeFrame(Frame(BODY, channel, []), frameMax)
  {
    hide EncodeFrame;
    var f := Frame(BODY, channel, []);
    var parts: seq<octets> := [[]];
    assert parts[1..] == [] && Bodies(channel, parts) == [f] && [f][1..] == [];
    var e := EncodeFrame(f, frameMax);
    if e.Ok? {
      assert e.value + [] == e.value;
    }
  }

  lemma TwoFrames(f: Frame, g: Frame, rest: seq<Frame>, frameMax: nat)
    ensures var e, h := EncodeFrame(f, frameMax), EncodeFrame(g, frameMax);
      Stream([f, g] + rest, frameMax)
      == if e.Err? then e else if h.Err? then h else After(e.value + h.value, Stream(rest, frameMax))
  {
    hide EncodeFrame;
    var frames := [f, g] + rest;
    assert frames[1..][1..] == rest;
    var e, h, r := EncodeFrame(f, frameMax), EncodeFrame(g, frameMax), Stream(rest, frameMax);
    if e.Ok? && h.Ok? && r.Ok? {
      assert e.value + (h.value + r.value) == e.value + h.value + r.value;
    }
  }

  lemma NoPieces(channel: int, body: octets, size: nat, frameMax: nat)
    requires body == [] && 0 < size
    ensures Stream(Bodies(channel, Pieces(body, size)), frameMax) == Ok([])
  {}

  lemma NextPiece(channel: int, body: octets, offset: nat, size: nat, frameMax: nat, sent: octets)
    requires offset < |body| && 0 < size
    ensures var chunk := Slice(body, offset, offset + size);
      var wire := EncodeFrame(Frame(BODY, channel, chunk), frameMax);
      && 0 < |chunk| && offset + |chunk| <= |body|
      && After(sent, Stream(Bodies(channel, Pieces(body[offset..], size)), frameMax))
      == if wire.Err? then wire
         else After(sent + wire.value, Stream(Bodies(channel, Pieces(body[offset + |chunk|..], size)), frameMax))
  {
    hide EncodeFrame;
    var chunk := Slice(body, offset, offset + size);
    var parts, rest := Pieces(body[offset..], size), Pieces(body[offset + |chunk|..], size);
    assert body[offset..][|chunk|..] == body[offset + |chunk|..];
    if |body[offset..]| <= size {
      assert chunk == body[offset..] && body[offset + |chunk|..] == [];
    } else {
      assert chunk == body[offset..][..size];
    }
    assert parts == [chunk] + rest;
    assert Bodies(channel, parts)[1..] == Bodies(channel, rest);
    var wire, more := EncodeFrame(Frame(BODY, channel, chunk), frameMax), Stream(Bodies(channel, rest), frameMax);
    if wire.Ok? && more.Ok? {
      assert sent + (wire.value + more.value) == sent + wire.value + more.value;
    }
  }
}
