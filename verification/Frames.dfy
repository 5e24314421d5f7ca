/** Frames of section 4.2.3 of AMQP 0-9-1: type, channel, size, payload, end octet. */
module Frames {
  import opened Results
  import opened Octets

  const FRAME_END: octet := 0xCE
  const FRAME_OVERHEAD: nat := 8

  datatype FrameType = METHOD | HEADER | BODY | HEARTBEAT {
    function Code(): octet {
      match this
      case METHOD => 1
      case HEADER => 2
      case BODY => 3
      case HEARTBEAT => 8
    }
  }

  function FrameTypeOf(code: octet): Option<FrameType> {
    if code == 1 then Some(METHOD)
    else if code == 2 then Some(HEADER)
    else if code == 3 then Some(BODY)
    else if code == 8 then Some(HEARTBEAT)
    else None
  }

  datatype Frame = Frame(frameType: FrameType, channel: int, payload: octets)

  function MaxFramePayload(frameMax: nat): Result<nat> {
    if frameMax < FRAME_OVERHEAD then Err(FrameMaxTooSmall) else Ok(frameMax - FRAME_OVERHEAD)
  }

  function Wire(f: Frame): octets
    requires 0 <= f.channel
  {
    [f.frameType.Code()] + BigEndian(f.channel, 2) + BigEndian(|f.payload|, 4) + f.payload + [FRAME_END]
  }

  function EncodeFrame(f: Frame, frameMax: nat): Result<octets> {
    if !(0 <= f.channel <= 0xFFFF) then Err(ChannelOutOfRange)
    else if frameMax < FRAME_OVERHEAD then Err(FrameMaxTooSmall)
    else if |f.payload| > frameMax - FRAME_OVERHEAD then Err(FrameTooLarge)
    else if |f.payload| >= 0x1_0000_0000 then Err(OutOfRange)
    else Ok(Wire(f))
  }

  /** The encoder of the source: allocate the frame, pack the header, copy the payload,
      set the last octet. */
  method EncodeFrameInPlace(f: Frame, frameMax: nat) returns (r: Result<octets>)
    ensures r == EncodeFrame(f, frameMax)
  {
    if !(0 <= f.channel <= 0xFFFF) {
      return Err(ChannelOutOfRange);
    }
    var size := |f.payload|;
    var payloadMax :- MaxFramePayload(frameMax);
    if size > payloadMax {
      return Err(FrameTooLarge);
    }
    if size >= 0x1_0000_0000 {
      return Err(OutOfRange);
    }
    var buf := new octet[FRAME_OVERHEAD + size];
    var channel, length := BigEndian(f.channel, 2), BigEndian(size, 4);
    buf[0] := f.frameType.Code();
    buf[1], buf[2] := channel[0], channel[1];
    buf[3], buf[4], buf[5], buf[6] := length[0], length[1], length[2], length[3];
    forall i | 0 <= i < size {
      buf[7 + i] := f.payload[i];
    }
    buf[buf.Length - 1] := FRAME_END;
    assert buf[..] == Wire(f);
    return Ok(buf[..]);
  }

  /** Decode one frame from the front of `data`; the number is the count of octets used. */
  function DecodeFrame(data: octets, frameMax: nat): (r: Result<(Frame, nat)>)
    ensures r.Ok? ==> FRAME_OVERHEAD <= r.value.1 <= |data|
  {
    if |data| < 7 then Err(Incomplete) else
    var frameType := FrameTypeOf(data[0]);
    if frameType.None? then Err(UnknownFrameType) else
    var channel := FromBigEndian(data[1..3]);
    var size := FromBigEndian(data[3..7]);
    if frameMax < FRAME_OVERHEAD then Err(FrameMaxTooSmall)
    else if size > frameMax - FRAME_OVERHEAD then Err(FrameTooLarge)
    else if |data| < 7 + size + 1 then Err(Incomplete)
    else if data[7 + size] != FRAME_END then Err(BadFrameEnd)
    else Ok((Frame(frameType.value, channel, data[7..7 + size]), 7 + size + 1))
  }

  /** Where an accepted frame's parts lie in any buffer that starts with its encoding. */
  lemma WireParts(f: Frame, frameMax: nat, data: octets)
    requires EncodeFrame(f, frameMax).Ok? && Wire(f) <= data
    ensures |Wire(f)| == |f.payload| + FRAME_OVERHEAD
    ensures data[0] == f.frameType.Code() && FromBigEndian(data[1..3]) == f.channel
    ensures FromBigEndian(data[3..7]) == |f.payload|
    ensures data[7..7 + |f.payload|] == f.payload && data[7 + |f.payload|] == FRAME_END
  {
    var w := Wire(f);
    PowersOf256();
    BigEndianRoundTrip(f.channel, 2);
    BigEndianRoundTrip(|f.payload|, 4);
    assert data[1..3] == w[1..3] == BigEndian(f.channel, 2);
    assert data[3..7] == w[3..7] == BigEndian(|f.payload|, 4);
    assert data[7..7 + |f.payload|] == w[7..7 + |f.payload|] == f.payload;
  }

  /** Section 4.2.3, octet by octet: the type, the channel and the size in big-endian order,
      the payload, and the end octet. */
  lemma FrameLayout(f: Frame, frameMax: nat)
    requires EncodeFrame(f, frameMax).Ok?
    ensures var (w, n) := (EncodeFrame(f, frameMax).value, |f.payload|);
      && |w| == n + 8 <= frameMax
      && w[0] == (match f.frameType case METHOD => 1 case HEADER => 2 case BODY => 3 case HEARTBEAT => 8)
      && w[1] as int * 256 + w[2] as int == f.channel
      && w[3] as int * 0x100_0000 + w[4] as int * 0x1_0000 + w[5] as int * 256 + w[6] as int == n
      && w[7..7 + n] == f.payload && w[7 + n] == 206
  {
    var w := Wire(f);
    WireParts(f, frameMax, w);
    assert w[1..3] == [w[1], w[2]] && w[3..7] == [w[3], w[4], w[5], w[6]];
    TwoAndFour(w[1], w[2], w[3], w[4], w[5], w[6]);
  }

  lemma OneOctetMore(s: octets, o: octet)
    ensures FromBigEndian(s + [o]) == FromBigEndian(s) * 256 + o as int
  {
    assert (s + [o])[..|s|] == s;
  }

  lemma TwoAndFour(a: octet, b: octet, c: octet, d: octet, e: octet, f: octet)
    ensures FromBigEndian([a, b]) == a as int * 256 + b as int
    ensures FromBigEndian([c, d, e, f])
         == c as int * 0x100_0000 + d as int * 0x1_0000 + e as int * 256 + f as int
  {
    OneOctetMore([], a);
    OneOctetMore([a], b);
    OneOctetMore([], c);
    OneOctetMore([c], d);
    OneOctetMore([c, d], e);
    OneOctetMore([c, d, e], f);
    assert [] + [a] == [a] && [a] + [b] == [a, b] && [] + [c] == [c] && [c] + [d] == [c, d];
    assert [c, d] + [e] == [c, d, e] && [c, d, e] + [f] == [c, d, e, f];
    hide FromBigEndian;
    assert FromBigEndian([c, d, e]) == (c as int * 256 + d as int) * 256 + e as int;
  }

  /** The decoder returns a frame exactly when the buffer starts with what the encoder
      makes of that frame, and it then uses exactly those octets: the two are inverse to
      each other in both directions. */
  lemma DecodeIsInverse(data: octets, frameMax: nat, f: Frame, n: nat)
    ensures DecodeFrame(data, frameMax) == Ok((f, n))
       <==> var e := EncodeFrame(f, frameMax); e.Ok? && e.value <= data && n == |e.value|
  {
    PowersOf256();
    if DecodeFrame(data, frameMax) == Ok((f, n)) {
      FromBigEndianRoundTrip(data[1..3]);
      FromBigEndianRoundTrip(data[3..7]);
      assert Wire(f) == data[..n];
    }
    var e := EncodeFrame(f, frameMax);
    if e.Ok? && e.value <= data && n == |e.value| {
      WireParts(f, frameMax, data);
    }
  }

  /** Whatever the decoder has decided, other than to wait for more, later octets cannot
      change. */
  lemma DecodeIsStable(data: octets, more: octets, frameMax: nat)
    requires DecodeFrame(data, frameMax) != Err(Incomplete)
    ensures DecodeFrame(data + more, frameMax) == DecodeFrame(data, frameMax)
  {
    var all := data + more;
    assert all[1..3] == data[1..3] && all[3..7] == data[3..7];
    var size := FromBigEndian(data[3..7]);
    if 7 + size + 1 <= |data| {
      assert all[7..7 + size] == data[7..7 + size];
    }
  }

  /** A frame cut short is never an error and never a frame. */
  lemma CutFrameIsIncomplete(f: Frame, frameMax: nat, k: nat)
    requires EncodeFrame(f, frameMax).Ok? && k < |Wire(f)|
    ensures DecodeFrame(Wire(f)[..k], frameMax) == Err(Incomplete)
  {
    WireParts(f, frameMax, Wire(f));
    var cut := Wire(f)[..k];
    if 7 <= k {
      assert cut[1..3] == Wire(f)[1..3] && cut[3..7] == Wire(f)[3..7];
    }
  }

  /** The decoder asks for more octets iff it has not seen a whole frame head yet, or what it
      has is a proper prefix of a frame it would accept.  So an oversized frame or one of an
      unknown type is refused as soon as its head is there. */
  lemma IncompleteIff(data: octets, frameMax: nat)
    ensures DecodeFrame(data, frameMax) == Err(Incomplete)
       <==> |data| < 7 || exists f :: EncodeFrame(f, frameMax).Ok? && Wire(f) != data && data <= Wire(f)
  {
    if f :| EncodeFrame(f, frameMax).Ok? && Wire(f) != data && data <= Wire(f) {
      assert data == Wire(f)[..|data|];
      CutFrameIsIncomplete(f, frameMax, |data|);
    }
    if DecodeFrame(data, frameMax) == Err(Incomplete) && 7 <= |data| {
      var f := Completion(data, frameMax);
    }
  }

  /** A frame that what has come of it may become. */
  lemma Completion(data: octets, frameMax: nat) returns (f: Frame)
    requires 7 <= |data| && DecodeFrame(data, frameMax) == Err(Incomplete)
    ensures EncodeFrame(f, frameMax).Ok? && Wire(f) != data && data <= Wire(f)
  {
    FromBigEndianRoundTrip(data[1..3]);
    FromBigEndianRoundTrip(data[3..7]);
    PowersOf256();
    var size := FromBigEndian(data[3..7]);
    var payload: octets := data[7..] + seq(size - (|data| - 7), _ => 0);
    f := Frame(FrameTypeOf(data[0]).value, FromBigEndian(data[1..3]), payload);
    assert Wire(f) == [data[0]] + data[1..3] + data[3..7] + payload + [FRAME_END];
    assert data == [data[0]] + data[1..3] + data[3..7] + data[7..];
  }
}
