/** The whole wire path: delivered and returned messages, put on the wire octet by octet and
    cut anywhere, come out of the read loop as the same messages. */
module WirePath {
  import opened Results
  import opened Octets
  import opened Frames
  import opened FieldTableProofs
  import opened Methods
  import opened MethodLayouts
  import opened ContentHeader
  import opened Assembler
  import opened ReadLoop
  import opened Publishing

  // ---------------------------------------------------------------- one channel

  /** Frames of one channel act on the loop exactly as the lone assembler says. */
  lemma {:induction false} RunOnOneChannel(st: Loop, c: int, frames: seq<Frame>)
    requires ValidLoop(st) && !st.rejected && forall i :: 0 <= i < |frames| ==> frames[i].channel == c
    ensures var t := Lone(c, SlotOf(st.pending, c), frames);
      Run(st, frames)
      == if t.rejected then Loop(map[], st.events + t.events, true)
         else Loop(WithSlot(st.pending, c, t.slot), st.events + t.events, false)
    decreases |frames|
  {
    hide TurnOn;
    if frames == [] {
      assert WithSlot(st.pending, c, SlotOf(st.pending, c)) == st.pending && st.events + [] == st.events;
    } else {
      var t := TurnOn(c, SlotOf(st.pending, c), frames[0].frameType, frames[0].payload);
      var next := Dispatch(st, frames[0]);
      if next.rejected {
        RejectionIsFinal(next, frames[1..]);
      } else {
        RunOnOneChannel(next, c, frames[1..]);
        var rest := Lone(c, t.slot, frames[1..]);
        assert st.events + t.events + rest.events == st.events + (t.events + rest.events);
        assert WithSlot(next.pending, c, rest.slot) == WithSlot(st.pending, c, rest.slot);
      }
    }
  }

  // ---------------------------------------------------------------- one message

  /** A delivered or returned message as a sender puts it on the wire: its body is cut into any
      parts. */
  datatype Content = Content(channel: int, method_: Method, properties: Properties, parts: seq<octets>)

  /** Its frames: the method's octets, the header's, and one BODY frame for each part. */
  function ContentFrames(c: Content): Result<seq<Frame>> {
    var header :- EncodeHeader(BASIC, |Concat(c.parts)|, c.properties);
    if !Fits(c.method_) then Err(OutOfRange)
    else
      var method_ := Frame(METHOD, c.channel, Layout(c.method_));
      Ok([method_, Frame(HEADER, c.channel, header)] + Bodies(c.channel, c.parts))
  }

  function ContentWire(c: Content, sendMax: nat): Result<octets> {
    var frames :- ContentFrames(c);
    Stream(frames, sendMax)
  }

  /** A message whose properties travel unchanged, within the sender's frame limit, and whose
      body does not end in an empty part. */
  predicate Travels(c: Content, sendMax: nat) {
    && (c.method_.Deliver? || c.method_.Return?) && AllCarry(c.properties)
    && (c.parts != [] ==> c.parts[|c.parts| - 1] != []) && ContentWire(c, sendMax).Ok?
  }

  /** What the client's user sees of it, field by field. */
  function Seen(c: Content): Event
    requires c.method_.Deliver? || c.method_.Return?
  {
    var (m, body) := (c.method_, Concat(c.parts));
    if m.Deliver? then
      Delivered(c.channel, IncomingMessage(
        deliveryTag := m.deliveryTag, exchange := m.exchange, routingKey := m.routingKey, body := body,
        properties := c.properties, redelivered := m.redelivered, consumerTag := m.consumerTag))
    else
      Returned(c.channel, ReturnedMessage(
        replyCode := m.replyCode, replyText := m.replyText, exchange := m.exchange, routingKey := m.routingKey,
        body := body, properties := c.properties))
  }

  /** A lone assembler on one message's frames: exactly one event, with the same method
      fields, properties and body. */
  lemma ContentAssembles(c: Content, sendMax: nat, slot: Option<Slot>)
    requires ValidOption(slot) && Travels(c, sendMax)
    ensures Lone(c.channel, slot, ContentFrames(c).value) == Turn(None, [Seen(c)], false)
  {
    hide DecodeMethod, DecodeHeader, EncodeHeader, Stream, Layout, Fits;
    var header := EncodeHeader(BASIC, |Concat(c.parts)|, c.properties).value;
    DecodesAsLaidOut(c.method_);
    HeaderRoundTrip(BASIC, |Concat(c.parts)|, c.properties);
    var h := Header(BASIC, |Concat(c.parts)|, c.properties);
    var frames := ContentFrames(c).value;
    var opened_ := Slot(c.method_, map[], [], None);
    var afterMethod := [Frame(HEADER, c.channel, header)] + Bodies(c.channel, c.parts);
    assert frames[0] == Frame(METHOD, c.channel, Layout(c.method_)) && frames[1..] == afterMethod;
    assert TurnOn(c.channel, slot, METHOD, Layout(c.method_)) == Turn(Some(opened_), [], false);
    SlotIsSeen(c, opened_);
    hide TurnOn, ValidSlot, Finished;
    HeaderThenBodies(c.channel, opened_, header, h, c.parts);
  }

  lemma SlotIsSeen(c: Content, s: Slot)
    requires c.method_.Deliver? || c.method_.Return?
    requires s == Slot(c.method_, map[], [], None)
    ensures ValidSlot(s)
    ensures Finished(c.channel, s.(properties := c.properties, body := s.body + Concat(c.parts))) == Seen(c)
  {
    assert [] + Concat(c.parts) == Concat(c.parts);
  }

  lemma ContentRuns(c: Content, sendMax: nat, st: Loop)
    requires ValidLoop(st) && !st.rejected && Travels(c, sendMax)
    ensures Run(st, ContentFrames(c).value) == Loop(st.pending - {c.channel}, st.events + [Seen(c)], false)
  {
    hide Lone, EncodeHeader, Stream, Run, Layout, Fits;
    ContentAssembles(c, sendMax, SlotOf(st.pending, c.channel));
    BodyFrames(c.channel, c.parts);
    RunOnOneChannel(st, c.channel, ContentFrames(c).value);
  }

  // ---------------------------------------------------------------- the client's own messages

  /** A message with a body as the client's own writer sends it, if it were one that is
      returned: the body is cut into the writer's pieces. */
  function ContentOf(m: Message, sendMax: nat): Content
    requires FRAME_OVERHEAD < sendMax
  {
    Content(m.channel, m.method_, m.properties, Pieces(m.body, sendMax - FRAME_OVERHEAD))
  }

  /** A returned message that the client's own encoders accept. */
  predicate Sendable(m: Message, sendMax: nat) {
    m.method_.Return? && AllCarry(m.properties) && WireOf(m, sendMax).Ok?
  }

  lemma {:induction false} LastPieceIsNotEmpty(body: octets, size: nat)
    requires body != [] && 0 < size
    ensures var r := Pieces(body, size); r != [] && r[|r| - 1] != []
    decreases |body|
  {}

  /** What the client's own encoders and body splitter write is such a message. */
  lemma ClientMessagesTravel(m: Message, sendMax: nat)
    requires Sendable(m, sendMax) && m.body != []
    ensures FRAME_OVERHEAD < sendMax && Travels(ContentOf(m, sendMax), sendMax)
    ensures ContentFrames(ContentOf(m, sendMax)) == FramesOf(m, sendMax)
    ensures Concat(ContentOf(m, sendMax).parts) == m.body
  {
    hide EncodeMethod, EncodeHeader, Stream, Layout, Fits;
    EncodesAsLaidOut(m.method_);
    LastPieceIsNotEmpty(m.body, sendMax - FRAME_OVERHEAD);
  }

  /** With an empty body the writer sends an empty BODY frame too, which is rejected: the
      message is complete at its header. */
  lemma EmptyBodyAssembles(m: Message, sendMax: nat, slot: Option<Slot>)
    requires ValidOption(slot) && Sendable(m, sendMax) && m.body == []
    ensures var t := Lone(m.channel, slot, FramesOf(m, sendMax).value);
      t.events == [Seen(Content(m.channel, m.method_, m.properties, []))] && t.slot == None && t.rejected
  {
    hide DecodeMethod, DecodeHeader, EncodeMethod, EncodeHeader, Stream;
    var payload, header := EncodeMethod(m.method_).value, EncodeHeader(BASIC, 0, m.properties).value;
    MethodRoundTrip(m.method_, payload);
    HeaderRoundTrip(BASIC, 0, m.properties);
    var frames := FramesOf(m, sendMax).value;
    var opened_ := Slot(m.method_, map[], [], None);
    var parts: seq<octets> := [[]];
    var afterMethod := [Frame(HEADER, m.channel, header)] + Bodies(m.channel, parts);
    assert frames[0] == Frame(METHOD, m.channel, payload) && frames[1..] == afterMethod;
    assert TurnOn(m.channel, slot, METHOD, payload) == Turn(Some(opened_), [], false);
    hide TurnOn, ValidSlot;
    assert parts[1..] == [] && afterMethod[1..] == [Frame(BODY, m.channel, [])];
    EmptyBodyTurn(m, header, opened_);
  }

  lemma EmptyBodyTurn(m: Message, header: octets, s: Slot)
    requires s == Slot(m.method_, map[], [], None) && m.method_.Return?
    requires DecodeHeader(header) == Ok(Header(BASIC, 0, m.properties))
    ensures var seen := Seen(Content(m.channel, m.method_, m.properties, []));
      Lone(m.channel, Some(s), [Frame(HEADER, m.channel, header), Frame(BODY, m.channel, [])])
        == Turn(None, [seen], true)
  {
    hide DecodeHeader;
    var seen := Seen(Content(m.channel, m.method_, m.properties, []));
    var frames := [Frame(HEADER, m.channel, header), Frame(BODY, m.channel, [])];
    assert TurnOnHeader(m.channel, Some(s), header) == Turn(None, [seen], false);
    assert frames[1..] == [Frame(BODY, m.channel, [])];
    assert Lone(m.channel, None, [Frame(BODY, m.channel, [])]) == Turn(None, [], true);
    assert [seen] + [] == [seen];
  }

  // ---------------------------------------------------------------- any run of messages

  predicate AllTravel(contents: seq<Content>, sendMax: nat) {
    contents != [] ==> Travels(contents[0], sendMax) && AllTravel(contents[1..], sendMax)
  }

  function WireOfAll(contents: seq<Content>, sendMax: nat): octets
    requires AllTravel(contents, sendMax)
  {
    if contents == [] then [] else ContentWire(contents[0], sendMax).value + WireOfAll(contents[1..], sendMax)
  }

  function SeenAll(contents: seq<Content>, sendMax: nat): seq<Event>
    requires AllTravel(contents, sendMax)
  {
    if contents == [] then [] else [Seen(contents[0])] + SeenAll(contents[1..], sendMax)
  }

  function Channels(contents: seq<Content>): set<int> {
    if contents == [] then {} else {contents[0].channel} + Channels(contents[1..])
  }

  lemma {:induction false} WireDrains(contents: seq<Content>, sendMax: nat, frameMax: nat, st: Loop)
    requires AllTravel(contents, sendMax) && ValidLoop(st) && !st.rejected && sendMax <= frameMax
    ensures var (rest, loop) := Drain(WireOfAll(contents, sendMax), frameMax, st);
      && rest == [] && !loop.rejected && loop.events == st.events + SeenAll(contents, sendMax)
      && loop.pending == st.pending - Channels(contents)
    decreases |contents|
  {
    hide Travels, ContentWire, Drain, Seen, ValidLoop, ContentFrames;
    if contents == [] {
      NothingDrains(frameMax, st);
      assert st.events + SeenAll(contents, sendMax) == st.events && st.pending - {} == st.pending;
    } else {
      var c, rest := contents[0], contents[1..];
      TravellersExist(c, sendMax);
      ContentDrains(c, sendMax, frameMax, WireOfAll(rest, sendMax), st);
      StillValid(st, c.channel, st.events + [Seen(c)]);
      WireDrains(rest, sendMax, frameMax, Loop(st.pending - {c.channel}, st.events + [Seen(c)], false));
      Together(st, Seen(c), SeenAll(rest, sendMax), c.channel, Channels(rest));
    }
  }

  lemma Together(st: Loop, first: Event, rest: seq<Event>, channel: int, channels: set<int>)
    ensures st.events + [first] + rest == st.events + ([first] + rest)
    ensures st.pending - {channel} - channels == st.pending - ({channel} + channels)
  {}

  lemma NothingDrains(frameMax: nat, st: Loop)
    requires ValidLoop(st) && !st.rejected
    ensures Drain([], frameMax, st) == ([], st)
  {}

  lemma TravellersExist(c: Content, sendMax: nat)
    requires Travels(c, sendMax)
    ensures (c.method_.Deliver? || c.method_.Return?) && ContentFrames(c).Ok? && ContentWire(c, sendMax).Ok?
  {}

  lemma StillValid(st: Loop, channel: int, events: seq<Event>)
    requires ValidLoop(st)
    ensures ValidLoop(Loop(st.pending - {channel}, events, false))
  {}

  lemma ContentDrains(c: Content, sendMax: nat, frameMax: nat, more: octets, st: Loop)
    requires Travels(c, sendMax) && ValidLoop(st) && !st.rejected && sendMax <= frameMax
    ensures Drain(ContentWire(c, sendMax).value + more, frameMax, st)
         == Drain(more, frameMax, Loop(st.pending - {c.channel}, st.events + [Seen(c)], false))
  {
    hide EncodeHeader, Run, Stream, Layout, Fits;
    ContentRuns(c, sendMax, st);
    StreamDrains(ContentFrames(c).value, sendMax, frameMax, ContentWire(c, sendMax).value, more, st);
  }

  /** The wire path is the identity.  Take any run of delivered and returned messages, on any
      channels, their bodies cut into any parts, that a sender's limit lets through; write
      them octet by octet as the standard lays them out; cut the octets anywhere; and feed
      them to a reader whose limit is no smaller.  The reader accepts, keeps no octet back,
      leaves no slot open on those channels, and has emitted exactly those messages, with
      all their fields, in order. */
  lemma WirePathIsIdentity(contents: seq<Content>, sendMax: nat, r: Reader, frameMax: nat, chunks: seq<octets>)
    requires AllTravel(contents, sendMax) && sendMax <= frameMax
    requires ValidLoop(r.loop) && !r.loop.rejected && r.buffer == []
    requires Concat(chunks) == WireOfAll(contents, sendMax) && forall i :: 0 <= i < |chunks| ==> chunks[i] != []
    ensures var r' := FeedAll(r, frameMax, chunks);
      && r'.buffer == [] && !r'.loop.rejected
      && r'.loop.events == r.loop.events + SeenAll(contents, sendMax)
      && r'.loop.pending == r.loop.pending - Channels(contents)
  {
    hide Drain, FeedAll, WireOfAll, SeenAll, AllTravel;
    ChunksDoNotMatter(r, frameMax, chunks);
    WireDrains(contents, sendMax, frameMax, r.loop);
    assert r.buffer + Concat(chunks) == Concat(chunks);
  }

  /** With an empty body the client's own writer breaks that: the message is emitted, but the
      empty BODY frame it sends is rejected and the connection is lost.  So a single message
      of the writer's crosses the wire if and only if its body is not empty. */
  lemma EmptyBodyLosesTheConnection(m: Message, sendMax: nat, r: Reader, frameMax: nat, chunks: seq<octets>)
    requires Sendable(m, sendMax) && sendMax <= frameMax
    requires ValidLoop(r.loop) && !r.loop.rejected && r.buffer == []
    requires Concat(chunks) == WireOf(m, sendMax).value && forall i :: 0 <= i < |chunks| ==> chunks[i] != []
    ensures var r' := FeedAll(r, frameMax, chunks);
      && r'.loop.events == r.loop.events + [Seen(Content(m.channel, m.method_, m.properties, [m.body]))]
      && (r'.loop.rejected <==> m.body == [])
  {
    hide EncodeMethod, EncodeHeader, Run, Stream, FeedAll;
    ChunksDoNotMatter(r, frameMax, chunks);
    WriterRuns(m, sendMax, r.loop);
    var s := WireOf(m, sendMax).value;
    StreamDrains(FramesOf(m, sendMax).value, sendMax, frameMax, s, [], r.loop);
    assert r.buffer + Concat(chunks) == s + [];
  }

  lemma WriterRuns(m: Message, sendMax: nat, st: Loop)
    requires ValidLoop(st) && !st.rejected && Sendable(m, sendMax)
    ensures var seen := Seen(Content(m.channel, m.method_, m.properties, [m.body]));
      Run(st, FramesOf(m, sendMax).value)
      == if m.body == [] then Loop(map[], st.events + [seen], true)
         else Loop(st.pending - {m.channel}, st.events + [seen], false)
  {
    hide Lone, EncodeMethod, EncodeHeader, Stream, Run;
    OnePart(m.body);
    if m.body == [] {
      EmptyBodyAssembles(m, sendMax, SlotOf(st.pending, m.channel));
      var parts: seq<octets> := [[]];
      BodyFrames(m.channel, parts);
      RunOnOneChannel(st, m.channel, FramesOf(m, sendMax).value);
    } else {
      ClientMessagesTravel(m, sendMax);
      ContentRuns(ContentOf(m, sendMax), sendMax, st);
    }
  }

  lemma OnePart(body: octets)
    ensures Concat([body]) == body && Concat([]) == []
  {
    assert [body][1..] == [] && body + [] == body;
  }
}
