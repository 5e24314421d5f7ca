/** What the read loop does with one frame: methods become events or open a content slot,
    headers and bodies fill the slot of their channel until a message is complete. */
module Assembler {
  import opened Results
  import opened Octets
  import opened Frames
  import opened Methods
  import opened ContentHeader

  /** Content being assembled: the deliver or return that opened it, and `remaining` once
      a header has declared the size. */
  datatype Slot = Slot(source: Method, properties: Properties, body: octets, remaining: Option<int>)

  datatype IncomingMessage = IncomingMessage(
    deliveryTag: int, exchange: octets, routingKey: octets, body: octets, properties: Properties,
    redelivered: bool, consumerTag: octets)

  datatype ReturnedMessage = ReturnedMessage(
    replyCode: int, replyText: octets, exchange: octets, routingKey: octets, body: octets, properties: Properties)

  /** What leaves the read loop, in order: finished messages, publisher confirms, flow
      control, the reply to a broker's close, and methods handed to whoever waits. */
  datatype Event =
    | Delivered(channel: int, message: IncomingMessage)
    | Returned(channel: int, returned: ReturnedMessage)
    | Confirm(channel: int, settle: Method)
    | FlowStopped(channel: int, reason: octets)
    | FlowResumed(channel: int)
    | CloseAnswered(channel: int)
    | Answer(channel: int, method_: Method)

  datatype Loop = Loop(pending: map<int, Slot>, events: seq<Event>, rejected: bool)

  /** The outcome of one frame for its own channel. */
  datatype Turn = Turn(slot: Option<Slot>, events: seq<Event>, rejected: bool)

  function Finished(channel: int, s: Slot): Event
    requires s.source.Deliver? || s.source.Return?
  {
    match s.source
    case Deliver(tag, deliveryTag, redelivered, exchange, routingKey) =>
      Delivered(channel, IncomingMessage(deliveryTag, exchange, routingKey, s.body, s.properties, redelivered, tag))
    case Return(code, text, exchange, routingKey) =>
      Returned(channel, ReturnedMessage(code, text, exchange, routingKey, s.body, s.properties))
  }

  predicate ValidSlot(s: Slot) {
    s.source.Deliver? || s.source.Return?
  }

  predicate ValidOption(slot: Option<Slot>) {
    slot.Some? ==> ValidSlot(slot.value)
  }

  function TurnOnMethod(channel: int, slot: Option<Slot>, payload: octets): (t: Turn)
    requires ValidOption(slot)
    ensures ValidOption(t.slot)
  {
    var decoded := DecodeMethod(payload);
    if decoded.Err? then Turn(slot, [], true) else
    match decoded.value
    case Secure(_) => Turn(slot, [], true)
    case Blocked(reason) => Turn(slot, [FlowStopped(channel, reason)], false)
    case Unblocked => Turn(slot, [FlowResumed(channel)], false)
    case Deliver(_, _, _, _, _) => Turn(Some(Slot(decoded.value, map[], [], None)), [], false)
    case Return(_, _, _, _) => Turn(Some(Slot(decoded.value, map[], [], None)), [], false)
    case Ack(_, _) => Turn(slot, [Confirm(channel, decoded.value)], false)
    case Nack(_, _, _) => Turn(slot, [Confirm(channel, decoded.value)], false)
    case ConnectionClose(_, _, _, _) => Turn(slot, [CloseAnswered(channel)], true)
    case _ => Turn(slot, [Answer(channel, decoded.value)], false)
  }

  function TurnOnHeader(channel: int, slot: Option<Slot>, payload: octets): (t: Turn)
    requires ValidOption(slot)
    ensures ValidOption(t.slot)
  {
    var decoded := DecodeHeader(payload);
    if decoded.Err? || slot.None? then Turn(slot, [], true) else
    var h := decoded.value;
    var s := slot.value.(properties := h.properties, remaining := Some(h.bodySize));
    if h.bodySize == 0 then Turn(None, [Finished(channel, s)], false) else Turn(Some(s), [], false)
  }

  /** Plain accumulation: add the payload, count down, finish at zero. */
  function TurnOnBody(channel: int, slot: Option<Slot>, payload: octets): (t: Turn)
    requires ValidOption(slot)
    ensures ValidOption(t.slot)
  {
    if slot.None? || slot.value.remaining.None? then Turn(slot, [], true) else
    var left := slot.value.remaining.value - |payload|;
    var s := slot.value.(body := slot.value.body + payload, remaining := Some(left));
    if left < 0 then Turn(slot, [], true)
    else if left == 0 then Turn(None, [Finished(channel, s)], false)
    else Turn(Some(s), [], false)
  }

  function TurnOn(channel: int, slot: Option<Slot>, frameType: FrameType, payload: octets): (t: Turn)
    requires ValidOption(slot)
    ensures ValidOption(t.slot)
  {
    match frameType
    case HEARTBEAT => Turn(slot, [], false)
    case METHOD => TurnOnMethod(channel, slot, payload)
    case HEADER => TurnOnHeader(channel, slot, payload)
    case BODY => TurnOnBody(channel, slot, payload)
  }

  // ---------------------------------------------------------------- the whole loop

  function SlotOf(pending: map<int, Slot>, channel: int): Option<Slot> {
    if channel in pending then Some(pending[channel]) else None
  }

  function WithSlot(pending: map<int, Slot>, channel: int, slot: Option<Slot>): map<int, Slot> {
    if slot.Some? then pending[channel := slot.value] else pending - {channel}
  }

  predicate ValidLoop(st: Loop) {
    forall c :: c in st.pending ==> ValidSlot(st.pending[c])
  }

  /** One frame.  Once rejected, the loop has ended and its slots are gone. */
  function Dispatch(st: Loop, f: Frame): (r: Loop)
    requires ValidLoop(st)
    ensures ValidLoop(r)
  {
    if st.rejected then st else
    var t := TurnOn(f.channel, SlotOf(st.pending, f.channel), f.frameType, f.payload);
    if t.rejected then Loop(map[], st.events + t.events, true)
    else Loop(WithSlot(st.pending, f.channel, t.slot), st.events + t.events, false)
  }

  function Run(st: Loop, frames: seq<Frame>): (r: Loop)
    requires ValidLoop(st)
    ensures ValidLoop(r)
    decreases |frames|
  {
    if frames == [] then st else Run(Dispatch(st, frames[0]), frames[1..])
  }

  // ---------------------------------------------------------------- interleaving

  /** An assembler that sees one channel only. */
  function Lone(channel: int, slot: Option<Slot>, frames: seq<Frame>): (t: Turn)
    requires ValidOption(slot)
    ensures ValidOption(t.slot)
    decreases |frames|
  {
    if frames == [] then Turn(slot, [], false) else
    var t := TurnOn(channel, slot, frames[0].frameType, frames[0].payload);
    if t.rejected then t else
    var rest := Lone(channel, t.slot, frames[1..]);
    Turn(rest.slot, t.events + rest.events, rest.rejected)
  }

  function FramesOn(channel: int, frames: seq<Frame>): seq<Frame> {
    if frames == [] then []
    else if frames[0].channel == channel then [frames[0]] + FramesOn(channel, frames[1..])
    else FramesOn(channel, frames[1..])
  }

  function EventsOn(channel: int, events: seq<Event>): seq<Event> {
    if events == [] then []
    else if events[|events| - 1].channel == channel
    then EventsOn(channel, events[..|events| - 1]) + [events[|events| - 1]]
    else EventsOn(channel, events[..|events| - 1])
  }

  lemma {:induction false} EventsOnAppend(channel: int, a: seq<Event>, b: seq<Event>)
    ensures EventsOn(channel, a + b) == EventsOn(channel, a) + EventsOn(channel, b)
  {
    if b == [] {
      assert a + b == a;
    } else {
      EventsOnAppend(channel, a, b[..|b| - 1]);
      assert (a + b)[..|a + b| - 1] == a + b[..|b| - 1];
    }
  }

  /** A turn makes events on its own channel only, and at most one. */
  lemma TurnEvents(channel: int, slot: Option<Slot>, frameType: FrameType, payload: octets, c: int)
    requires ValidOption(slot)
    ensures var events := TurnOn(channel, slot, frameType, payload).events;
      |events| <= 1 && EventsOn(c, events) == if c == channel then events else []
  {
    hide DecodeMethod, DecodeHeader;
    var events := TurnOn(channel, slot, frameType, payload).events;
    if |events| == 1 {
      assert events[..0] == [] && events[0].channel == channel;
      assert EventsOn(c, events) == if events[0].channel == c then EventsOn(c, []) + events else EventsOn(c, []);
    }
  }

  /** The state of channel c after one frame on any channel. */
  lemma DispatchOnChannel(st: Loop, f: Frame, c: int)
    requires ValidLoop(st) && !st.rejected && !Dispatch(st, f).rejected
    ensures var (slot, r) := (SlotOf(st.pending, c), Dispatch(st, f));
      if f.channel == c then
        var t := TurnOn(c, slot, f.frameType, f.payload);
        !t.rejected && SlotOf(r.pending, c) == t.slot && EventsOn(c, r.events) == EventsOn(c, st.events) + t.events
      else SlotOf(r.pending, c) == slot && EventsOn(c, r.events) == EventsOn(c, st.events)
  {
    hide TurnOn, EventsOn;
    var t := TurnOn(f.channel, SlotOf(st.pending, f.channel), f.frameType, f.payload);
    TurnEvents(f.channel, SlotOf(st.pending, f.channel), f.frameType, f.payload, c);
    EventsOnAppend(c, st.events, t.events);
  }

  /** Channels do not see each other.  For every sequence of frames, in any interleaving and
      mixed with anything else: if the loop accepts it, each channel has emitted exactly what
      a lone assembler makes of that channel's own frames, and holds the same slot. */
  lemma {:induction false} ChannelsAreIndependent(st: Loop, frames: seq<Frame>, c: int)
    requires ValidLoop(st) && !st.rejected && !Run(st, frames).rejected
    ensures var t := Lone(c, SlotOf(st.pending, c), FramesOn(c, frames));
      && !t.rejected
      && SlotOf(Run(st, frames).pending, c) == t.slot
      && EventsOn(c, Run(st, frames).events) == EventsOn(c, st.events) + t.events
    decreases |frames|
  {
    hide TurnOn, EventsOn;
    if frames == [] {
      assert EventsOn(c, st.events) + [] == EventsOn(c, st.events);
    } else {
      var next := Dispatch(st, frames[0]);
      RejectionIsFinal(next, frames[1..]);
      DispatchOnChannel(st, frames[0], c);
      ChannelsAreIndependent(next, frames[1..], c);
      if frames[0].channel == c {
        assert FramesOn(c, frames)[1..] == FramesOn(c, frames[1..]);
        var t := TurnOn(c, SlotOf(st.pending, c), frames[0].frameType, frames[0].payload);
        var rest := Lone(c, t.slot, FramesOn(c, frames[1..]));
        assert EventsOn(c, st.events) + t.events + rest.events == EventsOn(c, st.events) + (t.events + rest.events);
      }
    }
  }

  lemma {:induction false} RejectionIsFinal(st: Loop, frames: seq<Frame>)
    requires ValidLoop(st)
    ensures st.rejected ==> Run(st, frames) == st
  {
    if frames != [] && st.rejected {
      RejectionIsFinal(st, frames[1..]);
    }
  }

  /** The loop rejects a sequence of frames if and only if some channel's own frames, seen
      alone, are rejected. */
  lemma {:induction false} RejectedChannel(st: Loop, frames: seq<Frame>) returns (c: int)
    requires ValidLoop(st) && !st.rejected && Run(st, frames).rejected
    ensures Lone(c, SlotOf(st.pending, c), FramesOn(c, frames)).rejected
    decreases |frames|
  {
    hide TurnOn, EventsOn;
    assert frames != [];
    var next := Dispatch(st, frames[0]);
    if next.rejected {
      c := frames[0].channel;
      assert FramesOn(c, frames)[0] == frames[0];
    } else {
      c := RejectedChannel(next, frames[1..]);
      DispatchOnChannel(st, frames[0], c);
      if frames[0].channel == c {
        assert FramesOn(c, frames)[0] == frames[0] && FramesOn(c, frames)[1..] == FramesOn(c, frames[1..]);
      }
    }
  }

  lemma RejectedIffSomeChannelIs(st: Loop, frames: seq<Frame>)
    requires ValidLoop(st) && !st.rejected
    ensures Run(st, frames).rejected
       <==> exists c :: Lone(c, SlotOf(st.pending, c), FramesOn(c, frames)).rejected
  {
    if Run(st, frames).rejected {
      var c := RejectedChannel(st, frames);
    } else {
      forall c
        ensures !Lone(c, SlotOf(st.pending, c), FramesOn(c, frames)).rejected
      {
        ChannelsAreIndependent(st, frames, c);
      }
    }
  }

  // ---------------------------------------------------------------- one message

  function Concat(parts: seq<octets>): octets {
    if parts == [] then [] else parts[0] + Concat(parts[1..])
  }

  function Bodies(channel: int, parts: seq<octets>): (r: seq<Frame>)
    ensures |r| == |parts|
  {
    if parts == [] then [] else [Frame(BODY, channel, parts[0])] + Bodies(channel, parts[1..])
  }

  /** Body frames that add up to what remains, and stop there, complete the message: one
      event, carrying what the slot held before them followed by their payloads. */
  lemma {:induction false} BodiesComplete(channel: int, s: Slot, parts: seq<octets>)
    requires ValidSlot(s) && s.remaining == Some(|Concat(parts)|)
    requires parts != [] && parts[|parts| - 1] != []
    ensures Lone(channel, Some(s), Bodies(channel, parts))
         == Turn(None, [Finished(channel, s.(body := s.body + Concat(parts)))], false)
    decreases |parts|
  {
    var rest := parts[1..];
    var frames := Bodies(channel, parts);
    assert frames[1..] == Bodies(channel, rest);
    var left := |Concat(rest)|;
    OneBody(channel, s, parts[0], left);
    hide TurnOn, Finished;
    var next := s.(body := s.body + parts[0], remaining := Some(left));
    if rest == [] {
      assert Concat(parts) == parts[0];
      CountIsNotEmitted(channel, s.(body := s.body + Concat(parts)), Some(left));
    } else {
      LastPartCounts(rest);
      BodiesComplete(channel, next, rest);
      assert s.body + parts[0] + Concat(rest) == s.body + Concat(parts);
      CountIsNotEmitted(channel, s.(body := s.body + Concat(parts)), Some(left));
    }
  }

  lemma OneBody(channel: int, s: Slot, payload: octets, left: nat)
    requires ValidSlot(s) && s.remaining == Some(|payload| + left)
    ensures TurnOn(channel, Some(s), BODY, payload)
         == var next := s.(body := s.body + payload, remaining := Some(left));
            if left == 0 then Turn(None, [Finished(channel, next)], false) else Turn(Some(next), [], false)
  {}

  lemma CountIsNotEmitted(channel: int, s: Slot, remaining: Option<int>)
    requires ValidSlot(s)
    ensures Finished(channel, s.(remaining := remaining)) == Finished(channel, s)
  {}

  lemma {:induction false} LastPartCounts(parts: seq<octets>)
    requires parts != [] && parts[|parts| - 1] != []
    ensures 0 < |Concat(parts)|
  {
    if |parts| > 1 {
      LastPartCounts(parts[1..]);
    }
  }

  /** Body frames on an open slot with so much left are accepted iff they do not exceed it and
      none comes after the message is complete; short of it, the slot keeps what came.  An
      overrun is rejected, and so is content without a slot. */
  lemma {:induction false} BodiesDecided(channel: int, s: Slot, parts: seq<octets>, n: nat)
    requires ValidSlot(s) && s.remaining == Some(n) && 0 < n
    ensures var (t, total) := (Lone(channel, Some(s), Bodies(channel, parts)), |Concat(parts)|);
      && (t.rejected <==> total > n || (total == n && parts[|parts| - 1] == []))
      && (total < n ==>
            t.events == [] && t.slot == Some(s.(body := s.body + Concat(parts), remaining := Some(n - total))))
    decreases |parts|
  {
    hide ValidSlot;
    if parts == [] {
      assert s.body + [] == s.body && Bodies(channel, parts) == [];
    } else {
      var (rest, frames) := (parts[1..], Bodies(channel, parts));
      assert frames[1..] == Bodies(channel, rest) && Concat(parts) == parts[0] + Concat(rest);
      var t := TurnOn(channel, Some(s), BODY, parts[0]);
      assert t == TurnOnBody(channel, Some(s), parts[0]);
      if |parts[0]| < n {
        var next := s.(body := s.body + parts[0], remaining := Some(n - |parts[0]|));
        SameSource(s, next);
        BodiesDecided(channel, next, rest, n - |parts[0]|);
        assert s.body + parts[0] + Concat(rest) == s.body + Concat(parts);
        hide TurnOn;
        if rest == [] {
          assert Concat(rest) == [];
        }
      } else if |parts[0]| == n {
        StrayBodies(channel, rest);
        if rest != [] && Concat(rest) == [] {
          LastOfNothing(rest);
        }
      }
    }
  }

  lemma SameSource(s: Slot, next: Slot)
    requires ValidSlot(s) && next.source == s.source
    ensures ValidSlot(next)
  {}

  lemma StrayBodies(channel: int, parts: seq<octets>)
    ensures Lone(channel, None, Bodies(channel, parts)) == Turn(None, [], parts != [])
  {
    if parts != [] {
      assert TurnOn(channel, None, BODY, parts[0]) == Turn(None, [], true);
    }
  }

  lemma {:induction false} LastOfNothing(parts: seq<octets>)
    requires parts != [] && Concat(parts) == []
    ensures parts[|parts| - 1] == []
  {
    if |parts| > 1 {
      LastOfNothing(parts[1..]);
    }
  }

  /** A header is taken iff it decodes and a method has opened a slot for it. */
  lemma HeaderDecided(channel: int, slot: Option<Slot>, payload: octets)
    requires ValidOption(slot)
    ensures var t := TurnOn(channel, slot, HEADER, payload);
      t.rejected <==> slot.None? || DecodeHeader(payload).Err?
  {
    hide DecodeHeader;
  }

  /** A header on an open slot followed by bodies of exactly the declared size emits one
      message and closes the slot.  Its body is what earlier body frames left in the slot,
      then the declared body: it has the declared size if and only if the slot was empty,
      that is, unless this is a second header sent in the middle of a body. */
  lemma HeaderThenBodies(channel: int, s: Slot, payload: octets, h: Header, parts: seq<octets>)
    requires ValidSlot(s) && DecodeHeader(payload) == Ok(h) && h.bodySize == |Concat(parts)|
    requires parts != [] ==> parts[|parts| - 1] != []
    ensures var m := Finished(channel, s.(properties := h.properties, body := s.body + Concat(parts)));
      && Lone(channel, Some(s), [Frame(HEADER, channel, payload)] + Bodies(channel, parts)) == Turn(None, [m], false)
      && (BodyOf(m) == Concat(parts) <==> s.body == [])
      && (|BodyOf(m)| == h.bodySize <==> s.body == [])
  {
    var frames := [Frame(HEADER, channel, payload)] + Bodies(channel, parts);
    assert frames[1..] == Bodies(channel, parts);
    var begun := s.(properties := h.properties, remaining := Some(h.bodySize));
    if parts == [] {
      assert s.body + Concat(parts) == s.body;
      assert Lone(channel, None, []) == Turn(None, [], false);
    } else {
      LastPartCounts(parts);
      BodiesComplete(channel, begun, parts);
    }
  }

  function BodyOf(e: Event): octets {
    match e
    case Delivered(_, m) => m.body
    case Returned(_, m) => m.body
    case _ => []
  }
}
