/** Several channels on one wire: their frames interleaved in any way, mixed with heartbeats,
    answers, confirms and flow control, and cut anywhere. */
module WireInterleaving {
  import opened Results
  import opened Octets
  import opened Frames
  import opened Methods
  import opened MethodLayouts
  import opened Assembler
  import opened ReadLoop
  import opened WirePath

  /** A lone assembler on two stretches of frames, one after the other. */
  lemma {:induction false} LoneInTwo(channel: int, slot: Option<Slot>, a: seq<Frame>, b: seq<Frame>)
    requires ValidOption(slot) && !Lone(channel, slot, a).rejected
    ensures var (first, second) := (Lone(channel, slot, a), Lone(channel, Lone(channel, slot, a).slot, b));
      Lone(channel, slot, a + b) == Turn(second.slot, first.events + second.events, second.rejected)
    decreases |a|
  {
    hide TurnOn;
    if a == [] {
      assert a + b == b;
    } else {
      assert (a + b)[1..] == a[1..] + b;
      var t := TurnOn(channel, slot, a[0].frameType, a[0].payload);
      LoneInTwo(channel, t.slot, a[1..], b);
      var (first, second) := (Lone(channel, t.slot, a[1..]), Lone(channel, Lone(channel, t.slot, a[1..]).slot, b));
      assert t.events + first.events + second.events == t.events + (first.events + second.events);
    }
  }

  function WithoutHeartbeats(frames: seq<Frame>): seq<Frame> {
    if frames == [] then []
    else (if frames[0].frameType.HEARTBEAT? then [] else [frames[0]]) + WithoutHeartbeats(frames[1..])
  }

  /** Heartbeats say nothing. */
  lemma {:induction false} HeartbeatsDoNotMatter(channel: int, slot: Option<Slot>, frames: seq<Frame>)
    requires ValidOption(slot)
    ensures Lone(channel, slot, WithoutHeartbeats(frames)) == Lone(channel, slot, frames)
    decreases |frames|
  {
    hide TurnOnMethod, TurnOnHeader, TurnOnBody;
    if frames != [] {
      var t := TurnOn(channel, slot, frames[0].frameType, frames[0].payload);
      HeartbeatsDoNotMatter(channel, t.slot, frames[1..]);
      if frames[0].frameType.HEARTBEAT? {
        assert WithoutHeartbeats(frames) == WithoutHeartbeats(frames[1..]);
      } else {
        assert WithoutHeartbeats(frames)[1..] == WithoutHeartbeats(frames[1..]);
      }
    }
  }

  /** A frame that has nothing to do with content: a heartbeat, or a method that neither opens
      a content slot nor ends the connection. */
  predicate IsAside(f: Frame) {
    f.frameType.HEARTBEAT? ||
    (f.frameType.METHOD? && DecodeMethod(f.payload).Ok? &&
     match DecodeMethod(f.payload).value
     case Deliver(_, _, _, _, _) => false
     case Return(_, _, _, _) => false
     case Secure(_) => false
     case ConnectionClose(_, _, _, _) => false
     case _ => true)
  }

  function WithoutAsides(frames: seq<Frame>): seq<Frame> {
    if frames == [] then [] else (if IsAside(frames[0]) then [] else [frames[0]]) + WithoutAsides(frames[1..])
  }

  /** What an aside emits, whatever its channel is at: an ack or a nack is a confirm, blocked
      and unblocked stop and resume the flow, and any other method is an answer. */
  function AsideEvent(channel: int, f: Frame): seq<Event>
    requires IsAside(f)
  {
    if f.frameType.HEARTBEAT? then []
    else
      var m := DecodeMethod(f.payload).value;
      if m.Ack? || m.Nack? then [Confirm(channel, m)]
      else if m.Blocked? then [FlowStopped(channel, m.reason)]
      else if m.Unblocked? then [FlowResumed(channel)]
      else [Answer(channel, m)]
  }

  function AsideEvents(channel: int, frames: seq<Frame>): seq<Event> {
    if frames == [] then []
    else (if IsAside(frames[0]) then AsideEvent(channel, frames[0]) else []) + AsideEvents(channel, frames[1..])
  }

  predicate IsMessage(e: Event) {
    e.Delivered? || e.Returned?
  }

  /** The messages among some events, and the others. */
  function Messages(events: seq<Event>): seq<Event> {
    if events == [] then [] else (if IsMessage(events[0]) then [events[0]] else []) + Messages(events[1..])
  }

  function Others(events: seq<Event>): seq<Event> {
    if events == [] then [] else (if IsMessage(events[0]) then [] else [events[0]]) + Others(events[1..])
  }

  lemma {:induction false} MessagesAppend(a: seq<Event>, b: seq<Event>)
    ensures Messages(a + b) == Messages(a) + Messages(b)
    decreases |a|
  {
    hide IsMessage;
    if a == [] {
      assert a + b == b;
    } else {
      assert (a + b)[1..] == a[1..] + b && (a + b)[0] == a[0];
      MessagesAppend(a[1..], b);
      var head := if IsMessage(a[0]) then [a[0]] else [];
      assert head + (Messages(a[1..]) + Messages(b)) == head + Messages(a[1..]) + Messages(b);
    }
  }

  lemma {:induction false} OthersAppend(a: seq<Event>, b: seq<Event>)
    ensures Others(a + b) == Others(a) + Others(b)
    decreases |a|
  {
    hide IsMessage;
    if a == [] {
      assert a + b == b;
    } else {
      assert (a + b)[1..] == a[1..] + b && (a + b)[0] == a[0];
      OthersAppend(a[1..], b);
      var head := if IsMessage(a[0]) then [] else [a[0]];
      assert head + (Others(a[1..]) + Others(b)) == head + Others(a[1..]) + Others(b);
    }
  }

  lemma Sorted(a: seq<Event>, b: seq<Event>)
    ensures Messages(a + b) == Messages(a) + Messages(b) && Others(a + b) == Others(a) + Others(b)
  {
    MessagesAppend(a, b);
    OthersAppend(a, b);
  }

  lemma OneEvent(events: seq<Event>)
    requires |events| <= 1
    ensures Messages(events) == (if events != [] && IsMessage(events[0]) then events else [])
    ensures Others(events) == (if events != [] && !IsMessage(events[0]) then events else [])
  {}

  lemma AsideTurn(channel: int, slot: Option<Slot>, f: Frame)
    requires ValidOption(slot) && IsAside(f)
    ensures TurnOn(channel, slot, f.frameType, f.payload) == Turn(slot, AsideEvent(channel, f), false)
    ensures Messages(AsideEvent(channel, f)) == [] && Others(AsideEvent(channel, f)) == AsideEvent(channel, f)
  {
    hide DecodeMethod, Messages, Others;
    OneEvent(AsideEvent(channel, f));
  }

  /** Everything else emits messages only, unless it is rejected. */
  lemma ContentTurn(channel: int, slot: Option<Slot>, f: Frame)
    requires ValidOption(slot) && !IsAside(f)
    ensures var t := TurnOn(channel, slot, f.frameType, f.payload); !t.rejected ==> Others(t.events) == []
  {
    hide DecodeMethod, Messages, Others;
    OneEvent(TurnOn(channel, slot, f.frameType, f.payload).events);
  }

  /** Asides neither disturb the messages they come between nor are disturbed by them. */
  lemma {:induction false} AsidesDoNotMatter(channel: int, slot: Option<Slot>, frames: seq<Frame>)
    requires ValidOption(slot)
    ensures var (t, u) := (Lone(channel, slot, frames), Lone(channel, slot, WithoutAsides(frames)));
      && t.slot == u.slot && t.rejected == u.rejected && Messages(t.events) == Messages(u.events)
      && (!t.rejected ==> Others(t.events) == AsideEvents(channel, frames))
    decreases |frames|
  {
    hide TurnOn, Messages, Others, IsAside, AsideEvent, ValidOption;
    if frames == [] {
      OneEvent([]);
    } else {
      var (f, rest) := (frames[0], frames[1..]);
      var turn := TurnOn(channel, slot, f.frameType, f.payload);
      TurnStaysValid(channel, slot, f);
      if !turn.rejected {
        AsidesDoNotMatter(channel, turn.slot, rest);
        Sorted(turn.events, Lone(channel, turn.slot, rest).events);
      }
      if IsAside(f) {
        AsideTurn(channel, slot, f);
        assert WithoutAsides(frames) == WithoutAsides(rest);
      } else {
        assert WithoutAsides(frames)[1..] == WithoutAsides(rest) && WithoutAsides(frames)[0] == f;
        if !turn.rejected {
          ContentTurn(channel, slot, f);
          Sorted(turn.events, Lone(channel, turn.slot, WithoutAsides(rest)).events);
        }
      }
    }
  }

  lemma TurnStaysValid(channel: int, slot: Option<Slot>, f: Frame)
    requires ValidOption(slot)
    ensures ValidOption(TurnOn(channel, slot, f.frameType, f.payload).slot)
  {}

  /** Every method the client decodes, given octet by octet: it ends the connection iff it is
      secure or the broker's close, it is answered at once iff it is the close, and it opens
      a slot, with nothing in it, iff it is a deliver or a return. */
  lemma MethodsDecided(channel: int, slot: Option<Slot>, m: Method)
    requires ValidOption(slot) && Fits(m) && !m.Publish?
    ensures var t := TurnOn(channel, slot, METHOD, Layout(m));
      && (t.rejected <==> m.Secure? || m.ConnectionClose?)
      && (CloseAnswered(channel) in t.events <==> m.ConnectionClose?)
      && t.slot == (if m.Deliver? || m.Return? then Some(Slot(m, map[], [], None)) else slot)
      && (IsAside(Frame(METHOD, channel, Layout(m))) <==>
            !m.Deliver? && !m.Return? && !m.Secure? && !m.ConnectionClose?)
  {
    hide Fits, Layout, DecodeMethod;
    DecodesAsLaidOut(m);
  }

  // ---------------------------------------------------------------- one channel's messages

  predicate AllOn(channel: int, contents: seq<Content>) {
    forall i :: 0 <= i < |contents| ==> contents[i].channel == channel
  }

  /** The frames of several messages, in order. */
  function FramesOfAll(contents: seq<Content>, sendMax: nat): seq<Frame>
    requires AllTravel(contents, sendMax)
  {
    if contents == [] then [] else ContentFrames(contents[0]).value + FramesOfAll(contents[1..], sendMax)
  }

  lemma {:induction false} MessagesAssemble(channel: int, contents: seq<Content>, sendMax: nat)
    requires AllTravel(contents, sendMax) && AllOn(channel, contents)
    ensures Lone(channel, None, FramesOfAll(contents, sendMax)) == Turn(None, SeenAll(contents, sendMax), false)
    decreases |contents|
  {
    hide Lone, Travels, ContentFrames;
    if contents == [] {
      NothingAssembles(channel);
    } else {
      TravellersExist(contents[0], sendMax);
      ContentAssembles(contents[0], sendMax, None);
      LoneInTwo(channel, None, ContentFrames(contents[0]).value, FramesOfAll(contents[1..], sendMax));
      MessagesAssemble(channel, contents[1..], sendMax);
    }
  }

  lemma NothingAssembles(channel: int)
    ensures Lone(channel, None, []) == Turn(None, [], false)
  {}

  // ---------------------------------------------------------------- all channels together

  /** Channel by channel, the frames are those of that channel's messages, in order, with
      asides anywhere between them.  How the channels interleave is left open. */
  ghost predicate Interleaves(frames: seq<Frame>, lanes: map<int, seq<Content>>, sendMax: nat) {
    && (forall c :: c in lanes ==>
          && AllTravel(lanes[c], sendMax) && AllOn(c, lanes[c])
          && WithoutAsides(FramesOn(c, frames)) == FramesOfAll(lanes[c], sendMax))
    && forall c :: c !in lanes ==> WithoutAsides(FramesOn(c, frames)) == []
  }

  lemma {:induction false} SeenAreMessages(contents: seq<Content>, sendMax: nat)
    requires AllTravel(contents, sendMax)
    ensures Messages(SeenAll(contents, sendMax)) == SeenAll(contents, sendMax)
    decreases |contents|
  {
    hide Travels;
    if contents != [] {
      TravellersExist(contents[0], sendMax);
      var all := SeenAll(contents, sendMax);
      assert all[0] == Seen(contents[0]) && all[1..] == SeenAll(contents[1..], sendMax);
      SeenAreMessages(contents[1..], sendMax);
    }
  }

  /** One channel of an interleaving, seen alone. */
  lemma LaneAssembles(frames: seq<Frame>, lanes: map<int, seq<Content>>, sendMax: nat, c: int)
    requires Interleaves(frames, lanes, sendMax)
    ensures var t := Lone(c, None, FramesOn(c, frames));
      && t.slot == None && !t.rejected
      && Messages(t.events) == (if c in lanes then SeenAll(lanes[c], sendMax) else [])
      && Others(t.events) == AsideEvents(c, FramesOn(c, frames))
  {
    hide Lone, AllTravel, FramesOfAll, Messages, Others;
    AsidesDoNotMatter(c, None, FramesOn(c, frames));
    if c in lanes {
      MessagesAssemble(c, lanes[c], sendMax);
      SeenAreMessages(lanes[c], sendMax);
    } else {
      NothingAssembles(c);
      OneEvent([]);
    }
  }

  /** The wire path with many channels.  Whatever the interleaving, whatever heartbeats,
      answers, confirms and flow control fall between the frames, and however the octets are
      cut: the reader accepts, keeps no octet and no slot back, and each channel has emitted
      exactly its own messages, in order, each once, and exactly what came between. */
  lemma InterleavedWirePathIsIdentity(
      frames: seq<Frame>, lanes: map<int, seq<Content>>, sendMax: nat, frameMax: nat, stream: octets,
      chunks: seq<octets>, c: int)
    requires Interleaves(frames, lanes, sendMax) && sendMax <= frameMax
    requires Stream(frames, sendMax) == Ok(stream)
    requires Concat(chunks) == stream && forall i :: 0 <= i < |chunks| ==> chunks[i] != []
    ensures var r := FeedAll(Reader([], Loop(map[], [], false)), frameMax, chunks);
      && r.buffer == [] && !r.loop.rejected && c !in r.loop.pending
      && Messages(EventsOn(c, r.loop.events)) == (if c in lanes then SeenAll(lanes[c], sendMax) else [])
      && Others(EventsOn(c, r.loop.events)) == AsideEvents(c, FramesOn(c, frames))
  {
    hide Stream, FeedAll, Run, Lone, FramesOn, Interleaves, SeenAll, AllTravel, DecodeFrame, Messages, Others,
      AsideEvents;
    var start := Loop(map[], [], false);
    StartsDrained(frameMax);
    ChunksDoNotMatter(Reader([], start), frameMax, chunks);
    assert [] + Concat(chunks) == stream + [];
    forall d: int
      ensures !Lone(d, SlotOf(start.pending, d), FramesOn(d, frames)).rejected
    {
      LaneAssembles(frames, lanes, sendMax, d);
    }
    RejectedIffSomeChannelIs(start, frames);
    StreamDrains(frames, sendMax, frameMax, stream, [], start);
    ChannelsAreIndependent(start, frames, c);
    LaneAssembles(frames, lanes, sendMax, c);
    var events := Lone(c, None, FramesOn(c, frames)).events;
    assert EventsOn(c, []) == [] && [] + events == events;
  }

  lemma StartsDrained(frameMax: nat)
    ensures DecodeFrame([], frameMax) == Err(Incomplete)
  {}
}
