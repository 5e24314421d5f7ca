/** The read loop of the connection as it runs: a buffer that grows and shrinks, content
    slots updated in place, and a fast path for single-frame bodies.  Every method is
    proved to do what the functions of modules Assembler and ReadLoop say. */
module ConnectionReader {
  import opened Results
  import opened Octets
  import opened Frames
  import opened Methods
  import opened ContentHeader
  import opened Assembler
  import Spec = ReadLoop

  class AmqpReader {
    const frameMax: nat
    var buffer: octets
    var pending: map<int, Slot>
    var events: seq<Event>
    var rejected: bool

    ghost predicate Valid()
      reads this
    {
      ValidLoop(LoopState())
    }

    ghost function LoopState(): Loop
      reads this
    {
      Loop(pending, events, rejected)
    }

    ghost function State(): Spec.Reader
      reads this
    {
      Spec.Reader(buffer, LoopState())
    }

    constructor (frameMax: nat)
      ensures Valid() && this.frameMax == frameMax
      ensures State() == Spec.Reader([], Loop(map[], [], false))
    {
      this.frameMax := frameMax;
      buffer, pending, events, rejected := [], map[], [], false;
    }

    /** `sm.reject`: the loop ends and its slots go with it. */
    method Reject()
      modifies this`pending, this`rejected
      ensures pending == map[] && rejected
    {
      pending, rejected := map[], true;
    }

    method Emit(e: Event)
      modifies this`events
      ensures events == old(events) + [e]
    {
      events := events + [e];
    }

    method FinishDelivery(channel: int)
      requires Valid() && channel in pending
      modifies this`pending, this`events
      ensures pending == old(pending) - {channel}
      ensures events == old(events) + [Finished(channel, old(pending[channel]))]
    {
      var slot := pending[channel];
      pending := pending - {channel};
      Emit(Finished(channel, slot));
    }

    method HandleMethod(channel: int, payload: octets)
      requires Valid() && !rejected
      modifies this`pending, this`events, this`rejected
      ensures Valid() && LoopState() == Dispatch(old(LoopState()), Frame(METHOD, channel, payload))
    {
      hide DecodeMethod;
      var decoded := DecodeMethod(payload);
      if decoded.Err? {
        Reject();
        assert events == old(events) + [];
        return;
      }
      var m := decoded.value;
      if m.Secure? {
        Reject();
        assert events == old(events) + [];
      } else if m.Blocked? {
        Emit(FlowStopped(channel, m.reason));
      } else if m.Unblocked? {
        Emit(FlowResumed(channel));
      } else if m.Deliver? || m.Return? {
        pending := pending[channel := Slot(m, map[], [], None)];
        assert events == old(events) + [];
      } else if m.Ack? || m.Nack? {
        Emit(Confirm(channel, m));
      } else if m.ConnectionClose? {
        Emit(CloseAnswered(channel));
        Reject();
      } else {
        Emit(Answer(channel, m));
      }
      assert !rejected ==> pending == WithSlot(old(pending), channel, SlotOf(pending, channel));
    }

    method HandleHeader(channel: int, payload: octets)
      requires Valid() && !rejected
      modifies this`pending, this`events, this`rejected
      ensures Valid() && LoopState() == Dispatch(old(LoopState()), Frame(HEADER, channel, payload))
    {
      hide DecodeHeader;
      assert events == events + [];
      var decoded := DecodeHeader(payload);
      if decoded.Err? || channel !in pending {
        Reject();
        return;
      }
      var h := decoded.value;
      var slot := pending[channel].(properties := h.properties, remaining := Some(h.bodySize));
      pending := pending[channel := slot];
      if h.bodySize == 0 {
        FinishDelivery(channel);
        assert pending == old(pending) - {channel};
      }
    }

    /** The fast path keeps a single body frame's payload as the whole body.  It agrees with
        plain accumulation, which is what the postcondition demands of both paths. */
    method HandleBody(channel: int, payload: octets)
      requires Valid() && !rejected
      modifies this`pending, this`events, this`rejected
      ensures Valid() && LoopState() == Dispatch(old(LoopState()), Frame(BODY, channel, payload))
    {
      assert events == events + [];
      if channel !in pending || pending[channel].remaining.None? {
        Reject();
        return;
      }
      var slot := pending[channel];
      var remaining := slot.remaining.value;
      if remaining == |payload| && slot.body == [] {
        assert [] + payload == payload;
        pending := pending[channel := slot.(body := payload, remaining := Some(0))];
        FinishDelivery(channel);
        assert pending == old(pending) - {channel};
        return;
      }
      remaining := remaining - |payload|;
      pending := pending[channel := slot.(body := slot.body + payload, remaining := Some(remaining))];
      if remaining < 0 {
        Reject();
        return;
      }
      if remaining == 0 {
        FinishDelivery(channel);
        assert pending == old(pending) - {channel};
      }
    }

    method Handle(f: Frame)
      requires Valid() && !rejected
      modifies this`pending, this`events, this`rejected
      ensures Valid() && LoopState() == Dispatch(old(LoopState()), f)
    {
      match f.frameType
      case HEARTBEAT =>
        assert events == events + [] && WithSlot(pending, f.channel, SlotOf(pending, f.channel)) == pending;
      case METHOD => HandleMethod(f.channel, f.payload);
      case HEADER => HandleHeader(f.channel, f.payload);
      case BODY => HandleBody(f.channel, f.payload);
    }

    /** One turn of the outer loop: a chunk read from the socket. */
    method Feed(chunk: octets)
      requires Valid() && !rejected
      modifies this
      ensures Valid() && State() == Spec.Feed(old(State()), frameMax, chunk)
    {
      hide DecodeFrame, Dispatch;
      if chunk == [] {
        Reject();
        return;
      }
      buffer := buffer + chunk;
      var decoded := DecodeFrame(buffer, frameMax);
      while !rejected && decoded != Err(Incomplete)
        invariant Valid() && decoded == DecodeFrame(buffer, frameMax)
        invariant decoded.Ok? ==> 0 < decoded.value.1 <= |buffer|
        invariant Spec.Drain(buffer, frameMax, LoopState())
               == Spec.Drain(old(buffer) + chunk, frameMax, old(LoopState()))
        decreases |buffer|, !rejected
      {
        if decoded.Err? {
          Reject();
        } else {
          var (f, used) := decoded.value;
          buffer := buffer[used..];
          Handle(f);
          decoded := DecodeFrame(buffer, frameMax);
        }
      }
    }
  }
}
