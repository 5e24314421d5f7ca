/** The publishing side of one channel as an object: its tracker, its deque of mandatory
    tags and its filed returns, updated in place.  Every method is proved to do what the
    functions of module ConfirmChannel say. */
module ChannelPublisher {
  import opened Results
  import opened Methods
  import opened Assembler
  import opened Confirms
  import Spec = ConfirmChannel

  lemma ClearOneMore(deque: seq<nat>, i: nat, tag: int, multiple: bool, kept: seq<nat>)
    requires i < |deque|
    ensures kept + Spec.ClearMandatory(deque[i..], tag, multiple)
         == if multiple && deque[i] <= tag then kept + Spec.ClearMandatory(deque[i + 1..], tag, multiple)
            else if !multiple && deque[i] == tag then kept + deque[i + 1..]
            else kept + [deque[i]] + Spec.ClearMandatory(deque[i + 1..], tag, multiple)
  {
    assert deque[i..][1..] == deque[i + 1..];
    var rest := Spec.ClearMandatory(deque[i + 1..], tag, multiple);
    assert kept + ([deque[i]] + rest) == kept + [deque[i]] + rest;
    assert [] + rest == rest;
  }

  lemma NothingToClear(deque: seq<nat>, tag: int, multiple: bool)
    requires deque == []
    ensures Spec.ClearMandatory(deque, tag, multiple) == []
  {}

  class Publisher {
    const tracker: ConfirmTracker
    var mandatoryTags: seq<nat>
    var returnByTag: map<nat, ReturnedMessage>
    var lost: bool

    ghost function State(): Spec.Channel
      reads this, tracker
    {
      Spec.Channel(tracker.State(), mandatoryTags, returnByTag, lost)
    }

    constructor ()
      ensures State() == Spec.OPENED && fresh(tracker)
    {
      tracker := new ConfirmTracker();
      mandatoryTags, returnByTag, lost := [], map[], false;
    }

    /** `confirm_select` up to its first await: nothing is sent if confirms are on. */
    method BeginSelect() returns (send: bool)
      ensures send <==> !State().tracker.enabled
    {
      send := !tracker.enabled;
    }

    /** `confirm_select` once its answer is in.  Whether confirms are on already is not asked
        again. */
    method SelectAnswered()
      modifies tracker
      ensures State() == old(State()).(tracker := Enable(old(State().tracker)))
    {
      tracker.EnableConfirms();
    }

    /** The registering part of a publish.  Without confirms the publish has no tag and is
        not remembered as mandatory. */
    method Register(wantConfirm: bool, mandatory: bool) returns (tag: Option<nat>)
      requires wantConfirm ==> tracker.enabled
      modifies this`mandatoryTags, tracker
      ensures wantConfirm ==> tag == Some(old(tracker.nextTag))
                              && State() == Spec.RegisterPublish(old(State()), mandatory)
      ensures !wantConfirm ==> tag == None && State() == old(State())
    {
      tag := None;
      if wantConfirm {
        tag := tracker.RegisterPublish();
      }
      if mandatory && tag.Some? {
        mandatoryTags := mandatoryTags + [tag.value];
      }
    }

    method FinishReturn(message: ReturnedMessage)
      modifies this`mandatoryTags, this`returnByTag
      ensures State() == Spec.FinishReturn(old(State()), message)
    {
      if mandatoryTags != [] {
        var tag := mandatoryTags[0];
        mandatoryTags := mandatoryTags[1..];
        returnByTag := returnByTag[tag := message];
      }
    }

    /** Drop the mandatory tags a signal settles. */
    method ClearMandatoryTags(deliveryTag: int, multiple: bool)
      modifies this`mandatoryTags
      ensures mandatoryTags == Spec.ClearMandatory(old(mandatoryTags), deliveryTag, multiple)
    {
      hide Spec.Above, Spec.Without;
      var kept: seq<nat> := [];
      var i := 0;
      assert mandatoryTags[i..] == mandatoryTags && kept + Spec.ClearMandatory(mandatoryTags, deliveryTag, multiple)
          == Spec.ClearMandatory(mandatoryTags, deliveryTag, multiple);
      while i < |mandatoryTags|
        invariant 0 <= i <= |mandatoryTags| && mandatoryTags == old(mandatoryTags)
        invariant Spec.ClearMandatory(mandatoryTags, deliveryTag, multiple)
               == kept + Spec.ClearMandatory(mandatoryTags[i..], deliveryTag, multiple)
      {
        ClearOneMore(mandatoryTags, i, deliveryTag, multiple, kept);
        if multiple {
          if mandatoryTags[i] > deliveryTag {
            kept := kept + [mandatoryTags[i]];
          }
        } else if mandatoryTags[i] == deliveryTag {
          mandatoryTags := kept + mandatoryTags[i + 1..];
          return;
        } else {
          kept := kept + [mandatoryTags[i]];
        }
        i := i + 1;
      }
      NothingToClear(mandatoryTags[i..], deliveryTag, multiple);
      assert kept + [] == kept;
      mandatoryTags := kept;
    }

    method HandleSettle(m: Method)
      requires m.Ack? || m.Nack?
      modifies this`mandatoryTags, tracker
      ensures State() == Spec.OnSettle(old(State()), m)
    {
      if tracker.enabled {
        ClearMandatoryTags(m.deliveryTag, m.multiple);
        if m.Ack? {
          tracker.OnAck(m.deliveryTag, m.multiple);
        } else {
          tracker.OnNack(m.deliveryTag, m.multiple);
        }
      }
    }

    method NotifyLoss()
      modifies this, tracker
      ensures State() == Spec.NotifyLoss(old(State()))
    {
      if lost {
        return;
      }
      lost := true;
      tracker.FailAllTags(Lost);
      mandatoryTags := [];
      returnByTag := map[];
    }

    /** The end of a publish, once its future is done. */
    method Resume(tag: nat, mandatory: bool) returns (result: Spec.PublishResult)
      requires tag in tracker.outcome
      modifies this`returnByTag
      ensures (State(), result) == Spec.Resume(old(State()), tag, mandatory)
    {
      match tracker.outcome[tag]
      case Nacked(_, _) => return Spec.RaisesNack;
      case Lost => return Spec.RaisesLost;
      case Acked =>
        if mandatory && tag in returnByTag {
          var message := returnByTag[tag];
          returnByTag := returnByTag - {tag};
          return Spec.RaisesReturned(message);
        }
        return Spec.Succeeds;
    }
  }
}
