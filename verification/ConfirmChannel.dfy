/** Publishing with confirms on one channel: the client numbers its publishes, keeps the
    mandatory ones it is still waiting for in a deque, and files each returned message under
    the head of that deque.  The broker is the sequence of signals and returns it sends. */
module ConfirmChannel {
  import opened Results
  import opened Methods
  import opened Assembler
  import opened Confirms

  datatype Channel = Channel(tracker: Tracker, deque: seq<nat>, filed: map<nat, ReturnedMessage>, lost: bool)

  /** How a publish call ends. */
  datatype PublishResult = Succeeds | RaisesReturned(message: ReturnedMessage) | RaisesNack | RaisesLost

  const OPENED := Channel(FRESH, [], map[], false)

  function RegisterPublish(ch: Channel, mandatory: bool): Channel {
    ch.(tracker := Register(ch.tracker),
        deque := if mandatory then ch.deque + [ch.tracker.nextTag] else ch.deque)
  }

  function FinishReturn(ch: Channel, message: ReturnedMessage): Channel {
    if ch.deque == [] then ch
    else ch.(deque := ch.deque[1..], filed := ch.filed[ch.deque[0] := message])
  }

  /** `deque.remove(tag)`: the first occurrence, if any. */
  function Without(deque: seq<nat>, tag: int): seq<nat> {
    if deque == [] then [] else if deque[0] == tag then deque[1..] else [deque[0]] + Without(deque[1..], tag)
  }

  function Above(deque: seq<nat>, tag: int): seq<nat> {
    if deque == [] then []
    else (if deque[0] > tag then [deque[0]] else []) + Above(deque[1..], tag)
  }

  function ClearMandatory(deque: seq<nat>, tag: int, multiple: bool): seq<nat> {
    if multiple then Above(deque, tag) else Without(deque, tag)
  }

  function OnSettle(ch: Channel, m: Method): Channel
    requires m.Ack? || m.Nack?
  {
    if !ch.tracker.enabled then ch
    else ch.(deque := ClearMandatory(ch.deque, m.deliveryTag, m.multiple),
             tracker := Resolve(ch.tracker, m.deliveryTag, m.multiple,
                                if m.Ack? then Acked else Nacked(m.deliveryTag, m.multiple)))
  }

  function NotifyLoss(ch: Channel): Channel {
    if ch.lost then ch else Channel(FailAll(ch.tracker, Lost), [], map[], true)
  }

  /** The end of a publish call whose future has completed. */
  function Resume(ch: Channel, tag: nat, mandatory: bool): (Channel, PublishResult)
    requires tag in ch.tracker.outcome
  {
    match ch.tracker.outcome[tag]
    case Acked =>
      if mandatory && tag in ch.filed
      then (ch.(filed := ch.filed - {tag}), RaisesReturned(ch.filed[tag]))
      else (ch, Succeeds)
    case Nacked(_, _) => (ch, RaisesNack)
    case Lost => (ch, RaisesLost)
  }

  // ---------------------------------------------------------------- client and broker

  /** The channel together with what really happened: which tags were mandatory, which
      message the broker returned for which publish, how calls ended, how many calls of
      confirm_select are under way, and the counts behind the broker's own numbering. */
  datatype World = World(
    ch: Channel, mandatory: set<nat>, returned: map<nat, ReturnedMessage>, results: map<nat, PublishResult>,
    selecting: nat,      // calls that have sent confirm.select and not yet ended
    selected: bool,      // the broker counts publishes
    received: nat,       // publishes it has counted
    unregistered: nat, unwritten: nat,
    renumbered: nat)     // numbers given out before the numbering started over

  const START := World(OPENED, {}, map[], map[], 0, false, 0, 0, 0, 0)

  datatype Step =
    | SendSelect                                           // a call finds confirms off, and selects
    | ConfirmsOn                                           // such a call has its answer, and resumes
    | SelectFails                                          // or raises
    | PublishConfirmed(isMandatory: bool, written: bool)   // written: no encoder error on the way
    | PublishPlain                                         // a publish the tracker does not number
    | Signal(settle: Method)                               // basic.ack or basic.nack
    | BrokerReturn(own: Option<nat>, message: ReturnedMessage)   // own: the tag of the publish returned
    | ResumeCall(tag: nat)
    | Loss

  predicate Enabled(w: World, step: Step) {
    match step
    case SendSelect => !w.ch.tracker.enabled && !w.ch.lost
    case ConfirmsOn => w.selecting > 0
    case SelectFails => w.selecting > 0
    case PublishConfirmed(_, written) => w.ch.tracker.enabled && (written ==> !w.ch.lost)
    case PublishPlain => !w.ch.lost
    case Signal(m) => (m.Ack? || m.Nack?) && !w.ch.lost
    case BrokerReturn(_, _) => !w.ch.lost
    case ResumeCall(tag) => tag in w.ch.tracker.outcome && tag !in w.results
    case Loss => !w.ch.lost
  }

  /** A publish takes the next tag.  Should the tag have been used before, what was known of
      it is forgotten: it stands for this publish now. */
  function Published(w: World, isMandatory: bool, written: bool): World {
    var tag := w.ch.tracker.nextTag;
    w.(ch := RegisterPublish(w.ch, isMandatory),
       mandatory := w.mandatory - {tag} + if isMandatory then {tag} else {},
       returned := w.returned - {tag}, results := w.results - {tag},
       received := if written then w.received + 1 else w.received,
       unwritten := if written then w.unwritten else w.unwritten + 1)
  }

  function Apply(w: World, step: Step): World
    requires Enabled(w, step)
  {
    match step
    case SendSelect => w.(selecting := w.selecting + 1, selected := true)
    case ConfirmsOn =>
      w.(ch := w.ch.(tracker := Enable(w.ch.tracker)), selecting := w.selecting - 1,
         renumbered := w.renumbered + if w.ch.tracker.nextTag > 1 then w.ch.tracker.nextTag - 1 else 0)
    case SelectFails => w.(selecting := w.selecting - 1)
    case PublishConfirmed(isMandatory, written) => Published(w, isMandatory, written)
    case PublishPlain =>
      if w.selected then w.(received := w.received + 1, unregistered := w.unregistered + 1) else w
    case Signal(m) => w.(ch := OnSettle(w.ch, m))
    case BrokerReturn(own, message) =>
      w.(ch := FinishReturn(w.ch, message),
         returned := if own.Some? then w.returned[own.value := message] else w.returned)
    case ResumeCall(tag) =>
      var (ch, result) := Resume(w.ch, tag, tag in w.mandatory);
      w.(ch := ch, results := w.results[tag := result])
    case Loss => w.(ch := NotifyLoss(w.ch))
  }

  predicate IsRun(w: World, steps: seq<Step>)
    decreases |steps|
  {
    steps == [] || (Enabled(w, steps[0]) && IsRun(Apply(w, steps[0]), steps[1..]))
  }

  function Run(w: World, steps: seq<Step>): World
    requires IsRun(w, steps)
    decreases |steps|
  {
    if steps == [] then w else Run(Apply(w, steps[0]), steps[1..])
  }

  // ---------------------------------------------------------------- numbering

  /** What the counts say, in every run: every publish the broker numbers is one the client
      numbered, less those it never wrote, plus those it wrote without a number, plus those
      it had numbered when its numbering started over. */
  predicate Counted(w: World) {
    && w.ch.tracker.nextTag >= 1
    && (w.selected ==> w.received + w.unwritten == w.ch.tracker.nextTag - 1 + w.unregistered + w.renumbered)
    && (!w.selected ==> w.selecting == 0 && !w.ch.tracker.enabled && w.ch.tracker.nextTag == 1)
    && (!w.selected ==> w.received == w.unwritten == w.unregistered == w.renumbered == 0)
  }

  lemma {:induction false} RunCounts(w: World, steps: seq<Step>)
    requires Counted(w) && IsRun(w, steps)
    ensures Counted(Run(w, steps))
    decreases |steps|
  {
    if steps != [] {
      StepCounts(w, steps[0]);
      RunCounts(Apply(w, steps[0]), steps[1..]);
    }
  }

  lemma StepCounts(w: World, step: Step)
    requires Counted(w) && Enabled(w, step)
    ensures Counted(Apply(w, step))
  {}

  /** A second call of confirm_select comes back when tags have been given out already: the
      numbering starts over. */
  predicate Renumbers(w: World, step: Step) {
    step.ConfirmsOn? && w.ch.tracker.nextTag > 1
  }

  predicate NeverRenumbers(w: World, steps: seq<Step>)
    requires IsRun(w, steps)
    decreases |steps|
  {
    steps == [] || (!Renumbers(w, steps[0]) && NeverRenumbers(Apply(w, steps[0]), steps[1..]))
  }

  /** The history variable says what it should: it grows exactly when numbering starts over. */
  lemma {:induction false} RenumberedGrows(w: World, steps: seq<Step>)
    requires IsRun(w, steps)
    ensures Run(w, steps).renumbered >= w.renumbered
    ensures Run(w, steps).renumbered == w.renumbered <==> NeverRenumbers(w, steps)
    decreases |steps|
  {
    if steps != [] {
      RenumberedGrows(Apply(w, steps[0]), steps[1..]);
    }
  }

  /** A publish gets the number the broker gives it if and only if, up to then, as many
      publishes went out without a number, or had theirs started over, as were numbered
      without being written.  In particular, when every publish is numbered and written, the
      two sides agree if and only if no confirm_select has come back late. */
  lemma TagsAgree(steps: seq<Step>, isMandatory: bool)
    requires IsRun(START, steps) && Enabled(Run(START, steps), PublishConfirmed(isMandatory, true))
    ensures var w := Run(START, steps);
      var agree := w.ch.tracker.nextTag == Apply(w, PublishConfirmed(isMandatory, true)).received;
      && (agree <==> w.unregistered + w.renumbered == w.unwritten)
      && (w.unregistered == w.unwritten == 0 ==> (agree <==> NeverRenumbers(START, steps)))
  {
    RunCounts(START, steps);
    RenumberedGrows(START, steps);
  }

  /** In every state of the run, tags 1 to nextTag - 1 are split between outstanding and
      settled; and no step changes the outcome of a settled tag. */
  ghost predicate AlwaysConserved(w: World, steps: seq<Step>)
    requires IsRun(w, steps)
    decreases |steps|
  {
    && Conserved(w.ch.tracker)
    && (steps == [] ||
        (Keeps(w.ch.tracker, Apply(w, steps[0]).ch.tracker) && AlwaysConserved(Apply(w, steps[0]), steps[1..])))
  }

  lemma ConservedUnlessRenumbered(w: World, step: Step)
    requires Conserved(w.ch.tracker) && Enabled(w, step)
    ensures Conserved(Apply(w, step).ch.tracker) <==> !Renumbers(w, step)
    ensures !Renumbers(w, step) ==> Keeps(w.ch.tracker, Apply(w, step).ch.tracker)
  {
    match step
    case PublishConfirmed(_, _) => RegisterConserves(w.ch.tracker);
    case Signal(m) =>
      ResolveConserves(w.ch.tracker, m.deliveryTag, m.multiple,
                       if m.Ack? then Acked else Nacked(m.deliveryTag, m.multiple));
    case Loss => SettleConserves(w.ch.tracker, w.ch.tracker.outstanding, Lost);
    case ConfirmsOn =>
      if w.ch.tracker.nextTag > 1 {
        assert 1 in w.ch.tracker.outstanding || 1 in w.ch.tracker.outcome;
      }
    case _ =>
  }

  /** Conservation, exactly: it holds throughout a run, each tag settling at most once, if
      and only if no confirm_select comes back once tags have been given out. */
  lemma {:induction false} ConservedIffNeverRenumbers(w: World, steps: seq<Step>)
    requires IsRun(w, steps) && Conserved(w.ch.tracker)
    ensures AlwaysConserved(w, steps) <==> NeverRenumbers(w, steps)
    decreases |steps|
  {
    hide Apply, Enabled, Conserved;
    if steps != [] {
      ConservedUnlessRenumbered(w, steps[0]);
      if !Renumbers(w, steps[0]) {
        ConservedIffNeverRenumbers(Apply(w, steps[0]), steps[1..]);
      }
    }
  }

  // ---------------------------------------------------------------- attribution

  /** The mandatory publishes still to be settled and not returned. */
  function Waiting(w: World): set<nat> {
    w.mandatory * w.ch.tracker.outstanding - w.returned.Keys
  }

  /** The order the client relies on: a return is for the oldest waiting publish, and a
      return for an unnumbered publish only comes when nothing waits. */
  predicate Disciplined(w: World, own: Option<nat>) {
    if own.Some? then own.value in Waiting(w) && forall t :: t in Waiting(w) ==> own.value <= t
    else Waiting(w) == {}
  }

  /** The return was filed under its own publish and nothing else moved. */
  predicate FiledRight(w: World, own: Option<nat>, message: ReturnedMessage) {
    var ch := FinishReturn(w.ch, message);
    if own.Some?
    then own.value in w.ch.deque && ch.deque == Without(w.ch.deque, own.value)
         && ch.filed == w.ch.filed[own.value := message]
    else ch == w.ch
  }

  predicate Ascending(deque: seq<nat>) {
    forall i, j :: 0 <= i < j < |deque| ==> deque[i] < deque[j]
  }

  /** The deque is exactly the waiting publishes in ascending order, and what is filed is
      what was returned and not yet collected. */
  ghost predicate Attributed(w: World) {
    && Conserved(w.ch.tracker)
    && Ascending(w.ch.deque) && (forall t :: t in w.ch.deque <==> t in Waiting(w))
    && (forall t :: t in w.mandatory ==> 1 <= t < w.ch.tracker.nextTag)
    && w.returned.Keys <= w.mandatory && w.results.Keys <= w.ch.tracker.outcome.Keys
    && (forall t :: t in w.ch.filed ==> t in w.returned && w.ch.filed[t] == w.returned[t])
    && (forall t :: t in w.returned && t !in w.results && !w.ch.lost ==> t in w.ch.filed)
    && (w.ch.lost ==> w.ch.filed == map[])
  }

  lemma HeadIsLeast(deque: seq<nat>)
    requires Ascending(deque) && deque != []
    ensures deque[0] in deque && forall t :: t in deque ==> deque[0] <= t
    ensures Ascending(deque[1..]) && forall t :: t in deque[1..] <==> t in deque && t != deque[0]
  {
    assert forall i :: 0 <= i < |deque[1..]| ==> deque[1..][i] == deque[i + 1];
  }

  lemma Prepended(x: nat, rest: seq<nat>)
    requires Ascending(rest) && forall t :: t in rest ==> x < t
    ensures Ascending([x] + rest) && forall t :: t in [x] + rest <==> t == x || t in rest
  {
    var all := [x] + rest;
    assert forall i :: 0 < i < |all| ==> all[i] == rest[i - 1] && all[i] in rest;
  }

  lemma {:induction false} WithoutElements(deque: seq<nat>, tag: int)
    requires Ascending(deque)
    ensures Ascending(Without(deque, tag))
    ensures forall t :: t in Without(deque, tag) <==> t in deque && t != tag
  {
    hide Ascending;
    if deque != [] {
      HeadIsLeast(deque);
      WithoutElements(deque[1..], tag);
      Prepended(deque[0], Without(deque[1..], tag));
    }
  }

  lemma {:induction false} AboveElements(deque: seq<nat>, tag: int)
    requires Ascending(deque)
    ensures Ascending(Above(deque, tag))
    ensures forall t :: t in Above(deque, tag) <==> t in deque && t > tag
  {
    hide Ascending;
    if deque != [] {
      HeadIsLeast(deque);
      AboveElements(deque[1..], tag);
      assert [] + Above(deque[1..], tag) == Above(deque[1..], tag);
      Prepended(deque[0], Above(deque[1..], tag));
    }
  }

  lemma ClearKeepsAttributed(w: World, m: Method)
    requires Attributed(w) && Enabled(w, Signal(m)) && w.ch.tracker.enabled
    ensures Attributed(Apply(w, Signal(m)))
  {
    var o := if m.Ack? then Acked else Nacked(m.deliveryTag, m.multiple);
    ResolveConserves(w.ch.tracker, m.deliveryTag, m.multiple, o);
    WithoutElements(w.ch.deque, m.deliveryTag);
    AboveElements(w.ch.deque, m.deliveryTag);
    var w' := Apply(w, Signal(m));
    assert forall t :: t in w'.ch.deque <==> t in Waiting(w');
  }

  lemma RegisterKeepsAttributed(w: World, step: Step)
    requires Attributed(w) && step.PublishConfirmed? && Enabled(w, step)
    ensures Attributed(Apply(w, step))
  {
    RegisterConserves(w.ch.tracker);
    var w' := Apply(w, step);
    var tag := w.ch.tracker.nextTag;
    assert tag !in w.mandatory && tag !in w.returned && tag !in w.results;
    assert w'.returned == w.returned && w'.results == w.results;
    forall i | 0 <= i < |w.ch.deque|
      ensures w.ch.deque[i] < w.ch.tracker.nextTag
    {
      assert w.ch.deque[i] in w.ch.deque;
    }
    assert forall t :: t in w'.ch.deque <==> t in w.ch.deque || (step.isMandatory && t == w.ch.tracker.nextTag);
    assert forall t :: t in w'.ch.deque <==> t in Waiting(w');
  }

  /** The exact condition, return by return: while earlier returns were attributed rightly,
      a return is filed under its own publish if and only if it is disciplined. */
  lemma FiledRightIffDisciplined(w: World, own: Option<nat>, message: ReturnedMessage)
    requires Attributed(w)
    ensures FiledRight(w, own, message) <==> Disciplined(w, own)
  {
    if w.ch.deque != [] {
      HeadIsLeast(w.ch.deque);
      if FiledRight(w, own, message) && own.Some? {
        WithoutElements(w.ch.deque, own.value);
        assert w.ch.deque[0] !in w.ch.deque[1..];
        assert own.value == w.ch.deque[0];
      }
    }
  }

  lemma ReturnKeepsAttributed(w: World, own: Option<nat>, message: ReturnedMessage)
    requires Attributed(w) && Enabled(w, BrokerReturn(own, message)) && Disciplined(w, own)
    ensures Attributed(Apply(w, BrokerReturn(own, message)))
  {
    FiledRightIffDisciplined(w, own, message);
    var w' := Apply(w, BrokerReturn(own, message));
    if own.Some? {
      WithoutElements(w.ch.deque, own.value);
      assert own.value !in w.ch.tracker.outcome;
    }
    assert forall t :: t in w'.ch.deque <==> t in Waiting(w');
  }

  lemma ResumeKeepsAttributed(w: World, tag: nat)
    requires Attributed(w) && Enabled(w, ResumeCall(tag))
    ensures Attributed(Apply(w, ResumeCall(tag)))
  {
    hide Conserved, Elements;
    assert Waiting(Apply(w, ResumeCall(tag))) == Waiting(w);
  }

  lemma LossKeepsAttributed(w: World)
    requires Attributed(w) && Enabled(w, Loss)
    ensures Attributed(Apply(w, Loss))
  {
    SettleConserves(w.ch.tracker, w.ch.tracker.outstanding, Lost);
    assert Waiting(Apply(w, Loss)) == {};
  }

  /** What the client relies on: returns in order, and one numbering. */
  predicate Orderly(w: World, step: Step) {
    (step.BrokerReturn? ==> Disciplined(w, step.own)) && !Renumbers(w, step)
  }

  lemma StepKeepsAttributed(w: World, step: Step)
    requires Attributed(w) && Enabled(w, step) && Orderly(w, step)
    ensures Attributed(Apply(w, step))
  {
    match step
    case PublishConfirmed(_, _) => RegisterKeepsAttributed(w, step);
    case Signal(m) =>
      if w.ch.tracker.enabled {
        ClearKeepsAttributed(w, m);
      }
    case BrokerReturn(own, message) => ReturnKeepsAttributed(w, own, message);
    case ResumeCall(tag) => ResumeKeepsAttributed(w, tag);
    case Loss => LossKeepsAttributed(w);
    case _ =>
      assert Waiting(Apply(w, step)) == Waiting(w);
  }

  predicate AllOrderly(w: World, steps: seq<Step>)
    requires IsRun(w, steps)
    decreases |steps|
  {
    steps == [] || (Orderly(w, steps[0]) && AllOrderly(Apply(w, steps[0]), steps[1..]))
  }

  predicate AllFiledRight(w: World, steps: seq<Step>)
    requires IsRun(w, steps)
    decreases |steps|
  {
    steps == [] ||
    ((steps[0].BrokerReturn? ==> FiledRight(w, steps[0].own, steps[0].message))
     && AllFiledRight(Apply(w, steps[0]), steps[1..]))
  }

  /** In every state, the deque is exactly the ascending unsettled, unreturned mandatory tags. */
  ghost predicate AlwaysAttributed(w: World, steps: seq<Step>)
    requires IsRun(w, steps)
    decreases |steps|
  {
    Attributed(w) && (steps == [] || AlwaysAttributed(Apply(w, steps[0]), steps[1..]))
  }

  /** Return attribution over whole runs: the deque is right in every state and every return
      is filed under its own publish, if and only if the broker returns in order and no
      confirm_select comes back late.  Without a late one, the order alone decides. */
  lemma {:induction false} AttributionNeedsDiscipline(w: World, steps: seq<Step>)
    requires Attributed(w) && IsRun(w, steps)
    ensures AlwaysAttributed(w, steps) && AllFiledRight(w, steps) <==> AllOrderly(w, steps)
    ensures NeverRenumbers(w, steps) ==> (AllFiledRight(w, steps) <==> AllOrderly(w, steps))
    ensures AllOrderly(w, steps) ==> Attributed(Run(w, steps))
    decreases |steps|
  {
    hide Apply, Enabled, Disciplined, FiledRight;
    if steps != [] {
      if steps[0].BrokerReturn? {
        FiledRightIffDisciplined(w, steps[0].own, steps[0].message);
      }
      ConservedUnlessRenumbered(w, steps[0]);
      if Orderly(w, steps[0]) {
        StepKeepsAttributed(w, steps[0]);
        AttributionNeedsDiscipline(Apply(w, steps[0]), steps[1..]);
      }
    }
  }

  /** A mandatory publish raises PublishReturned, with the message returned, if and only if
      its own message was returned and acked and the connection had not been lost by the
      time the call resumed. */
  lemma ReturnedIffOwnMessage(steps: seq<Step>, tag: nat, message: ReturnedMessage)
    requires IsRun(START, steps) && AllOrderly(START, steps)
    requires Enabled(Run(START, steps), ResumeCall(tag)) && tag in Run(START, steps).mandatory
    ensures var w := Run(START, steps);
      Apply(w, ResumeCall(tag)).results[tag] == RaisesReturned(message)
      <==> && w.ch.tracker.outcome[tag] == Acked && !w.ch.lost
           && tag in w.returned && w.returned[tag] == message
  {
    assert Waiting(START) == {};
    AttributionNeedsDiscipline(START, steps);
  }

  // ---------------------------------------------------------------- what goes wrong otherwise

  /** Without the order: publish 1 is routable but not yet acked when publish 2 is returned.
      The return is filed under 1, so call 1 raises for a message that was delivered and
      call 2 succeeds for one that was not. */
  lemma ReturnOutOfOrder(message: ReturnedMessage)
    ensures var steps := [SendSelect, ConfirmsOn, PublishConfirmed(true, true), PublishConfirmed(true, true),
                          BrokerReturn(Some(2), message), Signal(Ack(1, false)), Signal(Ack(2, false)),
                          ResumeCall(1), ResumeCall(2)];
      && IsRun(START, steps)
      && Run(START, steps).results == map[1 := RaisesReturned(message), 2 := Succeeds]
  {
    var publish := PublishConfirmed(true, true);
    var w2 := ConfirmsAreOn();
    var w4 := TwoArePublished(w2);
    var w5 := ReturnIsFiled(w4, 2, message);
    var steps := BothSucceed(w5, message);
    hide *;
    steps := Before(w4, BrokerReturn(Some(2), message), steps);
    steps := Before(Apply(w2, publish), publish, steps);
    steps := Before(w2, publish, steps);
    steps := Before(Apply(START, SendSelect), ConfirmsOn, steps);
    steps := Before(START, SendSelect, steps);
    assert steps == [SendSelect, ConfirmsOn, publish, publish, BrokerReturn(Some(2), message),
                     Signal(Ack(1, false)), Signal(Ack(2, false)), ResumeCall(1), ResumeCall(2)];
  }

  /** Both publishes are acked, and both calls resume. */
  lemma BothSucceed(w: World, message: ReturnedMessage) returns (steps: seq<Step>)
    requires w.ch.tracker == Tracker(3, {1, 2}, map[], true) && !w.ch.lost
    requires w.ch.filed == map[1 := message] && w.mandatory == {1, 2} && w.results == map[]
    ensures steps == [Signal(Ack(1, false)), Signal(Ack(2, false)), ResumeCall(1), ResumeCall(2)]
    ensures IsRun(w, steps) && Run(w, steps).results == map[1 := RaisesReturned(message), 2 := Succeeds]
  {
    var w2 := AckBoth(w, message);
    var w4 := ResumeBoth(w2, message);
    RunNoMore(w4);
    hide *;
    steps := Before(Apply(w2, ResumeCall(1)), ResumeCall(2), []);
    steps := Before(w2, ResumeCall(1), steps);
    steps := Before(Apply(w, Signal(Ack(1, false))), Signal(Ack(2, false)), steps);
    steps := Before(w, Signal(Ack(1, false)), steps);
  }

  lemma ConfirmsAreOn() returns (w: World)
    ensures Enabled(START, SendSelect) && Enabled(Apply(START, SendSelect), ConfirmsOn)
    ensures w == Apply(Apply(START, SendSelect), ConfirmsOn)
    ensures w.ch == Channel(Tracker(1, {}, map[], true), [], map[], false)
    ensures w.mandatory == {} && w.results == map[] && w.returned == map[]
    ensures Orderly(START, SendSelect) && Orderly(Apply(START, SendSelect), ConfirmsOn)
  {
    w := Apply(Apply(START, SendSelect), ConfirmsOn);
  }

  lemma TwoArePublished(w: World) returns (r: World)
    requires w.ch == Channel(Tracker(1, {}, map[], true), [], map[], false)
    requires w.mandatory == {} && w.results == map[] && w.returned == map[]
    ensures var publish := PublishConfirmed(true, true);
      && Enabled(w, publish) && Enabled(Apply(w, publish), publish) && r == Apply(Apply(w, publish), publish)
    ensures r.ch == Channel(Tracker(3, {1, 2}, map[], true), [1, 2], map[], false)
    ensures r.mandatory == {1, 2} && r.results == map[]
  {
    var w1 := OneIsPublished(w);
    r := Apply(w1, PublishConfirmed(true, true));
    assert r.results == map[] && r.ch.deque == [1, 2] && r.ch.tracker.outstanding == {1, 2};
  }

  lemma OneIsPublished(w: World) returns (r: World)
    requires w.ch == Channel(Tracker(1, {}, map[], true), [], map[], false) && w.mandatory == {}
    requires w.results == map[] && w.returned == map[]
    ensures Enabled(w, PublishConfirmed(true, true)) && r == Apply(w, PublishConfirmed(true, true))
    ensures r.ch == Channel(Tracker(2, {1}, map[], true), [1], map[], false)
    ensures r.mandatory == {1} && r.results == w.results && r.returned == w.returned
  {
    r := Apply(w, PublishConfirmed(true, true));
    assert r.results == map[] && r.returned == map[];
    assert r.ch.deque == [1] && r.ch.tracker.outstanding == {1};
  }

  /** A return for publish `own` while publish 1 is the head of the deque. */
  lemma ReturnIsFiled(w: World, own: nat, message: ReturnedMessage) returns (r: World)
    requires !w.ch.lost && w.ch.deque != [] && w.ch.deque[0] == 1 && w.ch.filed == map[]
    ensures Enabled(w, BrokerReturn(Some(own), message)) && r == Apply(w, BrokerReturn(Some(own), message))
    ensures r.ch == w.ch.(deque := w.ch.deque[1..], filed := map[1 := message])
    ensures r.mandatory == w.mandatory && r.results == w.results && r.returned == w.returned[own := message]
  {
    r := Apply(w, BrokerReturn(Some(own), message));
  }

  lemma AckBoth(w: World, message: ReturnedMessage) returns (r: World)
    requires w.ch.tracker == Tracker(3, {1, 2}, map[], true) && !w.ch.lost
    requires w.ch.filed == map[1 := message] && w.mandatory == {1, 2} && w.results == map[]
    ensures Enabled(w, Signal(Ack(1, false))) && Enabled(Apply(w, Signal(Ack(1, false))), Signal(Ack(2, false)))
    ensures r == Apply(Apply(w, Signal(Ack(1, false))), Signal(Ack(2, false)))
    ensures r.ch.tracker.outcome == map[1 := Acked, 2 := Acked]
    ensures r.ch.filed == map[1 := message] && r.mandatory == {1, 2} && r.results == map[]
  {
    var w1 := Apply(w, Signal(Ack(1, false)));
    assert Affected(w.ch.tracker, 1, false) == {1};
    assert w1.ch.tracker.outstanding == {2} && w1.ch.tracker.outcome == map[1 := Acked];
    r := Apply(w1, Signal(Ack(2, false)));
    assert Affected(w1.ch.tracker, 2, false) == {2};
    assert r.ch.tracker.outcome == map[1 := Acked, 2 := Acked];
  }

  lemma ResumeBoth(w: World, message: ReturnedMessage) returns (r: World)
    requires w.ch.tracker.outcome == map[1 := Acked, 2 := Acked] && w.mandatory == {1, 2}
    requires w.ch.filed == map[1 := message] && w.results == map[]
    ensures Enabled(w, ResumeCall(1)) && Enabled(Apply(w, ResumeCall(1)), ResumeCall(2))
    ensures r == Apply(Apply(w, ResumeCall(1)), ResumeCall(2))
    ensures r.results == map[1 := RaisesReturned(message), 2 := Succeeds]
  {
    r := Apply(Apply(w, ResumeCall(1)), ResumeCall(2));
    assert r.results == map[1 := RaisesReturned(message), 2 := Succeeds];
  }

  /** Put a step in front of a run. */
  lemma Before(w: World, step: Step, steps: seq<Step>) returns (all: seq<Step>)
    requires Enabled(w, step) && IsRun(Apply(w, step), steps)
    ensures all == [step] + steps && IsRun(w, all) && Run(w, all) == Run(Apply(w, step), steps)
    ensures AllOrderly(w, all)
       <==> Orderly(w, step) && AllOrderly(Apply(w, step), steps)
  {
    hide Apply, Enabled, Orderly;
    all := [step] + steps;
    assert all[1..] == steps;
  }

  /** With the order, but a loss between the ack and the resumption of the call: the filed
      message is gone, and the call succeeds for a message that was returned. */
  lemma LossAfterAckHidesReturn(message: ReturnedMessage)
    ensures var steps := [SendSelect, ConfirmsOn, PublishConfirmed(true, true), BrokerReturn(Some(1), message),
                          Signal(Ack(1, false)), Loss, ResumeCall(1)];
      && IsRun(START, steps) && AllOrderly(START, steps)
      && Run(START, steps).results == map[1 := Succeeds] && Run(START, steps).returned == map[1 := message]
  {
    var w2 := ConfirmsAreOn();
    var w3 := OneIsPublished(w2);
    var w4 := ReturnIsFiled(w3, 1, message);
    assert Disciplined(w3, Some(1)) by {
      assert Waiting(w3) == {1};
    }
    var w7 := AckedThenLost(w4, message);
    RunNoMore(w7);
    hide *;
    var steps := Before(Apply(Apply(w4, Signal(Ack(1, false))), Loss), ResumeCall(1), []);
    steps := Before(Apply(w4, Signal(Ack(1, false))), Loss, steps);
    steps := Before(w4, Signal(Ack(1, false)), steps);
    assert steps == [Signal(Ack(1, false)), Loss, ResumeCall(1)];
    steps := Before(w3, BrokerReturn(Some(1), message), steps);
    steps := Before(w2, PublishConfirmed(true, true), steps);
    steps := Before(Apply(START, SendSelect), ConfirmsOn, steps);
    steps := Before(START, SendSelect, steps);
    assert steps == [SendSelect, ConfirmsOn, PublishConfirmed(true, true), BrokerReturn(Some(1), message),
                     Signal(Ack(1, false)), Loss, ResumeCall(1)];
  }

  lemma AckedThenLost(w: World, message: ReturnedMessage) returns (r: World)
    requires w.ch == Channel(Tracker(2, {1}, map[], true), [], map[1 := message], false)
    requires w.mandatory == {1} && w.results == map[]
    ensures Enabled(w, Signal(Ack(1, false))) && Enabled(Apply(w, Signal(Ack(1, false))), Loss)
    ensures var w' := Apply(Apply(w, Signal(Ack(1, false))), Loss);
      Enabled(w', ResumeCall(1)) && r == Apply(w', ResumeCall(1))
    ensures r.results == map[1 := Succeeds] && r.returned == w.returned
  {
    var w5 := Apply(w, Signal(Ack(1, false)));
    assert Affected(w.ch.tracker, 1, false) == {1};
    assert w5.ch.tracker.outcome == map[1 := Acked] && w5.ch.tracker.outstanding == {};
    var w6 := Apply(w5, Loss);
    assert w6.ch.tracker.outcome == map[1 := Acked];
    r := Apply(w6, ResumeCall(1));
    assert r.results == map[1 := Succeeds];
  }

  /** Two calls select before either has its answer.  The first publishes; then the second
      comes back, and the numbering starts over.  Its publish gets tag 1 again, in place of
      the first one's future, while the broker counts it as 2; and the ack of the first
      publish lets the second call succeed.  Every publish was numbered and written. */
  lemma SecondSelectStartsOver()
    ensures var publish := PublishConfirmed(false, true);
      var steps := [SendSelect, SendSelect, ConfirmsOn, publish, ConfirmsOn, publish,
                    Signal(Ack(1, false)), ResumeCall(1)];
      && IsRun(START, steps) && !AllOrderly(START, steps)
      && var w := Run(START, steps);
         && w.received == 2 && w.unregistered == w.unwritten == 0
         && w.ch.tracker.nextTag == 2 && w.ch.tracker.outstanding == {} && w.results == map[1 := Succeeds]
  {
    var publish := PublishConfirmed(false, true);
    var w1 := Apply(START, SendSelect);
    var w2 := Apply(w1, SendSelect);
    var w3 := Apply(w2, ConfirmsOn);
    var w4 := Numbered(w3);
    var w5 := Apply(w4, ConfirmsOn);
    var w6 := Numbered(w5);
    var w8 := FirstAcked(w6);
    assert Renumbers(w4, ConfirmsOn);
    RunNoMore(w8);
    hide *;
    var steps := Before(Apply(w6, Signal(Ack(1, false))), ResumeCall(1), []);
    steps := Before(w6, Signal(Ack(1, false)), steps);
    steps := Before(w5, publish, steps);
    steps := Before(w4, ConfirmsOn, steps);
    assert steps == [ConfirmsOn, publish, Signal(Ack(1, false)), ResumeCall(1)];
    assert !AllOrderly(w4, steps) by { NotOrderly(w4, steps); }
    steps := Before(w3, publish, steps);
    steps := Before(w2, ConfirmsOn, steps);
    steps := Before(w1, SendSelect, steps);
    steps := Before(START, SendSelect, steps);
    assert steps == [SendSelect, SendSelect, ConfirmsOn, publish, ConfirmsOn, publish,
                     Signal(Ack(1, false)), ResumeCall(1)];
  }

  lemma NotOrderly(w: World, steps: seq<Step>)
    requires IsRun(w, steps) && steps != [] && Renumbers(w, steps[0])
    ensures !AllOrderly(w, steps)
  {}

  lemma Numbered(w: World) returns (r: World)
    requires w.ch.tracker.enabled && w.ch.tracker.nextTag == 1 && w.ch.tracker.outcome == map[]
    requires w.ch.tracker.outstanding <= {1} && !w.ch.lost && w.results == map[] && w.mandatory == {}
    ensures Enabled(w, PublishConfirmed(false, true)) && r == Apply(w, PublishConfirmed(false, true))
    ensures r.ch == w.ch.(tracker := Tracker(2, {1}, map[], true)) && r.results == map[] && r.mandatory == {}
    ensures r.received == w.received + 1 && r.unwritten == w.unwritten && r.unregistered == w.unregistered
    ensures r.selecting == w.selecting && r.selected == w.selected
  {
    r := Apply(w, PublishConfirmed(false, true));
    assert r.ch.tracker.outstanding == {1} && r.ch.tracker.outcome == map[] && r.results == map[] && r.mandatory == {};
  }

  lemma FirstAcked(w: World) returns (r: World)
    requires w.ch == Channel(Tracker(2, {1}, map[], true), [], map[], false)
    requires w.mandatory == {} && w.results == map[]
    ensures Enabled(w, Signal(Ack(1, false))) && Enabled(Apply(w, Signal(Ack(1, false))), ResumeCall(1))
    ensures r == Apply(Apply(w, Signal(Ack(1, false))), ResumeCall(1))
    ensures r.ch.tracker.outstanding == {} && r.ch.tracker.nextTag == 2 && r.results == map[1 := Succeeds]
    ensures r.received == w.received && r.unwritten == w.unwritten && r.unregistered == w.unregistered
  {
    var w1 := Apply(w, Signal(Ack(1, false)));
    assert Affected(w.ch.tracker, 1, false) == {1};
    assert w1.ch.tracker.outcome == map[1 := Acked] && w1.ch.tracker.outstanding == {};
    r := Apply(w1, ResumeCall(1));
    assert r.results == map[1 := Succeeds];
  }

  lemma RunNoMore(w: World)
    ensures IsRun(w, []) && Run(w, []) == w && AllOrderly(w, [])
  {}
}
