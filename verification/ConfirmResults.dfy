/** How publish calls end, told from the history of a run alone: from what the broker signalled
    and when the connection was lost. */
module ConfirmResults {
  import opened Results
  import opened Methods
  import opened Confirms
  import opened ConfirmChannel

  /** The publishes a history has numbered. */
  function Numbered(steps: seq<Step>): nat {
    if steps == [] then 0
    else Numbered(steps[..|steps| - 1]) + if steps[|steps| - 1].PublishConfirmed? then 1 else 0
  }

  /** What can settle a tag: a signal that speaks of it, or the loss of the connection. */
  predicate Covers(step: Step, t: nat) {
    step.Loss? ||
    (step.Signal? && (step.settle.Ack? || step.settle.Nack?) &&
     if step.settle.multiple then t <= step.settle.deliveryTag else t == step.settle.deliveryTag)
  }

  /** The first such step after the publish with this tag. */
  predicate SettledAt(steps: seq<Step>, t: nat, i: nat) {
    && i < |steps| && Covers(steps[i], t) && t <= Numbered(steps[..i])
    && forall j :: 0 <= j < i && Covers(steps[j], t) ==> Numbered(steps[..j]) < t
  }

  /** What a publish comes to by the step that settles it. */
  predicate ComesTo(o: Outcome, step: Step) {
    match o
    case Acked => step.Signal? && step.settle.Ack?
    case Nacked(_, _) => step.Signal? && step.settle.Nack?
    case Lost => step.Loss?
  }

  ghost predicate SettledTo(steps: seq<Step>, t: nat, o: Outcome) {
    exists i: nat :: SettledAt(steps, t, i) && ComesTo(o, steps[i])
  }

  ghost predicate Unsettled(steps: seq<Step>, t: nat) {
    forall i: nat :: !SettledAt(steps, t, i)
  }

  /** The tracker agrees with the history, and only mandatory publishes have returns. */
  ghost predicate Agrees(w: World, steps: seq<Step>) {
    && Conserved(w.ch.tracker) && w.ch.tracker.nextTag == Numbered(steps) + 1
    && (forall t :: t in w.ch.tracker.outcome ==> SettledTo(steps, t, w.ch.tracker.outcome[t]))
    && (forall t :: t in w.ch.tracker.outstanding ==> Unsettled(steps, t))
    && (forall t :: t in w.mandatory ==> t < w.ch.tracker.nextTag)
    && (forall t :: t in w.ch.deque ==> t in w.mandatory) && (forall t :: t in w.ch.filed ==> t in w.mandatory)
  }

  // ---------------------------------------------------------------- one step

  lemma OneMoreNumbered(steps: seq<Step>, step: Step)
    ensures Numbered(steps + [step]) == Numbered(steps) + if step.PublishConfirmed? then 1 else 0
  {
    assert (steps + [step])[..|steps|] == steps;
  }

  lemma OneMore(steps: seq<Step>, step: Step, t: nat, i: nat)
    ensures i < |steps| ==> (SettledAt(steps + [step], t, i) <==> SettledAt(steps, t, i))
    ensures i >= |steps| && SettledAt(steps + [step], t, i) ==> i == |steps| && Covers(step, t) && t <= Numbered(steps)
  {
    hide Covers, Numbered;
    var all := steps + [step];
    if i < |steps| {
      assert all[..i] == steps[..i];
      assert forall j :: 0 <= j < i ==> all[..j] == steps[..j];
    } else {
      assert all[..|steps|] == steps;
    }
  }

  /** A tag that nothing has settled yet is settled by the next step that covers it. */
  lemma SettledNow(steps: seq<Step>, step: Step, t: nat)
    requires Covers(step, t) && 1 <= t <= Numbered(steps) && Unsettled(steps, t)
    ensures SettledAt(steps + [step], t, |steps|)
  {
    var all := steps + [step];
    assert all[..|steps|] == steps;
    forall j | 0 <= j < |steps| && Covers(all[j], t)
      ensures Numbered(all[..j]) < t
    {
      assert all[..j] == steps[..j] && all[j] == steps[j];
      if Numbered(steps[..j]) >= t {
        var first := FirstOf(steps, t, j);
      }
    }
  }

  lemma {:induction false} FirstOf(steps: seq<Step>, t: nat, j: nat) returns (first: nat)
    requires j < |steps| && Covers(steps[j], t) && t <= Numbered(steps[..j])
    ensures SettledAt(steps, t, first)
  {
    if i :| 0 <= i < j && Covers(steps[i], t) && Numbered(steps[..i]) >= t {
      first := FirstOf(steps, t, i);
    } else {
      first := j;
    }
  }

  /** Nothing is settled, and nothing returned, by a step of these kinds. */
  predicate SettlesNothing(step: Step) {
    !step.Signal? && !step.Loss?
  }

  lemma StepAgrees(w: World, steps: seq<Step>, step: Step)
    requires Agrees(w, steps) && Enabled(w, step) && !Renumbers(w, step)
    ensures Agrees(Apply(w, step), steps + [step])
  {
    ConservedUnlessRenumbered(w, step);
    OneMoreNumbered(steps, step);
    TrackerAgrees(w, steps, step);
    ReturnsAgree(w, step);
  }

  lemma ReturnsAgree(w: World, step: Step)
    requires Conserved(w.ch.tracker) && Enabled(w, step) && !Renumbers(w, step)
    requires forall t :: t in w.mandatory ==> t < w.ch.tracker.nextTag
    requires (forall t :: t in w.ch.deque ==> t in w.mandatory) && (forall t :: t in w.ch.filed ==> t in w.mandatory)
    ensures var w' := Apply(w, step);
      && (forall t :: t in w'.mandatory ==> t < w'.ch.tracker.nextTag)
      && (forall t :: t in w'.ch.deque ==> t in w'.mandatory) && (forall t :: t in w'.ch.filed ==> t in w'.mandatory)
  {
    hide Conserved;
    if step.Signal? {
      ClearedWereThere(w.ch.deque, step.settle.deliveryTag);
    }
    if step.ConfirmsOn? {
      NoTagsYet(w);
    }
  }

  lemma NoTagsYet(w: World)
    requires Conserved(w.ch.tracker) && w.ch.tracker.nextTag <= 1
    ensures w.ch.tracker.nextTag == 1
  {}

  lemma {:induction false} ClearedWereThere(deque: seq<nat>, tag: int)
    ensures forall t :: t in Without(deque, tag) ==> t in deque
    ensures forall t :: t in Above(deque, tag) ==> t in deque
  {
    if deque != [] {
      ClearedWereThere(deque[1..], tag);
    }
  }

  lemma TrackerAgrees(w: World, steps: seq<Step>, step: Step)
    requires Agrees(w, steps) && Enabled(w, step) && !Renumbers(w, step) && Conserved(Apply(w, step).ch.tracker)
    ensures var (t', all) := (Apply(w, step).ch.tracker, steps + [step]);
      && t'.nextTag == Numbered(all) + 1
      && (forall t :: t in t'.outcome ==> SettledTo(all, t, t'.outcome[t]))
      && (forall t :: t in t'.outstanding ==> Unsettled(all, t))
  {
    var (tracker, t') := (w.ch.tracker, Apply(w, step).ch.tracker);
    OneMoreNumbered(steps, step);
    TrackerSteps(w, step);
    assert forall t :: t in tracker.outstanding ==> 1 <= t < tracker.nextTag;
    hide Apply, Enabled, SettledTo, Unsettled, Covers, Numbered, ComesTo, Conserved, Renumbers;
    forall t | t in t'.outcome
      ensures SettledTo(steps + [step], t, t'.outcome[t])
    {
      if t in tracker.outcome {
        StaysSettled(steps, step, t, t'.outcome[t]);
      } else {
        IsSettled(steps, step, t, t'.outcome[t]);
      }
    }
    forall t | t in t'.outstanding
      ensures Unsettled(steps + [step], t)
    {
      StaysUnsettled(steps, step, t);
    }
  }

  lemma StaysSettled(steps: seq<Step>, step: Step, t: nat, o: Outcome)
    requires SettledTo(steps, t, o)
    ensures SettledTo(steps + [step], t, o)
  {
    var i: nat :| SettledAt(steps, t, i) && ComesTo(o, steps[i]);
    OneMore(steps, step, t, i);
    assert SettledAt(steps + [step], t, i) && (steps + [step])[i] == steps[i];
  }

  lemma IsSettled(steps: seq<Step>, step: Step, t: nat, o: Outcome)
    requires Unsettled(steps, t) && Covers(step, t) && 1 <= t <= Numbered(steps) && ComesTo(o, step)
    ensures SettledTo(steps + [step], t, o)
  {
    SettledNow(steps, step, t);
    assert SettledAt(steps + [step], t, |steps|) && (steps + [step])[|steps|] == step;
  }

  lemma StaysUnsettled(steps: seq<Step>, step: Step, t: nat)
    requires (Unsettled(steps, t) && !Covers(step, t)) || Numbered(steps) < t
    ensures Unsettled(steps + [step], t)
  {
    forall i: nat
      ensures !SettledAt(steps + [step], t, i)
    {
      OneMore(steps, step, t, i);
      if i < |steps| {
        NumberedGrows(steps, i);
      }
    }
  }

  lemma {:induction false} NumberedGrows(steps: seq<Step>, i: nat)
    requires i <= |steps|
    ensures Numbered(steps[..i]) <= Numbered(steps)
    decreases |steps|
  {
    if i < |steps| {
      NumberedGrows(steps[..|steps| - 1], i);
      assert steps[..|steps| - 1][..i] == steps[..i];
    } else {
      assert steps[..i] == steps;
    }
  }

  /** What a step does to the tracker, tag by tag. */
  lemma TrackerSteps(w: World, step: Step)
    requires Conserved(w.ch.tracker) && Enabled(w, step) && !Renumbers(w, step)
    ensures var (tracker, t') := (w.ch.tracker, Apply(w, step).ch.tracker);
      && t'.nextTag == tracker.nextTag + (if step.PublishConfirmed? then 1 else 0)
      && (forall t :: t in t'.outcome ==>
            if t in tracker.outcome then t'.outcome[t] == tracker.outcome[t]
            else t in tracker.outstanding && Covers(step, t) && ComesTo(t'.outcome[t], step))
      && (forall t :: t in t'.outstanding ==>
            if t in tracker.outstanding then !Covers(step, t) || !tracker.enabled
            else step.PublishConfirmed? && t == tracker.nextTag)
      && (tracker.outstanding != {} ==> tracker.enabled)
  {}

  // ---------------------------------------------------------------- runs

  lemma {:induction false} RunAgrees(w: World, past: seq<Step>, steps: seq<Step>)
    requires Agrees(w, past) && IsRun(w, steps) && NeverRenumbers(w, steps)
    ensures Agrees(Run(w, steps), past + steps)
    decreases |steps|
  {
    hide Agrees, Apply, Enabled;
    if steps == [] {
      assert past + steps == past;
    } else {
      StepAgrees(w, past, steps[0]);
      RunAgrees(Apply(w, steps[0]), past + [steps[0]], steps[1..]);
      assert past + [steps[0]] + steps[1..] == past + steps;
    }
  }

  lemma HistoryAgrees(steps: seq<Step>)
    requires IsRun(START, steps) && NeverRenumbers(START, steps)
    ensures Agrees(Run(START, steps), steps)
  {
    assert Agrees(START, []);
    hide Agrees;
    RunAgrees(START, [], steps);
    assert [] + steps == steps;
  }

  /** A publish call can return iff, since its publish, the broker has signalled its tag or
      the connection has been lost. */
  lemma ReturnsIffSettled(steps: seq<Step>, t: nat)
    requires IsRun(START, steps) && NeverRenumbers(START, steps) && 1 <= t <= Numbered(steps)
    requires t !in Run(START, steps).results
    ensures Enabled(Run(START, steps), ResumeCall(t)) <==> exists i: nat :: SettledAt(steps, t, i)
  {
    HistoryAgrees(steps);
    var w := Run(START, steps);
    TagIsTracked(w, steps, t);
    Resumable(w, t);
    hide *;
    if t in w.ch.tracker.outcome {
      var i := WhereSettled(steps, t, w.ch.tracker.outcome[t]);
    } else {
      NowhereSettled(steps, t);
    }
  }

  lemma Resumable(w: World, t: nat)
    ensures Enabled(w, ResumeCall(t)) <==> t in w.ch.tracker.outcome && t !in w.results
  {}

  lemma NowhereSettled(steps: seq<Step>, t: nat)
    requires Unsettled(steps, t)
    ensures !exists i: nat :: SettledAt(steps, t, i)
  {}

  lemma TagIsTracked(w: World, steps: seq<Step>, t: nat)
    requires Agrees(w, steps) && 1 <= t <= Numbered(steps)
    ensures if t in w.ch.tracker.outcome then SettledTo(steps, t, w.ch.tracker.outcome[t]) else Unsettled(steps, t)
  {
    hide Numbered, SettledTo, Unsettled;
  }

  /** How it ends.  Of all the signals and losses since, the first that speaks of its tag
      decides: a nack raises PublishNack, the loss raises ConnectionLost, and with an ack the
      call succeeds unless a return is filed under its tag when it resumes. */
  lemma ResultByHistory(steps: seq<Step>, t: nat) returns (i: nat)
    requires IsRun(START, steps) && NeverRenumbers(START, steps) && Enabled(Run(START, steps), ResumeCall(t))
    ensures SettledAt(steps, t, i) && (steps[i].Loss? || steps[i].Signal?)
    ensures var w := Run(START, steps);
      var result := Apply(w, ResumeCall(t)).results[t];
      && (result.RaisesNack? <==> steps[i].Signal? && steps[i].settle.Nack?)
      && (result.RaisesLost? <==> steps[i].Loss?)
      && (result.Succeeds? <==> steps[i].Signal? && steps[i].settle.Ack? && t !in w.ch.filed)
      && (result.RaisesReturned? <==>
            steps[i].Signal? && steps[i].settle.Ack? && t in w.ch.filed && result.message == w.ch.filed[t])
      && Apply(w, ResumeCall(t)).ch == if result.RaisesReturned? then w.ch.(filed := w.ch.filed - {t}) else w.ch
  {
    HistoryAgrees(steps);
    var w := Run(START, steps);
    i := WhereSettled(steps, t, w.ch.tracker.outcome[t]);
    hide IsRun, NeverRenumbers, Conserved, SettledAt;
  }

  lemma WhereSettled(steps: seq<Step>, t: nat, o: Outcome) returns (i: nat)
    requires SettledTo(steps, t, o)
    ensures SettledAt(steps, t, i) && ComesTo(o, steps[i])
  {
    i :| SettledAt(steps, t, i) && ComesTo(o, steps[i]);
  }

  // ---------------------------------------------------------------- whatever is renumbered

  /** In every run, confirm_select coming back late or not: a publish that has just been numbered
      does not return yet, however an earlier one of its number ended, and no other call's
      return is affected. */
  lemma NewCallsWait(w: World, isMandatory: bool, written: bool, t: nat)
    requires Enabled(w, PublishConfirmed(isMandatory, written))
    ensures Enabled(Apply(w, PublishConfirmed(isMandatory, written)), ResumeCall(t))
       <==> Enabled(w, ResumeCall(t)) && t != w.ch.tracker.nextTag
  {}

  predicate OnlyMandatoryReturn(w: World) {
    forall t :: t in w.results && w.results[t].RaisesReturned? ==> t in w.mandatory
  }

  lemma {:induction false} StaysMandatory(w: World, steps: seq<Step>)
    requires OnlyMandatoryReturn(w) && IsRun(w, steps)
    ensures OnlyMandatoryReturn(Run(w, steps))
    decreases |steps|
  {
    if steps != [] {
      StaysMandatory(Apply(w, steps[0]), steps[1..]);
    }
  }

  /** In every such run, only a mandatory publish raises `PublishReturned`. */
  lemma OthersAreNotReturned(steps: seq<Step>, t: nat)
    requires IsRun(START, steps)
    ensures var w := Run(START, steps);
      t in w.results && w.results[t].RaisesReturned? ==> t in w.mandatory
  {
    StaysMandatory(START, steps);
  }
}
