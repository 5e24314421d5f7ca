/** The confirm tracker: the client numbers its publishes, and each number is settled once
    by an ack, a nack or the loss of the connection. */
module Confirms {
  import opened Results

  /** How a publish's future completes. */
  datatype Outcome = Acked | Nacked(tag: int, multiple: bool) | Lost

  /** A tracker's state.  A future is represented by its tag: `outcome` holds the completed
      ones, `outstanding` the tags whose futures the tracker still keeps. */
  datatype Tracker = Tracker(nextTag: nat, outstanding: set<nat>, outcome: map<nat, Outcome>, enabled: bool)

  const FRESH := Tracker(1, {}, map[], false)

  function Enable(t: Tracker): Tracker {
    t.(enabled := true, nextTag := 1)
  }

  function Register(t: Tracker): Tracker {
    Tracker(t.nextTag + 1, t.outstanding + {t.nextTag}, t.outcome - {t.nextTag}, t.enabled)
  }

  /** The outstanding tags a signal speaks of. */
  function Affected(t: Tracker, tag: int, multiple: bool): set<nat> {
    set x | x in t.outstanding && if multiple then x <= tag else x == tag
  }

  /** Settle a set of tags; a future that is already done keeps its first outcome. */
  function Settle(t: Tracker, tags: set<nat>, o: Outcome): Tracker {
    t.(outstanding := t.outstanding - tags,
       outcome := t.outcome + map x | x in tags * t.outstanding - t.outcome.Keys :: o)
  }

  lemma SettleNothing(t: Tracker, o: Outcome)
    ensures Settle(t, {}, o) == t
  {
    assert Settle(t, {}, o).outcome == t.outcome;
  }

  lemma SettleOneMore(t: Tracker, tags: set<nat>, x: nat, o: Outcome)
    requires x in t.outstanding
    ensures var (s, s') := (Settle(t, tags, o), Settle(t, tags + {x}, o));
      && s'.outstanding == s.outstanding - {x} && s'.nextTag == s.nextTag && s'.enabled == s.enabled
      && s'.outcome == if x in s.outcome then s.outcome else s.outcome[x := o]
  {
    var s, s' := Settle(t, tags, o), Settle(t, tags + {x}, o);
    assert s'.outcome == if x in s.outcome then s.outcome else s.outcome[x := o];
  }

  function Resolve(t: Tracker, tag: int, multiple: bool, o: Outcome): Tracker {
    Settle(t, Affected(t, tag, multiple), o)
  }

  function FailAll(t: Tracker, o: Outcome): Tracker {
    Settle(t, t.outstanding, o)
  }

  // ---------------------------------------------------------------- conservation

  /** Every number given out so far is either outstanding or settled, never both. */
  ghost predicate Conserved(t: Tracker) {
    && t.outstanding !! t.outcome.Keys
    && (forall x :: x in t.outstanding || x in t.outcome <==> 1 <= x < t.nextTag)
    && 1 <= t.nextTag && (!t.enabled ==> t.nextTag == 1)
  }

  /** Once settled, settled for good: an outcome never changes. */
  ghost predicate Keeps(t: Tracker, t': Tracker) {
    forall x :: x in t.outcome ==> x in t'.outcome && t'.outcome[x] == t.outcome[x]
  }

  lemma RegisterConserves(t: Tracker)
    requires Conserved(t) && t.enabled
    ensures Conserved(Register(t)) && Keeps(t, Register(t))
    ensures t.nextTag !in t.outstanding && t.nextTag !in t.outcome
  {}

  lemma SettleConserves(t: Tracker, tags: set<nat>, o: Outcome)
    requires Conserved(t) && tags <= t.outstanding
    ensures Conserved(Settle(t, tags, o)) && Keeps(t, Settle(t, tags, o))
    ensures Settle(t, tags, o).outcome.Keys == t.outcome.Keys + tags
  {}

  /** A signal settles exactly the outstanding tags it speaks of, each with its own outcome
      for the first and only time, and touches no other. */
  lemma ResolveConserves(t: Tracker, tag: int, multiple: bool, o: Outcome)
    requires Conserved(t)
    ensures var (t', a) := (Resolve(t, tag, multiple, o), Affected(t, tag, multiple));
      && Conserved(t') && Keeps(t, t')
      && t'.outstanding == t.outstanding - a && t'.outcome.Keys == t.outcome.Keys + a
      && forall x :: x in a ==> t'.outcome[x] == o
  {
    SettleConserves(t, Affected(t, tag, multiple), o);
  }

  // ---------------------------------------------------------------- multiple is many singles

  function Elements(tags: seq<nat>): set<nat> {
    set x | x in tags
  }

  function ResolveEach(t: Tracker, tags: seq<nat>, o: Outcome): Tracker
    decreases |tags|
  {
    if tags == [] then t else ResolveEach(Resolve(t, tags[0], false, o), tags[1..], o)
  }

  lemma {:induction false} SinglesSettle(t: Tracker, tags: seq<nat>, o: Outcome)
    requires Conserved(t) && forall i :: 0 <= i < |tags| ==> tags[i] in t.outstanding
    requires forall i, j :: 0 <= i < j < |tags| ==> tags[i] != tags[j]
    ensures ResolveEach(t, tags, o) == Settle(t, Elements(tags), o)
    decreases |tags|
  {
    if tags == [] {
      assert Elements(tags) == {};
      assert Settle(t, {}, o).outcome == t.outcome;
    } else {
      ResolveConserves(t, tags[0], false, o);
      assert Affected(t, tags[0], false) == {tags[0]};
      SinglesSettle(Resolve(t, tags[0], false, o), tags[1..], o);
      assert Elements(tags) == {tags[0]} + Elements(tags[1..]);
      SettleTwice(t, tags[0], Elements(tags[1..]), o);
    }
  }

  lemma SettleTwice(t: Tracker, x: nat, rest: set<nat>, o: Outcome)
    requires Conserved(t) && x in t.outstanding && x !in rest && rest <= t.outstanding
    ensures Settle(Settle(t, {x}, o), rest, o) == Settle(t, {x} + rest, o)
  {
    assert Settle(Settle(t, {x}, o), rest, o).outcome == Settle(t, {x} + rest, o).outcome;
  }

  /** A `multiple` signal is the same as one single signal for each outstanding tag up to
      it, in whatever order they come. */
  lemma MultipleIsManySingles(t: Tracker, tag: int, tags: seq<nat>, o: Outcome)
    requires Conserved(t)
    requires forall x :: x in tags <==> x in t.outstanding && x <= tag
    requires forall i, j :: 0 <= i < j < |tags| ==> tags[i] != tags[j]
    ensures Resolve(t, tag, true, o) == ResolveEach(t, tags, o)
  {
    SinglesSettle(t, tags, o);
    assert Affected(t, tag, true) == Elements(tags);
  }

  // ---------------------------------------------------------------- the tracker object

  class ConfirmTracker {
    var nextTag: nat
    var outstanding: set<nat>
    var outcome: map<nat, Outcome>
    var enabled: bool

    ghost function State(): Tracker
      reads this
    {
      Tracker(nextTag, outstanding, outcome, enabled)
    }

    constructor ()
      ensures State() == FRESH
    {
      nextTag, outstanding, outcome, enabled := 1, {}, map[], false;
    }

    method EnableConfirms()
      modifies this
      ensures State() == Enable(old(State()))
    {
      enabled := true;
      nextTag := 1;
    }

    /** Give out the next tag; the source raises when confirms are not enabled. */
    method RegisterPublish() returns (tag: Option<nat>)
      modifies this
      ensures old(enabled) ==> tag == Some(old(nextTag)) && State() == Register(old(State()))
      ensures !old(enabled) ==> tag == None && State() == old(State())
    {
      if !enabled {
        return None;
      }
      tag := Some(nextTag);
      nextTag := nextTag + 1;
      outstanding := outstanding + {tag.value};
      outcome := outcome - {tag.value};
    }

    method OnAck(tag: int, multiple: bool)
      modifies this
      ensures State() == Resolve(old(State()), tag, multiple, Acked)
    {
      ResolveTags(tag, multiple, Acked);
    }

    method OnNack(tag: int, multiple: bool)
      modifies this
      ensures State() == Resolve(old(State()), tag, multiple, Nacked(tag, multiple))
    {
      ResolveTags(tag, multiple, Nacked(tag, multiple));
    }

    /** Pop the affected futures in ascending order and complete those not yet done. */
    method ResolveTags(tag: int, multiple: bool, o: Outcome)
      modifies this
      ensures State() == Resolve(old(State()), tag, multiple, o)
    {
      hide Settle;
      ghost var before := State();
      var tags := set x | x in outstanding && if multiple then x <= tag else x == tag;
      ghost var all := tags;
      SettleNothing(before, o);
      assert tags - tags == {};
      while tags != {}
        invariant tags <= all <= before.outstanding
        invariant State() == Settle(before, all - tags, o)
        decreases tags
      {
        ghost var done := all - tags;
        var next := Least(tags);
        tags := tags - {next};
        outstanding := outstanding - {next};
        if next !in outcome {
          outcome := outcome[next := o];
        }
        SettleOneMore(before, done, next, o);
        assert all - tags == done + {next};
      }
      assert all - tags == all;
    }

    method FailAllTags(o: Outcome)
      modifies this
      ensures State() == FailAll(old(State()), o)
    {
      ghost var before := State();
      var tags := outstanding;
      SettleNothing(before, o);
      assert tags - tags == {};
      while tags != {}
        invariant tags <= before.outstanding && outstanding == before.outstanding
        invariant nextTag == before.nextTag && enabled == before.enabled
        invariant outcome == Settle(before, before.outstanding - tags, o).outcome
        decreases tags
      {
        ghost var done := before.outstanding - tags;
        var next := Least(tags);
        tags := tags - {next};
        if next !in outcome {
          outcome := outcome[next := o];
        }
        SettleOneMore(before, done, next, o);
        assert before.outstanding - tags == done + {next};
      }
      outstanding := {};
    }
  }

  /** The least element, found by a scan. */
  method Least(tags: set<nat>) returns (least: nat)
    requires tags != {}
    ensures least in tags && forall x :: x in tags ==> least <= x
  {
    least :| least in tags;
    var rest := tags - {least};
    while rest != {}
      invariant rest <= tags && least in tags
      invariant forall x :: x in tags ==> x in rest || least <= x
      decreases rest
    {
      var x :| x in rest;
      rest := rest - {x};
      if x < least {
        least := x;
      }
    }
  }
}
