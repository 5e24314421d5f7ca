/** Waiting for one method of the broker on one channel: every call waits under the same key,
    so overlapping calls take it from each other. */
module AnswerWaiters {
  import opened Results

  /** The future of one call. */
  datatype Waiter = Pending | Answered(answer: nat) | TimedOut | Failed

  /** The futures of the calls so far, the one filed under the key, and the calls that have
      left.  Answers carry numbers only to tell them apart. */
  datatype Table = Table(waiters: seq<Waiter>, filed: Option<nat>, left: set<nat>)

  const NOBODY := Table([], None, {})

  datatype Step =
    | Expect                // a call makes its future and files it, over any other
    | Answer(answer: nat)   // the method comes in
    | TimeOut(call: nat)
    | Leave(call: nat)      // a call whose future is done resumes, and clears the key
    | Lose

  predicate Enabled(t: Table, step: Step) {
    match step
    case TimeOut(call) => call < |t.waiters| && t.waiters[call].Pending?
    case Leave(call) => call < |t.waiters| && !t.waiters[call].Pending? && call !in t.left
    case _ => true
  }

  /** Only the latest call can be the one filed. */
  predicate Valid(t: Table) {
    t.filed.Some? ==> t.filed.value + 1 == |t.waiters|
  }

  function Filed(t: Table): Table {
    t.(waiters := t.waiters + [Pending], filed := Some(|t.waiters|))
  }

  /** The filed future, if it is still pending, gets this; no other does. */
  function Completed(t: Table, with: Waiter): Table
    requires Valid(t)
  {
    if t.filed.Some? && t.waiters[t.filed.value].Pending? then t.(waiters := t.waiters[t.filed.value := with]) else t
  }

  function Gone(t: Table, call: nat): Table {
    t.(filed := None, left := t.left + {call})
  }

  function Apply(t: Table, step: Step): (t': Table)
    requires Enabled(t, step) && Valid(t)
    ensures Valid(t')
  {
    match step
    case Expect => Filed(t)
    case Answer(answer) => Completed(t, Answered(answer))
    case TimeOut(call) => t.(waiters := t.waiters[call := TimedOut])
    case Leave(call) => Gone(t, call)
    case Lose => Completed(t, Failed)
  }

  predicate IsRun(t: Table, steps: seq<Step>)
    requires Valid(t)
    decreases |steps|
  {
    steps == [] || (Enabled(t, steps[0]) && IsRun(Apply(t, steps[0]), steps[1..]))
  }

  function Run(t: Table, steps: seq<Step>): (t': Table)
    requires Valid(t) && IsRun(t, steps)
    ensures Valid(t') && |t.waiters| <= |t'.waiters|
    decreases |steps|
  {
    if steps == [] then t else Run(Apply(t, steps[0]), steps[1..])
  }

  /** What a step makes of a waiting call: an answer or the loss if its own future is the one
      filed, and its own timeout. */
  function Ends(t: Table, step: Step, call: nat): Waiter {
    match step
    case Answer(answer) => if t.filed == Some(call) then Answered(answer) else Pending
    case Lose => if t.filed == Some(call) then Failed else Pending
    case TimeOut(other) => if other == call then TimedOut else Pending
    case _ => Pending
  }

  /** The i-th step of a run ends this call's wait so. */
  predicate EndedAt(t: Table, steps: seq<Step>, call: nat, w: Waiter, i: nat)
    requires Valid(t) && IsRun(t, steps)
  {
    i < |steps| && (PrefixIsRun(t, steps, i);
      var before := Run(t, steps[..i]);
      call < |before.waiters| && before.waiters[call].Pending? && Ends(before, steps[i], call) == w)
  }

  lemma {:induction false} PrefixIsRun(t: Table, steps: seq<Step>, i: nat)
    requires Valid(t) && IsRun(t, steps) && i <= |steps|
    ensures IsRun(t, steps[..i])
    decreases |steps|
  {
    if i > 0 {
      PrefixIsRun(Apply(t, steps[0]), steps[1..], i - 1);
      assert steps[..i][1..] == steps[1..][..i - 1];
    }
  }

  /** A call that has its outcome keeps it. */
  lemma {:induction false} DoneStaysDone(t: Table, steps: seq<Step>, call: nat, w: Waiter)
    requires Valid(t) && IsRun(t, steps) && call < |t.waiters| && !t.waiters[call].Pending?
    ensures Run(t, steps).waiters[call] == t.waiters[call]
    ensures forall i :: 0 <= i < |steps| ==> !EndedAt(t, steps, call, w, i)
    decreases |steps|
  {
    if steps != [] {
      var t1 := Apply(t, steps[0]);
      DoneStaysDone(t1, steps[1..], call, w);
      assert steps[..0] == [];
      forall i | 0 <= i < |steps|
        ensures !EndedAt(t, steps, call, w, i)
      {
        if i > 0 {
          LaterIsLater(t, steps, call, w, i);
        }
      }
    }
  }

  lemma LaterIsLater(t: Table, steps: seq<Step>, call: nat, w: Waiter, i: nat)
    requires Valid(t) && IsRun(t, steps) && 0 < i < |steps|
    ensures EndedAt(t, steps, call, w, i) <==> EndedAt(Apply(t, steps[0]), steps[1..], call, w, i - 1)
  {
    PrefixIsRun(t, steps, i);
    assert steps[..i][1..] == steps[1..][..i - 1] && steps[..i][0] == steps[0];
  }

  /** How a wait ends, in every run: with an answer iff one comes in while its own future is
      the one that is filed, with the loss iff the connection is lost while it is, and with a
      timeout iff its own comes first. */
  lemma {:induction false} EndsIff(t: Table, steps: seq<Step>, call: nat, w: Waiter)
    requires Valid(t) && IsRun(t, steps) && call < |t.waiters| && t.waiters[call].Pending? && !w.Pending?
    ensures Run(t, steps).waiters[call] == w <==> exists i :: 0 <= i < |steps| && EndedAt(t, steps, call, w, i)
    decreases |steps|
  {
    if steps != [] {
      var t1 := Apply(t, steps[0]);
      StepEnds(t, steps[0], call);
      assert steps[..0] == [] && (Ends(t, steps[0], call) == w <==> EndedAt(t, steps, call, w, 0));
      hide Apply, Enabled, Ends;
      if t1.waiters[call].Pending? {
        EndsIff(t1, steps[1..], call, w);
      } else {
        DoneStaysDone(t1, steps[1..], call, w);
      }
      forall i | 0 < i < |steps|
        ensures EndedAt(t, steps, call, w, i) <==> EndedAt(t1, steps[1..], call, w, i - 1)
      {
        LaterIsLater(t, steps, call, w, i);
      }
      if j :| 0 <= j < |steps[1..]| && EndedAt(t1, steps[1..], call, w, j) {
        assert EndedAt(t, steps, call, w, j + 1);
      }
    }
  }

  lemma StepEnds(t: Table, step: Step, call: nat)
    requires Valid(t) && Enabled(t, step) && call < |t.waiters| && t.waiters[call].Pending?
    ensures Apply(t, step).waiters[call] == Ends(t, step, call)
  {}

  /** Once another call has filed its future over this one's, or has left, this one never
      comes back: it times out, or fails with the connection. */
  lemma {:induction false} OverwrittenNeverComesBack(t: Table, steps: seq<Step>, call: nat)
    requires Valid(t) && IsRun(t, steps) && call < |t.waiters| && t.waiters[call].Pending? && t.filed != Some(call)
    ensures !Run(t, steps).waiters[call].Answered?
    decreases |steps|
  {
    if steps != [] {
      var t1 := Apply(t, steps[0]);
      if t1.waiters[call].Pending? {
        OverwrittenNeverComesBack(t1, steps[1..], call);
      } else {
        DoneStaysDone(t1, steps[1..], call, Pending);
      }
    }
  }

  /** Two overlapping calls and two answers: the first answer goes to the second call, the
      second to nobody. */
  lemma SecondTakesFirstAnswer()
    ensures var steps := [Expect, Expect, Answer(1), Answer(2)];
      IsRun(NOBODY, steps) && Run(NOBODY, steps) == Table([Pending, Answered(1)], Some(1), {})
  {
    var filed := Table([Pending, Pending], Some(1), {});
    assert Apply(Apply(NOBODY, Expect), Expect) == filed;
    var answered := Table([Pending, Answered(1)], Some(1), {});
    assert Apply(filed, Answer(1)) == answered && Apply(answered, Answer(2)) == answered;
    var steps := [Expect, Expect, Answer(1), Answer(2)];
    assert steps[1..] == [Expect, Answer(1), Answer(2)] && steps[1..][1..] == [Answer(1), Answer(2)];
    assert [Answer(1), Answer(2)][1..] == [Answer(2)] && [Answer(2)][1..] == [];
  }

  /** A call that leaves clears the key even if another has filed its future meanwhile: that
      one's answer is dropped. */
  lemma LeavingDropsTheOther(t: Table, first: nat, answer: nat)
    requires Valid(t) && first < |t.waiters| && !t.waiters[first].Pending? && first !in t.left
    ensures var t' := Apply(Apply(Apply(t, Expect), Leave(first)), Answer(answer));
      t'.filed.None? && t'.waiters == t.waiters + [Pending]
  {
    assert Filed(t).waiters[first] == t.waiters[first];
  }

  // ---------------------------------------------------------------- the connection's part

  /** The connection's waiters under one key. */
  class Waiters {
    var futures: seq<Waiter>
    var filed: Option<nat>
    ghost var left: set<nat>

    ghost function State(): Table
      reads this
    {
      Table(futures, filed, left)
    }

    constructor ()
      ensures State() == NOBODY
    {
      futures, filed, left := [], None, {};
    }

    method ExpectMethod() returns (call: nat)
      modifies this
      ensures State() == Filed(old(State())) && call == |old(futures)|
    {
      call := |futures|;
      futures := futures + [Pending];
      filed := Some(call);
    }

    /** What the read loop does with a method, and with the loss of the connection. */
    method Complete(with: Waiter)
      requires Valid(State())
      modifies this`futures
      ensures State() == Completed(old(State()), with)
    {
      if filed.Some? && futures[filed.value].Pending? {
        futures := futures[filed.value := with];
      }
    }

    /** The end of a wait, however it ends. */
    method LeaveKey(call: nat)
      modifies this
      ensures State() == Gone(old(State()), call)
    {
      filed := None;
      left := left + {call};
    }
  }
}
