/** Republishing after a reconnection: what is sent again, where to, and how often. */
module SessionRepublish {
  import opened Results
  import opened Correlation
  import opened SessionState
  import opened SessionRuns
  import opened SessionSafety
  import RpcServer

  /** The log follows the snapshot item by item, and the work is the rest of it. */
  predicate Aligned(round: Round, work: seq<Item>) {
    && |round.log| + |work| == |round.snapshot| && work == round.snapshot[|round.log|..]
    && forall i :: 0 <= i < |round.log| ==> round.log[i].id == round.snapshot[i].id
  }

  /** Whether a turn that ended so wrote its message. */
  predicate Wrote(mark: Mark) {
    mark.Confirmed? || (mark.Refused? && mark.reason != ConnectionBlocked)
  }

  /** The messages the logged turns wrote: each item's own, to the new reply queue. */
  function SentBy(snapshot: seq<Item>, log: seq<Entry>, queue: string): seq<Envelope>
    requires |log| <= |snapshot|
    decreases |log|
  {
    if log == [] then []
    else
      var n := |log| - 1;
      SentBy(snapshot, log[..n], queue) + if Wrote(log[n].mark) then [Readdressed(snapshot[n], queue)] else []
  }

  /** What a turn leaves its call with: a call that was complete keeps its outcome, and a
      refused one that was not gets the error its refusal maps to. */
  function Final(e: Entry): Option<Outcome> {
    if e.before.None? && e.mark.Refused? then Some(Failed(e.mark.reason)) else e.before
  }

  predicate EntryAccounted(d: Desk, calls: map<Id, Call>, e: Entry) {
    !e.mark.Confirmed? ==>
      && e.id in calls && e.id !in d.table.pending
      && Final(e).Some? && ResultIn(d, calls, e.id) == Final(e)
  }

  /** Only a confirmed item's call may still be pending after its turn; any other has ended
      as its turn says. */
  predicate Accounted(d: Desk, calls: map<Id, Call>, log: seq<Entry>) {
    forall i :: 0 <= i < |log| ==> EntryAccounted(d, calls, log[i])
  }

  /** The round so far: every item is one call's own envelope, no call occurs twice, and
      exactly the logged turns' messages have been sent, and those of `current`. */
  ghost predicate RoundOk(s: System, work: seq<Item>, current: seq<Envelope>) {
    && (forall i :: 0 <= i < |s.round.snapshot| ==> ItemOk(s.round.snapshot[i], s.calls))
    && (forall i, j :: 0 <= i < j < |s.round.snapshot| ==> s.round.snapshot[i].id != s.round.snapshot[j].id)
    && Aligned(s.round, work)
    && Accounted(s.session.desk, s.calls, s.round.log)
    && s.round.sent == SentBy(s.round.snapshot, s.round.log, s.session.link.queue) + current
    && forall m :: m in s.round.sent ==> m in s.net.published
  }

  ghost predicate Rounds(s: System) {
    var link := s.session.link;
    link.lock.Held? ==>
      match link.lock.phase
      case Republishing(work, turn) =>
        && work != [] && (link.lost || link.replyQueue == Some(link.queue))
        && var own := [Readdressed(work[0], link.queue)];
           (match turn
            case Checked => RoundOk(s, work, [])
            case Written(answer) => RoundOk(s, work, own) || (link.lost && answer.None? && RoundOk(s, work, [])))
      case Consuming(_) => link.lost || link.replyQueue == Some(link.queue)
      case _ => true
  }

  // ---------------------------------------------------------------- turns

  /** Calls that are complete have their outcome. */
  predicate DoneCallsHaveResults(d: Desk, calls: map<Id, Call>) {
    forall id :: id in calls && id !in d.table.pending ==> ResultIn(d, calls, id).Some?
  }

  lemma SoundResults(s: System)
    requires Sound(s)
    ensures DoneCallsHaveResults(s.session.desk, s.calls)
  {
    forall id | id in s.calls && id !in s.session.desk.table.pending
      ensures ResultIn(s.session.desk, s.calls, id).Some?
    {
      assert CallOk(s.session.desk, s.net.handled, id, s.calls[id]);
    }
  }

  /** Passing over settled items logs them, in order. */
  lemma {:induction false} SkipsAreLogged(d: Desk, calls: map<Id, Call>, round: Round, work: seq<Item>)
    requires Aligned(round, work) && Accounted(d, calls, round.log) && DoneCallsHaveResults(d, calls)
    requires forall i :: 0 <= i < |work| ==> work[i].id in calls
    ensures var log := round.log + Skips(d, calls, work);
      Aligned(round.(log := log), NextPending(d, work)) && Accounted(d, calls, log)
    decreases |work|
  {
    hide ResultIn;
    if work == [] || work[0].id in d.table.pending {
      assert round.log + [] == round.log;
    } else {
      var next := round.(log := round.log + [Passed(d, calls, work[0].id)]);
      SkipsAreLogged(d, calls, next, work[1..]);
      assert round.log + Skips(d, calls, work) == next.log + Skips(d, calls, work[1..]);
    }
  }

  /** It sends nothing. */
  lemma {:induction false} SkipsSendNothing(d: Desk, calls: map<Id, Call>, snapshot: seq<Item>, log: seq<Entry>,
                                            work: seq<Item>, queue: string)
    requires |log| + |work| <= |snapshot|
    ensures |log + Skips(d, calls, work)| <= |snapshot|
    ensures SentBy(snapshot, log + Skips(d, calls, work), queue) == SentBy(snapshot, log, queue)
    decreases |work|
  {
    hide Readdressed, ResultIn;
    if work == [] || work[0].id in d.table.pending {
      assert log + [] == log;
    } else {
      var next := log + [Passed(d, calls, work[0].id)];
      assert next[..|log|] == log;
      SkipsSendNothing(d, calls, snapshot, next, work[1..], queue);
      assert log + Skips(d, calls, work) == next + Skips(d, calls, work[1..]);
    }
  }

  lemma SkipsKeepRound(d: Desk, calls: map<Id, Call>, round: Round, work: seq<Item>, queue: string)
    requires Aligned(round, work) && Accounted(d, calls, round.log) && DoneCallsHaveResults(d, calls)
    requires forall i :: 0 <= i < |work| ==> work[i].id in calls
    ensures var log := round.log + Skips(d, calls, work);
      && Aligned(round.(log := log), NextPending(d, work)) && Accounted(d, calls, log)
      && SentBy(round.snapshot, log, queue) == SentBy(round.snapshot, round.log, queue)
  {
    SkipsAreLogged(d, calls, round, work);
    SkipsSendNothing(d, calls, round.snapshot, round.log, work, queue);
  }

  /** Calls go on as they were, and those complete keep their outcome. */
  predicate Later(s: System, s': System) {
    && CallsKept(s.calls, s'.calls)
    && forall id :: id in s.calls && id !in s.session.desk.table.pending ==>
         id !in s'.session.desk.table.pending && ResultOfCall(s', id) == ResultOfCall(s, id)
  }

  /** Once done, a call stays done. */
  lemma DoneStaysDone(s: System, step: Step)
    requires Sound(s) && Enabled(s, step)
    ensures Sound(Apply(s, step)) && Later(s, Apply(s, step))
  {
    hide Enabled, Apply, DeskOk, NetOk, WorkOk, ResultIn;
    DeskIsValid(s);
    StepOk(s, step);
    StepKeepsCalls(s, step);
    var s' := Apply(s, step);
    forall id | id in s.calls && id !in s.session.desk.table.pending
      ensures id !in s'.session.desk.table.pending && ResultOfCall(s', id) == ResultOfCall(s, id)
    {
      DoneIsDone(s, s', id);
    }
  }

  lemma DoneIsDone(s: System, s': System, id: Id)
    requires Sound(s) && Sound(s') && CallsKept(s.calls, s'.calls) && Keeps(s.session.desk.table, s'.session.desk.table)
    requires id in s.calls && id !in s.session.desk.table.pending
    ensures id in s'.calls && id !in s'.session.desk.table.pending && ResultOfCall(s', id) == ResultOfCall(s, id)
  {
    assert CallOk(s.session.desk, s.net.handled, id, s.calls[id]);
    assert CallOk(s'.session.desk, s'.net.handled, id, s'.calls[id]);
  }

  lemma AccountedLater(s: System, s': System, log: seq<Entry>)
    requires Later(s, s') && Accounted(s.session.desk, s.calls, log)
    ensures Accounted(s'.session.desk, s'.calls, log)
  {
    hide ResultIn;
    forall i | 0 <= i < |log|
      ensures EntryAccounted(s'.session.desk, s'.calls, log[i])
    {
      assert EntryAccounted(s.session.desk, s.calls, log[i]);
    }
  }

  /** A round in progress is not disturbed by a step that leaves it alone. */
  lemma RoundUndisturbed(s: System, s': System, work: seq<Item>, current: seq<Envelope>)
    requires RoundOk(s, work, current) && Later(s, s')
    requires s'.round == s.round && s'.session.link.queue == s.session.link.queue
    requires s.net.published <= s'.net.published
    ensures RoundOk(s', work, current)
  {
    AccountedLater(s, s', s.round.log);
    hide Accounted, SentBy, ResultIn;
  }

  /** The end of a turn, and the passing over that follows it. */
  lemma TurnEnds(s: System, mark: Mark)
    requires Sound(s) && InTurn(s) && !mark.Skipped?
    requires var work := s.session.link.lock.phase.work;
      RoundOk(s, work, if Wrote(mark) then [Readdressed(work[0], s.session.link.queue)] else [])
    requires Sound(EndOfTurn(s, mark)) && Later(s, EndOfTurn(s, mark))
    ensures var s' := EndOfTurn(s, mark);
      RoundOk(s', NextPending(s'.session.desk, s.session.link.lock.phase.work[1..]), [])
  {
    hide Valid, Settle, ForgetSettled, NextPending, Skips, SentBy, Wrote, Readdressed, ResultIn, DoneCallsHaveResults,
      EntryAccounted, DeskOk, NetOk;
    DeskIsValid(s);
    var (owner, work) := (s.session.link.lock.owner, s.session.link.lock.phase.work);
    var s' := EndOfTurn(s, mark);
    var queue := s.session.link.queue;
    var entry := Entry(work[0].id, mark, ResultIn(s.session.desk, s.calls, work[0].id));
    AccountedLater(s, s', s.round.log);
    SoundResults(s');
    RefusedIsDone(s, mark);
    TurnIsLogged(s'.session.desk, s'.calls, s.round, work, entry, queue);
    var turned := s.round.(log := s.round.log + [entry]);
    SkipsKeepRound(s'.session.desk, s'.calls, turned, work[1..], queue);
    assert s.round.sent + [] == s.round.sent;
  }

  lemma TurnIsLogged(d: Desk, calls: map<Id, Call>, round: Round, work: seq<Item>, entry: Entry, queue: string)
    requires Aligned(round, work) && work != [] && Accounted(d, calls, round.log)
    requires entry.id == work[0].id && EntryAccounted(d, calls, entry)
    ensures var log := round.log + [entry];
      && Aligned(round.(log := log), work[1..]) && Accounted(d, calls, log)
      && SentBy(round.snapshot, log, queue)
           == SentBy(round.snapshot, round.log, queue) + if Wrote(entry.mark) then [Readdressed(work[0], queue)] else []
  {
    hide EntryAccounted;
    assert (round.log + [entry])[..|round.log|] == round.log;
  }

  /** A refused item's call is complete after its turn: with the mapped error if it was
      still pending, with the outcome it had otherwise. */
  lemma RefusedIsDone(s: System, mark: Mark)
    requires Sound(s) && InTurn(s)
    ensures var (s', id) := (EndOfTurn(s, mark), s.session.link.lock.phase.work[0].id);
      !mark.Skipped? ==>
        EntryAccounted(s'.session.desk, s'.calls, Entry(id, mark, ResultIn(s.session.desk, s.calls, id)))
    ensures EndOfTurn(s, mark).session.desk.table.pending.Keys
         == s.session.desk.table.pending.Keys - if mark.Refused? then {s.session.link.lock.phase.work[0].id} else {}
    ensures var s' := EndOfTurn(s, mark);
      var rest := NextPending(s'.session.desk, s.session.link.lock.phase.work[1..]);
      s'.session.link == (if rest == [] then Finished(s.session.link, s.session.link.lock.owner)
                          else s.session.link.(lock := Held(s.session.link.lock.owner, Republishing(rest, Checked))))
  {
    assert Valid(s.session.desk.table) by { DeskIsValid(s); }
    var (owner, work) := (s.session.link.lock.owner, s.session.link.lock.phase.work);
    assert ItemOk(work[0], s.calls) && CallOk(s.session.desk, s.net.handled, work[0].id, s.calls[work[0].id]);
    hide Sound;
    var desk := if mark.Refused? then Settle(s.session.desk, work[0].id, Failed(mark.reason)) else s.session.desk;
    if mark.Refused? {
      FinishLaw(s.session.desk.table, work[0].id, Failed(mark.reason));
    }
    ForgettingKeepsTable(desk, work[1..]);
    SamePendingSameRest(desk, ForgetSettled(desk, work[1..]), work[1..]);
  }

  lemma {:induction false} ForgettingKeepsTable(d: Desk, work: seq<Item>)
    ensures ForgetSettled(d, work).table == d.table
    decreases |work|
  {
    if work != [] && work[0].id !in d.table.pending {
      ForgettingKeepsTable(Forget(d, work[0].id), work[1..]);
    }
  }

  // ---------------------------------------------------------------- steps

  /** Nothing is done to the round.  A lock that is not as before is not held by a republish
      loop, and if by a task that awaits its consumer, then the reply queue is declared. */
  predicate LeavesRound(s: System, s': System) {
    var (link, link') := (s.session.link, s'.session.link);
    && s'.round == s.round && s.net.published <= s'.net.published
    && (link'.lock == link.lock && link.lock.Held? ==> LinkKept(link, link'))
    && (link'.lock != link.lock && link'.lock.Held? ==> !link'.lock.phase.Republishing?)
    && (link'.lock != link.lock && link'.lock.Held? && link'.lock.phase.Consuming? ==>
          || link'.replyQueue == Some(link'.queue)
          || (link.lock.Held? && link.lock.phase.Consuming? && LinkKept(link, link')))
  }

  predicate LinkKept(link: Link, link': Link) {
    && link'.queue == link.queue && (link.lost ==> link'.lost)
    && (link'.lost || link'.replyQueue == link.replyQueue)
  }

  /** The steps that neither begin a round nor take a turn. */
  lemma OtherStepsKeepRounds(s: System, step: Step)
    requires Sound(s) && Enabled(s, step) && Rounds(s)
    requires !step.Begin? && !step.TurnWrite? && !step.TurnAnswer? && !step.TurnResume? && !step.TurnBlocked?
    ensures Rounds(Apply(s, step))
  {
    DeskIsValid(s);
    DoneStaysDone(s, step);
    OtherStepsLeaveTheRound(s, step);
    hide *;
    RoundsLeftAlone(s, Apply(s, step));
  }

  lemma RoundsLeftAlone(s: System, s': System)
    requires Rounds(s) && Later(s, s') && LeavesRound(s, s')
    ensures Rounds(s')
  {
    hide RoundOk, Later, Readdressed;
    var (link, link') := (s.session.link, s'.session.link);
    if link.lock == link'.lock && link.lock.Held? && link.lock.phase.Republishing? {
      var work := link.lock.phase.work;
      var own := [Readdressed(work[0], link.queue)];
      if RoundOk(s, work, own) {
        RoundUndisturbed(s, s', work, own);
      }
      if RoundOk(s, work, []) {
        RoundUndisturbed(s, s', work, []);
      }
    }
  }

  lemma OtherStepsLeaveTheRound(s: System, step: Step)
    requires Sound(s) && Enabled(s, step)
    requires !step.Begin? && !step.TurnWrite? && !step.TurnAnswer? && !step.TurnResume? && !step.TurnBlocked?
    ensures LeavesRound(s, Apply(s, step))
  {
    hide Sound, Replies, RpcServer.Serve, ValidId, Settle, FailOutstanding;
  }

  lemma BeginKeepsRounds(s: System, order: seq<Id>)
    requires Sound(s) && Rounds(s) && InPhase(s, Consuming(true)) && Lists(order, s.session.desk.parked)
    ensures var s' := BeginRound(s, order);
      && Rounds(s')
      && (s'.session.link.lock.Free? ==> RoundOk(s', [], []))
  {
    BegunRoundIsOk(s, order);
    hide Sound, ForgetSettled, NextPending, Skips, RoundOk, Items, Valid;
  }

  lemma BegunRoundIsOk(s: System, order: seq<Id>)
    requires Sound(s) && InPhase(s, Consuming(true)) && Lists(order, s.session.desk.parked)
    ensures var s' := BeginRound(s, order);
      if s.session.policy.failOutstanding || s.session.link.replyQueue.None? then RoundOk(s', [], [])
      else RoundOk(s', NextPending(s.session.desk, Items(order, s.session.desk.parked)), [])
  {
    ParkedOk(s, order);
    ItemsAreDistinct(order, s.session.desk.parked);
    SoundResults(s);
    hide Sound, Lists, ForgetSettled, NextPending, Skips, SentBy, Aligned, Accounted, Items, Valid, Rounds,
      DoneCallsHaveResults;
    var desk := s.session.desk;
    var s' := BeginRound(s, order);
    if s.session.policy.failOutstanding || s.session.link.replyQueue.None? {
      EmptyRound(s'.session.desk, s.calls, s.session.link.queue);
    } else {
      var work := Items(order, desk.parked);
      RoundBegins(desk, s.calls, work, s.session.link.queue);
      ForgettingKeepsTable(desk, work);
      SameTableSameAccount(desk, s'.session.desk, s.calls, s'.round.log);
    }
  }

  lemma SameTableSameAccount(d: Desk, d': Desk, calls: map<Id, Call>, log: seq<Entry>)
    requires d.table == d'.table && Accounted(d, calls, log)
    ensures Accounted(d', calls, log)
  {
    forall i | 0 <= i < |log|
      ensures EntryAccounted(d', calls, log[i])
    {
      assert EntryAccounted(d, calls, log[i]);
    }
  }

  lemma BeginIsBeginRound(s: System, order: seq<Id>)
    requires Sound(s) && Enabled(s, Begin(order))
    ensures Apply(s, Begin(order)) == BeginRound(s, order)
    ensures InPhase(s, Consuming(true)) && Lists(order, s.session.desk.parked)
  {
    hide Sound, BeginRound;
  }

  lemma ItemsAreDistinct(order: seq<Id>, parked: map<Id, Envelope>)
    requires Lists(order, parked)
    ensures var work := Items(order, parked);
      forall i, j :: 0 <= i < j < |work| ==> work[i].id != work[j].id
  {}

  lemma EmptyRound(d: Desk, calls: map<Id, Call>, queue: string)
    ensures SentBy([], [], queue) == [] && Aligned(Round([], [], []), []) && Accounted(d, calls, [])
  {}

  lemma RoundBegins(desk: Desk, calls: map<Id, Call>, work: seq<Item>, queue: string)
    requires DoneCallsHaveResults(desk, calls) && forall i :: 0 <= i < |work| ==> ItemOk(work[i], calls)
    ensures var round := Round(work, Skips(desk, calls, work), []);
      && Aligned(round, NextPending(desk, work)) && Accounted(desk, calls, round.log)
      && SentBy(work, round.log, queue) == []
  {
    hide DoneCallsHaveResults, EntryAccounted;
    SkipsKeepRound(desk, calls, Round(work, [], []), work, queue);
    assert [] + Skips(desk, calls, work) == Skips(desk, calls, work);
  }

  function MarkAt(s: System, step: Step): Mark
    requires Enabled(s, step) && (step.TurnResume? || step.TurnBlocked?)
  {
    if step.TurnResume? then MarkOf(s.session.link.lock.phase.turn.answer.value) else Refused(ConnectionBlocked)
  }

  lemma TurnEndIsEndOfTurn(s: System, step: Step)
    requires Sound(s) && Enabled(s, step)
    requires step.TurnResume? || step.TurnBlocked?
    ensures InTurn(s) && Apply(s, step) == EndOfTurn(s, MarkAt(s, step))
  {
    hide Sound, EndOfTurn;
  }

  /** By the end of a turn its own message is among those sent, unless it was blocked. */
  lemma TurnIsWritten(s: System, step: Step)
    requires Enabled(s, step) && Rounds(s)
    requires step.TurnResume? || step.TurnBlocked?
    ensures InTurn(s) && !MarkAt(s, step).Skipped?
    ensures var work := s.session.link.lock.phase.work;
      RoundOk(s, work, if Wrote(MarkAt(s, step)) then [Readdressed(work[0], s.session.link.queue)] else [])
  {
    hide RoundOk, Readdressed;
  }

  lemma TurnEndsKeepRounds(s: System, step: Step)
    requires Sound(s) && Enabled(s, step) && Rounds(s)
    requires step.TurnResume? || step.TurnBlocked?
    ensures var s' := Apply(s, step);
      && Rounds(s')
      && (s'.session.link.lock.Free? ==> RoundOk(s', [], []))
  {
    DoneStaysDone(s, step);
    TurnEndIsEndOfTurn(s, step);
    TurnIsWritten(s, step);
    hide *;
    EndOfTurnKeepsRounds(s, MarkAt(s, step));
  }

  lemma AnswerKeepsRound(s: System, answer: Answer)
    requires Sound(s) && Enabled(s, TurnAnswer(answer)) && Rounds(s)
    ensures Rounds(Apply(s, TurnAnswer(answer)))
  {
    hide Sound, Valid, RoundOk;
    assert Valid(s.session.desk.table) by { DeskIsValid(s); }
    var work := s.session.link.lock.phase.work;
    RoundUndisturbed(s, Apply(s, TurnAnswer(answer)), work, [Readdressed(work[0], s.session.link.queue)]);
  }

  lemma EndOfTurnKeepsRounds(s: System, mark: Mark)
    requires Sound(s) && InTurn(s) && Rounds(s) && !mark.Skipped?
    requires var work := s.session.link.lock.phase.work;
      RoundOk(s, work, if Wrote(mark) then [Readdressed(work[0], s.session.link.queue)] else [])
    requires Sound(EndOfTurn(s, mark)) && Later(s, EndOfTurn(s, mark))
    ensures var s' := EndOfTurn(s, mark);
      && Rounds(s')
      && (s'.session.link.lock.Free? ==> RoundOk(s', [], []))
  {
    hide Sound, Valid, RoundOk, NextPending;
    assert Valid(s.session.desk.table) by { DeskIsValid(s); }
    TurnEnds(s, mark);
    RefusedIsDone(s, mark);
    hide EndOfTurn;
  }

  lemma WriteTurnKeepsRound(s: System)
    requires Sound(s) && Enabled(s, TurnWrite) && Rounds(s)
    ensures Rounds(Apply(s, TurnWrite))
  {
    hide Sound;
    var work := s.session.link.lock.phase.work;
    var s' := WriteTurn(s);
    if s.session.link.lost || s.session.link.replyQueue.None? {
      RoundUndisturbed(s, s', work, []);
    } else {
      assert s.round.sent + [] == s.round.sent;
      assert RoundOk(s', work, [Readdressed(work[0], s.session.link.queue)]);
    }
  }

  lemma StepKeepsRounds(s: System, step: Step)
    requires Sound(s) && Enabled(s, step) && Rounds(s)
    ensures Rounds(Apply(s, step))
  {
    hide Sound, Apply, Enabled, Rounds;
    DeskIsValid(s);
    match step {
      case Begin(order) =>
        BeginIsBeginRound(s, order);
        BeginKeepsRounds(s, order);
      case TurnWrite => WriteTurnKeepsRound(s);
      case TurnAnswer(answer) => AnswerKeepsRound(s, answer);
      case TurnResume => TurnEndsKeepRounds(s, step);
      case TurnBlocked => TurnEndsKeepRounds(s, step);
      case _ => OtherStepsKeepRounds(s, step);
    }
  }

  lemma {:induction false} RunKeepsRounds(s: System, steps: seq<Step>)
    requires Sound(s) && IsRun(s, steps) && Rounds(s)
    ensures Rounds(Run(s, steps))
    decreases |steps|
  {
    hide Sound, Apply, Enabled, Rounds;
    if steps != [] {
      DeskIsValid(s);
      StepOk(s, steps[0]);
      StepKeepsRounds(s, steps[0]);
      RunKeepsRounds(Apply(s, steps[0]), steps[1..]);
    }
  }

  // ---------------------------------------------------------------- exactness

  /** A message some logged turn wrote: that item's own, to the new reply queue. */
  predicate WrittenBy(snapshot: seq<Item>, log: seq<Entry>, queue: string, m: Envelope)
    requires |log| <= |snapshot|
  {
    exists i :: 0 <= i < |log| && Wrote(log[i].mark) && m == Readdressed(snapshot[i], queue)
  }

  lemma {:induction false} SentIsWritten(snapshot: seq<Item>, log: seq<Entry>, queue: string, k: nat)
    requires |log| <= |snapshot| && k < |SentBy(snapshot, log, queue)|
    ensures WrittenBy(snapshot, log, queue, SentBy(snapshot, log, queue)[k])
    decreases |log|
  {
    var n := |log| - 1;
    var before := SentBy(snapshot, log[..n], queue);
    if k < |before| {
      SentIsWritten(snapshot, log[..n], queue, k);
      var i :| 0 <= i < |log[..n]| && Wrote(log[..n][i].mark) && before[k] == Readdressed(snapshot[i], queue);
      assert Wrote(log[i].mark) && SentBy(snapshot, log, queue)[k] == before[k];
    } else {
      assert Wrote(log[n].mark);
    }
  }

  lemma {:induction false} WrittenIsSent(snapshot: seq<Item>, log: seq<Entry>, queue: string, i: nat)
    requires |log| <= |snapshot| && i < |log| && Wrote(log[i].mark)
    ensures Readdressed(snapshot[i], queue) in SentBy(snapshot, log, queue)
    decreases |log|
  {
    var n := |log| - 1;
    if i < n {
      WrittenIsSent(snapshot, log[..n], queue, i);
    } else {
      assert SentBy(snapshot, log, queue)[|SentBy(snapshot, log[..n], queue)|] == Readdressed(snapshot[n], queue);
    }
  }

  /** No call's message is sent twice. */
  lemma {:induction false} SentOnce(snapshot: seq<Item>, log: seq<Entry>, queue: string, k: nat, l: nat)
    requires |log| <= |snapshot| && k < l < |SentBy(snapshot, log, queue)|
    requires forall i, j :: 0 <= i < j < |snapshot| ==> snapshot[i].id != snapshot[j].id
    ensures SentBy(snapshot, log, queue)[k].correlationId != SentBy(snapshot, log, queue)[l].correlationId
    decreases |log|
  {
    var n := |log| - 1;
    var before := SentBy(snapshot, log[..n], queue);
    if l < |before| {
      SentOnce(snapshot, log[..n], queue, k, l);
    } else {
      SentIsWritten(snapshot, log[..n], queue, k);
      var i :| 0 <= i < |log[..n]| && Wrote(log[..n][i].mark) && before[k] == Readdressed(snapshot[i], queue);
      assert snapshot[i].id != snapshot[n].id;
    }
  }

  /** A finished round is exact: every call parked when it began took its turn once; it was
      either published once, with its own body, to the new reply queue, or not at all; what
      was not confirmed is complete, with the outcome it had before its turn or else with the
      mapped error.  A round that goes on does so with a call still pending. */
  ghost predicate Exact(s: System) {
    var round := s.round;
    && |round.log| == |round.snapshot|
    && (forall i :: 0 <= i < |round.snapshot| ==>
          && round.log[i].id == round.snapshot[i].id
          && ItemOk(round.snapshot[i], s.calls)
          && (Wrote(round.log[i].mark) ==> Readdressed(round.snapshot[i], s.session.link.queue) in round.sent)
          && (!round.log[i].mark.Confirmed? ==>
                Final(round.log[i]).Some? && ResultOfCall(s, round.log[i].id) == Final(round.log[i])))
    && (forall k :: 0 <= k < |round.sent| ==>
          && round.sent[k] in s.net.published
          && WrittenBy(round.snapshot, round.log, s.session.link.queue, round.sent[k]))
    && (forall k, l :: 0 <= k < l < |round.sent| ==> round.sent[k].correlationId != round.sent[l].correlationId)
  }

  lemma FinishedRoundIsExact(s: System)
    requires RoundOk(s, [], [])
    ensures Exact(s)
  {
    hide ResultIn;
    var (round, queue) := (s.round, s.session.link.queue);
    assert round.sent == SentBy(round.snapshot, round.log, queue);
    forall i | 0 <= i < |round.log| && Wrote(round.log[i].mark)
      ensures Readdressed(round.snapshot[i], queue) in round.sent
    {
      WrittenIsSent(round.snapshot, round.log, queue, i);
    }
    forall k | 0 <= k < |round.sent|
      ensures WrittenBy(round.snapshot, round.log, queue, round.sent[k])
    {
      SentIsWritten(round.snapshot, round.log, queue, k);
    }
    forall k, l | 0 <= k < l < |round.sent|
      ensures round.sent[k].correlationId != round.sent[l].correlationId
    {
      SentOnce(round.snapshot, round.log, queue, k, l);
    }
    forall i | 0 <= i < |round.snapshot|
      ensures ItemOk(round.snapshot[i], s.calls) && round.log[i].id == round.snapshot[i].id
      ensures EntryAccounted(s.session.desk, s.calls, round.log[i])
    {}
  }

  lemma RepublishIsExact(policy: Policy, queue: string, steps: seq<Step>, step: Step)
    requires IsHistory(policy, queue, steps) && Enabled(After(policy, queue, steps), step)
    requires step.Begin? || step.TurnResume? || step.TurnBlocked?
    ensures var s' := Apply(After(policy, queue, steps), step);
      var lock := s'.session.link.lock;
      if lock.Free? then Exact(s')
      else lock.phase.Republishing? && lock.phase.work != [] && lock.phase.work[0].id in s'.session.desk.table.pending
  {
    hide Sound, Rounds, Exact, RoundOk, IsRun, Apply, Enabled;
    StartOk(policy, queue);
    HistoryOk(policy, queue, steps);
    var s := After(policy, queue, steps);
    StartHasNoRound(policy, queue);
    RunKeepsRounds(Start(policy, queue), steps);
    DeskIsValid(s);
    var s' := Apply(s, step);
    if step.Begin? {
      BeginIsBeginRound(s, step.order);
      BeginKeepsRounds(s, step.order);
      BegunGoesOnPending(s, step.order);
    } else {
      TurnEndsKeepRounds(s, step);
      TurnEndIsEndOfTurn(s, step);
      TurnGoesOnPending(s, MarkAt(s, step));
    }
    if s'.session.link.lock.Free? {
      FinishedRoundIsExact(s');
    }
  }

  lemma StartHasNoRound(policy: Policy, queue: string)
    ensures Rounds(Start(policy, queue))
  {}

  predicate GoesOnPending(s: System) {
    s.session.link.lock.Held? ==>
      && s.session.link.lock.phase.Republishing? && s.session.link.lock.phase.work != []
      && s.session.link.lock.phase.work[0].id in s.session.desk.table.pending
  }

  lemma BegunGoesOnPending(s: System, order: seq<Id>)
    requires InPhase(s, Consuming(true)) && Lists(order, s.session.desk.parked)
    ensures GoesOnPending(BeginRound(s, order))
  {
    var work := Items(order, s.session.desk.parked);
    hide Lists, Items, ForgetSettled, NextPending, Skips;
    NextPendingIsSuffix(s.session.desk, work);
    ForgettingKeepsTable(s.session.desk, work);
  }

  lemma TurnGoesOnPending(s: System, mark: Mark)
    requires Sound(s) && InTurn(s)
    ensures GoesOnPending(EndOfTurn(s, mark))
  {
    RefusedIsDone(s, mark);
    hide Sound, EndOfTurn;
    assert Valid(s.session.desk.table) by { DeskIsValid(s); }
    NextPendingIsSuffix(EndOfTurn(s, mark).session.desk, s.session.link.lock.phase.work[1..]);
  }
}
