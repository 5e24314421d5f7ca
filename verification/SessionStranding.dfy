/** Calls an open session has left on an earlier connection: when they are republished, and
    when nobody is going to.  And whether anybody reads its replies. */
module SessionStranding {
  import opened Results
  import opened Correlation
  import opened SessionState
  import opened SessionRuns
  import opened SessionRepublish
  import opened SessionSafety
  import opened SessionParking
  import RpcServer

  /** A call's message, as it goes to this connection's reply queue. */
  function ToThisQueue(s: System, id: Id): Envelope
    requires id in s.calls
  {
    s.calls[id].envelope.(replyTo := s.session.link.queue)
  }

  /** A call that waits for its reply from an earlier connection. */
  predicate WaitsFromEarlier(s: System, id: Id) {
    && id in s.calls && id in s.session.desk.table.pending && s.calls[id].stage.Waiting?
    && s.calls[id].epoch < s.session.link.epoch
  }

  /** It has no message out that would bring its reply to this connection. */
  predicate IsBehind(s: System, id: Id) {
    WaitsFromEarlier(s, id) && ToThisQueue(s, id) !in s.net.published
  }

  /** The items a republish round has still to deal with. */
  predicate InWork(l: Link, id: Id) {
    && l.lock.Held? && l.lock.phase.Republishing?
    && exists i :: 0 <= i < |l.lock.phase.work| && l.lock.phase.work[i].id == id
  }

  /** On an open session every call left behind is in the work of the running round; when no
      round is running, there is none. */
  ghost predicate Attended(s: System) {
    Open(s.session.link) ==> forall id :: IsBehind(s, id) ==> InWork(s.session.link, id)
  }

  predicate GivesUp(s: System) {
    && s.session.link.lock.Held? && s.session.link.lock.owner.Auto? && s.session.link.task.Running?
    && s.session.link.task.failures + 1 >= s.session.policy.maxAttempts
  }

  /** An open session is listened to: its reply task is alive. */
  predicate Listened(l: Link) {
    Open(l) ==> l.listening
  }

  /** The reply task of an open session ends by an exception. */
  predicate Deafens(s: System, step: Step) {
    step.ReplyLoopFails? && Open(s.session.link)
  }

  /** The two ways to strand a call on an open session: the reconnection raises in the middle
      of its round, on a connection that is not lost, and does not give up; or a publish on
      an earlier connection is confirmed only now, too late for the round.  The second comes of
      the coarse schedule, in which a step may wait for as long as it likes: the event loop
      wakes tasks in order, so there the caller sees its confirm long before the next round. */
  ghost predicate Strands(s: System, step: Step)
    requires Enabled(s, step)
  {
    Open(s.session.link) &&
    match step
    case Raise => !GivesUp(s) && exists id :: IsBehind(s, id)
    case PublishConfirmed(id) =>
      && id in s.session.desk.table.pending && s.calls[id].epoch < s.session.link.epoch
      && ToThisQueue(s, id) !in s.net.published && !InWork(s.session.link, id)
    case _ => false
  }

  // ---------------------------------------------------------------- one step

  /** Nothing here makes a call fall behind. */
  predicate FallsNoFurther(s: System, s': System) {
    && s'.session.link.queue == s.session.link.queue && s'.session.link.epoch == s.session.link.epoch
    && s.net.published <= s'.net.published
    && forall id ::
         id in s'.calls && id in s'.session.desk.table.pending && s'.calls[id].epoch < s'.session.link.epoch ==>
         && id in s.calls && id in s.session.desk.table.pending
         && s'.calls[id].envelope == s.calls[id].envelope && s'.calls[id].epoch == s.calls[id].epoch
         && (s'.calls[id].stage.Waiting? ==> s.calls[id].stage.Waiting?)
  }

  lemma NoFurtherBehind(s: System, s': System, id: Id)
    requires FallsNoFurther(s, s') && IsBehind(s', id)
    ensures IsBehind(s, id)
  {}

  predicate SameWork(l: Link, l': Link) {
    if l.lock.Held? && l.lock.phase.Republishing?
    then l'.lock.Held? && l'.lock.phase.Republishing? && l'.lock.phase.work == l.lock.phase.work
    else true
  }

  lemma SameWorkAttends(s: System, s': System)
    requires Attended(s) && FallsNoFurther(s, s') && SameWork(s.session.link, s'.session.link)
    requires Open(s'.session.link) ==> Open(s.session.link)
    ensures Attended(s')
  {
    hide FallsNoFurther, IsBehind;
    forall id | Open(s'.session.link) && IsBehind(s', id)
      ensures InWork(s'.session.link, id)
    {
      NoFurtherBehind(s, s', id);
    }
  }

  /** Steps that leave the calls' standing and the round's work alone, or the session closed. */
  predicate IsQuiet(step: Step) {
    !IsTurnEnd(step) && !step.Raise? && !step.PublishConfirmed?
  }

  lemma QuietStepsLeaveWork(s: System, step: Step)
    requires Sound(s) && Enabled(s, step) && Linked(s.session.link) && IsQuiet(step)
    ensures var s' := Apply(s, step);
      !Open(s'.session.link) || (Open(s.session.link) && SameWork(s.session.link, s'.session.link))
  {
    hide Sound, Valid, ValidId, Replies, RpcServer.Serve, Settle, FailOutstanding;
  }

  lemma QuietStepsFallNoFurther(s: System, step: Step)
    requires Sound(s) && Enabled(s, step) && IsQuiet(step) && !step.StartFresh?
    ensures FallsNoFurther(s, Apply(s, step))
  {
    hide Sound, Valid, ValidId, Replies, RpcServer.Serve;
  }

  lemma QuietStepsAttend(s: System, step: Step)
    requires Sound(s) && Enabled(s, step) && Linked(s.session.link) && Attended(s) && IsQuiet(step)
    ensures Attended(Apply(s, step))
  {
    QuietStepsLeaveWork(s, step);
    if step.StartFresh? {
      StartFreshIsClosed(s, step);
    } else {
      QuietStepsFallNoFurther(s, step);
      hide Apply, Enabled, Sound, FallsNoFurther, SameWork, IsBehind, Linked;
      if Open(Apply(s, step).session.link) {
        SameWorkAttends(s, Apply(s, step));
      }
    }
  }

  lemma StartFreshIsClosed(s: System, step: Step)
    requires Sound(s) && Enabled(s, step) && step.StartFresh?
    ensures !Open(Apply(s, step).session.link)
  {
    hide Sound;
  }

  /** A confirm that comes late strands its call unless the round still has it. */
  lemma ConfirmAttends(s: System, id: Id)
    requires Sound(s) && Enabled(s, PublishConfirmed(id)) && Attended(s)
    ensures Attended(Apply(s, PublishConfirmed(id))) <==> !Strands(s, PublishConfirmed(id))
  {
    hide Sound;
    DeskIsValid(s);
    var s' := Apply(s, PublishConfirmed(id));
    assert forall x :: x != id ==> (IsBehind(s', x) <==> IsBehind(s, x));
    assert IsBehind(s', id) <==>
      (id in s.session.desk.table.pending && s.calls[id].epoch < s.session.link.epoch
       && ToThisQueue(s, id) !in s.net.published);
    hide IsBehind;
  }

  lemma RaiseAttends(s: System)
    requires Sound(s) && Enabled(s, Raise) && Linked(s.session.link) && Attended(s)
    ensures Attended(Apply(s, Raise)) <==> !Strands(s, Raise)
  {
    hide Sound;
    DeskIsValid(s);
    var s' := Apply(s, Raise);
    RaiseChanges(s);
    hide Apply, Enabled, Linked;
    if Open(s.session.link) && !GivesUp(s) {
      assert forall x :: IsBehind(s', x) <==> IsBehind(s, x);
    }
  }

  lemma RaiseChanges(s: System)
    requires Sound(s) && Enabled(s, Raise) && Linked(s.session.link)
    ensures var s' := Apply(s, Raise);
      && s'.session.link.(lock := s.session.link.lock, task := s.session.link.task) == s.session.link
      && s'.session.link.lock.Free? && s'.calls == s.calls && s'.net == s.net
      && (if GivesUp(s) then s'.session.desk.table.pending == map[] else s'.session.desk == s.session.desk)
  {
    hide Sound, Valid;
  }

  // ---------------------------------------------------------------- rounds

  lemma {:induction false} PendingStaysInWork(d: Desk, work: seq<Item>, i: nat) returns (j: nat)
    requires i < |work| && work[i].id in d.table.pending
    ensures var rest := NextPending(d, work); j < |rest| && rest[j] == work[i]
    decreases |work|
  {
    if work[0].id in d.table.pending {
      j := i;
    } else {
      j := PendingStaysInWork(d, work[1..], i - 1);
    }
  }

  /** A round begins with every call left behind in its work. */
  lemma BeginAttends(s: System, order: seq<Id>)
    requires Sound(s) && Enabled(s, Begin(order)) && Linked(s.session.link) && Sheltered(s)
    ensures Attended(Apply(s, Begin(order)))
  {
    BeginIsBeginRound(s, order);
    hide Apply, Enabled;
    var s' := BeginRound(s, order);
    var work := Items(order, s.session.desk.parked);
    ForgettingKeepsTable(s.session.desk, work);
    if Open(s'.session.link) {
      forall id | IsBehind(s', id)
        ensures InWork(s'.session.link, id)
      {
        assert CallOk(s.session.desk, s.net.handled, id, s.calls[id]);
        hide Sound, NextPending, ForgetSettled, Skips;
        assert id in s.session.desk.table.pending && id in s.session.desk.parked;
        var i :| 0 <= i < |order| && order[i] == id;
        var j := PendingStaysInWork(s.session.desk, work, i);
      }
    }
  }

  /** After a turn its own call is not behind any more: its message is out, or it is complete. */
  lemma TurnEndAttends(s: System, step: Step)
    requires Sound(s) && Enabled(s, step) && Linked(s.session.link) && Rounds(s) && Attended(s)
    requires step.TurnResume? || step.TurnBlocked?
    ensures Attended(Apply(s, step))
  {
    TurnEndIsEndOfTurn(s, step);
    TurnIsWritten(s, step);
    var mark := MarkAt(s, step);
    TurnedIsNotBehind(s, mark);
    RefusedIsDone(s, mark);
    EndFallsNoFurther(s, mark);
    hide *;
    WorkGoesOn(s, EndOfTurn(s, mark));
  }

  lemma WorkGoesOn(s: System, s': System)
    requires Attended(s) && InTurn(s) && FallsNoFurther(s, s') && (Open(s'.session.link) ==> Open(s.session.link))
    requires !IsBehind(s', s.session.link.lock.phase.work[0].id)
    requires var rest := NextPending(s'.session.desk, s.session.link.lock.phase.work[1..]);
      s'.session.link == if rest == [] then Finished(s.session.link, s.session.link.lock.owner)
                         else s.session.link.(lock := Held(s.session.link.lock.owner, Republishing(rest, Checked)))
    ensures Attended(s')
  {
    hide NextPending, FallsNoFurther, IsBehind;
    var work := s.session.link.lock.phase.work;
    if Open(s'.session.link) {
      forall id | IsBehind(s', id)
        ensures InWork(s'.session.link, id)
      {
        NoFurtherBehind(s, s', id);
        BehindIsPending(s', id);
        var i :| 0 <= i < |work| && work[i].id == id;
        assert i > 0 && work[1..][i - 1] == work[i];
        var j := PendingStaysInWork(s'.session.desk, work[1..], i - 1);
      }
    }
  }

  lemma BehindIsPending(s: System, id: Id)
    requires IsBehind(s, id)
    ensures id in s.session.desk.table.pending
  {}

  lemma EndFallsNoFurther(s: System, mark: Mark)
    requires Sound(s) && InTurn(s)
    ensures FallsNoFurther(s, EndOfTurn(s, mark))
    ensures Open(EndOfTurn(s, mark).session.link) ==> Open(s.session.link)
  {
    RefusedIsDone(s, mark);
    hide Sound, NextPending, ForgetSettled, Settle, Skips, Valid;
    assert Valid(s.session.desk.table) by { DeskIsValid(s); }
  }

  lemma TurnedIsNotBehind(s: System, mark: Mark)
    requires Sound(s) && InTurn(s) && !mark.Skipped?
    requires var work := s.session.link.lock.phase.work;
      RoundOk(s, work, if Wrote(mark) then [Readdressed(work[0], s.session.link.queue)] else [])
    ensures !IsBehind(EndOfTurn(s, mark), s.session.link.lock.phase.work[0].id)
  {
    var (item, queue) := (s.session.link.lock.phase.work[0], s.session.link.queue);
    RefusedIsDone(s, mark);
    assert ItemOk(item, s.calls) && CallOk(s.session.desk, s.net.handled, item.id, s.calls[item.id]);
    hide Sound, NextPending, ForgetSettled, Skips, Settle, Valid, SentBy;
    assert Valid(s.session.desk.table) by { DeskIsValid(s); }
    if mark.Confirmed? {
      assert s.round.sent[|s.round.sent| - 1] == Readdressed(item, queue);
      assert Readdressed(item, queue) == ToThisQueue(s, item.id);
      assert ToThisQueue(s, item.id) in s.net.published;
    }
  }

  /** One step, exactly: it leaves a call behind on an open session iff it strands one. */
  lemma LeftBehindIffStranded(s: System, step: Step)
    requires Sound(s) && Enabled(s, step) && Linked(s.session.link) && Rounds(s) && Sheltered(s) && Attended(s)
    requires Valid(s.session.desk.table)
    ensures Attended(Apply(s, step)) <==> !Strands(s, step)
  {
    hide Sound, Apply, Enabled, Linked, Rounds, Sheltered, Attended;
    match step {
      case PublishConfirmed(id) => ConfirmAttends(s, id);
      case Raise => RaiseAttends(s);
      case Begin(order) => BeginAttends(s, order);
      case TurnResume => TurnEndAttends(s, step);
      case TurnBlocked => TurnEndAttends(s, step);
      case _ => QuietStepsAttend(s, step);
    }
  }

  /** One step, exactly: an open session is left without a reply task iff that task ends by it. */
  lemma DeafIffLoopFails(s: System, step: Step)
    requires Sound(s) && Enabled(s, step) && Linked(s.session.link) && Listened(s.session.link)
    requires Valid(s.session.desk.table)
    ensures Listened(Apply(s, step).session.link) <==> !Deafens(s, step)
  {
    if step.Begin? {
      BeginIsBeginRound(s, step.order);
      hide Apply, Enabled, Sound, Valid, Lists, NextPending, ForgetSettled, Skips;
    } else if IsTurnEnd(step) {
      TurnEndsLink(s, step);
      hide Apply, Enabled, Sound, Valid, LastTurn, PendingAfter;
    } else {
      OtherStepsAreHeard(s, step);
    }
  }

  lemma OtherStepsAreHeard(s: System, step: Step)
    requires Sound(s) && Enabled(s, step) && Linked(s.session.link) && Listened(s.session.link)
    requires Valid(s.session.desk.table) && !IsTurnEnd(step)
    ensures Listened(Apply(s, step).session.link) <==> !Deafens(s, step)
  {
    hide Sound, Valid, ValidId, Replies, RpcServer.Serve, Settle, FailOutstanding;
  }

  /** What the end of the reply task does to the calls, whatever the policy: every pending one
      fails, and nothing stays parked, though the session stays open and no connection was
      lost. */
  lemma BrokenReplyLoopFailsAll(s: System)
    requires Sound(s) && Enabled(s, ReplyLoopFails) && Valid(s.session.desk.table)
    ensures var s' := Apply(s, ReplyLoopFails);
      && s'.session.desk.table.pending == map[] && s'.session.desk.parked == map[]
      && s'.session.link == s.session.link.(listening := false)
      && forall id :: id in s.session.desk.table.pending ==>
           ResultOfCall(s, id).None? && ResultOfCall(s', id) == Some(Failed(ConnectionLost))
  {
    DiscardLaw(s.session.desk.table, Failed(ConnectionLost));
    forall id | id in s.session.desk.table.pending
      ensures ResultOfCall(s, id).None? && s.session.desk.table.pending[id] == s.calls[id].handle
    {
      assert CallOk(s.session.desk, s.net.handled, id, s.calls[id]);
    }
  }

  // ---------------------------------------------------------------- runs

  /** No call is left behind, on a closed session or on an open one, and no open session is
      deaf. */
  ghost predicate Cared(s: System) {
    Sheltered(s) && Attended(s) && Listened(s.session.link)
  }

  ghost predicate Abandons(s: System, step: Step)
    requires Enabled(s, step)
  {
    LeavesBehind(s, step) || Strands(s, step) || Deafens(s, step)
  }

  ghost predicate AlwaysCared(s: System, steps: seq<Step>)
    requires Sound(s) && IsRun(s, steps)
    decreases |steps|
  {
    Cared(s) && (steps == [] || (StepOk(s, steps[0]); AlwaysCared(Apply(s, steps[0]), steps[1..])))
  }

  ghost predicate NeverAbandons(s: System, steps: seq<Step>)
    requires Sound(s) && IsRun(s, steps)
    decreases |steps|
  {
    steps == [] || (!Abandons(s, steps[0]) && (StepOk(s, steps[0]); NeverAbandons(Apply(s, steps[0]), steps[1..])))
  }

  lemma {:induction false} CaredIffNeverAbandons(s: System, steps: seq<Step>)
    requires Sound(s) && IsRun(s, steps) && Linked(s.session.link) && Hushed(s) && Rounds(s) && Cared(s)
    ensures AlwaysCared(s, steps) <==> NeverAbandons(s, steps)
    decreases |steps|
  {
    if steps != [] {
      hide Sound, Apply, Enabled, Sheltered, Attended, Listened, LeavesBehind, Strands, Deafens, Linked, Hushed, Rounds;
      DeskIsValid(s);
      StepOk(s, steps[0]);
      LeftBehindIffLate(s, steps[0]);
      LeftBehindIffStranded(s, steps[0]);
      DeafIffLoopFails(s, steps[0]);
      StepKeepsRounds(s, steps[0]);
      var s' := Apply(s, steps[0]);
      if Cared(s') {
        CaredIffNeverAbandons(s', steps[1..]);
      }
    }
  }

  ghost predicate NoCallLeftBehind(policy: Policy, queue: string, steps: seq<Step>)
    requires IsHistory(policy, queue, steps)
  {
    StartOk(policy, queue);
    AlwaysCared(Start(policy, queue), steps)
  }

  ghost predicate NoStepAbandons(policy: Policy, queue: string, steps: seq<Step>)
    requires IsHistory(policy, queue, steps)
  {
    StartOk(policy, queue);
    NeverAbandons(Start(policy, queue), steps)
  }

  /** The exact condition, over all runs: no call is ever left behind, whether the session is
      closed or open, and no open session is deaf, if and only if the automatic task never
      finishes late, no close that had to wait goes on over calls, no round is cut short on a
      live connection while it has calls left, no confirm comes too late for the round, and
      the reply task never fails while the session is open. */
  lemma LeftBehindExactly(policy: Policy, queue: string, steps: seq<Step>)
    requires IsHistory(policy, queue, steps)
    ensures NoCallLeftBehind(policy, queue, steps) <==> NoStepAbandons(policy, queue, steps)
  {
    StartOk(policy, queue);
    StartHasNoRound(policy, queue);
    StartIsCared(policy, queue);
    hide *;
    UnfoldHistory(policy, queue, steps);
    CaredIffNeverAbandons(Start(policy, queue), steps);
  }

  lemma UnfoldHistory(policy: Policy, queue: string, steps: seq<Step>)
    requires IsHistory(policy, queue, steps)
    ensures Sound(Start(policy, queue)) && IsRun(Start(policy, queue), steps)
    ensures NoCallLeftBehind(policy, queue, steps) <==> AlwaysCared(Start(policy, queue), steps)
    ensures NoStepAbandons(policy, queue, steps) <==> NeverAbandons(Start(policy, queue), steps)
  {
    hide AlwaysCared, NeverAbandons, IsRun;
    StartOk(policy, queue);
  }

  lemma StartIsCared(policy: Policy, queue: string)
    ensures Linked(Start(policy, queue).session.link) && Hushed(Start(policy, queue)) && Cared(Start(policy, queue))
  {}

  lemma {:induction false} CaredAtTheEnd(s: System, steps: seq<Step>)
    requires Sound(s) && IsRun(s, steps) && AlwaysCared(s, steps)
    ensures Cared(Run(s, steps))
    decreases |steps|
  {
    if steps != [] {
      hide Sound, Apply, Enabled, Cared;
      StepOk(s, steps[0]);
      CaredAtTheEnd(Apply(s, steps[0]), steps[1..]);
    }
  }

  /** What that means for a session at rest: after any run without such a step, on an open
      session without a reconnection under way, somebody reads the replies, and every call
      that still waits from an earlier connection has been sent again, with this
      connection's reply queue. */
  lemma RestingSessionHasRepublished(policy: Policy, queue: string, steps: seq<Step>)
    requires IsHistory(policy, queue, steps) && NoStepAbandons(policy, queue, steps)
    ensures var s := After(policy, queue, steps);
      Open(s.session.link) && s.session.link.lock.Free? ==>
        && s.session.link.listening
        && forall id :: WaitsFromEarlier(s, id) ==> ToThisQueue(s, id) in s.net.published
  {
    LeftBehindExactly(policy, queue, steps);
    var s := After(policy, queue, steps);
    CaredAfter(policy, queue, steps);
    hide NoStepAbandons, IsHistory, After;
    forall id | Open(s.session.link) && s.session.link.lock.Free? && WaitsFromEarlier(s, id)
      ensures ToThisQueue(s, id) in s.net.published
    {
      assert IsBehind(s, id) ==> InWork(s.session.link, id);
    }
  }

  lemma CaredAfter(policy: Policy, queue: string, steps: seq<Step>)
    requires IsHistory(policy, queue, steps) && NoCallLeftBehind(policy, queue, steps)
    ensures Cared(After(policy, queue, steps))
  {
    StartOk(policy, queue);
    hide Cared;
    CaredAtTheEnd(Start(policy, queue), steps);
  }

  // ---------------------------------------------------------------- a stranded call

  predicate AtRest(l: Link) {
    Open(l) && !l.lost && l.lock.Free? && l.task.Idle? && l.closing == 0
  }

  /** Under every park policy with a second attempt: the reconnection comes up, and raises
      before its one message is written, on a live connection.  The retry finds the session
      open and returns.  The call stays pending and parked, and nothing was sent. */
  lemma RaiseInRoundStrands(policy: Policy, queue: string, name: string, id: Id) returns (steps: seq<Step>)
    requires !policy.failOutstanding && policy.maxAttempts >= 2 && name != queue && ValidId(id)
    ensures IsHistory(policy, queue, steps)
    ensures var s := After(policy, queue, steps);
      && AtRest(s.session.link) && id in s.session.desk.parked && IsBehind(s, id)
      && s.round.sent == []
  {
    steps := CallWaits(policy, queue, id);
    steps := NextConnectionIsUp(policy, queue, name, steps);
    OneItemBegins(After(policy, queue, steps), id);
    hide Sound, Valid, IsRun, ValidId, Apply, Enabled;
    steps := Take(policy, queue, steps, Begin([id]));
    RoundIsCutShort(After(policy, queue, steps));
    steps := Take(policy, queue, steps, Raise);
    RetryFindsItOpen(After(policy, queue, steps));
    steps := Take(policy, queue, steps, Acquire(Auto));
  }

  lemma RoundIsCutShort(s: System)
    requires Valid(s.session.desk.table) && s.session.policy.maxAttempts >= 2 && s.session.link.task == Running(0)
    requires InTurn(s) && s.session.link.lock.owner.Auto? && s.session.link.lock.phase.turn.Checked?
    ensures Enabled(s, Raise)
    ensures Apply(s, Raise) == s.(session := s.session.(link := s.session.link.(lock := Free, task := Running(1))))
  {
    hide Valid;
  }

  lemma RetryFindsItOpen(s: System)
    requires Valid(s.session.desk.table) && Open(s.session.link)
    requires s.session.link.lock.Free? && s.session.link.task.Running?
    ensures Enabled(s, Acquire(Auto))
    ensures Apply(s, Acquire(Auto)) == s.(session := s.session.(link := s.session.link.(task := Idle)))
  {
    hide Valid;
  }

  /** Nobody will: until the connection is lost again or the session closed, the call gets no
      message to this connection's reply queue, however long it stays pending. */
  lemma {:induction false} StrandedUntilLoss(s: System, steps: seq<Step>, id: Id)
    requires Sound(s) && IsRun(s, steps) && AtRest(s.session.link) && IsBehind(s, id)
    requires forall i :: 0 <= i < |steps| ==> !steps[i].Lose? && !steps[i].Close?
    ensures var s' := Run(s, steps);
      AtRest(s'.session.link) && (id in s'.session.desk.table.pending ==> IsBehind(s', id))
    decreases |steps|
  {
    BehindIsCalled(s, id);
    if steps != [] {
      DeskIsValid(s);
      StepOk(s, steps[0]);
      StepKeepsCalls(s, steps[0]);
      StaysBehind(s, steps[0], id);
      hide Sound, Apply, Enabled, IsBehind, AtRest, Valid, ResultIn;
      var s' := Apply(s, steps[0]);
      if id in s'.session.desk.table.pending {
        StrandedUntilLoss(s', steps[1..], id);
      } else {
        DoneAndAtRest(s', steps[1..], id);
      }
    }
  }

  lemma BehindIsCalled(s: System, id: Id)
    requires IsBehind(s, id)
    ensures id in s.calls
  {}

  /** A step that is neither a loss nor a close leaves a session at rest as it is. */
  lemma RestsOn(s: System, step: Step)
    requires Sound(s) && Enabled(s, step) && Valid(s.session.desk.table)
    requires AtRest(s.session.link) && !step.Lose? && !step.Close?
    ensures var (link, link') := (s.session.link, Apply(s, step).session.link);
      && AtRest(link') && link'.queue == link.queue && link'.epoch == link.epoch
      && (link'.listening ==> link.listening) && (step.Deliver? ==> link.listening)
  {
    hide Sound, Valid, ValidId, Replies, RpcServer.Serve, Settle, FailOutstanding;
  }

  /** On it, only a caller's own first message goes out. */
  lemma OnlyOwnGoOut(s: System, step: Step)
    requires Sound(s) && Enabled(s, step) && Valid(s.session.desk.table)
    requires AtRest(s.session.link) && !step.Lose? && !step.Close?
    ensures Apply(s, step).net.published == s.net.published + if step.Write? then {s.calls[step.id].envelope} else {}
  {
    hide Sound, Valid, ValidId, Replies, RpcServer.Serve, Settle, FailOutstanding;
  }

  lemma WaitsOn(s: System, step: Step, id: Id)
    requires Sound(s) && Enabled(s, step) && Valid(s.session.desk.table)
    requires id in s.calls && s.calls[id].stage.Waiting? && id in Apply(s, step).session.desk.table.pending
    ensures id in s.session.desk.table.pending ==> id in Apply(s, step).calls && Apply(s, step).calls[id] == s.calls[id]
  {
    hide Sound, Valid, ValidId, Served, BeginRound, EndOfTurn, WriteTurn, OnConnectionLost, Enter, Raised, Renew,
      Closed, Declared, OnReply, FailOutstanding, ResultIn;
    if IsTurnEnd(step) || step.TurnWrite? {
      BeginAndTurnsKeepCalls(s, step);
    }
  }

  lemma BeginAndTurnsKeepCalls(s: System, step: Step)
    requires Sound(s) && Enabled(s, step) && Valid(s.session.desk.table)
    requires IsTurnEnd(step) || step.TurnWrite?
    ensures Apply(s, step).calls == s.calls
  {
    hide Sound, Valid;
  }

  lemma StaysBehind(s: System, step: Step, id: Id)
    requires Sound(s) && Enabled(s, step) && Valid(s.session.desk.table)
    requires AtRest(s.session.link) && !step.Lose? && !step.Close?
    ensures AtRest(Apply(s, step).session.link)
    ensures IsBehind(s, id) && id in Apply(s, step).session.desk.table.pending ==> IsBehind(Apply(s, step), id)
  {
    RestsOn(s, step);
    OnlyOwnGoOut(s, step);
    if IsBehind(s, id) && id in Apply(s, step).session.desk.table.pending {
      WaitsOn(s, step, id);
      OwnMessageIsAnother(s, step, id);
      hide Sound, Apply, Enabled, AtRest, Valid;
    }
  }

  lemma OwnMessageIsAnother(s: System, step: Step, id: Id)
    requires Sound(s) && Enabled(s, step) && id in s.calls && s.calls[id].stage.Waiting?
    ensures step.Write? ==> step.id in s.calls && s.calls[step.id].envelope != ToThisQueue(s, id)
  {
    if step.Write? {
      assert CallOk(s.session.desk, s.net.handled, step.id, s.calls[step.id]);
      assert CallOk(s.session.desk, s.net.handled, id, s.calls[id]);
    }
  }

  lemma {:induction false} DoneAndAtRest(s: System, steps: seq<Step>, id: Id)
    requires Sound(s) && IsRun(s, steps) && AtRest(s.session.link)
    requires id in s.calls && id !in s.session.desk.table.pending
    requires forall i :: 0 <= i < |steps| ==> !steps[i].Lose? && !steps[i].Close?
    ensures AtRest(Run(s, steps).session.link) && id !in Run(s, steps).session.desk.table.pending
    decreases |steps|
  {
    if steps != [] {
      DeskIsValid(s);
      DoneStaysDone(s, steps[0]);
      StaysBehind(s, steps[0], id);
      hide Sound, Apply, Enabled, IsBehind, AtRest, ResultIn;
      DoneAndAtRest(Apply(s, steps[0]), steps[1..], id);
    }
  }

  // ---------------------------------------------------------------- a deaf session

  /** Under every policy: the reply task ends by an exception, and the session takes on a call
      and has it confirmed. */
  lemma DeafSessionTakesCalls(policy: Policy, queue: string, id: Id) returns (steps: seq<Step>)
    requires ValidId(id)
    ensures steps == [ReplyLoopFails, Request(id, "", "work", "add", "[1,2]"), Write(id), PublishConfirmed(id)]
    ensures IsHistory(policy, queue, steps)
    ensures var s := After(policy, queue, steps);
      && AtRest(s.session.link) && !s.session.link.listening
      && id in s.session.desk.table.pending && id in s.calls && s.calls[id].stage.Waiting?
      && s.calls[id].epoch == s.session.link.epoch
  {
    hide Sound, Valid, ValidId, IsRun;
    StartsRight(policy, queue);
    steps := Take(policy, queue, [], ReplyLoopFails);
    steps := Take(policy, queue, steps, Request(id, "", "work", "add", "[1,2]"));
    steps := Take(policy, queue, steps, Write(id));
    steps := Take(policy, queue, steps, PublishConfirmed(id));
  }

  /** Nothing is delivered to it until the connection is lost or the session closed. */
  lemma {:induction false} DeafUntilLoss(s: System, steps: seq<Step>)
    requires Sound(s) && IsRun(s, steps) && AtRest(s.session.link) && !s.session.link.listening
    requires forall i :: 0 <= i < |steps| ==> !steps[i].Lose? && !steps[i].Close?
    ensures AtRest(Run(s, steps).session.link) && !Run(s, steps).session.link.listening
    ensures forall i :: 0 <= i < |steps| ==> !steps[i].Deliver?
    decreases |steps|
  {
    if steps != [] {
      DeskIsValid(s);
      StepOk(s, steps[0]);
      RestsOn(s, steps[0]);
      hide Sound, Apply, Enabled, AtRest, Valid;
      DeafUntilLoss(Apply(s, steps[0]), steps[1..]);
      assert forall i :: 0 < i < |steps| ==> steps[i] == steps[1..][i - 1];
    }
  }
}
