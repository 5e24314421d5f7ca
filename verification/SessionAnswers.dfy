/** What completes a call, and with what: the exact cause of every outcome, over all runs. */
module SessionAnswers {
  import opened Results
  import opened Correlation
  import opened SessionState
  import opened SessionRuns
  import opened SessionRepublish
  import opened SessionSafety
  import opened SessionParking
  import RpcServer

  /** The outcome a step gives to a call that is pending, if it completes it: the reply with its
      correlation id, the timeout of its wait, the failure of its publish, the refusal of its
      republished message, the loss of the connection where the policy fails what is
      outstanding, the last failed attempt to reconnect, an error in the reply loop, or the
      session's being closed. */
  function Cause(s: System, step: Step, id: Id): Option<Outcome>
    requires Enabled(s, step)
  {
    var (policy, link) := (s.session.policy, s.session.link);
    match step
    case Deliver(reply) => if reply.correlationId == Some(id) then Some(Answered(reply)) else None
    case TimeOut(x) => if x == id then Some(Failed(RequestTimeout)) else None
    case PublishFails(x, reason) => if x == id then Some(Failed(reason)) else None
    case TurnBlocked => if link.lock.phase.work[0].id == id then Some(Failed(ConnectionBlocked)) else None
    case TurnResume =>
      var answer := link.lock.phase.turn.answer.value;
      if link.lock.phase.work[0].id != id || answer.Acked? then None
      else Some(Failed(if answer.Nacked? then PublishNack else PublishReturned))
    case Lose => if policy.failOutstanding && !link.lossHandled then Some(Failed(ConnectionLost)) else None
    case Acquire(_) => if policy.failOutstanding && !Open(link) then Some(Failed(ConnectionLost)) else None
    case Raise =>
      if link.lock.owner.Auto? && link.task.Running? && link.task.failures + 1 >= policy.maxAttempts
      then Some(Failed(ConnectionLost)) else None
    case ReplyLoopFails => Some(Failed(ConnectionLost))
    case Close(_) => Some(Failed(SessionClosed))
    case _ => None
  }

  /** A pending call completes by a step iff the step has a cause for it, with that outcome; it
      is then neither pending nor parked.  Otherwise it stays pending. */
  predicate Follows(s: System, step: Step, s': System, id: Id)
    requires Enabled(s, step) && id in s.calls
  {
    var cause := Cause(s, step, id);
    && id in s'.calls
    && (id in s'.session.desk.table.pending <==> cause.None?)
    && ResultOfCall(s', id) == cause
    && (cause.Some? ==> id !in s'.session.desk.parked)
  }

  // ---------------------------------------------------------------- one step

  lemma PendingCall(s: System, id: Id)
    requires Sound(s) && id in s.session.desk.table.pending
    ensures id in s.calls && s.session.desk.table.pending[id] == s.calls[id].handle < |s.session.desk.table.futures|
    ensures Valid(s.session.desk.table) && ResultOfCall(s, id).None?
  {
    DeskIsValid(s);
    assert CallOk(s.session.desk, s.net.handled, id, s.calls[id]);
  }

  lemma Settling(s: System, id: Id, x: Id, outcome: Outcome)
    requires Sound(s) && id in s.session.desk.table.pending
    ensures Valid(s.session.desk.table)
    ensures var d := Settle(s.session.desk, x, outcome);
      && (id in d.table.pending <==> x != id) && (x == id ==> id !in d.parked)
      && id in s.calls && ResultIn(d, s.calls, id) == if x == id then Some(outcome) else None
  {
    PendingCall(s, id);
    FinishLaw(s.session.desk.table, x, outcome);
    hide Valid, Finish;
    if x in s.session.desk.table.pending && x != id {
      PendingCall(s, x);
      HandlesDiffer(s, x, id);
    }
  }

  lemma HandlesDiffer(s: System, x: Id, id: Id)
    requires Sound(s) && x in s.session.desk.table.pending && id in s.session.desk.table.pending && x != id
    ensures s.session.desk.table.pending[x] != s.session.desk.table.pending[id]
  {}

  lemma FailingAll(s: System, id: Id, reason: Reason)
    requires Sound(s) && id in s.session.desk.table.pending
    ensures Valid(s.session.desk.table)
    ensures var d := FailOutstanding(s.session.desk, reason);
      && id !in d.table.pending && id !in d.parked
      && id in s.calls && ResultIn(d, s.calls, id) == Some(Failed(reason))
  {
    PendingCall(s, id);
    DiscardLaw(s.session.desk.table, Failed(reason));
  }

  /** The steps that leave the calls' futures alone. */
  predicate LeavesFutures(step: Step) {
    step.Write? || step.PublishConfirmed? || step.PublishRaises? || step.Serve? || MovesOn(step) || step.CloseGoesOn?
  }

  lemma MovesLeaveFutures(s: System, step: Step, id: Id)
    requires Sound(s) && Enabled(s, step) && id in s.session.desk.table.pending && (MovesOn(step) || step.CloseGoesOn?)
    ensures Valid(s.session.desk.table) && id in s.calls && Follows(s, step, Apply(s, step), id)
  {
    PendingCall(s, id);
    MovesLeaveDesk(s, step);
    MovesHaveNoCause(s, step, id);
    hide Sound, Valid, Apply, Enabled, Cause;
  }

  lemma MovesHaveNoCause(s: System, step: Step, id: Id)
    requires Enabled(s, step) && (MovesOn(step) || step.CloseGoesOn?)
    ensures Cause(s, step, id).None?
  {}

  lemma MovesLeaveDesk(s: System, step: Step)
    requires Enabled(s, step) && Valid(s.session.desk.table) && (MovesOn(step) || step.CloseGoesOn?)
    ensures Apply(s, step).session.desk == s.session.desk && Apply(s, step).calls == s.calls
  {
    hide Valid;
  }

  lemma OtherFuturesStay(s: System, step: Step, id: Id)
    requires Sound(s) && Enabled(s, step) && id in s.session.desk.table.pending && LeavesFutures(step)
    ensures Valid(s.session.desk.table) && id in s.calls && Follows(s, step, Apply(s, step), id)
  {
    PendingCall(s, id);
    if MovesOn(step) || step.CloseGoesOn? {
      MovesLeaveFutures(s, step, id);
      hide *;
    } else {
      CallersLeaveFutures(s, step, id);
      hide *;
    }
  }

  lemma CallersLeaveFutures(s: System, step: Step, id: Id)
    requires Sound(s) && Enabled(s, step) && id in s.session.desk.table.pending
    requires step.Write? || step.PublishConfirmed? || step.PublishRaises? || step.Serve?
    ensures Valid(s.session.desk.table) && id in s.calls && Follows(s, step, Apply(s, step), id)
  {
    PendingCall(s, id);
    hide Sound, Valid, Served;
  }

  lemma RequestFollows(s: System, step: Step, id: Id)
    requires Sound(s) && Enabled(s, step) && id in s.session.desk.table.pending && step.Request?
    ensures Valid(s.session.desk.table) && id in s.calls && Follows(s, step, Apply(s, step), id)
  {
    PendingCall(s, id);
    hide Sound, Valid, ValidId;
  }

  lemma FailureFollows(s: System, step: Step, id: Id)
    requires Sound(s) && Enabled(s, step) && id in s.session.desk.table.pending && (step.PublishFails? || step.TimeOut?)
    ensures Valid(s.session.desk.table) && id in s.calls && Follows(s, step, Apply(s, step), id)
  {
    Settling(s, id, step.id, Failed(if step.TimeOut? then RequestTimeout else step.reason));
    hide Sound, Valid, Settle;
  }

  lemma DeliverFollows(s: System, step: Step, id: Id)
    requires Sound(s) && Enabled(s, step) && id in s.session.desk.table.pending && step.Deliver?
    ensures Valid(s.session.desk.table) && id in s.calls && Follows(s, step, Apply(s, step), id)
  {
    PendingCall(s, id);
    if step.reply.correlationId.Some? {
      Settling(s, id, step.reply.correlationId.value, Answered(step.reply));
    }
    hide Sound, Valid, Settle;
  }

  /** The steps that fail everything outstanding, if the policy or the count of attempts says so. */
  predicate MayFailAll(step: Step) {
    step.Lose? || step.ReplyLoopFails? || step.Acquire? || step.Raise? || step.Close?
  }

  lemma LossFollows(s: System, step: Step, id: Id)
    requires Sound(s) && Enabled(s, step) && id in s.session.desk.table.pending && MayFailAll(step)
    ensures Valid(s.session.desk.table) && id in s.calls && Follows(s, step, Apply(s, step), id)
  {
    PendingCall(s, id);
    FailingAll(s, id, if step.Close? then SessionClosed else ConnectionLost);
    FailsAllOrNothing(s, step, id);
    hide Sound, Valid, Apply, Enabled, Cause, FailOutstanding;
  }

  lemma FailsAllOrNothing(s: System, step: Step, id: Id)
    requires Enabled(s, step) && Valid(s.session.desk.table) && MayFailAll(step)
    ensures var (reason, s') := (if step.Close? then SessionClosed else ConnectionLost, Apply(s, step));
      && s'.calls == s.calls && (Cause(s, step, id).Some? ==> Cause(s, step, id) == Some(Failed(reason)))
      && s'.session.desk
           == if Cause(s, step, id).Some? then FailOutstanding(s.session.desk, reason) else s.session.desk
  {
    hide Valid, FailOutstanding;
  }

  lemma TurnEndFollows(s: System, step: Step, id: Id)
    requires Sound(s) && Enabled(s, step) && id in s.session.desk.table.pending && IsTurnEnd(step)
    ensures Valid(s.session.desk.table) && id in s.calls && Follows(s, step, Apply(s, step), id)
  {
    PendingCall(s, id);
    if step.Begin? {
      BeginIsBeginRound(s, step.order);
      BeginLeavesTable(s, step.order);
      hide Sound, Valid, Apply, BeginRound, Lists;
    } else {
      TurnEndIsEndOfTurn(s, step);
      TurnTable(s, MarkAt(s, step), id);
      MarkIsCause(s, step, id);
      hide Sound, Valid, Apply, Enabled, EndOfTurn, Settle, MarkAt, Cause;
    }
  }

  lemma MarkIsCause(s: System, step: Step, id: Id)
    requires Enabled(s, step) && (step.TurnResume? || step.TurnBlocked?)
    ensures var (mark, x) := (MarkAt(s, step), s.session.link.lock.phase.work[0].id);
      Cause(s, step, id) == if mark.Refused? && x == id then Some(Failed(mark.reason)) else None
  {}

  lemma BeginLeavesTable(s: System, order: seq<Id>)
    requires s.session.link.lock.Held? && Lists(order, s.session.desk.parked)
    ensures var s' := BeginRound(s, order); s'.session.desk.table == s.session.desk.table && s'.calls == s.calls
  {
    hide NextPending, ForgetSettled, Skips;
    ForgettingKeepsTable(s.session.desk, Items(order, s.session.desk.parked));
  }

  lemma TurnTable(s: System, mark: Mark, id: Id)
    requires Sound(s) && InTurn(s) && id in s.session.desk.table.pending && Valid(s.session.desk.table)
    ensures var (s', x) := (EndOfTurn(s, mark), s.session.link.lock.phase.work[0].id);
      && s'.calls == s.calls && id in s.calls
      && (id in s'.session.desk.table.pending <==> !(mark.Refused? && x == id))
      && ResultIn(s'.session.desk, s.calls, id)
           == (if mark.Refused? && x == id then Some(Failed(mark.reason)) else None)
      && (mark.Refused? && x == id ==> id !in s'.session.desk.parked)
  {
    PendingCall(s, id);
    var work := s.session.link.lock.phase.work;
    var d := s.session.desk;
    if mark.Refused? {
      Settling(s, id, work[0].id, Failed(mark.reason));
      d := Settle(d, work[0].id, Failed(mark.reason));
    }
    hide Sound, Valid, Settle, NextPending, Skips;
    ForgettingKeepsTable(d, work[1..]);
    ForgettingForgets(d, work[1..], id);
  }

  lemma {:induction false} ForgettingForgets(d: Desk, work: seq<Item>, id: Id)
    ensures id !in d.parked ==> id !in ForgetSettled(d, work).parked
    decreases |work|
  {
    if work != [] && work[0].id !in d.table.pending {
      ForgettingForgets(Forget(d, work[0].id), work[1..], id);
    }
  }

  /** One step, exactly. */
  lemma StepFollowsCause(s: System, step: Step, id: Id)
    requires Sound(s) && Enabled(s, step) && id in s.session.desk.table.pending
    ensures Valid(s.session.desk.table) && id in s.calls && Follows(s, step, Apply(s, step), id)
  {
    hide Sound, Enabled, Apply, Valid, Follows;
    if IsTurnEnd(step) {
      TurnEndFollows(s, step, id);
    } else if LeavesFutures(step) {
      OtherFuturesStay(s, step, id);
    } else if step.Request? {
      RequestFollows(s, step, id);
    } else if step.Deliver? {
      DeliverFollows(s, step, id);
    } else if step.PublishFails? || step.TimeOut? {
      FailureFollows(s, step, id);
    } else {
      LossFollows(s, step, id);
    }
  }

  /** What a reply does, in particular: it answers the call with its correlation id if that is
      pending, and touches no other call. */
  lemma RepliesAnswer(s: System, reply: Reply, id: Id)
    requires Sound(s) && Enabled(s, Deliver(reply)) && id in s.calls
    ensures Valid(s.session.desk.table)
    ensures var s' := Apply(s, Deliver(reply));
      && id in s'.calls
      && (id in s.session.desk.table.pending && reply.correlationId == Some(id) ==>
            ResultOfCall(s', id) == Some(Answered(reply))
            && id !in s'.session.desk.table.pending && id !in s'.session.desk.parked)
      && (!(id in s.session.desk.table.pending && reply.correlationId == Some(id)) ==>
            ResultOfCall(s', id) == ResultOfCall(s, id)
            && (id in s'.session.desk.table.pending <==> id in s.session.desk.table.pending))
  {
    DeskIsValid(s);
    if id in s.session.desk.table.pending {
      PendingCall(s, id);
      StepFollowsCause(s, Deliver(reply), id);
    } else {
      DoneStaysDone(s, Deliver(reply));
    }
    hide Sound, Enabled, Apply, Valid, ResultIn;
  }

  // ---------------------------------------------------------------- runs

  /** A call that is not made yet, or not complete. */
  predicate IsOpenCall(s: System, id: Id) {
    id !in s.calls || id in s.session.desk.table.pending
  }

  /** The i-th step of a run completes this call, with this outcome. */
  ghost predicate CompletesAt(s: System, steps: seq<Step>, id: Id, o: Outcome, i: nat)
    requires Sound(s) && IsRun(s, steps)
  {
    i < |steps| && (PrefixRuns(s, steps, i);
      var before := Run(s, steps[..i]);
      id in before.session.desk.table.pending && Cause(before, steps[i], id) == Some(o))
  }

  lemma {:induction false} PrefixRuns(s: System, steps: seq<Step>, i: nat)
    requires Sound(s) && IsRun(s, steps) && i <= |steps|
    ensures IsRun(s, steps[..i]) && Sound(Run(s, steps[..i]))
    ensures i < |steps| ==> Enabled(Run(s, steps[..i]), steps[i])
    decreases |steps|
  {
    hide Sound, Apply, Enabled;
    if i > 0 {
      DeskIsValid(s);
      StepOk(s, steps[0]);
      PrefixRuns(Apply(s, steps[0]), steps[1..], i - 1);
      assert steps[..i][1..] == steps[1..][..i - 1] && steps[..i][0] == steps[0];
    }
  }

  lemma CompletesLater(s: System, steps: seq<Step>, id: Id, o: Outcome, i: nat)
    requires Sound(s) && IsRun(s, steps) && 0 < i < |steps|
    ensures Enabled(s, steps[0]) && Valid(s.session.desk.table)
    ensures Sound(Apply(s, steps[0])) && IsRun(Apply(s, steps[0]), steps[1..])
    ensures CompletesAt(s, steps, id, o, i) <==> CompletesAt(Apply(s, steps[0]), steps[1..], id, o, i - 1)
  {
    hide Sound, Apply, Enabled, Cause;
    DeskIsValid(s);
    StepOk(s, steps[0]);
    PrefixRuns(s, steps, i);
    PrefixRuns(Apply(s, steps[0]), steps[1..], i - 1);
    assert steps[..i][1..] == steps[1..][..i - 1] && steps[..i][0] == steps[0] && steps[1..][i - 1] == steps[i];
  }

  /** A complete call completes no more. */
  lemma {:induction false} DoneCompletesNoMore(s: System, steps: seq<Step>, id: Id, o: Outcome, i: nat)
    requires Sound(s) && IsRun(s, steps) && id in s.calls && id !in s.session.desk.table.pending
    ensures id in Run(s, steps).calls && id !in Run(s, steps).session.desk.table.pending
    ensures ResultOfCall(Run(s, steps), id) == ResultOfCall(s, id)
    ensures !CompletesAt(s, steps, id, o, i)
    decreases |steps|
  {
    hide Sound, Apply, Enabled, Cause, ResultIn;
    if steps != [] {
      DeskIsValid(s);
      DoneStaysDone(s, steps[0]);
      var s1 := Apply(s, steps[0]);
      DoneCompletesNoMore(s1, steps[1..], id, o, if i > 0 then i - 1 else 0);
      if 0 < i < |steps| {
        CompletesLater(s, steps, id, o, i);
      } else if i == 0 {
        assert steps[..0] == [];
      }
    }
  }

  /** A step that does not complete an open call leaves it open, and without a result. */
  lemma OpenCallsStep(s: System, step: Step, id: Id)
    requires Sound(s) && Enabled(s, step) && IsOpenCall(s, id)
    ensures Valid(s.session.desk.table)
    ensures id !in s.session.desk.table.pending ==> IsOpenCall(Apply(s, step), id)
  {
    DeskIsValid(s);
    hide Sound, Valid, ValidId;
    if id !in s.calls && id in Apply(s, step).calls {
      OnlyRequestsAreNew(s, step, id);
    }
  }

  lemma OnlyRequestsAreNew(s: System, step: Step, id: Id)
    requires Sound(s) && Enabled(s, step) && Valid(s.session.desk.table)
    requires id !in s.calls && id in Apply(s, step).calls
    ensures id in Apply(s, step).session.desk.table.pending
  {
    hide Sound, Valid, ValidId, Served, BeginRound, EndOfTurn, WriteTurn;
    if IsTurnEnd(step) || step.TurnWrite? {
      TurnsKeepCalls(s, step);
    }
  }

  lemma TurnsKeepCalls(s: System, step: Step)
    requires Sound(s) && Enabled(s, step) && Valid(s.session.desk.table) && (IsTurnEnd(step) || step.TurnWrite?)
    ensures Apply(s, step).calls == s.calls
  {
    hide Sound, Valid;
  }

  lemma {:induction false} OutcomeByRun(s: System, steps: seq<Step>, id: Id, o: Outcome)
    requires Sound(s) && IsRun(s, steps) && IsOpenCall(s, id)
    ensures id in Run(s, steps).calls && ResultOfCall(Run(s, steps), id) == Some(o)
       <==> exists i :: 0 <= i < |steps| && CompletesAt(s, steps, id, o, i)
    decreases |steps|
  {
    hide Sound, Apply, Enabled, Cause, ResultIn;
    if steps == [] {
      OpenHasNoResult(s, id);
    } else {
      DeskIsValid(s);
      StepOk(s, steps[0]);
      var s1 := Apply(s, steps[0]);
      assert steps[..0] == [];
      if id in s.session.desk.table.pending {
        StepFollowsCause(s, steps[0], id);
      } else {
        OpenCallsStep(s, steps[0], id);
      }
      if IsOpenCall(s1, id) {
        OutcomeByRun(s1, steps[1..], id, o);
        forall i | 0 < i < |steps|
          ensures CompletesAt(s, steps, id, o, i) <==> CompletesAt(s1, steps[1..], id, o, i - 1)
        {
          CompletesLater(s, steps, id, o, i);
        }
        if j :| 0 <= j < |steps[1..]| && CompletesAt(s1, steps[1..], id, o, j) {
          assert CompletesAt(s, steps, id, o, j + 1);
        }
      } else {
        forall i | 0 < i < |steps|
          ensures !CompletesAt(s, steps, id, o, i)
        {
          CompletesLater(s, steps, id, o, i);
          DoneCompletesNoMore(s1, steps[1..], id, o, i - 1);
        }
        DoneCompletesNoMore(s1, steps[1..], id, o, 0);
        assert CompletesAt(s, steps, id, o, 0) <==> Cause(s, steps[0], id) == Some(o);
      }
    }
  }

  lemma OpenHasNoResult(s: System, id: Id)
    requires Sound(s) && IsOpenCall(s, id)
    ensures id in s.calls ==> ResultOfCall(s, id).None?
  {
    if id in s.calls {
      PendingCall(s, id);
    }
  }

  /** Before the i-th step of a history the call is pending. */
  ghost predicate PendsBefore(policy: Policy, queue: string, steps: seq<Step>, id: Id, i: nat)
    requires IsHistory(policy, queue, steps)
  {
    i < |steps| && (HistoryRuns(policy, queue, steps, i);
      id in After(policy, queue, steps[..i]).session.desk.table.pending)
  }

  ghost function CauseAt(policy: Policy, queue: string, steps: seq<Step>, id: Id, i: nat): Option<Outcome>
    requires IsHistory(policy, queue, steps) && i < |steps|
  {
    HistoryRuns(policy, queue, steps, i);
    Cause(After(policy, queue, steps[..i]), steps[i], id)
  }

  lemma HistoryRuns(policy: Policy, queue: string, steps: seq<Step>, i: nat)
    requires IsHistory(policy, queue, steps) && i <= |steps|
    ensures IsHistory(policy, queue, steps[..i]) && Sound(After(policy, queue, steps[..i]))
    ensures i < |steps| ==> Enabled(After(policy, queue, steps[..i]), steps[i])
  {
    StartOk(policy, queue);
    hide Sound, Enabled, IsRun, Run;
    PrefixRuns(Start(policy, queue), steps, i);
  }

  /** How a call ends, over all runs and for every outcome: with this one iff at some point,
      while it was pending, a step came with that cause. */
  lemma OutcomeByHistory(policy: Policy, queue: string, steps: seq<Step>, id: Id, o: Outcome)
    requires IsHistory(policy, queue, steps)
    ensures var s := After(policy, queue, steps);
      id in s.calls && ResultOfCall(s, id) == Some(o)
      <==> exists i :: 0 <= i < |steps| && PendsBefore(policy, queue, steps, id, i)
                       && CauseAt(policy, queue, steps, id, i) == Some(o)
  {
    StartOk(policy, queue);
    OutcomeByRun(Start(policy, queue), steps, id, o);
    hide Sound, Enabled, Cause, ResultIn, IsRun, Run;
    forall i | 0 <= i < |steps|
      ensures PendsBefore(policy, queue, steps, id, i) && CauseAt(policy, queue, steps, id, i) == Some(o)
         <==> CompletesAt(Start(policy, queue), steps, id, o, i)
    {
      HistoryRuns(policy, queue, steps, i);
    }
  }

  /** In particular: a call is answered with a reply iff that reply was delivered, with the
      call's correlation id, while the call was pending. */
  lemma AnsweredIffDelivered(policy: Policy, queue: string, steps: seq<Step>, id: Id, reply: Reply)
    requires IsHistory(policy, queue, steps)
    ensures var s := After(policy, queue, steps);
      id in s.calls && ResultOfCall(s, id) == Some(Answered(reply))
      <==> reply.correlationId == Some(id)
           && exists i :: 0 <= i < |steps| && PendsBefore(policy, queue, steps, id, i) && steps[i] == Deliver(reply)
  {
    OutcomeByHistory(policy, queue, steps, id, Answered(reply));
    forall i | 0 <= i < |steps|
      ensures CauseAt(policy, queue, steps, id, i) == Some(Answered(reply))
         <==> steps[i] == Deliver(reply) && reply.correlationId == Some(id)
    {
      HistoryRuns(policy, queue, steps, i);
      OnlyRepliesAnswer(After(policy, queue, steps[..i]), steps[i], id, reply);
    }
    hide IsHistory, After, ResultIn, PendsBefore, CauseAt;
  }

  lemma OnlyRepliesAnswer(s: System, step: Step, id: Id, reply: Reply)
    requires Enabled(s, step)
    ensures Cause(s, step, id) == Some(Answered(reply)) <==> step == Deliver(reply) && reply.correlationId == Some(id)
  {}

  // ---------------------------------------------------------------- what is sent

  /** A call's envelope is what its caller asked for. */
  predicate AsRequested(call: Call, step: Step) {
    step.Request? &&
    call.envelope == Envelope(step.exchange, step.routingKey,
                              RpcServer.Request(step.methodName, step.params, step.id),
                              call.envelope.replyTo, step.id)
  }

  lemma NewCallsAreRequested(s: System, step: Step, id: Id)
    requires Sound(s) && Enabled(s, step) && Valid(s.session.desk.table)
    requires id !in s.calls && id in Apply(s, step).calls
    ensures AsRequested(Apply(s, step).calls[id], step) && step.id == id
    ensures Some(Apply(s, step).calls[id].envelope.replyTo) == s.session.link.replyQueue
  {
    hide Sound, Valid, ValidId, Served, BeginRound, EndOfTurn, WriteTurn;
    if IsTurnEnd(step) || step.TurnWrite? {
      TurnsKeepCalls(s, step);
    }
  }

  lemma {:induction false} CallsAreAsRequested(s: System, steps: seq<Step>, id: Id)
    requires Sound(s) && IsRun(s, steps) && id !in s.calls && id in Run(s, steps).calls
    ensures exists i :: 0 <= i < |steps| && steps[i].Request? && steps[i].id == id
                        && AsRequested(Run(s, steps).calls[id], steps[i])
    decreases |steps|
  {
    hide Sound, Apply, Enabled, AsRequested;
    DeskIsValid(s);
    StepOk(s, steps[0]);
    var s1 := Apply(s, steps[0]);
    if id in s1.calls {
      NewCallsAreRequested(s, steps[0], id);
      EnvelopeIsKept(s1, steps[1..], id);
      SameEnvelope(s1.calls[id], Run(s, steps).calls[id], steps[0]);
    } else {
      CallsAreAsRequested(s1, steps[1..], id);
      var j :| 0 <= j < |steps[1..]| && steps[1..][j].Request? && steps[1..][j].id == id
               && AsRequested(Run(s1, steps[1..]).calls[id], steps[1..][j]);
      assert steps[j + 1] == steps[1..][j];
    }
  }

  lemma SameEnvelope(call: Call, call': Call, step: Step)
    requires AsRequested(call, step) && call'.envelope == call.envelope
    ensures step.Request? && AsRequested(call', step)
  {}

  lemma EnvelopeIsKept(s: System, steps: seq<Step>, id: Id)
    requires Sound(s) && IsRun(s, steps) && id in s.calls
    ensures id in Run(s, steps).calls && Run(s, steps).calls[id].envelope == s.calls[id].envelope
  {
    hide Sound, Apply, Enabled;
    assert [] + steps == steps;
    LaterKeeps(s, [], steps);
  }

  /** Over all runs: every message with the broker, first sent or republished, is what some
      caller asked for under that id: exchange, routing key, method, parameters and id.  Only
      the reply queue may differ. */
  lemma MessagesAreAsRequested(policy: Policy, queue: string, steps: seq<Step>, m: Envelope)
    requires IsHistory(policy, queue, steps) && m in After(policy, queue, steps).net.published
    ensures exists i :: 0 <= i < |steps| && steps[i].Request? && steps[i].id == m.correlationId
              && m == Envelope(steps[i].exchange, steps[i].routingKey,
                               RpcServer.Request(steps[i].methodName, steps[i].params, steps[i].id),
                               m.replyTo, steps[i].id)
  {
    MessagesPassTheServersCheck(policy, queue, steps, m);
    StartOk(policy, queue);
    NoCallsAtStart(policy, queue);
    hide Sound, IsRun, Run;
    CallsAreAsRequested(Start(policy, queue), steps, m.correlationId);
  }

  lemma NoCallsAtStart(policy: Policy, queue: string)
    ensures Start(policy, queue).calls == map[]
  {}

  // ---------------------------------------------------------------- reply queues

  /** A name the step gives to a new connection's reply queue is new; names are never given up. */
  lemma NamesAreNew(s: System, step: Step)
    requires Sound(s) && Enabled(s, step) && Valid(s.session.desk.table)
    ensures s.session.link.used <= Apply(s, step).session.link.used
    ensures step.StartFresh? ==> step.name !in s.session.link.used && step.name in Apply(s, step).session.link.used
  {
    hide Sound, Valid, Settle, FailOutstanding, BeginRound, EndOfTurn, WriteTurn, Served;
    if IsTurnEnd(step) {
      TurnEndsLink(s, step);
    } else if step.TurnWrite? {
      WritingKeepsNames(s);
    }
  }

  lemma WritingKeepsNames(s: System)
    requires InTurn(s)
    ensures WriteTurn(s).session.link.used == s.session.link.used
  {}

  /** Every connection has a reply queue of its own, in every run. */
  lemma {:induction false} QueuesAreDistinct(s: System, steps: seq<Step>, i: nat, name: string)
    requires Sound(s) && IsRun(s, steps) && i < |steps| && steps[i] == StartFresh(name)
    ensures name !in s.session.link.used
    ensures forall j :: 0 <= j < i ==> steps[j] != StartFresh(name)
    decreases |steps|
  {
    hide Sound, Apply, Enabled;
    DeskIsValid(s);
    StepOk(s, steps[0]);
    NamesAreNew(s, steps[0]);
    if i > 0 {
      QueuesAreDistinct(Apply(s, steps[0]), steps[1..], i - 1, name);
      assert forall j :: 0 < j < i ==> steps[j] == steps[1..][j - 1];
    }
  }

  // ---------------------------------------------------------------- a call that is answered

  /** An ordinary call: sent, confirmed, served, and answered with what the handler made of it. */
  lemma CallIsAnswered(policy: Policy, queue: string, id: Id, value: string) returns (steps: seq<Step>)
    requires ValidId(id) && queue != ""
    ensures IsHistory(policy, queue, steps)
    ensures var s := After(policy, queue, steps);
      && id in s.calls && ResultOfCall(s, id) == Some(Answered(Reply(queue, Some(id), RpcServer.ResultOf(value, id))))
      && s.session.desk.table.pending == map[] && s.session.desk.parked == map[]
  {
    ValidIdIsNotEmpty(id);
    OpenAtStart(policy, queue);
    steps := CallWaits(policy, queue, id);
    HistoryOk(policy, queue, steps);
    var s := After(policy, queue, steps);
    assert CallOk(s.session.desk, s.net.handled, id, s.calls[id]);
    hide Sound, IsHistory, After, ResultIn, ValidId, CallOk;
    steps := ServedAndAnswered(policy, queue, steps, id, s.calls[id].envelope, value);
  }

  /** Under every park policy, a call whose connection is lost after its publish is confirmed, and
      before any reply, is answered on the next connection. */
  lemma ParkedCallIsAnswered(policy: Policy, queue: string, name: string, id: Id, value: string)
    returns (steps: seq<Step>)
    requires !policy.failOutstanding && ValidId(id) && name != queue && name != ""
    ensures IsHistory(policy, queue, steps)
    ensures var s := After(policy, queue, steps);
      && id in s.calls && s.calls[id].envelope.replyTo == queue
      && ResultOfCall(s, id) == Some(Answered(Reply(name, Some(id), RpcServer.ResultOf(value, id))))
      && s.session.link.epoch == 1 && s.session.desk.table.pending == map[] && s.session.desk.parked == map[]
  {
    ValidIdIsNotEmpty(id);
    steps := CallWaits(policy, queue, id);
    FirstEpoch(policy, queue);
    steps := NextConnectionIsUp(policy, queue, name, steps);
    HistoryOk(policy, queue, steps);
    var s := After(policy, queue, steps);
    OwnEnvelopeIsParked(s, id);
    OneItemBegins(s, id);
    var m := Readdressed(Item(id, s.session.desk.parked[id]), name);
    hide Sound, Valid, IsHistory, After, Apply, Enabled, ValidId, ResultIn;
    steps := Take(policy, queue, steps, Begin([id]));
    MessageGoesOut(After(policy, queue, steps));
    steps := Take(policy, queue, steps, TurnWrite);
    ghost var before := After(policy, queue, steps);
    assert m in before.net.published && m.correlationId == id && m.replyTo == name && m.body.id == id;
    steps := ServedAndAnswered(policy, queue, steps, id, m, value);
  }

  lemma FirstEpoch(policy: Policy, queue: string)
    ensures Start(policy, queue).session.link.epoch == 0
  {}

  lemma OwnEnvelopeIsParked(s: System, id: Id)
    requires Sound(s) && id in s.calls && s.session.desk.parked.Keys == {id}
    ensures id in s.session.desk.parked && s.session.desk.parked[id] == s.calls[id].envelope
    ensures s.calls[id].envelope.body.id == id && Valid(s.session.desk.table)
  {
    DeskIsValid(s);
    assert id in s.session.desk.parked.Keys;
    assert CallOk(s.session.desk, s.net.handled, id, s.calls[id]);
  }

  lemma MessageGoesOut(s: System)
    requires Valid(s.session.desk.table) && AtTurn(s, Checked)
    requires !s.session.link.lost && s.session.link.replyQueue.Some?
    ensures Enabled(s, TurnWrite)
    ensures var m := Readdressed(s.session.link.lock.phase.work[0], s.session.link.replyQueue.value);
      var s' := Apply(s, TurnWrite);
      && s'.session == WithTurn(s.session, Written(None)) && s'.calls == s.calls
      && s'.net.published == s.net.published + {m}
  {
    hide Valid;
  }

  lemma OpenAtStart(policy: Policy, queue: string)
    ensures var link := Start(policy, queue).session.link; link.listening && link.queue == queue
  {}

  /** From any state in which the call waits alone and its message is with the broker. */
  lemma ServedAndAnswered(policy: Policy, queue: string, steps: seq<Step>, id: Id, m: Envelope, value: string)
    returns (more: seq<Step>)
    requires IsHistory(policy, queue, steps) && id != ""
    requires var s := After(policy, queue, steps);
      && s.session.desk.table.pending.Keys == {id} && s.session.desk.parked.Keys == {id} && id in s.calls
      && m in s.net.published && m.correlationId == id && m.replyTo == s.session.link.queue != ""
      && s.session.link.listening
    ensures IsHistory(policy, queue, more)
    ensures var (s, s') := (After(policy, queue, steps), After(policy, queue, more));
      && id in s'.calls
      && ResultOfCall(s', id) == Some(Answered(Reply(m.replyTo, Some(id), RpcServer.ResultOf(value, m.body.id))))
      && s'.session.desk.table.pending == map[] && s'.session.desk.parked == map[]
      && s'.calls == s.calls && s'.session.link == s.session.link
  {
    HistoryOk(policy, queue, steps);
    var s := After(policy, queue, steps);
    var serve := Serve(m, None, RpcServer.Value(value), false);
    var reply := Reply(m.replyTo, Some(id), RpcServer.ResultOf(value, m.body.id));
    ServerAnswers(s, m, value);
    hide Sound, IsRun, Run, Apply, Enabled, IsHistory, After;
    more := Take(policy, queue, steps, serve);
    HistoryOk(policy, queue, more);
    var s1 := After(policy, queue, more);
    DeliverNow(s1, reply, id);
    more := Take(policy, queue, more, Deliver(reply));
  }

  lemma ServerAnswers(s: System, m: Envelope, value: string)
    requires Sound(s) && m in s.net.published && m.replyTo != ""
    ensures Valid(s.session.desk.table)
    ensures var serve := Serve(m, None, RpcServer.Value(value), false);
      && Enabled(s, serve) && Apply(s, serve).session == s.session && Apply(s, serve).calls == s.calls
      && Reply(m.replyTo, Some(m.correlationId), RpcServer.ResultOf(value, m.body.id)) in Apply(s, serve).net.replies
  {
    DeskIsValid(s);
    PublishedAreWellAddressed(s, m);
    hide Sound, Valid;
    var effects := RpcServer.Serve(DeliveryOf(m), None, RpcServer.Value(value), false).effects;
    assert effects[0] == RpcServer.Publish(m.replyTo, Some(m.correlationId), RpcServer.ResultOf(value, m.body.id));
    assert effects[0] in effects && effects[0].Publish?;
  }

  lemma DeliverNow(s: System, reply: Reply, id: Id)
    requires Sound(s) && s.session.link.listening && reply in s.net.replies && reply.queue == s.session.link.queue
    requires s.session.desk.table.pending.Keys == {id} && s.session.desk.parked.Keys == {id} && id in s.calls
    requires reply.correlationId == Some(id)
    ensures Valid(s.session.desk.table) && Enabled(s, Deliver(reply))
    ensures var s' := Apply(s, Deliver(reply));
      && id in s'.calls && ResultOfCall(s', id) == Some(Answered(reply))
      && s'.session.desk.table.pending == map[] && s'.session.desk.parked == map[]
      && s'.calls == s.calls && s'.session.link == s.session.link
  {
    DeskIsValid(s);
    assert id in s.session.desk.table.pending;
    RepliesAnswer(s, reply, id);
    FinishLaw(s.session.desk.table, id, Answered(reply));
    hide Sound, Valid, ResultIn, Finish;
  }
}
