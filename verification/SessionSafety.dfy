/** What every run of the session keeps: each call is completed at most once, a result is the
    handler's own answer to that call's own body, and a confirmed pending call is parked. */
module SessionSafety {
  import opened Results
  import opened Correlation
  import opened SessionState
  import opened SessionRuns
  import RpcServer

  /** A reply that came of the request this call sent: a result in it is what a handler
      returned for exactly this body. */
  predicate Genuine(r: Reply, id: Id, call: Call, handled: Handled) {
    && r.correlationId == Some(id)
    && (r.body.ResultOf? ==> r.body.id == id && (call.envelope.body, RpcServer.Value(r.body.value)) in handled)
  }

  /** One call's books: its future is done iff it is no longer pending; if answered, then
      genuinely; and while it waits for its reply its own envelope is parked. */
  predicate CallOk(d: Desk, handled: Handled, id: Id, call: Call) {
    && call.handle < |d.table.futures|
    && (if id in d.table.pending then d.table.pending[id] == call.handle else d.table.futures[call.handle].Some?)
    && (d.table.futures[call.handle].Some? && d.table.futures[call.handle].value.Answered?
        ==> Genuine(d.table.futures[call.handle].value.reply, id, call, handled))
    && (id in d.table.pending && call.stage.Waiting? ==> id in d.parked)
    && (id in d.parked ==> d.parked[id] == call.envelope)
    && call.envelope.body.id == id && call.envelope.correlationId == id && id != ""
  }

  ghost predicate DeskOk(d: Desk, calls: map<Id, Call>, handled: Handled) {
    && Valid(d.table)
    && d.table.pending.Keys <= calls.Keys && d.parked.Keys <= calls.Keys
    && (forall id :: id in calls ==> CallOk(d, handled, id, calls[id]))
    && forall a, b :: a in calls && b in calls && a != b ==> calls[a].handle != calls[b].handle
  }

  /** A message some call sent: its own in everything but the reply queue. */
  predicate IsCallsOwn(m: Envelope, calls: map<Id, Call>) {
    m.correlationId in calls && m == calls[m.correlationId].envelope.(replyTo := m.replyTo)
  }

  ghost predicate NetOk(net: Net, calls: map<Id, Call>) {
    && (forall m :: m in net.published ==> IsCallsOwn(m, calls))
    && forall r :: r in net.replies ==>
         r.correlationId.Some? && r.correlationId.value in calls
         && Genuine(r, r.correlationId.value, calls[r.correlationId.value], net.handled)
  }

  predicate ItemOk(item: Item, calls: map<Id, Call>) {
    item.id in calls && item.envelope == calls[item.id].envelope
  }

  ghost predicate WorkOk(link: Link, calls: map<Id, Call>) {
    link.lock.Held? && link.lock.phase.Republishing? ==>
      && link.lock.phase.work != []
      && forall i :: 0 <= i < |link.lock.phase.work| ==> ItemOk(link.lock.phase.work[i], calls)
  }

  ghost predicate Sound(s: System) {
    && DeskOk(s.session.desk, s.calls, s.net.handled)
    && NetOk(s.net, s.calls)
    && WorkOk(s.session.link, s.calls)
  }

  lemma DeskIsValid(s: System)
    requires Sound(s)
    ensures Valid(s.session.desk.table)
  {}

  lemma ValidIdIsNotEmpty(id: Id)
    requires ValidId(id)
    ensures id != ""
  {}

  // ---------------------------------------------------------------- the desk's operations

  lemma SettleOk(d: Desk, calls: map<Id, Call>, handled: Handled, id: Id, outcome: Outcome)
    requires DeskOk(d, calls, handled)
    requires outcome.Answered? && id in calls ==> Genuine(outcome.reply, id, calls[id], handled)
    ensures DeskOk(Settle(d, id, outcome), calls, handled)
    ensures Keeps(d.table, Settle(d, id, outcome).table)
  {
    FinishLaw(d.table, id, outcome);
    var d' := Settle(d, id, outcome);
    forall x | x in calls
      ensures CallOk(d', handled, x, calls[x])
    {
      assert CallOk(d, handled, x, calls[x]);
    }
  }

  lemma FailOutstandingOk(d: Desk, calls: map<Id, Call>, handled: Handled, reason: Reason)
    requires DeskOk(d, calls, handled)
    ensures DeskOk(FailOutstanding(d, reason), calls, handled)
    ensures Keeps(d.table, FailOutstanding(d, reason).table)
  {
    DiscardLaw(d.table, Failed(reason));
    var d' := FailOutstanding(d, reason);
    forall x | x in calls
      ensures CallOk(d', handled, x, calls[x])
    {
      assert CallOk(d, handled, x, calls[x]);
      if x in d.table.pending {
        assert d'.table.futures[calls[x].handle] == Some(Failed(reason));
      }
    }
  }

  lemma RegisterOk(d: Desk, calls: map<Id, Call>, handled: Handled, id: Id, call: Call)
    requires DeskOk(d, calls, handled) && id !in calls && id != ""
    requires call.handle == |d.table.futures| && call.stage.Registered?
    requires call.envelope.body.id == id && call.envelope.correlationId == id
    ensures DeskOk(d.(table := Register(d.table, id)), calls[id := call], handled)
    ensures Keeps(d.table, Register(d.table, id))
  {
    RegisterLaw(d.table, id);
    hide Valid;
    var d' := d.(table := Register(d.table, id));
    var calls' := calls[id := call];
    forall x | x in calls'
      ensures CallOk(d', handled, x, calls'[x])
    {
      if x != id {
        assert CallOk(d, handled, x, calls[x]);
      }
    }
  }

  lemma RememberOk(d: Desk, calls: map<Id, Call>, handled: Handled, id: Id)
    requires DeskOk(d, calls, handled) && id in calls
    ensures DeskOk(Remember(d, id, calls[id].envelope), calls[id := calls[id].(stage := Waiting)], handled)
  {
    forall x | x in calls
      ensures CallOk(Remember(d, id, calls[id].envelope), handled, x, calls[id := calls[id].(stage := Waiting)][x])
    {
      assert CallOk(d, handled, x, calls[x]);
    }
  }

  lemma StageOk(d: Desk, calls: map<Id, Call>, handled: Handled, id: Id, stage: Stage)
    requires DeskOk(d, calls, handled) && id in calls && !stage.Waiting?
    ensures DeskOk(d, calls[id := calls[id].(stage := stage)], handled)
  {
    forall x | x in calls
      ensures CallOk(d, handled, x, calls[id := calls[id].(stage := stage)][x])
    {
      assert CallOk(d, handled, x, calls[x]);
    }
  }

  lemma HandledOk(d: Desk, calls: map<Id, Call>, handled: Handled,
                  more: Handled)
    requires DeskOk(d, calls, handled) && handled <= more
    ensures DeskOk(d, calls, more)
  {
    forall x | x in calls
      ensures CallOk(d, more, x, calls[x])
    {
      assert CallOk(d, handled, x, calls[x]);
    }
  }

  /** Envelopes the loop forgets belong to calls that are done. */
  lemma {:induction false} ForgetSettledOk(d: Desk, calls: map<Id, Call>, handled: Handled, work: seq<Item>)
    requires DeskOk(d, calls, handled)
    ensures DeskOk(ForgetSettled(d, work), calls, handled) && ForgetSettled(d, work).table == d.table
    decreases |work|
  {
    if work != [] && work[0].id !in d.table.pending {
      var d' := Forget(d, work[0].id);
      forall x | x in calls
        ensures CallOk(d', handled, x, calls[x])
      {
        assert CallOk(d, handled, x, calls[x]);
      }
      ForgetSettledOk(d', calls, handled, work[1..]);
    }
  }

  /** What the loop goes on with is the end of its work. */
  lemma {:induction false} NextPendingIsSuffix(d: Desk, work: seq<Item>)
    ensures var rest := NextPending(d, work);
      |rest| <= |work| && rest == work[|work| - |rest|..] && (rest != [] ==> rest[0].id in d.table.pending)
    decreases |work|
  {
    if work != [] && work[0].id !in d.table.pending {
      NextPendingIsSuffix(d, work[1..]);
    }
  }

  // ---------------------------------------------------------------- steps

  /** A published message carries the same id twice, so a server never refuses it for that. */
  lemma PublishedAreWellAddressed(s: System, m: Envelope)
    requires Sound(s) && m in s.net.published
    ensures RpcServer.WellAddressed(DeliveryOf(m)) && m.correlationId != ""
  {
    assert CallOk(s.session.desk, s.net.handled, m.correlationId, s.calls[m.correlationId]);
  }

  lemma ServeOk(s: System, m: Envelope, auth: Option<RpcServer.Problem>, handler: RpcServer.Attempt, blocked: bool)
    requires Sound(s) && m in s.net.published
    ensures NetOk(Served(s.net, m, auth, handler, blocked), s.calls)
    ensures s.net.handled <= Served(s.net, m, auth, handler, blocked).handled
  {
    PublishedAreWellAddressed(s, m);
    var net := Served(s.net, m, auth, handler, blocked);
    var effects := RpcServer.Serve(DeliveryOf(m), auth, handler, blocked).effects;
    forall r | r in Replies(effects)
      ensures r.correlationId == Some(m.correlationId)
      ensures Genuine(r, m.correlationId, s.calls[m.correlationId], net.handled)
    {
      var e :| e in effects && e.Publish? && r == Reply(e.routingKey, e.correlationId, e.body);
      assert s.calls[m.correlationId].envelope.body == m.body;
    }
  }

  lemma ProceedOk(s: Session, owner: Owner, work: seq<Item>, calls: map<Id, Call>, handled: Handled)
    requires DeskOk(s.desk, calls, handled)
    requires forall i :: 0 <= i < |work| ==> ItemOk(work[i], calls)
    ensures var s' := Proceed(s, owner, work);
      && DeskOk(s'.desk, calls, handled) && s'.desk.table == s.desk.table
      && WorkOk(s'.link, calls)
  {
    hide DeskOk;
    ForgetSettledOk(s.desk, calls, handled, work);
    NextPendingIsSuffix(s.desk, work);
  }

  /** Calls keep their envelopes, so what is said of messages and of work stays true. */
  lemma EnvelopesKept(net: Net, link: Link, calls: map<Id, Call>, calls': map<Id, Call>)
    requires NetOk(net, calls) && WorkOk(link, calls)
    requires forall id :: id in calls ==> id in calls' && calls'[id].envelope == calls[id].envelope
    ensures NetOk(net, calls') && WorkOk(link, calls')
  {}

  lemma WriteOk(s: System, id: Id)
    requires Sound(s) && id in s.calls
    ensures NetOk(s.net.(published := s.net.published + {s.calls[id].envelope}), s.calls)
  {
    assert CallOk(s.session.desk, s.net.handled, id, s.calls[id]);
  }

  /** The steps of a caller's own task. */
  lemma CallerStepOk(s: System, step: Step)
    requires Sound(s) && Enabled(s, step)
    requires step.Request? || step.Write? || step.PublishConfirmed? || step.PublishFails? || step.PublishRaises?
      || step.TimeOut?
    ensures Sound(Apply(s, step)) && Keeps(s.session.desk.table, Apply(s, step).session.desk.table)
  {
    hide DeskOk, NetOk, WorkOk, ValidId;
    assert Valid(s.session.desk.table) by { DeskIsValid(s); }
    var desk := s.session.desk;
    var s' := Apply(s, step);
    match step {
      case Request(id, exchange, routingKey, methodName, params) =>
        ValidIdIsNotEmpty(id);
        RegisterOk(desk, s.calls, s.net.handled, id, s'.calls[id]);
        EnvelopesKept(s.net, s.session.link, s.calls, s'.calls);
      case Write(id) =>
        WriteOk(s, id);
        StageOk(desk, s.calls, s.net.handled, id, Sent);
      case PublishConfirmed(id) => RememberOk(desk, s.calls, s.net.handled, id);
      case PublishFails(id, reason) =>
        SettleOk(desk, s.calls, s.net.handled, id, Failed(reason));
        StageOk(Settle(desk, id, Failed(reason)), s.calls, s.net.handled, id, Ended);
      case PublishRaises(id) => StageOk(desk, s.calls, s.net.handled, id, Ended);
      case TimeOut(id) =>
        SettleOk(desk, s.calls, s.net.handled, id, Failed(RequestTimeout));
        StageOk(Settle(desk, id, Failed(RequestTimeout)), s.calls, s.net.handled, id, Ended);
    }
    if !step.Request? {
      EnvelopesKept(s'.net, s.session.link, s.calls, s'.calls);
    }
  }

  lemma EndOfTurnOk(s: System, mark: Mark)
    requires Sound(s) && InTurn(s)
    ensures Sound(EndOfTurn(s, mark)) && Keeps(s.session.desk.table, EndOfTurn(s, mark).session.desk.table)
  {
    var (owner, work) := (s.session.link.lock.owner, s.session.link.lock.phase.work);
    var session := s.session;
    if mark.Refused? {
      SettleOk(session.desk, s.calls, s.net.handled, work[0].id, Failed(mark.reason));
      session := session.(desk := Settle(session.desk, work[0].id, Failed(mark.reason)));
    }
    ProceedOk(session, owner, work[1..], s.calls, s.net.handled);
  }

  /** The steps of the reconnecting task. */
  lemma ReconnectStepOk(s: System, step: Step)
    requires Sound(s) && Enabled(s, step)
    requires step.Acquire? || step.StartFresh? || step.Ready? || step.Resume? || step.Begin? || step.TurnWrite?
      || step.TurnAnswer? || step.TurnResume? || step.TurnBlocked? || step.Raise?
    ensures Sound(Apply(s, step)) && Keeps(s.session.desk.table, Apply(s, step).session.desk.table)
  {
    hide DeskOk, Replies, RpcServer.Serve;
    var desk := s.session.desk;
    FailOutstandingOk(desk, s.calls, s.net.handled, ConnectionLost);
    if step.Begin? {
      var work := Items(step.order, desk.parked);
      ParkedOk(s, step.order);
      var up := s.session.(link := s.session.link.(started := true, listening := true));
      ProceedOk(up, up.link.lock.owner, work, s.calls, s.net.handled);
    } else if step.TurnResume? || step.TurnBlocked? {
      EndOfTurnOk(s, if step.TurnBlocked? then Refused(ConnectionBlocked)
                     else MarkOf(s.session.link.lock.phase.turn.answer.value));
    } else if step.TurnWrite? {
      WriteTurnOk(s);
    }
  }

  lemma ParkedOk(s: System, order: seq<Id>)
    requires Sound(s) && Lists(order, s.session.desk.parked)
    ensures forall i :: 0 <= i < |order| ==> ItemOk(Items(order, s.session.desk.parked)[i], s.calls)
  {
    forall i | 0 <= i < |order|
      ensures ItemOk(Items(order, s.session.desk.parked)[i], s.calls)
    {
      assert CallOk(s.session.desk, s.net.handled, order[i], s.calls[order[i]]);
    }
  }

  lemma WriteTurnOk(s: System)
    requires Sound(s) && InTurn(s)
    ensures Sound(WriteTurn(s)) && WriteTurn(s).session.desk == s.session.desk
  {
    var item := s.session.link.lock.phase.work[0];
    assert ItemOk(item, s.calls);
    assert CallOk(s.session.desk, s.net.handled, item.id, s.calls[item.id]);
  }

  lemma StepOk(s: System, step: Step)
    requires Sound(s) && Enabled(s, step)
    ensures Sound(Apply(s, step)) && Keeps(s.session.desk.table, Apply(s, step).session.desk.table)
  {
    hide DeskOk, Replies, RpcServer.Serve;
    var desk := s.session.desk;
    match step {
      case Serve(m, auth, handler, blocked) =>
        ServeOk(s, m, auth, handler, blocked);
        HandledOk(desk, s.calls, s.net.handled, Served(s.net, m, auth, handler, blocked).handled);
      case Deliver(r) => SettleOk(desk, s.calls, s.net.handled, r.correlationId.value, Answered(r));
      case Lose => FailOutstandingOk(desk, s.calls, s.net.handled, ConnectionLost);
      case ReplyLoopFails => FailOutstandingOk(desk, s.calls, s.net.handled, ConnectionLost);
      case Close(_) => FailOutstandingOk(desk, s.calls, s.net.handled, SessionClosed);
      case CloseGoesOn =>
      case Request(_, _, _, _, _) => CallerStepOk(s, step);
      case Write(_) => CallerStepOk(s, step);
      case PublishConfirmed(_) => CallerStepOk(s, step);
      case PublishFails(_, _) => CallerStepOk(s, step);
      case PublishRaises(_) => CallerStepOk(s, step);
      case TimeOut(_) => CallerStepOk(s, step);
      case _ => ReconnectStepOk(s, step);
    }
  }

  // ---------------------------------------------------------------- runs

  /** Every step is enabled where it is taken. */
  ghost predicate IsRun(s: System, steps: seq<Step>)
    requires Sound(s)
    decreases |steps|
  {
    steps == [] || (Enabled(s, steps[0]) && (StepOk(s, steps[0]); IsRun(Apply(s, steps[0]), steps[1..])))
  }

  ghost function Run(s: System, steps: seq<Step>): (s': System)
    requires Sound(s) && IsRun(s, steps)
    ensures Valid(s'.session.desk.table)
    decreases |steps|
  {
    if steps == [] then s else (StepOk(s, steps[0]); Run(Apply(s, steps[0]), steps[1..]))
  }

  lemma StartOk(policy: Policy, queue: string)
    ensures Sound(Start(policy, queue))
  {}

  /** The steps of some run of a session that has just started. */
  ghost predicate IsHistory(policy: Policy, queue: string, steps: seq<Step>) {
    StartOk(policy, queue);
    IsRun(Start(policy, queue), steps)
  }

  ghost function After(policy: Policy, queue: string, steps: seq<Step>): (s: System)
    requires IsHistory(policy, queue, steps)
    ensures Valid(s.session.desk.table)
  {
    StartOk(policy, queue);
    Run(Start(policy, queue), steps)
  }

  /** What every run keeps. */
  lemma {:induction false} RunOk(s: System, steps: seq<Step>)
    requires Sound(s) && IsRun(s, steps)
    ensures Sound(Run(s, steps))
    decreases |steps|
  {
    hide Sound, Apply, Enabled;
    if steps != [] {
      DeskIsValid(s);
      StepOk(s, steps[0]);
      RunOk(Apply(s, steps[0]), steps[1..]);
    }
  }

  lemma HistoryOk(policy: Policy, queue: string, steps: seq<Step>)
    requires IsHistory(policy, queue, steps)
    ensures Sound(After(policy, queue, steps))
  {
    hide Sound, IsRun, Run;
    StartOk(policy, queue);
    RunOk(Start(policy, queue), steps);
  }

  /** Calls are never taken off the record, and keep their envelope and their future. */
  predicate CallsKept(calls: map<Id, Call>, calls': map<Id, Call>) {
    forall id :: id in calls ==>
      id in calls' && calls'[id].envelope == calls[id].envelope && calls'[id].handle == calls[id].handle
  }

  lemma StepKeepsCalls(s: System, step: Step)
    requires Sound(s) && Enabled(s, step)
    ensures CallsKept(s.calls, Apply(s, step).calls)
  {
    hide Sound, ValidId, Lists, Served, OnConnectionLost, Enter, Renew, Raised, Closed, Consumed, EndTurn, Skips, Items,
      OnReply, Settle, FailOutstanding, Valid, Proceed, Finished, Declared, Readdressed, DeliveryOf, MarkOf, ReasonOf;
    assert Valid(s.session.desk.table) by { DeskIsValid(s); }
  }

  /** From any point of a run on, calls are kept and completed futures too. */
  lemma {:induction false} LaterKeeps(s: System, before: seq<Step>, after: seq<Step>)
    requires Sound(s) && IsRun(s, before) && IsRun(s, before + after)
    ensures var (mid, end) := (Run(s, before), Run(s, before + after));
      CallsKept(mid.calls, end.calls) && Keeps(mid.session.desk.table, end.session.desk.table)
    decreases |before| + |after|
  {
    hide Sound, Enabled, Apply;
    DeskIsValid(s);
    if before != [] {
      assert (before + after)[1..] == before[1..] + after;
      StepOk(s, before[0]);
      LaterKeeps(Apply(s, before[0]), before[1..], after);
    } else {
      assert before + after == after;
      if after != [] {
        StepOk(s, after[0]);
        StepKeepsCalls(s, after[0]);
        assert [] + after[1..] == after[1..];
        LaterKeeps(Apply(s, after[0]), [], after[1..]);
      }
    }
  }

  /** How a call has ended, if it has. */
  function ResultOfCall(s: System, id: Id): Option<Outcome>
    requires id in s.calls
  {
    ResultIn(s.session.desk, s.calls, id)
  }

  /** What `request` makes of the reply its future holds. */
  datatype Conclusion = Returns(value: string) | RaisesRemote(code: int) | RaisesBadEnvelope

  function Conclude(id: Id, r: Reply): Conclusion {
    if r.correlationId != Some(id) then RaisesBadEnvelope
    else match r.body
      case ResultOf(value, _) => Returns(value)
      case ErrorOf(code, _) => RaisesRemote(code)
  }

  /** A call completes at most once: whatever happens later, through losses, republishes,
      redeliveries and duplicate replies, its outcome stays.  It is complete exactly when it
      is no longer pending. */
  lemma CompletedAtMostOnce(policy: Policy, queue: string, before: seq<Step>, after: seq<Step>, id: Id)
    requires IsHistory(policy, queue, before) && IsHistory(policy, queue, before + after)
    requires id in After(policy, queue, before).calls
    ensures var (s, s') := (After(policy, queue, before), After(policy, queue, before + after));
      && id in s'.calls
      && (ResultOfCall(s, id).Some? <==> id !in s.session.desk.table.pending)
      && (ResultOfCall(s, id).Some? ==> ResultOfCall(s', id) == ResultOfCall(s, id))
  {
    hide Enabled, Apply;
    StartOk(policy, queue);
    LaterKeeps(Start(policy, queue), before, after);
    HistoryOk(policy, queue, before);
    var s := After(policy, queue, before);
    assert CallOk(s.session.desk, s.net.handled, id, s.calls[id]);
  }

  /** A call that returns a value returns what a handler returned for that call's own body,
      and the client's check of the reply's correlation id never fires. */
  lemma AnswersAreTheHandlers(policy: Policy, queue: string, steps: seq<Step>, id: Id, r: Reply)
    requires IsHistory(policy, queue, steps)
    requires id in After(policy, queue, steps).calls
    requires ResultOfCall(After(policy, queue, steps), id) == Some(Answered(r))
    ensures var s := After(policy, queue, steps);
      && Conclude(id, r) != RaisesBadEnvelope
      && (Conclude(id, r).Returns? ==>
            (s.calls[id].envelope.body, RpcServer.Value(Conclude(id, r).value)) in s.net.handled)
  {
    hide Enabled, Apply;
    HistoryOk(policy, queue, steps);
    var s := After(policy, queue, steps);
    assert CallOk(s.session.desk, s.net.handled, id, s.calls[id]);
  }

  /** Every message a server can see, republished or not, passes its check that correlation
      id and body id agree, and is its call's own in everything but the reply queue. */
  lemma MessagesPassTheServersCheck(policy: Policy, queue: string, steps: seq<Step>, m: Envelope)
    requires IsHistory(policy, queue, steps)
    requires m in After(policy, queue, steps).net.published
    ensures RpcServer.WellAddressed(DeliveryOf(m))
    ensures IsCallsOwn(m, After(policy, queue, steps).calls)
  {
    hide Enabled, Apply;
    HistoryOk(policy, queue, steps);
    PublishedAreWellAddressed(After(policy, queue, steps), m);
  }

  /** A call that is waiting for its reply, its publish confirmed, has its own envelope
      parked as long as it is pending; and every parked envelope is its own call's. */
  lemma ConfirmedCallsAreParked(policy: Policy, queue: string, steps: seq<Step>, id: Id)
    requires IsHistory(policy, queue, steps)
    ensures var s := After(policy, queue, steps);
      && (id in s.calls && s.calls[id].stage.Waiting? && id in s.session.desk.table.pending
          ==> id in s.session.desk.parked)
      && (id in s.session.desk.parked ==> id in s.calls && s.session.desk.parked[id] == s.calls[id].envelope)
  {
    hide Enabled, Apply;
    HistoryOk(policy, queue, steps);
    var s := After(policy, queue, steps);
    if id in s.calls {
      assert CallOk(s.session.desk, s.net.handled, id, s.calls[id]);
    }
  }
}
