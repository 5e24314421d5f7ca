/** Whether a call can be left behind on a closed session: pending, while nobody is
    reconnecting.  And whether a session that was closed stays so. */
module SessionParking {
  import opened Results
  import opened Correlation
  import opened SessionState
  import opened SessionRuns
  import opened SessionRepublish
  import opened SessionSafety
  import RpcServer

  /** No call is left behind on a closed session: while it is closed, calls pend only under the park
      policy, and only as long as the reconnect task is running. */
  predicate Sheltered(s: System) {
    !Open(s.session.link) && s.session.desk.table.pending != map[] ==>
      !s.session.policy.failOutstanding && s.session.link.task.Running?
  }

  /** What holds of the link in every run. */
  predicate Linked(l: Link) {
    && l.lossHandled == l.lost
    && (Open(l) ==> !l.lost)
    && (l.lock.Held? ==>
          && (l.lock.owner.Auto? ==> l.task.Running?)
          && (l.lock.phase.Republishing? ==> Open(l) || l.lost || (l.lock.owner.Auto? && l.closing > 0))
          && (!l.lock.phase.Republishing? ==> !l.started)
          && (l.lock.phase == Consuming(true) ==> if l.lost then l.replyQueue.None? else l.replyQueue.Some?)
          && (l.lock.phase == Consuming(false) ==> l.lost || l.replyQueue.Some?))
  }

  /** A round that goes on although its session was closed has no call left to wait for it. */
  predicate Hushed(s: System) {
    var link := s.session.link;
    link.lock.Held? && link.lock.phase.Republishing? && !Open(link) && !link.lost ==>
      s.session.desk.table.pending == map[]
  }

  /** The call the end of a turn refuses, if it refuses one. */
  function RefusedAt(s: System, step: Step): set<Id>
    requires Enabled(s, step) && (step.TurnResume? || step.TurnBlocked?)
  {
    if MarkAt(s, step).Refused? then {s.session.link.lock.phase.work[0].id} else {}
  }

  /** The calls that are pending once the turn is over. */
  function PendingAfter(s: System, step: Step): set<Id>
    requires Enabled(s, step) && (step.TurnResume? || step.TurnBlocked?)
  {
    s.session.desk.table.pending.Keys - RefusedAt(s, step)
  }

  /** No later item's call is among them: this is the last turn. */
  predicate LastTurn(s: System, step: Step)
    requires Enabled(s, step) && (step.TurnResume? || step.TurnBlocked?)
  {
    var work := s.session.link.lock.phase.work;
    forall i :: 1 <= i < |work| ==> work[i].id !in PendingAfter(s, step)
  }

  /** The automatic task resumes for the last time, on a connection that is lost again, while
      calls are pending that this does not settle: the loss came after the last result it
      awaited. */
  predicate FinishesLate(s: System, step: Step)
    requires Enabled(s, step)
  {
    s.session.link.lost && IsTurnEnd(step) && s.session.link.lock.owner.Auto? &&
    if step.Begin? then s.session.desk.table.pending != map[]
    else LastTurn(s, step) && PendingAfter(s, step) != {}
  }

  /** A `close` that had to wait for a reconnection goes on, and takes away the reply queue of
      a session that has opened and taken on calls meanwhile. */
  predicate ClosesOver(s: System, step: Step) {
    step.CloseGoesOn? && s.session.desk.table.pending != map[]
  }

  /** The two ways to leave a call behind on a closed session. */
  predicate LeavesBehind(s: System, step: Step)
    requires Enabled(s, step)
  {
    FinishesLate(s, step) || ClosesOver(s, step)
  }

  predicate IsTurnEnd(step: Step) {
    step.Begin? || step.TurnResume? || step.TurnBlocked?
  }

  // ---------------------------------------------------------------- one step

  /** How the end of a turn, or of the wait for the consumer, changes the session. */
  predicate TurnEnded(s: System, s': System, begun: bool) {
    var (link, link') := (s.session.link, s'.session.link);
    && s'.session.policy == s.session.policy
    && s'.session.desk.table.pending.Keys <= s.session.desk.table.pending.Keys
    && link.lock.Held?
    && link'.(lock := link.lock, task := link.task, listening := link.listening, started := link.started) == link
    && link'.started == (begun || link.started)
    && (if link'.lock.Free? then link'.task == if link.lock.owner.Auto? then Idle else link.task
        else link'.lock.owner == link.lock.owner && link'.lock.phase.Republishing? && link'.task == link.task
             && (begun ==> link.replyQueue.Some?))
  }

  lemma TurnEndsLink(s: System, step: Step)
    requires Sound(s) && Enabled(s, step) && IsTurnEnd(step)
    ensures TurnEnded(s, Apply(s, step), step.Begin?)
    ensures s.session.link.lock.Held?
    ensures if step.Begin? then s.session.link.lock.phase == Consuming(true)
            else s.session.link.lock.phase.Republishing?
    ensures step.Begin? && s.session.link.replyQueue.None? ==>
              Apply(s, step).session.link.lock.Free? && Apply(s, step).session.desk == s.session.desk
    ensures !step.Begin? ==>
              && Apply(s, step).session.desk.table.pending.Keys == PendingAfter(s, step)
              && (Apply(s, step).session.link.lock.Free? <==> LastTurn(s, step))
  {
    if step.Begin? {
      BeginIsBeginRound(s, step.order);
      hide *;
      BeginEnded(s, step.order);
    } else {
      TurnEndIsEndOfTurn(s, step);
      EndOfTurnEnded(s, MarkAt(s, step));
      hide Sound, Apply, Enabled, EndOfTurn, TurnEnded, MarkAt, NextPending;
      NoneLeft(Apply(s, step).session.desk, s.session.link.lock.phase.work[1..]);
    }
  }

  lemma {:induction false} NoneLeft(d: Desk, work: seq<Item>)
    ensures NextPending(d, work) == [] <==> forall i :: 0 <= i < |work| ==> work[i].id !in d.table.pending
    decreases |work|
  {
    if work != [] && work[0].id !in d.table.pending {
      NoneLeft(d, work[1..]);
      assert forall i :: 0 < i < |work| ==> work[i] == work[1..][i - 1];
    }
  }

  lemma BeginEnded(s: System, order: seq<Id>)
    requires InPhase(s, Consuming(true)) && Lists(order, s.session.desk.parked)
    ensures TurnEnded(s, BeginRound(s, order), true) && s.session.link.lock.phase == Consuming(true)
    ensures s.session.link.replyQueue.None? ==>
              BeginRound(s, order).session.link.lock.Free? && BeginRound(s, order).session.desk == s.session.desk
  {
    hide NextPending, ForgetSettled, Skips;
    ForgettingKeepsTable(s.session.desk, Items(order, s.session.desk.parked));
  }

  lemma EndOfTurnEnded(s: System, mark: Mark)
    requires Sound(s) && InTurn(s)
    ensures TurnEnded(s, EndOfTurn(s, mark), false) && s.session.link.lock.phase.Republishing?
    ensures var (s', work) := (EndOfTurn(s, mark), s.session.link.lock.phase.work);
      && s'.session.desk.table.pending.Keys
           == s.session.desk.table.pending.Keys - (if mark.Refused? then {work[0].id} else {})
      && (s'.session.link.lock.Free? <==> NextPending(s'.session.desk, work[1..]) == [])
  {
    RefusedIsDone(s, mark);
    hide Sound, Valid, NextPending, ForgetSettled, Skips, Settle;
    assert Valid(s.session.desk.table) by { DeskIsValid(s); }
    assert EndOfTurn(s, mark).session.policy == s.session.policy;
    hide EndOfTurn;
  }

  /** One step, exactly: it leaves a call behind on a closed session iff the automatic task
      finishes late by it, or a close goes on over calls. */
  lemma LeftBehindIffLate(s: System, step: Step)
    requires Sound(s) && Enabled(s, step) && Linked(s.session.link) && Hushed(s) && Sheltered(s)
    requires Valid(s.session.desk.table)
    ensures Linked(Apply(s, step).session.link) && Hushed(Apply(s, step))
    ensures Sheltered(Apply(s, step)) <==> !LeavesBehind(s, step)
  {
    StaysHushed(s, step);
    if IsTurnEnd(step) {
      TurnEndShelters(s, step);
    } else {
      OtherStepShelters(s, step);
    }
  }

  lemma TurnEndShelters(s: System, step: Step)
    requires Sound(s) && Enabled(s, step) && Linked(s.session.link) && Hushed(s) && Sheltered(s)
    requires Valid(s.session.desk.table) && IsTurnEnd(step)
    ensures Linked(Apply(s, step).session.link)
    ensures Sheltered(Apply(s, step)) <==> !LeavesBehind(s, step)
  {
    TurnEndsLink(s, step);
    var s' := Apply(s, step);
    hide Sound, Apply, Enabled, Valid, LastTurn, PendingAfter, TurnEnded, Sheltered, Hushed;
    EndShelters(s, s', step.Begin?);
  }

  lemma StaysHushed(s: System, step: Step)
    requires Sound(s) && Enabled(s, step) && Linked(s.session.link) && Hushed(s) && Valid(s.session.desk.table)
    ensures Hushed(Apply(s, step))
  {
    if IsTurnEnd(step) {
      TurnEndsLink(s, step);
      hide Sound, Apply, Enabled, Valid, LastTurn, PendingAfter;
      EndHushes(s, Apply(s, step), step.Begin?);
    } else if MovesOn(step) || ConcernsLink(step) {
      LinkStepHushes(s, step);
    } else {
      DeskStepLeavesLink(s, step);
      hide Apply, Enabled, Sound, Valid;
    }
  }

  lemma EndHushes(s: System, s': System, begun: bool)
    requires TurnEnded(s, s', begun) && Linked(s.session.link) && Hushed(s)
    requires if begun then s.session.link.lock.phase == Consuming(true) else s.session.link.lock.phase.Republishing?
    ensures Hushed(s')
  {
    if s.session.desk.table.pending == map[] {
      assert s'.session.desk.table.pending == map[];
    }
  }

  lemma LinkStepHushes(s: System, step: Step)
    requires Sound(s) && Enabled(s, step) && Linked(s.session.link) && Hushed(s) && Valid(s.session.desk.table)
    requires ConcernsLink(step)
    ensures Hushed(Apply(s, step))
  {
    hide Sound, Valid, Settle;
  }

  lemma EndShelters(s: System, s': System, begun: bool)
    requires TurnEnded(s, s', begun) && Linked(s.session.link) && Hushed(s) && Sheltered(s)
    requires if begun then s.session.link.lock.phase == Consuming(true) else s.session.link.lock.phase.Republishing?
    requires begun && s.session.link.replyQueue.None? ==>
               s'.session.link.lock.Free? && s'.session.desk == s.session.desk
    ensures Linked(s'.session.link)
    ensures Sheltered(s') <==>
              !(s.session.link.lost && s.session.link.lock.owner.Auto? && s'.session.link.lock.Free?
                && s'.session.desk.table.pending != map[])
  {
    if s.session.desk.table.pending == map[] {
      assert s'.session.desk.table.pending == map[];
    }
  }

  /** The reconnecting task moves on within its attempt. */
  predicate MovesOn(step: Step) {
    step.StartFresh? || step.Ready? || step.Resume? || step.TurnWrite? || step.TurnAnswer?
  }

  predicate ConcernsLink(step: Step) {
    MovesOn(step) || step.Lose? || step.ReplyLoopFails? || step.Acquire? || step.Raise?
    || step.Close? || step.CloseGoesOn?
  }

  lemma OtherStepShelters(s: System, step: Step)
    requires Sound(s) && Enabled(s, step) && Linked(s.session.link) && Sheltered(s)
    requires Valid(s.session.desk.table) && !IsTurnEnd(step)
    ensures Linked(Apply(s, step).session.link)
    ensures Sheltered(Apply(s, step)) <==> !ClosesOver(s, step)
  {
    hide Sound, Valid, ValidId, Replies, RpcServer.Serve;
    if MovesOn(step) {
      MoveShelters(s, step);
    } else if ConcernsLink(step) {
      LinkStepKeepsLinked(s, step);
      LinkStepShelters(s, step);
    } else {
      DeskStepLeavesLink(s, step);
      hide Apply, Enabled;
      if s.session.desk.table.pending == map[] {
        assert Open(s.session.link) || Apply(s, step).session.desk.table.pending == map[];
      }
    }
  }

  /** The other tasks' steps leave the link, and only an open session takes new calls. */
  lemma DeskStepLeavesLink(s: System, step: Step)
    requires Sound(s) && Enabled(s, step) && Valid(s.session.desk.table)
    requires !IsTurnEnd(step) && !ConcernsLink(step)
    ensures var s' := Apply(s, step);
      && s'.session.link == s.session.link && s'.session.policy == s.session.policy
      && (Open(s.session.link) || s'.session.desk.table.pending.Keys <= s.session.desk.table.pending.Keys)
  {
    hide Sound, Valid, ValidId, Replies, RpcServer.Serve;
  }

  lemma MoveShelters(s: System, step: Step)
    requires Sound(s) && Enabled(s, step) && Linked(s.session.link) && Sheltered(s)
    requires Valid(s.session.desk.table) && MovesOn(step)
    ensures Linked(Apply(s, step).session.link) && Sheltered(Apply(s, step))
  {
    hide Sound, Valid, Settle, FailOutstanding;
  }

  lemma LinkStepShelters(s: System, step: Step)
    requires Sound(s) && Enabled(s, step) && Linked(s.session.link) && Sheltered(s)
    requires Valid(s.session.desk.table) && ConcernsLink(step) && !MovesOn(step)
    ensures Sheltered(Apply(s, step)) <==> !ClosesOver(s, step)
  {
    hide Sound, Valid, Settle;
  }

  /** When the automatic task gives up, nothing is pending and nothing parked; until its last
      attempt it keeps everything. */
  lemma GivingUpFailsAll(s: System)
    requires Sound(s) && Enabled(s, Raise) && Linked(s.session.link) && s.session.link.lock.owner.Auto?
    requires Valid(s.session.desk.table)
    ensures var s' := Apply(s, Raise);
      if s.session.link.task.failures + 1 >= s.session.policy.maxAttempts
      then s'.session.link.task.Idle? && s'.session.desk.table.pending == map[] && s'.session.desk.parked == map[]
           && forall id :: id in s.session.desk.table.pending ==>
                ResultOfCall(s, id).None? && ResultOfCall(s', id) == Some(Failed(ConnectionLost))
      else s'.session.link.task == Running(s.session.link.task.failures + 1) && s'.session.desk == s.session.desk
  {
    DiscardLaw(s.session.desk.table, Failed(ConnectionLost));
    forall id | id in s.session.desk.table.pending
      ensures ResultOfCall(s, id).None? && s.session.desk.table.pending[id] == s.calls[id].handle
    {
      assert CallOk(s.session.desk, s.net.handled, id, s.calls[id]);
    }
  }

  // ---------------------------------------------------------------- runs

  ghost predicate NeverLeaves(s: System, steps: seq<Step>)
    requires Sound(s) && IsRun(s, steps)
    decreases |steps|
  {
    steps == [] || (!LeavesBehind(s, steps[0]) && (StepOk(s, steps[0]); NeverLeaves(Apply(s, steps[0]), steps[1..])))
  }

  ghost predicate AlwaysSheltered(s: System, steps: seq<Step>)
    requires Sound(s) && IsRun(s, steps)
    decreases |steps|
  {
    Sheltered(s) && (steps == [] || (StepOk(s, steps[0]); AlwaysSheltered(Apply(s, steps[0]), steps[1..])))
  }

  lemma {:induction false} ShelteredIffNeverLeaves(s: System, steps: seq<Step>)
    requires Sound(s) && IsRun(s, steps) && Linked(s.session.link) && Hushed(s) && Sheltered(s)
    ensures AlwaysSheltered(s, steps) <==> NeverLeaves(s, steps)
    decreases |steps|
  {
    if steps != [] {
      hide Sound, Apply, Enabled, Sheltered, LeavesBehind, Linked, Hushed;
      DeskIsValid(s);
      StepOk(s, steps[0]);
      LeftBehindIffLate(s, steps[0]);
      var s' := Apply(s, steps[0]);
      if Sheltered(s') {
        ShelteredIffNeverLeaves(s', steps[1..]);
      }
    }
  }

  ghost predicate ShelteredThroughout(policy: Policy, queue: string, steps: seq<Step>)
    requires IsHistory(policy, queue, steps)
  {
    StartOk(policy, queue);
    AlwaysSheltered(Start(policy, queue), steps)
  }

  ghost predicate NoStepLeaves(policy: Policy, queue: string, steps: seq<Step>)
    requires IsHistory(policy, queue, steps)
  {
    StartOk(policy, queue);
    NeverLeaves(Start(policy, queue), steps)
  }

  /** In every run, no call is ever left behind on a closed session if and only if the
      automatic task never finishes late, and no close that had to wait goes on over calls.
      A loss at any other point of a reconnection is harmless, and so is every other close.
      Module SessionStranding says the same of open sessions. */
  lemma LeftBehindOnlyThen(policy: Policy, queue: string, steps: seq<Step>)
    requires IsHistory(policy, queue, steps)
    ensures ShelteredThroughout(policy, queue, steps) <==> NoStepLeaves(policy, queue, steps)
  {
    StartOk(policy, queue);
    ShelteredIffNeverLeaves(Start(policy, queue), steps);
  }

  // ---------------------------------------------------------------- a call left behind

  /** Closed, with the loss handled, no reconnection running, and nobody holding the lock. */
  predicate Abandoned(l: Link) {
    l.replyQueue.None? && l.lost && l.lossHandled && l.task.Idle? && l.lock.Free?
  }

  /** Nothing the session does by itself ends that. */
  lemma {:induction false} AbandonedForGood(s: System, steps: seq<Step>)
    requires Sound(s) && IsRun(s, steps) && Abandoned(s.session.link)
    requires forall i :: 0 <= i < |steps| ==> steps[i] != Acquire(Caller)
    ensures Abandoned(Run(s, steps).session.link)
    decreases |steps|
  {
    if steps != [] {
      StaysAbandoned(s, steps[0]);
      hide Sound, Apply, Enabled, Abandoned;
      StepOk(s, steps[0]);
      AbandonedForGood(Apply(s, steps[0]), steps[1..]);
    }
  }

  lemma StaysAbandoned(s: System, step: Step)
    requires Sound(s) && Enabled(s, step) && Abandoned(s.session.link) && step != Acquire(Caller)
    requires Valid(s.session.desk.table)
    ensures Abandoned(Apply(s, step).session.link)
  {
    hide Sound, Valid, ValidId, Replies, RpcServer.Serve, Settle, FailOutstanding;
  }

  lemma {:induction false} RunOneMore(s: System, steps: seq<Step>, step: Step)
    requires Sound(s) && IsRun(s, steps) && Enabled(Run(s, steps), step)
    ensures Valid(Run(s, steps).session.desk.table)
    ensures IsRun(s, steps + [step]) && Run(s, steps + [step]) == Apply(Run(s, steps), step)
    decreases |steps|
  {
    hide Apply, Enabled;
    DeskIsValid(s);
    hide Sound;
    if steps == [] {
      assert [] + [step] == [step];
      StepOk(s, step);
      assert [step][1..] == [];
    } else {
      StepOk(s, steps[0]);
      RunOneMore(Apply(s, steps[0]), steps[1..], step);
      assert (steps + [step])[1..] == steps[1..] + [step];
    }
  }

  lemma Take(policy: Policy, queue: string, steps: seq<Step>, step: Step) returns (more: seq<Step>)
    requires IsHistory(policy, queue, steps) && Enabled(After(policy, queue, steps), step)
    ensures IsHistory(policy, queue, more) && Valid(After(policy, queue, steps).session.desk.table)
    ensures After(policy, queue, more) == Apply(After(policy, queue, steps), step)
    ensures more == steps + [step]
  {
    StartOk(policy, queue);
    more := steps + [step];
    RunOneMore(Start(policy, queue), steps, step);
  }

  /** One call, waiting for its reply on an open session. */
  lemma CallWaits(policy: Policy, queue: string, id: Id) returns (steps: seq<Step>)
    requires ValidId(id)
    ensures IsHistory(policy, queue, steps)
    ensures var s := After(policy, queue, steps);
      && s.session.policy == policy && s.session.link == Start(policy, queue).session.link
      && s.session.desk.table.pending.Keys == {id} && s.session.desk.parked.Keys == {id}
      && s.calls.Keys == {id} && s.calls[id].stage.Waiting? && s.calls[id].epoch == 0
      && s.calls[id].envelope.replyTo == queue && s.net.published == {s.calls[id].envelope}
  {
    hide Sound, Valid, ValidId, IsRun;
    steps := [];
    StartsRight(policy, queue);
    steps := Take(policy, queue, steps, Request(id, "", "work", "add", "[1,2]"));
    steps := Take(policy, queue, steps, Write(id));
    steps := Take(policy, queue, steps, PublishConfirmed(id));
  }

  lemma StartsRight(policy: Policy, queue: string)
    ensures IsHistory(policy, queue, []) && After(policy, queue, []) == Start(policy, queue)
  {
    StartOk(policy, queue);
  }

  /** The next connection comes up, as far as the result of the last await before republishing. */
  lemma ComesUp(policy: Policy, queue: string, name: string, steps: seq<Step>) returns (more: seq<Step>)
    requires IsHistory(policy, queue, steps)
    requires var s := After(policy, queue, steps);
      && s.session.policy == policy && name !in s.session.link.used && s.session.link.lock == Held(Auto, Teardown)
    ensures IsHistory(policy, queue, more) && more == steps + [StartFresh(name), Ready, Resume, Ready]
    ensures var (s, s') := (After(policy, queue, steps), After(policy, queue, more));
      && s'.session.policy == policy && s'.session.desk == s.session.desk
      && s'.session.link.lock == Held(Auto, Consuming(true))
      && s'.session.link.replyQueue == Some(name) && s'.session.link.queue == name
      && !s'.session.link.lost && !s'.session.link.lossHandled && s'.session.link.task == s.session.link.task
      && s'.calls == s.calls && s'.net == s.net && s'.session.link.epoch == s.session.link.epoch + 1
      && s'.session.link.closing == s.session.link.closing
  {
    hide Sound, Valid, IsRun;
    more := Take(policy, queue, steps, StartFresh(name));
    more := Take(policy, queue, more, Ready);
    more := Take(policy, queue, more, Resume);
    more := Take(policy, queue, more, Ready);
  }

  /** The connection is lost, and the automatic task has brought up the next one. */
  lemma NextConnectionIsUp(policy: Policy, queue: string, name: string, steps: seq<Step>) returns (more: seq<Step>)
    requires !policy.failOutstanding && name != queue
    requires IsHistory(policy, queue, steps)
    requires var s := After(policy, queue, steps);
      s.session.policy == policy && s.session.link == Start(policy, queue).session.link
    ensures IsHistory(policy, queue, more)
    ensures var (s, s') := (After(policy, queue, steps), After(policy, queue, more));
      && s'.session.policy == policy && s'.session.desk == s.session.desk
      && s'.session.link.lock == Held(Auto, Consuming(true)) && !s'.session.link.lost && !s'.session.link.lossHandled
      && s'.session.link.replyQueue == Some(name) && s'.session.link.task == Running(0) && s'.session.link.queue == name
      && s'.calls == s.calls && s'.net == s.net && s'.session.link.epoch == s.session.link.epoch + 1
      && s'.session.link.closing == s.session.link.closing
  {
    hide Sound, Valid, IsRun;
    more := Take(policy, queue, steps, Lose);
    more := Take(policy, queue, more, Acquire(Auto));
    more := ComesUp(policy, queue, name, more);
  }

  lemma OneIsListed(id: Id, parked: map<Id, Envelope>)
    requires parked.Keys == {id}
    ensures Lists([id], parked)
  {
    forall x | x in parked
      ensures x in [id]
    {
      assert x in parked.Keys;
    }
  }

  lemma LossIsHandled(s: System)
    requires Valid(s.session.desk.table) && !s.session.policy.failOutstanding
    requires !s.session.link.lost && !s.session.link.lossHandled && s.session.link.task.Running?
    ensures Enabled(s, Lose)
    ensures Apply(s, Lose).session
         == s.session.(link := s.session.link.(lost := true, lossHandled := true, started := false, replyQueue := None))
  {
    hide Valid;
  }

  lemma NothingToRepublish(s: System, order: seq<Id>)
    requires Valid(s.session.desk.table) && InPhase(s, Consuming(true)) && Lists(order, s.session.desk.parked)
    requires s.session.link.replyQueue.None?
    ensures Enabled(s, Begin(order))
    ensures Apply(s, Begin(order)).session
         == s.session.(link := Finished(s.session.link.(started := true, listening := true), s.session.link.lock.owner))
  {
    hide Valid, Lists;
  }

  /** Under every park policy: the new connection is lost after the consumer's confirmation
      is set and before the reconnecting coroutine resumes.  It still runs, so no other is
      started; it resumes, finds no reply queue, and ends quietly.  The call stays pending and parked. */
  lemma LossBeforeConsumingIsSeen(policy: Policy, queue: string, name: string, id: Id) returns (steps: seq<Step>)
    requires !policy.failOutstanding && name != queue && ValidId(id)
    ensures IsHistory(policy, queue, steps)
    ensures var s := After(policy, queue, steps);
      Abandoned(s.session.link) && id in s.session.desk.table.pending && id in s.session.desk.parked
  {
    steps := CallWaits(policy, queue, id);
    steps := NextConnectionIsUp(policy, queue, name, steps);
    hide Sound, Valid, IsRun, ValidId, Lists;
    LossIsHandled(After(policy, queue, steps));
    hide Apply, Enabled;
    steps := Take(policy, queue, steps, Lose);
    OneIsListed(id, After(policy, queue, steps).session.desk.parked);
    NothingToRepublish(After(policy, queue, steps), [id]);
    steps := Take(policy, queue, steps, Begin([id]));
  }

  /** The one parked message is republished, and its confirm is set. */
  lemma ConfirmIsSet(policy: Policy, queue: string, id: Id, steps: seq<Step>) returns (more: seq<Step>)
    requires !policy.failOutstanding && IsHistory(policy, queue, steps)
    requires var s := After(policy, queue, steps);
      && s.session.policy == policy && s.session.link.lock == Held(Auto, Consuming(true))
      && s.session.link.replyQueue.Some? && !s.session.link.lost && !s.session.link.lossHandled
      && s.session.link.task.Running?
      && s.session.desk.table.pending.Keys == {id} && s.session.desk.parked.Keys == {id}
    ensures IsHistory(policy, queue, more)
    ensures var (s, s') := (After(policy, queue, steps), After(policy, queue, more));
      && s'.session.policy == policy && s'.session.desk == s.session.desk
      && s'.session.link.lock.Held? && s'.session.link.lock.owner.Auto?
      && s'.session.link.lock.phase == Republishing([Item(id, s.session.desk.parked[id])], Written(Some(Acked)))
      && !s'.session.link.lost && !s'.session.link.lossHandled && s'.session.link.task.Running?
  {
    var s := After(policy, queue, steps);
    OneItemBegins(s, id);
    hide Sound, Valid, IsRun, Apply, Enabled;
    more := Take(policy, queue, steps, Begin([id]));
    s := After(policy, queue, more);
    MessageIsWritten(s);
    more := Take(policy, queue, more, TurnWrite);
    s := After(policy, queue, more);
    AnswerIsSet(s);
    more := Take(policy, queue, more, TurnAnswer(Acked));
  }

  predicate AtTurn(s: System, turn: Turn) {
    && s.session.link.lock.Held? && s.session.link.lock.phase.Republishing?
    && s.session.link.lock.phase.work != [] && s.session.link.lock.phase.turn == turn
  }

  function WithTurn(s: Session, turn: Turn): Session
    requires s.link.lock.Held? && s.link.lock.phase.Republishing?
  {
    s.(link := s.link.(lock := s.link.lock.(phase := Republishing(s.link.lock.phase.work, turn))))
  }

  lemma MessageIsWritten(s: System)
    requires Valid(s.session.desk.table) && AtTurn(s, Checked)
    ensures Enabled(s, TurnWrite) && Apply(s, TurnWrite).session == WithTurn(s.session, Written(None))
  {
    hide Valid;
  }

  lemma AnswerIsSet(s: System)
    requires Valid(s.session.desk.table) && AtTurn(s, Written(None)) && !s.session.link.lost
    ensures Enabled(s, TurnAnswer(Acked))
    ensures Apply(s, TurnAnswer(Acked)).session == WithTurn(s.session, Written(Some(Acked)))
  {
    hide Valid;
  }

  lemma OneItemBegins(s: System, id: Id)
    requires Valid(s.session.desk.table) && InPhase(s, Consuming(true))
    requires s.session.desk.table.pending.Keys == {id} && s.session.desk.parked.Keys == {id}
    requires s.session.link.replyQueue.Some? && !s.session.policy.failOutstanding
    ensures Enabled(s, Begin([id]))
    ensures Apply(s, Begin([id])).session
         == s.session.(link := s.session.link.(started := true, listening := true,
              lock := Held(s.session.link.lock.owner, Republishing([Item(id, s.session.desk.parked[id])], Checked))))
    ensures var s' := Apply(s, Begin([id])); s'.round.sent == [] && s'.calls == s.calls && s'.net == s.net
  {
    OneIsListed(id, s.session.desk.parked);
    hide Valid, Lists;
    assert Items([id], s.session.desk.parked) == [Item(id, s.session.desk.parked[id])];
  }

  lemma LastTurnEnds(s: System, item: Item)
    requires Valid(s.session.desk.table)
    requires s.session.link.lock == Held(Auto, Republishing([item], Written(Some(Acked))))
    ensures Enabled(s, TurnResume)
    ensures Apply(s, TurnResume).session == s.session.(link := Finished(s.session.link, Auto))
  {
    hide Valid;
  }

  /** The same after the last republished message's confirm is set. */
  lemma LossBeforeConfirmIsSeen(policy: Policy, queue: string, name: string, id: Id) returns (steps: seq<Step>)
    requires !policy.failOutstanding && name != queue && ValidId(id)
    ensures IsHistory(policy, queue, steps)
    ensures var s := After(policy, queue, steps);
      Abandoned(s.session.link) && id in s.session.desk.table.pending && id in s.session.desk.parked
  {
    steps := CallWaits(policy, queue, id);
    steps := NextConnectionIsUp(policy, queue, name, steps);
    steps := ConfirmIsSet(policy, queue, id, steps);
    hide Sound, Valid, IsRun, ValidId;
    ghost var item := Item(id, After(policy, queue, steps).session.desk.parked[id]);
    steps := Take(policy, queue, steps, Lose);
    LastTurnEnds(After(policy, queue, steps), item);
    hide Apply, Enabled;
    steps := Take(policy, queue, steps, TurnResume);
  }

  // ---------------------------------------------------------------- the link, over runs

  /** The fail-fast policy never starts the automatic task. */
  predicate NeverTries(s: Session) {
    s.policy.failOutstanding ==> s.link.task.Idle?
  }

  lemma StepKeepsLinked(s: System, step: Step)
    requires Sound(s) && Enabled(s, step) && Linked(s.session.link) && NeverTries(s.session)
    requires Valid(s.session.desk.table)
    ensures Linked(Apply(s, step).session.link) && NeverTries(Apply(s, step).session)
    ensures Apply(s, step).session.policy == s.session.policy
  {
    hide Sound, Apply, Enabled, Valid, LastTurn, PendingAfter;
    if IsTurnEnd(step) {
      TurnEndsLink(s, step);
    } else if MovesOn(step) {
      MoveKeepsLinked(s, step);
    } else if ConcernsLink(step) {
      LinkStepKeepsLinked(s, step);
    } else {
      DeskStepLeavesLink(s, step);
    }
  }

  lemma MoveKeepsLinked(s: System, step: Step)
    requires Sound(s) && Enabled(s, step) && Linked(s.session.link) && NeverTries(s.session)
    requires Valid(s.session.desk.table) && MovesOn(step)
    ensures Linked(Apply(s, step).session.link) && NeverTries(Apply(s, step).session)
    ensures Apply(s, step).session.policy == s.session.policy
  {
    hide Sound, Valid;
  }

  lemma LinkStepKeepsLinked(s: System, step: Step)
    requires Sound(s) && Enabled(s, step) && Linked(s.session.link)
    requires Valid(s.session.desk.table) && ConcernsLink(step) && !MovesOn(step)
    ensures Linked(Apply(s, step).session.link) && (NeverTries(s.session) ==> NeverTries(Apply(s, step).session))
    ensures Apply(s, step).session.policy == s.session.policy
  {
    hide Sound, Valid, FailOutstanding;
  }

  lemma {:induction false} RunKeepsLinked(s: System, steps: seq<Step>)
    requires Sound(s) && IsRun(s, steps) && Linked(s.session.link) && NeverTries(s.session)
    ensures Linked(Run(s, steps).session.link) && NeverTries(Run(s, steps).session)
    ensures Run(s, steps).session.policy == s.session.policy
    decreases |steps|
  {
    if steps != [] {
      hide Sound, Apply, Enabled, Linked, NeverTries;
      DeskIsValid(s);
      StepOk(s, steps[0]);
      StepKeepsLinked(s, steps[0]);
      RunKeepsLinked(Apply(s, steps[0]), steps[1..]);
    }
  }

  lemma {:induction false} RunInTwo(s: System, a: seq<Step>, b: seq<Step>)
    requires Sound(s) && IsRun(s, a) && IsRun(s, a + b)
    ensures Sound(Run(s, a)) && IsRun(Run(s, a), b) && Run(s, a + b) == Run(Run(s, a), b)
    decreases |a|
  {
    hide Sound, Apply, Enabled;
    if a == [] {
      assert a + b == b;
    } else {
      assert (a + b)[1..] == a[1..] + b;
      DeskIsValid(s);
      StepOk(s, a[0]);
      RunInTwo(Apply(s, a[0]), a[1..], b);
    }
  }
}
