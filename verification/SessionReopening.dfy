/** Whether a session that its caller closed stays closed. */
module SessionReopening {
  import opened Results
  import opened Correlation
  import opened SessionState
  import opened SessionRuns
  import opened SessionRepublish
  import opened SessionSafety
  import opened SessionParking
  import RpcServer

  predicate NoCallerReconnects(steps: seq<Step>) {
    forall i :: 0 <= i < |steps| ==> steps[i] != Acquire(Caller)
  }

  // ---------------------------------------------------------------- closed for good

  /** Closed, and nothing under way that would change it: a loss, should one come, is either
      handled already or not answered by a reconnection. */
  predicate Shut(s: System) {
    && !Open(s.session.link) && s.session.link.task.Idle? && s.session.link.lock.Free?
    && (s.session.policy.failOutstanding || (s.session.link.lost && s.session.link.lossHandled))
  }

  /** The automatic task runs out of attempts if this one raises. */
  predicate OnLastAttempt(s: Session) {
    s.link.task.Running? && s.link.task.failures + 1 >= s.policy.maxAttempts
  }

  /** A reconnection goes on, on a connection that is lost again, and will not get a further
      attempt: it raises and gives up, or it has its last answer and finds no reply queue. */
  predicate Dying(s: System) {
    var link := s.session.link;
    && !s.session.policy.failOutstanding && link.lost && link.lossHandled && !Open(link)
    && link.task.Running? && link.lock.Held? && link.lock.owner.Auto? && !link.lock.phase.Teardown?
    && (link.lock.phase == Consuming(true) || OnLastAttempt(s.session))
    && (link.lock.phase == Consuming(true) ==> link.replyQueue.None?)
    && (link.lock.phase.Republishing? || !link.started)
  }

  predicate Doomed(s: System) {
    Shut(s) || Dying(s)
  }

  lemma StaysShut(s: System, step: Step)
    requires Sound(s) && Enabled(s, step) && Shut(s) && step != Acquire(Caller) && Valid(s.session.desk.table)
    ensures Shut(Apply(s, step))
  {
    hide Sound, Valid, ValidId, Replies, RpcServer.Serve, Settle, FailOutstanding;
  }

  lemma StaysDoomed(s: System, step: Step)
    requires Sound(s) && Enabled(s, step) && Dying(s) && Valid(s.session.desk.table)
    ensures Doomed(Apply(s, step))
  {
    if IsTurnEnd(step) {
      TurnEndsLink(s, step);
      hide Sound, Apply, Enabled, Valid, LastTurn, PendingAfter;
    } else if ConcernsLink(step) {
      DyingStaysDoomed(s, step);
    } else {
      DeskStepLeavesLink(s, step);
      hide Sound, Apply, Enabled, Valid;
    }
  }

  lemma DyingStaysDoomed(s: System, step: Step)
    requires Sound(s) && Enabled(s, step) && Dying(s) && Valid(s.session.desk.table) && ConcernsLink(step)
    ensures Doomed(Apply(s, step))
  {
    hide Sound, Valid, Settle, FailOutstanding;
  }

  lemma {:induction false} DoomedForGood(s: System, steps: seq<Step>)
    requires Sound(s) && IsRun(s, steps) && Doomed(s) && NoCallerReconnects(steps)
    ensures Doomed(Run(s, steps))
    decreases |steps|
  {
    if steps != [] {
      DeskIsValid(s);
      if Shut(s) {
        StaysShut(s, steps[0]);
      } else {
        StaysDoomed(s, steps[0]);
      }
      hide Sound, Apply, Enabled, Shut, Dying;
      StepOk(s, steps[0]);
      DoomedForGood(Apply(s, steps[0]), steps[1..]);
    }
  }

  // ---------------------------------------------------------------- the condition

  /** What the automatic task does with a cancellation it swallows: in the teardown it goes on
      to a new connection, anywhere else it first has to raise, and then to have an attempt
      left. */
  predicate GoesOnFrom(s: Session) {
    s.link.lock.Held? && s.link.lock.owner.Auto? &&
    (s.link.lock.phase.Teardown? || (s.link.lock.phase != Consuming(true) && !OnLastAttempt(s)))
  }

  /** Whether such a close can be undone: calls are parked, and either the connection is still
      there to break, or the automatic task goes on. */
  predicate Reopenable(s: Session, swallowed: bool) {
    !s.policy.failOutstanding && (!s.link.lost || (swallowed && GoesOnFrom(s)))
  }

  /** Whether a session closed after such a history can be open again later, with no `close`
      still to go on, though no caller reconnects it. */
  ghost predicate CanReopen(policy: Policy, queue: string, before: seq<Step>, swallowed: bool) {
    exists after :: NoCallerReconnects(after) && ReopensBy(policy, queue, before, swallowed, after)
  }

  ghost predicate ReopensBy(policy: Policy, queue: string, before: seq<Step>, swallowed: bool, after: seq<Step>) {
    var steps := before + [Close(swallowed)] + after;
    IsHistory(policy, queue, steps) && IsOpenAgain(After(policy, queue, steps).session.link)
  }

  predicate IsOpenAgain(l: Link) {
    Open(l) && l.closing == 0
  }

  /** A session that its caller closes stays closed, unless a caller reconnects it, if and only
      if its policy is fail-fast, or its connection is lost when it is closed and the
      automatic task does not go on in spite of the cancellation.  Otherwise the connection
      can still break while it is closing; the loss callback then finds the loss not handled
      and no task running, and starts a reconnection. */
  lemma ReopensIff(policy: Policy, queue: string, before: seq<Step>, swallowed: bool)
    requires IsHistory(policy, queue, before) && Enabled(After(policy, queue, before), Close(swallowed))
    ensures CanReopen(policy, queue, before, swallowed) <==> Reopenable(After(policy, queue, before).session, swallowed)
  {
    if Reopenable(After(policy, queue, before).session, swallowed) {
      var after := ClosedSessionReopens(policy, queue, before, swallowed);
      assert NoCallerReconnects(after) && ReopensBy(policy, queue, before, swallowed, after);
    } else {
      forall after | NoCallerReconnects(after) && IsHistory(policy, queue, before + [Close(swallowed)] + after)
        ensures !ReopensBy(policy, queue, before, swallowed, after)
      {
        ClosedSessionStaysClosed(policy, queue, before, swallowed, after);
      }
    }
  }

  /** The same of a close that may or may not be swallowed: what a caller can rely on, by what
      the session looks like when it calls `close`. */
  lemma MayReopenIff(policy: Policy, queue: string, before: seq<Step>)
    requires IsHistory(policy, queue, before) && Enabled(After(policy, queue, before), Close(false))
    ensures var s := After(policy, queue, before);
      (exists swallowed: bool :: Enabled(s, Close(swallowed)) && CanReopen(policy, queue, before, swallowed))
        <==> (!policy.failOutstanding
              && (s.session.link.lost ==> MaySwallow(s.session.link) && GoesOnFrom(s.session)))
  {
    var s := After(policy, queue, before);
    HistoryIsLinked(policy, queue, before);
    ReopensIff(policy, queue, before, false);
    if MaySwallow(s.session.link) {
      ReopensIff(policy, queue, before, true);
    }
    hide CanReopen, After, IsHistory, GoesOnFrom, Linked;
  }

  lemma HistoryIsLinked(policy: Policy, queue: string, steps: seq<Step>)
    requires IsHistory(policy, queue, steps)
    ensures var s := After(policy, queue, steps);
      && Sound(s) && Valid(s.session.desk.table) && Linked(s.session.link) && NeverTries(s.session)
      && s.session.policy == policy
  {
    StartOk(policy, queue);
    RunKeepsLinked(Start(policy, queue), steps);
    HistoryOk(policy, queue, steps);
    hide Sound;
    DeskIsValid(After(policy, queue, steps));
  }

  lemma ClosedSessionStaysClosed(policy: Policy, queue: string, before: seq<Step>, swallowed: bool, after: seq<Step>)
    requires IsHistory(policy, queue, before) && Enabled(After(policy, queue, before), Close(swallowed))
    requires !Reopenable(After(policy, queue, before).session, swallowed)
    requires NoCallerReconnects(after) && IsHistory(policy, queue, before + [Close(swallowed)] + after)
    ensures !Open(After(policy, queue, before + [Close(swallowed)] + after).session.link)
  {
    HistoryIsLinked(policy, queue, before);
    ClosingDooms(After(policy, queue, before), swallowed);
    hide Enabled, Apply, Reopenable, Linked, Sound;
    var closed := Take(policy, queue, before, Close(swallowed));
    HistoryOk(policy, queue, closed);
    SplitHistory(policy, queue, closed, after);
    DoomedForGood(After(policy, queue, closed), after);
  }

  lemma SplitHistory(policy: Policy, queue: string, a: seq<Step>, b: seq<Step>)
    requires IsHistory(policy, queue, a) && IsHistory(policy, queue, a + b)
    ensures Sound(After(policy, queue, a)) && IsRun(After(policy, queue, a), b)
    ensures After(policy, queue, a + b) == Run(After(policy, queue, a), b)
  {
    hide Sound, IsRun, Run;
    StartOk(policy, queue);
    RunInTwo(Start(policy, queue), a, b);
  }

  lemma ClosingDooms(s: System, swallowed: bool)
    requires Valid(s.session.desk.table) && Enabled(s, Close(swallowed))
    requires Linked(s.session.link) && NeverTries(s.session)
    requires !Reopenable(s.session, swallowed)
    ensures Doomed(Apply(s, Close(swallowed)))
  {
    hide Valid, FailOutstanding;
  }

  // ---------------------------------------------------------------- open again

  /** A name no reply queue has had: longer than all of them. */
  lemma FreshName(used: set<string>) returns (name: string)
    ensures name !in used
  {
    var n := Longest(used);
    name := seq(n + 1, _ => 'q');
    assert |name| == n + 1;
  }

  lemma {:induction false} Longest(used: set<string>) returns (n: nat)
    ensures forall name :: name in used ==> |name| <= n
    decreases used
  {
    if used == {} {
      n := 0;
    } else {
      var one :| one in used;
      var m := Longest(used - {one});
      n := if |one| > m then |one| else m;
      assert forall name :: name in used ==> name == one || name in used - {one};
    }
  }

  /** The history goes on by itself: no caller reconnects or closes. */
  predicate GoesOn(steps: seq<Step>, more: seq<Step>) {
    && |steps| <= |more| && more[..|steps|] == steps
    && forall i :: |steps| <= i < |more| ==> more[i] != Acquire(Caller) && !more[i].Close?
  }

  lemma GoesOnTwice(a: seq<Step>, b: seq<Step>, c: seq<Step>)
    requires GoesOn(a, b) && GoesOn(b, c)
    ensures GoesOn(a, c)
  {
    assert c[..|a|] == c[..|b|][..|a|];
  }

  lemma GoesOnBy(steps: seq<Step>, more: seq<Step>)
    requires forall i :: 0 <= i < |more| ==> more[i] != Acquire(Caller) && !more[i].Close?
    ensures GoesOn(steps, steps + more)
  {}

  /** Nothing pending, nothing parked, and so nothing to republish. */
  predicate Empty(d: Desk) {
    d.table.pending == map[] && d.parked == map[]
  }

  /** A reconnection is over, on a connection that has not been lost. */
  predicate Settled(s: Session) {
    s.link.task.Idle? && s.link.lock.Free? && !s.link.lost && !s.link.lossHandled && Empty(s.desk)
  }

  /** From the teardown a reconnection comes up and finishes. */
  lemma FinishesFromTeardown(policy: Policy, queue: string, steps: seq<Step>) returns (more: seq<Step>)
    requires IsHistory(policy, queue, steps) && !policy.failOutstanding
    requires var s := After(policy, queue, steps);
      s.session.policy == policy && s.session.link.lock == Held(Auto, Teardown) && Empty(s.session.desk)
    ensures IsHistory(policy, queue, more) && GoesOn(steps, more)
    ensures var (s, s') := (After(policy, queue, steps), After(policy, queue, more));
      && s'.session.policy == policy && Settled(s'.session) && Open(s'.session.link)
      && s'.session.link.closing == s.session.link.closing
  {
    var name := FreshName(After(policy, queue, steps).session.link.used);
    more := ComesUp(policy, queue, name, steps);
    NothingParked(After(policy, queue, more));
    hide Apply, Enabled, Sound, Valid, IsHistory, After;
    more := Take(policy, queue, more, Begin([]));
    assert more == steps + [StartFresh(name), Ready, Resume, Ready, Begin([])];
    GoesOnBy(steps, [StartFresh(name), Ready, Resume, Ready, Begin([])]);
  }

  lemma NothingParked(s: System)
    requires Valid(s.session.desk.table) && InPhase(s, Consuming(true)) && Empty(s.session.desk)
    requires s.session.link.replyQueue.Some?
    ensures Enabled(s, Begin([]))
    ensures Apply(s, Begin([])).session
         == s.session.(link := Finished(s.session.link.(started := true, listening := true), s.session.link.lock.owner))
  {
    hide Valid;
  }

  lemma ComesUpFromConsuming(policy: Policy, queue: string, steps: seq<Step>) returns (more: seq<Step>)
    requires IsHistory(policy, queue, steps) && !policy.failOutstanding
    requires var s := After(policy, queue, steps);
      && s.session.policy == policy && s.session.link.lock == Held(Auto, Consuming(true)) && Empty(s.session.desk)
      && s.session.link.replyQueue.Some? && !s.session.link.lost && !s.session.link.lossHandled
    ensures IsHistory(policy, queue, more) && GoesOn(steps, more)
    ensures Finishes(After(policy, queue, steps).session, After(policy, queue, more).session)
  {
    NothingParked(After(policy, queue, steps));
    hide Apply, Enabled, Sound, Valid, IsHistory, After;
    more := Take(policy, queue, steps, Begin([]));
    GoesOnBy(steps, [Begin([])]);
  }

  /** The reconnection is over, and as many calls of `close` wait as before. */
  predicate Finishes(s: Session, s': Session) {
    s'.policy == s.policy && Settled(s') && s'.link.closing == s.link.closing
  }

  lemma ReadyIsSet(s: System)
    requires Valid(s.session.desk.table) && InPhase(s, Declaring(false)) && !s.session.link.lost
    ensures Enabled(s, Ready)
    ensures Apply(s, Ready).session
         == s.session.(link := s.session.link.(lock := Held(s.session.link.lock.owner, Declaring(true))))
  {
    hide Valid;
  }

  lemma ConsumerIsUp(s: System)
    requires Valid(s.session.desk.table) && InPhase(s, Declaring(true)) && !s.session.link.lost
    ensures Enabled(s, Resume) && Enabled(Apply(s, Resume), Ready) && Apply(s, Resume).session.desk == s.session.desk
    ensures Apply(Apply(s, Resume), Ready).session
         == s.session.(link := s.session.link.(replyQueue := Some(s.session.link.queue),
                                               lock := Held(s.session.link.lock.owner, Consuming(true))))
  {
    hide Valid;
  }

  lemma ComesUpFromDeclaring(policy: Policy, queue: string, steps: seq<Step>) returns (more: seq<Step>)
    requires IsHistory(policy, queue, steps) && !policy.failOutstanding
    requires var s := After(policy, queue, steps);
      && s.session.policy == policy && s.session.link.lock.Held? && s.session.link.lock.owner.Auto?
      && s.session.link.lock.phase.Declaring? && Empty(s.session.desk)
      && !s.session.link.lost && !s.session.link.lossHandled
    ensures IsHistory(policy, queue, more) && GoesOn(steps, more)
    ensures Finishes(After(policy, queue, steps).session, After(policy, queue, more).session)
  {
    HistoryIsLinked(policy, queue, steps);
    hide Apply, Enabled, Sound, Valid, Linked, IsHistory, After;
    var s := After(policy, queue, steps);
    var declared := steps;
    if s.session.link.lock.phase == Declaring(false) {
      ReadyIsSet(s);
      declared := Take(policy, queue, steps, Ready);
    }
    ConsumerIsUp(After(policy, queue, declared));
    var up := Take(policy, queue, declared, Resume);
    up := Take(policy, queue, up, Ready);
    more := ComesUpFromConsuming(policy, queue, up);
    assert up == declared + [Resume, Ready];
    GoesOnBy(declared, [Resume, Ready]);
    GoesOnTwice(steps, declared, up);
    GoesOnTwice(steps, up, more);
  }

  /** A round whose calls are all failed ends with its turn. */
  lemma RoundEnds(s: System)
    requires Valid(s.session.desk.table) && AtTurn(s, Checked) && Empty(s.session.desk)
    ensures Enabled(s, TurnBlocked)
    ensures Empty(Apply(s, TurnBlocked).session.desk)
    ensures Apply(s, TurnBlocked).session.link == Finished(s.session.link, s.session.link.lock.owner)
    ensures Apply(s, TurnBlocked).session.policy == s.session.policy
  {
    hide Valid;
    var work := s.session.link.lock.phase.work;
    var settled := Settle(s.session.desk, work[0].id, Failed(ConnectionBlocked));
    assert settled.table.pending == map[] && settled.parked == map[];
    NoneLeft(settled, work[1..]);
    NothingToForget(settled, work[1..]);
    hide NextPending, ForgetSettled, Skips;
  }

  lemma {:induction false} NothingToForget(d: Desk, work: seq<Item>)
    requires d.parked == map[]
    ensures ForgetSettled(d, work).parked == map[] && ForgetSettled(d, work).table == d.table
    decreases |work|
  {
    if work != [] && work[0].id !in d.table.pending {
      NothingToForget(Forget(d, work[0].id), work[1..]);
    }
  }

  lemma ComesUpFromRound(policy: Policy, queue: string, steps: seq<Step>) returns (more: seq<Step>)
    requires IsHistory(policy, queue, steps) && !policy.failOutstanding
    requires var s := After(policy, queue, steps);
      && s.session.policy == policy && AtTurn(s, Checked) && s.session.link.lock.owner.Auto? && Empty(s.session.desk)
      && !s.session.link.lost && !s.session.link.lossHandled
    ensures IsHistory(policy, queue, more) && GoesOn(steps, more)
    ensures Finishes(After(policy, queue, steps).session, After(policy, queue, more).session)
  {
    HistoryIsLinked(policy, queue, steps);
    RoundEnds(After(policy, queue, steps));
    hide Apply, Enabled, Sound, Valid, IsHistory, After;
    more := Take(policy, queue, steps, TurnBlocked);
    GoesOnBy(steps, [TurnBlocked]);
  }

  /** A reconnection on a connection that is lost again raises, and has another attempt. */
  lemma HasAnotherAttempt(policy: Policy, queue: string, steps: seq<Step>) returns (more: seq<Step>)
    requires IsHistory(policy, queue, steps) && !policy.failOutstanding
    requires var s := After(policy, queue, steps);
      && s.session.policy == policy && s.session.link.lock.Held? && s.session.link.lock.owner.Auto?
      && (s.session.link.lock.phase.Declaring? || s.session.link.lock.phase == Consuming(false) || AtTurn(s, Checked))
      && Empty(s.session.desk)
      && s.session.link.lost && !Open(s.session.link) && !s.session.link.started
      && s.session.link.task.Running? && !OnLastAttempt(s.session)
    ensures IsHistory(policy, queue, more) && GoesOn(steps, more)
    ensures var (s, s') := (After(policy, queue, steps), After(policy, queue, more));
      && s'.session.policy == policy && s'.session.link.lock == Held(Auto, Teardown) && Empty(s'.session.desk)
      && s'.session.link.closing == s.session.link.closing
  {
    HistoryIsLinked(policy, queue, steps);
    hide Apply, Enabled, Sound, Valid, Linked, IsHistory, After;
    var resumed := steps;
    if After(policy, queue, steps).session.link.lock.phase == Declaring(true) {
      QueueIsDeclared(After(policy, queue, steps));
      resumed := Take(policy, queue, steps, Resume);
      GoesOnBy(steps, [Resume]);
    }
    RaisesAndTriesAgain(After(policy, queue, resumed));
    more := Take(policy, queue, resumed, Raise);
    more := Take(policy, queue, more, Acquire(Auto));
    assert more == resumed + [Raise, Acquire(Auto)];
    GoesOnBy(resumed, [Raise, Acquire(Auto)]);
    GoesOnTwice(steps, resumed, more);
  }

  lemma QueueIsDeclared(s: System)
    requires Valid(s.session.desk.table) && InPhase(s, Declaring(true))
    ensures Enabled(s, Resume)
    ensures Apply(s, Resume).session
         == s.session.(link := s.session.link.(replyQueue := Some(s.session.link.queue),
                                               lock := Held(s.session.link.lock.owner, Consuming(false))))
  {
    hide Valid;
  }

  lemma RaisesAndTriesAgain(s: System)
    requires Valid(s.session.desk.table) && !s.session.policy.failOutstanding
    requires MayRaise(s) && s.session.link.lock.owner.Auto? && s.session.link.task.Running? && !OnLastAttempt(s.session)
    requires s.session.link.lost && !Open(s.session.link)
    ensures Enabled(s, Raise) && Enabled(Apply(s, Raise), Acquire(Auto))
    ensures Apply(s, Raise).session.desk == s.session.desk
    ensures var s' := Apply(Apply(s, Raise), Acquire(Auto));
      && s'.session.policy == s.session.policy && s'.session.link.lock == Held(Auto, Teardown)
      && s'.session.desk == s.session.desk && s'.session.link.closing == s.session.link.closing
  {
    hide Valid;
  }

  /** What a reconnection that swallowed its cancellation has before it. */
  predicate SwallowedBy(s: System) {
    var (session, link) := (s.session, s.session.link);
    && MaySwallow(link) && !link.started && link.task.Running? && Empty(session.desk) && link.lossHandled == link.lost
    && (link.lock.phase.Consuming? && !link.lost ==> link.replyQueue.Some?)
    && (link.lock.phase.Republishing? ==> link.lock.phase.work != [])
    && (link.lost ==> GoesOnFrom(session))
  }

  lemma SwallowedFinishes(policy: Policy, queue: string, steps: seq<Step>) returns (more: seq<Step>)
    requires IsHistory(policy, queue, steps) && !policy.failOutstanding
    requires After(policy, queue, steps).session.policy == policy && SwallowedBy(After(policy, queue, steps))
    ensures IsHistory(policy, queue, more) && GoesOn(steps, more)
    ensures Finishes(After(policy, queue, steps).session, After(policy, queue, more).session)
  {
    var s := After(policy, queue, steps);
    hide IsHistory, After;
    if s.session.link.lock.phase.Teardown? {
      more := FinishesFromTeardown(policy, queue, steps);
    } else if s.session.link.lost {
      var again := HasAnotherAttempt(policy, queue, steps);
      more := FinishesFromTeardown(policy, queue, again);
      GoesOnTwice(steps, again, more);
    } else {
      match s.session.link.lock.phase {
        case Declaring(_) => more := ComesUpFromDeclaring(policy, queue, steps);
        case Consuming(_) => more := ComesUpFromConsuming(policy, queue, steps);
        case Republishing(_, _) => more := ComesUpFromRound(policy, queue, steps);
      }
    }
  }

  /** Every `close` that waits goes on. */
  lemma {:induction false} ClosesGoOn(policy: Policy, queue: string, steps: seq<Step>) returns (more: seq<Step>)
    requires IsHistory(policy, queue, steps) && Settled(After(policy, queue, steps).session)
    ensures IsHistory(policy, queue, more) && GoesOn(steps, more)
    ensures var (s, s') := (After(policy, queue, steps).session, After(policy, queue, more).session);
      s'.policy == s.policy && Settled(s') && s'.link.closing == 0
    decreases After(policy, queue, steps).session.link.closing
  {
    hide Sound, Valid, IsRun;
    if After(policy, queue, steps).session.link.closing == 0 {
      more := steps;
    } else {
      var one := Take(policy, queue, steps, CloseGoesOn);
      assert GoesOn(steps, one);
      hide Apply, Enabled;
      more := ClosesGoOn(policy, queue, one);
      GoesOnTwice(steps, one, more);
    }
  }

  /** A closed session whose connection breaks is open again. */
  lemma BreaksAndReopens(policy: Policy, queue: string, steps: seq<Step>) returns (more: seq<Step>)
    requires IsHistory(policy, queue, steps) && !policy.failOutstanding
    requires var s := After(policy, queue, steps).session; s.policy == policy && Settled(s) && s.link.closing == 0
    ensures IsHistory(policy, queue, more) && GoesOn(steps, more)
    ensures IsOpenAgain(After(policy, queue, more).session.link)
  {
    hide Sound, Valid, IsRun;
    var lost := Take(policy, queue, steps, Lose);
    lost := Take(policy, queue, lost, Acquire(Auto));
    assert GoesOn(steps, lost);
    hide Apply, Enabled;
    more := FinishesFromTeardown(policy, queue, lost);
    GoesOnTwice(steps, lost, more);
  }

  lemma ClosingLeaves(s: System, swallowed: bool)
    requires Sound(s) && Valid(s.session.desk.table) && Enabled(s, Close(swallowed)) && Linked(s.session.link)
    requires Reopenable(s.session, swallowed)
    ensures var s' := Apply(s, Close(swallowed));
      && s'.session.policy == s.session.policy
      && if swallowed then SwallowedBy(s') else Settled(s'.session)
  {
    DiscardLaw(s.session.desk.table, Failed(SessionClosed));
    hide Sound, Valid;
    assert WorkOk(s.session.link, s.calls) by { hide Valid; }
  }

  lemma ClosedSessionReopens(policy: Policy, queue: string, before: seq<Step>, swallowed: bool)
    returns (after: seq<Step>)
    requires IsHistory(policy, queue, before) && Enabled(After(policy, queue, before), Close(swallowed))
    requires Reopenable(After(policy, queue, before).session, swallowed)
    ensures forall i :: 0 <= i < |after| ==> after[i] != Acquire(Caller) && !after[i].Close?
    ensures ReopensBy(policy, queue, before, swallowed, after)
  {
    HistoryIsLinked(policy, queue, before);
    ClosingLeaves(After(policy, queue, before), swallowed);
    var closed := Take(policy, queue, before, Close(swallowed));
    hide Apply, Enabled, Sound, Valid, Linked, Reopenable, IsHistory, After, Settled, SwallowedBy;
    var done := closed;
    if swallowed {
      done := SwallowedFinishes(policy, queue, closed);
      assert Settled(After(policy, queue, done).session) && After(policy, queue, done).session.policy == policy;
    }
    assert GoesOn(closed, done);
    var alone := ClosesGoOn(policy, queue, done);
    var open := BreaksAndReopens(policy, queue, alone);
    GoesOnTwice(done, alone, open);
    GoesOnTwice(closed, done, open);
    after := open[|closed|..];
    assert closed + after == open;
  }

  // ---------------------------------------------------------------- a close that is undone

  /** Under every park policy: the connection is lost, and its caller closes the session while
      the automatic task waits, in the teardown, for the reply task it has cancelled.  The
      session opens again, on a new connection, although `close` has not returned. */
  lemma OpensWhileClosing(policy: Policy, queue: string, name: string) returns (steps: seq<Step>)
    requires !policy.failOutstanding && name != queue
    ensures steps == [Lose, Acquire(Auto), Close(true), StartFresh(name), Ready, Resume, Ready, Begin([])]
    ensures IsHistory(policy, queue, steps)
    ensures var s := After(policy, queue, steps);
      && s.session.policy == policy && Settled(s.session) && Open(s.session.link) && s.session.link.closing == 1
      && s.calls == map[]
  {
    steps := ClosedInTeardown(policy, queue, name);
    steps := ComesUp(policy, queue, name, steps);
    NothingParked(After(policy, queue, steps));
    BeginKeepsCalls(After(policy, queue, steps), []);
    hide Apply, Enabled, Sound, Valid, IsHistory, After;
    steps := Take(policy, queue, steps, Begin([]));
  }

  lemma BeginKeepsCalls(s: System, order: seq<Id>)
    requires Valid(s.session.desk.table) && Enabled(s, Begin(order))
    ensures Apply(s, Begin(order)).calls == s.calls
  {
    hide Valid;
  }

  lemma ClosedInTeardown(policy: Policy, queue: string, name: string) returns (steps: seq<Step>)
    requires !policy.failOutstanding && name != queue
    ensures steps == [Lose, Acquire(Auto), Close(true)] && IsHistory(policy, queue, steps)
    ensures var s := After(policy, queue, steps);
      && s.session.policy == policy && s.session.link.lock == Held(Auto, Teardown) && Empty(s.session.desk)
      && name !in s.session.link.used && s.session.link.closing == 1 && s.session.link.task == Running(0)
      && s.session.link.lost && s.calls == map[]
  {
    hide Sound, Valid, IsRun;
    StartsRight(policy, queue);
    steps := Take(policy, queue, [], Lose);
    steps := Take(policy, queue, steps, Acquire(Auto));
    steps := Take(policy, queue, steps, Close(true));
  }

  /** A call that the session takes on then is still pending when `close` goes on: the session
      is closed for it, and nobody is reconnecting. */
  lemma CallIsClosedOver(policy: Policy, queue: string, name: string, id: Id) returns (steps: seq<Step>)
    requires !policy.failOutstanding && name != queue && ValidId(id)
    ensures IsHistory(policy, queue, steps)
    ensures var s := After(policy, queue, steps);
      Quit(s.session.link) && s.session.link.closing == 0 && id in s.session.desk.table.pending
  {
    steps := OpensWhileClosing(policy, queue, name);
    AdmittedAndClosedOver(After(policy, queue, steps), id);
    hide Apply, Enabled, Sound, Valid, IsHistory, After, ValidId;
    steps := Take(policy, queue, steps, Request(id, "", "work", "add", "[1,2]"));
    steps := Take(policy, queue, steps, CloseGoesOn);
  }

  /** No reply queue, no reconnection, and nobody who holds the lock. */
  predicate Quit(l: Link) {
    l.replyQueue.None? && l.task.Idle? && l.lock.Free? && !l.listening
  }

  lemma AdmittedAndClosedOver(s: System, id: Id)
    requires Valid(s.session.desk.table) && Settled(s.session) && Open(s.session.link) && s.session.link.closing == 1
    requires ValidId(id) && id !in s.calls
    ensures var request := Request(id, "", "work", "add", "[1,2]");
      && Enabled(s, request) && Enabled(Apply(s, request), CloseGoesOn)
      && Valid(Apply(s, request).session.desk.table)
      && var s' := Apply(Apply(s, request), CloseGoesOn);
         Quit(s'.session.link) && s'.session.link.closing == 0 && id in s'.session.desk.table.pending
  {
    RegisterLaw(s.session.desk.table, id);
    hide ValidId;
  }

  /** Until a loss comes, or a caller reconnects, no reply can reach it. */
  lemma {:induction false} QuitUntilLoss(s: System, steps: seq<Step>)
    requires Sound(s) && IsRun(s, steps) && Quit(s.session.link) && NoCallerReconnects(steps)
    requires forall i :: 0 <= i < |steps| ==> !steps[i].Lose?
    ensures Quit(Run(s, steps).session.link)
    ensures forall i :: 0 <= i < |steps| ==> !steps[i].Deliver? && !steps[i].Request?
    decreases |steps|
  {
    if steps != [] {
      DeskIsValid(s);
      StaysQuit(s, steps[0]);
      hide Sound, Apply, Enabled, Quit;
      StepOk(s, steps[0]);
      QuitUntilLoss(Apply(s, steps[0]), steps[1..]);
      assert forall i :: 0 < i < |steps| ==> steps[i] == steps[1..][i - 1];
    }
  }

  lemma StaysQuit(s: System, step: Step)
    requires Sound(s) && Enabled(s, step) && Quit(s.session.link) && Valid(s.session.desk.table)
    requires step != Acquire(Caller) && !step.Lose?
    ensures Quit(Apply(s, step).session.link) && !step.Deliver? && !step.Request?
  {
    hide Sound, Valid, ValidId, Replies, RpcServer.Serve, Settle, FailOutstanding;
  }
}
