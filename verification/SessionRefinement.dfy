/** The republish loop of the session object is a run of the state machine. */
module SessionRefinement {
  import opened Results
  import opened Correlation
  import opened SessionState
  import opened SessionRuns
  import opened SessionRepublish
  import opened SessionSafety
  import opened SessionParking
  import SessionObject

  // ---------------------------------------------------------------- runs, put together

  ghost predicate Leads(s: System, steps: seq<Step>, s': System) {
    Sound(s) && IsRun(s, steps) && Run(s, steps) == s'
  }

  lemma LeadsNowhere(s: System)
    requires Sound(s)
    ensures Leads(s, [], s)
  {}

  lemma LeadsOneOn(s: System, step: Step, steps: seq<Step>, s': System)
    requires Sound(s) && Enabled(s, step) && Valid(s.session.desk.table)
    requires Leads(Apply(s, step), steps, s')
    ensures Leads(s, [step] + steps, s')
  {
    hide Sound, Apply, Enabled;
    StepOk(s, step);
    assert ([step] + steps)[1..] == steps;
  }

  lemma {:induction false} LeadsOn(s: System, a: seq<Step>, m: System, b: seq<Step>, s': System)
    requires Leads(s, a, m) && Leads(m, b, s')
    ensures Leads(s, a + b, s')
    decreases |a|
  {
    hide Sound, Apply, Enabled;
    if a == [] {
      assert a + b == b;
    } else {
      DeskIsValid(s);
      StepOk(s, a[0]);
      LeadsOn(Apply(s, a[0]), a[1..], m, b, s');
      assert (a + b)[1..] == a[1..] + b;
    }
  }

  lemma LeadsToSound(s: System, steps: seq<Step>, s': System)
    requires Leads(s, steps, s')
    ensures Sound(s') && Valid(s'.session.desk.table)
  {
    hide Sound;
    RunOk(s, steps);
    DeskIsValid(s');
  }

  // ---------------------------------------------------------------- one turn

  /** What can happen during a turn: replies that servers have sent to this queue, and an end
      that a publish can have. */
  predicate Plays(s: System, interval: SessionObject.Interval) {
    && (forall i :: 0 <= i < |interval.arrivals| ==>
          interval.arrivals[i] in s.net.replies && interval.arrivals[i].queue == s.session.link.queue)
    && (interval.refused.Some? ==>
          interval.refused.value in {PublishNack, PublishReturned, ConnectionBlocked})
  }

  /** A connection on which the loop can go on. */
  predicate IsUp(l: Link) {
    !l.lost && l.listening && l.replyQueue == Some(l.queue)
  }

  function WithDesk(s: System, desk: Desk): System {
    s.(session := s.session.(desk := desk))
  }

  lemma {:induction false} ArrivalsAreARun(s: System, arrivals: seq<Reply>) returns (steps: seq<Step>)
    requires Sound(s) && Valid(s.session.desk.table) && s.session.link.listening
    requires forall i :: 0 <= i < |arrivals| ==>
               arrivals[i] in s.net.replies && arrivals[i].queue == s.session.link.queue
    ensures Leads(s, steps, WithDesk(s, SessionObject.OnReplies(s.session.desk, arrivals)))
    decreases |arrivals|
  {
    if arrivals == [] {
      steps := [];
      assert WithDesk(s, s.session.desk) == s;
    } else {
      ReplyIsDelivered(s, arrivals[0]);
      var s1 := Apply(s, Deliver(arrivals[0]));
      hide Sound, Apply, Enabled, Valid, OnReply;
      StepOk(s, Deliver(arrivals[0]));
      DeskIsValid(s1);
      steps := ArrivalsAreARun(s1, arrivals[1..]);
      LeadsOneOn(s, Deliver(arrivals[0]), steps, WithDesk(s, SessionObject.OnReplies(s.session.desk, arrivals)));
      steps := [Deliver(arrivals[0])] + steps;
    }
  }

  lemma ReplyIsDelivered(s: System, reply: Reply)
    requires Valid(s.session.desk.table) && s.session.link.listening
    requires reply in s.net.replies && reply.queue == s.session.link.queue
    ensures Enabled(s, Deliver(reply))
    ensures Apply(s, Deliver(reply)) == WithDesk(s, OnReply(s.session.desk, reply))
  {
    hide Valid;
  }

  /** A turn's message is on the wire. */
  function OnTheWire(s: System): System
    requires AtTurn(s, Checked)
  {
    var wire := Readdressed(s.session.link.lock.phase.work[0], s.session.link.queue);
    s.(session := WithTurn(s.session, Written(None)), net := s.net.(published := s.net.published + {wire}),
       round := s.round.(sent := s.round.sent + [wire]))
  }

  lemma TurnIsWrittenOut(s: System)
    requires Valid(s.session.desk.table) && AtTurn(s, Checked) && IsUp(s.session.link)
    ensures Enabled(s, TurnWrite) && Apply(s, TurnWrite) == OnTheWire(s)
  {
    hide Valid;
  }

  function AnswerOf(refused: Option<Reason>): Answer {
    if refused.None? then Acked else if refused.value.PublishNack? then Nacked else Returned
  }

  lemma TurnIsAnswered(s: System, answer: Answer)
    requires Valid(s.session.desk.table) && AtTurn(s, Written(None)) && IsUp(s.session.link)
    ensures Enabled(s, TurnAnswer(answer))
    ensures Apply(s, TurnAnswer(answer)) == s.(session := WithTurn(s.session, Written(Some(answer))))
    ensures Enabled(Apply(s, TurnAnswer(answer)), TurnResume)
    ensures Apply(Apply(s, TurnAnswer(answer)), TurnResume)
         == EndOfTurn(s.(session := WithTurn(s.session, Written(Some(answer)))), MarkOf(answer))
  {
    hide Valid, EndOfTurn;
  }

  /** What a turn makes of the session, in the words of the object's loop. */
  predicate TurnDone(s: System, s': System, interval: SessionObject.Interval)
    requires AtTurn(s, Checked) && Valid(s.session.desk.table)
  {
    var (owner, work) := (s.session.link.lock.owner, s.session.link.lock.phase.work);
    && s'.session
         == Proceed(s.session.(desk := SessionObject.AfterTurn(s.session.desk, work[0].id, interval)), owner, work[1..])
    && s'.round.sent == s.round.sent + SessionObject.SentIn(work[0], s.session.link.queue, interval)
    && s'.net.replies == s.net.replies
  }

  lemma TurnIsARun(s: System, interval: SessionObject.Interval) returns (steps: seq<Step>, s': System)
    requires Sound(s) && Valid(s.session.desk.table) && AtTurn(s, Checked) && IsUp(s.session.link) && Plays(s, interval)
    ensures Leads(s, steps, s') && TurnDone(s, s', interval)
  {
    if interval.refused == Some(ConnectionBlocked) {
      steps, s' := BlockedTurnIsARun(s, interval);
    } else {
      steps, s' := WrittenTurnIsARun(s, interval);
    }
  }

  lemma BlockedTurnIsARun(s: System, interval: SessionObject.Interval) returns (steps: seq<Step>, s': System)
    requires Sound(s) && Valid(s.session.desk.table) && AtTurn(s, Checked) && IsUp(s.session.link) && Plays(s, interval)
    requires interval.refused == Some(ConnectionBlocked)
    ensures Leads(s, steps, s') && TurnDone(s, s', interval)
  {
    var met := WithDesk(s, SessionObject.OnReplies(s.session.desk, interval.arrivals));
    steps := ArrivalsAreARun(s, interval.arrivals);
    LeadsToSound(s, steps, met);
    s' := EndOfTurn(met, Refused(ConnectionBlocked));
    BlockedTurnEnds(met);
    TurnEndsAsLooped(s, met, interval, ConnectionBlocked);
    hide Apply, Enabled, Sound, EndOfTurn, TurnDone;
    StepOk(met, TurnBlocked);
    LeadsNowhere(s');
    LeadsOneOn(met, TurnBlocked, [], s');
    LeadsOn(s, steps, met, [TurnBlocked] + [], s');
    steps := steps + ([TurnBlocked] + []);
  }

  lemma BlockedTurnEnds(s: System)
    requires Valid(s.session.desk.table) && AtTurn(s, Checked)
    ensures Enabled(s, TurnBlocked) && Apply(s, TurnBlocked) == EndOfTurn(s, Refused(ConnectionBlocked))
  {
    hide Valid, EndOfTurn;
  }

  lemma TurnEndsAsLooped(s: System, met: System, interval: SessionObject.Interval, reason: Reason)
    requires AtTurn(s, Checked) && Valid(s.session.desk.table) && interval.refused == Some(reason)
    requires met == WithDesk(s, SessionObject.OnReplies(s.session.desk, interval.arrivals))
    requires reason == ConnectionBlocked
    ensures TurnDone(s, EndOfTurn(met, Refused(reason)), interval)
  {
    hide Valid, NextPending, ForgetSettled, Settle, SessionObject.OnReplies, Skips;
    assert s.round.sent + [] == s.round.sent;
  }

  lemma WrittenTurnIsARun(s: System, interval: SessionObject.Interval) returns (steps: seq<Step>, s': System)
    requires Sound(s) && Valid(s.session.desk.table) && AtTurn(s, Checked) && IsUp(s.session.link) && Plays(s, interval)
    requires interval.refused != Some(ConnectionBlocked)
    ensures Leads(s, steps, s') && TurnDone(s, s', interval)
  {
    var (wired, answer) := (OnTheWire(s), AnswerOf(interval.refused));
    var met := WithDesk(wired, SessionObject.OnReplies(s.session.desk, interval.arrivals));
    var answered := met.(session := WithTurn(met.session, Written(Some(answer))));
    s' := EndOfTurn(answered, MarkOf(answer));
    TurnIsWrittenOut(s);
    TurnIsAnswered(met, answer);
    WrittenTurnEnds(s, interval);
    hide Apply, Enabled, Sound, EndOfTurn, TurnDone;
    StepOk(s, TurnWrite);
    var arrivals := ArrivalsAreARun(wired, interval.arrivals);
    LeadsToSound(wired, arrivals, met);
    StepOk(met, TurnAnswer(answer));
    StepOk(answered, TurnResume);
    LeadsNowhere(s');
    LeadsOneOn(answered, TurnResume, [], s');
    LeadsOneOn(met, TurnAnswer(answer), [TurnResume] + [], s');
    steps := [TurnAnswer(answer)] + ([TurnResume] + []);
    LeadsOn(wired, arrivals, met, steps, s');
    LeadsOneOn(s, TurnWrite, arrivals + steps, s');
    steps := [TurnWrite] + (arrivals + steps);
  }

  lemma WrittenTurnEnds(s: System, interval: SessionObject.Interval)
    requires AtTurn(s, Checked) && Valid(s.session.desk.table) && Plays(s, interval)
    requires interval.refused != Some(ConnectionBlocked)
    ensures var (wired, answer) := (OnTheWire(s), AnswerOf(interval.refused));
      var met := WithDesk(wired, SessionObject.OnReplies(s.session.desk, interval.arrivals));
      var answered := met.(session := WithTurn(met.session, Written(Some(answer))));
      TurnDone(s, EndOfTurn(answered, MarkOf(answer)), interval)
  {
    hide Valid, NextPending, ForgetSettled, Settle, SessionObject.OnReplies, Skips;
  }

  // ---------------------------------------------------------------- the loop

  /** Passing over settled items first changes nothing for the loop. */
  lemma {:induction false} LoopPassesOver(d: Desk, work: seq<Item>, queue: string, script: seq<SessionObject.Interval>)
    requires Valid(d.table) && |script| == |work|
    ensures |NextPending(d, work)| <= |work| && ForgetSettled(d, work).table == d.table
    ensures var rest := NextPending(d, work);
      SessionObject.Republished(d, work, queue, script)
        == SessionObject.Republished(ForgetSettled(d, work), rest, queue, script[|work| - |rest|..])
    decreases |work|
  {
    hide Valid, SessionObject.AfterTurn, SessionObject.SentIn;
    ForgettingKeepsTable(d, work);
    NextPendingIsSuffix(d, work);
    if work == [] || work[0].id in d.table.pending {
      assert script[0..] == script;
    } else {
      var d1 := Forget(d, work[0].id);
      LoopPassesOver(d1, work[1..], queue, script[1..]);
      SamePendingSameRest(d, d1, work[1..]);
      var rest := NextPending(d, work);
      assert script[1..][|work| - 1 - |rest|..] == script[|work| - |rest|..];
    }
  }

  /** A round that stands before an item's write, and a script for what it has left to do. */
  ghost predicate IsScripted(s: System, script: seq<SessionObject.Interval>) {
    && Sound(s) && Valid(s.session.desk.table) && AtTurn(s, Checked) && IsUp(s.session.link)
    && s.session.link.lock.phase.work[0].id in s.session.desk.table.pending
    && |script| == |s.session.link.lock.phase.work| && forall i :: 0 <= i < |script| ==> Plays(s, script[i])
  }

  /** What the loop makes of the session, from a state in which its work and the link are these. */
  predicate LoopDone(s: System, link: Link, work: seq<Item>, script: seq<SessionObject.Interval>, s': System)
    requires Valid(s.session.desk.table) && |script| == |work|
  {
    var (desk, sent) := SessionObject.Republished(s.session.desk, work, s.session.link.queue, script);
    && s'.session.policy == s.session.policy && s'.session.desk == desk && s'.session.link == link
    && s'.round.sent == s.round.sent + sent
  }

  /** The loop goes on: it is over, or stands before the next pending item, with the rest of
      the script. */
  lemma ProceedStands(s: Session, owner: Owner, work: seq<Item>, queue: string, script: seq<SessionObject.Interval>)
    requires Valid(s.desk.table) && |script| == |work|
    ensures |NextPending(s.desk, work)| <= |work|
    ensures var (p, rest) := (Proceed(s, owner, work), NextPending(s.desk, work));
      var all := SessionObject.Republished(s.desk, work, queue, script);
      && p.policy == s.policy && p.desk.table == s.desk.table
      && Finished(p.link, owner) == Finished(s.link, owner) && p.link.queue == s.link.queue
      && (p.link.lock.Free? <==> rest == [])
      && if rest == [] then p.link == Finished(s.link, owner) && all == (p.desk, [])
         else && p.link == s.link.(lock := Held(owner, Republishing(rest, Checked)))
              && rest[0].id in p.desk.table.pending
              && all == SessionObject.Republished(p.desk, rest, queue, script[|work| - |rest|..])
  {
    LoopPassesOver(s.desk, work, queue, script);
    NextPendingIsSuffix(s.desk, work);
    hide Valid, NextPending, ForgetSettled, SessionObject.AfterTurn, SessionObject.SentIn;
    if NextPending(s.desk, work) == [] {
      assert script[|work|..] == [];
    }
  }

  lemma HeadTurn(d: Desk, work: seq<Item>, queue: string, script: seq<SessionObject.Interval>)
    requires Valid(d.table) && |script| == |work| && work != [] && work[0].id in d.table.pending
    ensures Valid(SessionObject.AfterTurn(d, work[0].id, script[0]).table)
    ensures var next := SessionObject.AfterTurn(d, work[0].id, script[0]);
      var rest := SessionObject.Republished(next, work[1..], queue, script[1..]);
      SessionObject.Republished(d, work, queue, script)
        == (rest.0, SessionObject.SentIn(work[0], queue, script[0]) + rest.1)
  {
    hide Valid, SessionObject.AfterTurn, SessionObject.SentIn;
  }

  /** After the first turn: what is left of the work, and of the script. */
  lemma FirstTurnLeaves(s: System, s1: System, script: seq<SessionObject.Interval>)
    returns (rest: seq<Item>, later: seq<SessionObject.Interval>)
    requires IsScripted(s, script) && TurnDone(s, s1, script[0])
    ensures Valid(s1.session.desk.table) && |later| == |rest| < |script| && later == script[|script| - |later|..]
    ensures var (link, owner) := (s.session.link, s.session.link.lock.owner);
      && s1.session.policy == s.session.policy
      && s1.session.link == (if rest == [] then Finished(link, owner)
                             else link.(lock := Held(owner, Republishing(rest, Checked))))
      && (rest != [] ==> rest[0].id in s1.session.desk.table.pending)
    ensures var (queue, work) := (s.session.link.queue, s.session.link.lock.phase.work);
      var left := SessionObject.Republished(s1.session.desk, rest, queue, later);
      SessionObject.Republished(s.session.desk, work, queue, script)
        == (left.0, SessionObject.SentIn(work[0], queue, script[0]) + left.1)
  {
    hide Sound, Plays, IsUp;
    var (link, work) := (s.session.link, s.session.link.lock.phase.work);
    var turned := s.session.(desk := SessionObject.AfterTurn(s.session.desk, work[0].id, script[0]));
    HeadTurn(s.session.desk, work, link.queue, script);
    ProceedStands(turned, link.lock.owner, work[1..], link.queue, script[1..]);
    rest := NextPending(turned.desk, work[1..]);
    later := script[1..][|work| - 1 - |rest|..];
    TailOfTail(script, |work| - 1 - |rest|);
    assert s1.session.desk.table == turned.desk.table;
    hide Valid, NextPending, Proceed, Finished, SessionObject.AfterTurn, SessionObject.SentIn;
    if rest == [] {
      assert SessionObject.Republished(s1.session.desk, rest, link.queue, later) == (s1.session.desk, []);
    }
  }

  /** So the round is over, or stands before the next write. */
  lemma FirstTurnDone(s: System, s1: System, script: seq<SessionObject.Interval>)
    returns (later: seq<SessionObject.Interval>)
    requires IsScripted(s, script) && TurnDone(s, s1, script[0]) && Sound(s1) && Valid(s1.session.desk.table)
    ensures |later| < |script|
    ensures if s1.session.link.lock.Free? then LoopDone(s, s1.session.link, s.session.link.lock.phase.work, script, s1)
            else IsScripted(s1, later) && LaterIsSame(s, script, s1, later)
    ensures StaysWith(s.session.link, s1.session.link)
  {
    hide Sound, Plays;
    var rest;
    rest, later := FirstTurnLeaves(s, s1, script);
    var (link, work) := (s.session.link, s.session.link.lock.phase.work);
    var left := SessionObject.Republished(s1.session.desk, rest, link.queue, later);
    assert rest == [] ==> left == (s1.session.desk, []);
    assert s1.net.replies == s.net.replies
      && s1.round.sent == s.round.sent + SessionObject.SentIn(work[0], link.queue, script[0]);
    hide Valid, TurnDone, SessionObject.SentIn, SessionObject.Republished;
    SentTogether(s.round.sent, SessionObject.SentIn(work[0], link.queue, script[0]), left.1);
    if rest != [] {
      PlaysOn(s, s1, script, later);
      assert IsScripted(s1, later);
    }
  }

  lemma SentTogether(a: seq<Envelope>, b: seq<Envelope>, c: seq<Envelope>)
    ensures (a + b) + c == a + (b + c) && b + [] == b
  {}

  predicate StaysWith(link: Link, link1: Link)
    requires link.lock.Held?
  {
    && Finished(link1, link.lock.owner) == Finished(link, link.lock.owner)
    && if link1.lock.Free? then link1 == Finished(link, link.lock.owner) else link1.lock.owner == link.lock.owner
  }

  lemma TailOfTail<T>(xs: seq<T>, k: nat)
    requires 1 + k <= |xs|
    ensures xs[1..][k..] == xs[1 + k..]
  {}

  lemma PlaysOn(s: System, s1: System, script: seq<SessionObject.Interval>, later: seq<SessionObject.Interval>)
    requires forall i :: 0 <= i < |script| ==> Plays(s, script[i])
    requires |later| <= |script| && later == script[|script| - |later|..]
    requires s1.net.replies == s.net.replies && s1.session.link.queue == s.session.link.queue
    ensures forall i :: 0 <= i < |later| ==> Plays(s1, later[i])
  {
    forall i | 0 <= i < |later|
      ensures Plays(s1, later[i])
    {
      assert Plays(s, script[|script| - |later| + i]);
    }
  }

  /** What is left ends as the whole does. */
  predicate LaterIsSame(s: System, script: seq<SessionObject.Interval>, s1: System, later: seq<SessionObject.Interval>)
    requires Valid(s.session.desk.table) && AtTurn(s, Checked) && |script| == |s.session.link.lock.phase.work|
    requires Valid(s1.session.desk.table) && AtTurn(s1, Checked) && |later| == |s1.session.link.lock.phase.work|
  {
    var (queue, work, work1) := (s.session.link.queue, s.session.link.lock.phase.work, s1.session.link.lock.phase.work);
    var (all, left) := (SessionObject.Republished(s.session.desk, work, queue, script),
                        SessionObject.Republished(s1.session.desk, work1, s1.session.link.queue, later));
    s1.session.policy == s.session.policy && left.0 == all.0 && s1.round.sent + left.1 == s.round.sent + all.1
  }

  /** From a turn on, the rest of the loop is a run: same desk in the end, same messages in the
      same order, and the lock released. */
  lemma {:induction false} TurnsAreARun(s: System, script: seq<SessionObject.Interval>)
    returns (steps: seq<Step>, s': System)
    requires IsScripted(s, script)
    ensures Leads(s, steps, s')
    ensures LoopDone(s, Finished(s.session.link, s.session.link.lock.owner), s.session.link.lock.phase.work, script, s')
    decreases |script|
  {
    var turn, s1 := TurnIsARun(s, script[0]);
    LeadsToSound(s, turn, s1);
    var later := FirstTurnDone(s, s1, script);
    hide Sound, Valid, Leads, TurnDone, Plays, IsUp, SessionObject.Republished, Finished;
    if s1.session.link.lock.Free? {
      steps, s' := turn, s1;
    } else {
      var more;
      more, s' := TurnsAreARun(s1, later);
      LeadsOn(s, turn, s1, more, s');
      steps := turn + more;
    }
  }

  /** The whole round, from the moment the consumer is up: whatever replies come during each
      turn, and however each publish ends, the loop is a run of the state machine, and ends
      with the same desk and the same messages in the same order. */
  lemma LoopIsARun(s: System, order: seq<Id>, script: seq<SessionObject.Interval>)
    returns (steps: seq<Step>, s': System)
    requires Sound(s) && Valid(s.session.desk.table) && Enabled(s, Begin(order))
    requires !s.session.policy.failOutstanding && !s.session.link.lost
    requires s.session.link.replyQueue == Some(s.session.link.queue)
    requires |script| == |order| && forall i :: 0 <= i < |script| ==> Plays(s, script[i])
    ensures Leads(s, [Begin(order)] + steps, s')
    ensures var link := s.session.link;
      LoopDone(s.(round := Round([], [], [])), Finished(link.(started := true, listening := true), link.lock.owner),
               Items(order, s.session.desk.parked), script, s')
  {
    var s1 := BeginRound(s, order);
    BeginIsBeginRound(s, order);
    StepOk(s, Begin(order));
    RoundBegins(s, order);
    var later := RoundHasBegun(s, s1, Items(order, s.session.desk.parked), script);
    hide Sound, Apply, Enabled, Valid, BeginRound, Leads, Plays, IsUp, IsScripted, SessionObject.Republished;
    if s1.session.link.lock.Free? {
      LeadsNowhere(s1);
      steps, s' := [], s1;
    } else {
      steps, s' := TurnsAreARun(s1, later);
    }
    LeadsOneOn(s, Begin(order), steps, s');
  }

  lemma RoundHasBegun(s: System, s1: System, work: seq<Item>, script: seq<SessionObject.Interval>)
    returns (later: seq<SessionObject.Interval>)
    requires Valid(s.session.desk.table) && s.session.link.lock.Held?
    requires !s.session.link.lost && s.session.link.replyQueue == Some(s.session.link.queue)
    requires |script| == |work| && forall i :: 0 <= i < |script| ==> Plays(s, script[i])
    requires Sound(s1) && HasBegun(s, s1, work)
    ensures var (link, link1) := (s.session.link, s1.session.link);
      var up := link.(started := true, listening := true);
      var all := SessionObject.Republished(s.session.desk, work, link.queue, script);
      if link1.lock.Free?
      then link1 == Finished(up, link.lock.owner) && all == (s1.session.desk, [])
      else IsScripted(s1, later) && link1.lock.owner == link.lock.owner && link1.queue == link.queue
           && Finished(link1, link.lock.owner) == Finished(up, link.lock.owner)
           && SessionObject.Republished(s1.session.desk, link1.lock.phase.work, link.queue, later) == all
  {
    var rest;
    rest, later := BeginLeaves(s, s1, work, script);
    hide Sound, Plays, Valid, HasBegun, Finished, SessionObject.Republished;
    if rest != [] {
      PlaysOn(s, s1, script, later);
      assert IsScripted(s1, later);
    }
  }

  /** What is left of the work, and of the script. */
  lemma BeginLeaves(s: System, s1: System, work: seq<Item>, script: seq<SessionObject.Interval>)
    returns (rest: seq<Item>, later: seq<SessionObject.Interval>)
    requires Valid(s.session.desk.table) && s.session.link.lock.Held? && |script| == |work|
    requires HasBegun(s, s1, work) && Sound(s1)
    ensures Valid(s1.session.desk.table) && |later| == |rest| <= |script| && later == script[|script| - |later|..]
    ensures s1.net == s.net
    ensures var (link, owner) := (s.session.link.(started := true, listening := true), s.session.link.lock.owner);
      var all := SessionObject.Republished(s.session.desk, work, link.queue, script);
      && Finished(s1.session.link, owner) == Finished(link, owner)
      && if rest == [] then s1.session.link == Finished(link, owner) && s1.session.link.lock.Free?
                            && all == (s1.session.desk, [])
         else && s1.session.link == link.(lock := Held(owner, Republishing(rest, Checked)))
              && rest[0].id in s1.session.desk.table.pending
              && all == SessionObject.Republished(s1.session.desk, rest, link.queue, later)
  {
    DeskIsValid(s1);
    var link := s.session.link.(started := true, listening := true);
    ProceedStands(s.session.(link := link), link.lock.owner, work, link.queue, script);
    rest := NextPending(s.session.desk, work);
    later := script[|work| - |rest|..];
    hide Sound, Valid, NextPending, Proceed, Finished, SessionObject.Republished;
  }

  /** The consumer is up, and the loop has come to its first write. */
  predicate HasBegun(s: System, s1: System, work: seq<Item>)
    requires s.session.link.lock.Held?
  {
    && s1.session == Proceed(s.session.(link := s.session.link.(started := true, listening := true)),
                             s.session.link.lock.owner, work)
    && s1.round.sent == [] && s1.net == s.net
  }

  lemma RoundBegins(s: System, order: seq<Id>)
    requires Enabled(s, Begin(order)) && !s.session.policy.failOutstanding && s.session.link.replyQueue.Some?
    ensures s.session.link.lock.Held? && Lists(order, s.session.desk.parked)
    ensures HasBegun(s, BeginRound(s, order), Items(order, s.session.desk.parked))
    ensures BeginRound(s, order).session.policy == s.session.policy
  {
    hide Lists, Skips, NextPending, ForgetSettled;
  }
}
