/** The session as the object it is: every stretch of code between two awaits, updating the
    correlation table, the parked envelopes and the connection's standing in place. */
module SessionObject {
  import opened Results
  import opened Correlation
  import opened SessionState

  /** What happens while one republished message awaits its confirm: the replies that arrive,
      and how the publish ends. */
  datatype Interval = Interval(arrivals: seq<Reply>, refused: Option<Reason>)

  /** How `request` gets on with an id. */
  datatype Admission = NotStarted | InvalidId | IdCollision | Admitted(handle: nat)

  function OnReplies(d: Desk, arrivals: seq<Reply>): (d': Desk)
    requires Valid(d.table)
    ensures Valid(d'.table)
    decreases |arrivals|
  {
    if arrivals == [] then d
    else
      OnReplyValid(d, arrivals[0]);
      OnReplies(OnReply(d, arrivals[0]), arrivals[1..])
  }

  lemma OnReplyValid(d: Desk, reply: Reply)
    requires Valid(d.table)
    ensures Valid(OnReply(d, reply).table)
  {
    if reply.correlationId.Some? {
      FinishLaw(d.table, reply.correlationId.value, Answered(reply));
    }
  }

  /** One turn that went out: what arrived meanwhile, then what became of it. */
  function AfterTurn(d: Desk, id: Id, interval: Interval): (d': Desk)
    requires Valid(d.table)
    ensures Valid(d'.table)
  {
    var met := OnReplies(d, interval.arrivals);
    if interval.refused.None? then met
    else
      FinishLaw(met.table, id, Failed(interval.refused.value));
      Settle(met, id, Failed(interval.refused.value))
  }

  /** What a turn writes: its item's message, unless the broker blocks publishing. */
  function SentIn(item: Item, queue: string, interval: Interval): seq<Envelope> {
    if interval.refused == Some(ConnectionBlocked) then [] else [Readdressed(item, queue)]
  }

  /** The whole republish loop, with what happens during each of its turns. */
  function Republished(d: Desk, work: seq<Item>, queue: string, script: seq<Interval>): (Desk, seq<Envelope>)
    requires Valid(d.table) && |script| == |work|
    decreases |work|
  {
    if work == [] then (d, [])
    else if work[0].id !in d.table.pending then Republished(Forget(d, work[0].id), work[1..], queue, script[1..])
    else
      var (d', sent) := Republished(AfterTurn(d, work[0].id, script[0]), work[1..], queue, script[1..]);
      (d', SentIn(work[0], queue, script[0]) + sent)
  }

  lemma {:induction false} OnRepliesPends(d: Desk, arrivals: seq<Reply>)
    requires Valid(d.table)
    ensures OnReplies(d, arrivals).table.pending.Keys <= d.table.pending.Keys
    decreases |arrivals|
  {
    if arrivals != [] {
      OnReplyValid(d, arrivals[0]);
      OnRepliesPends(OnReply(d, arrivals[0]), arrivals[1..]);
    }
  }

  /** Whether an item's own message is among those sent. */
  predicate IsSent(item: Item, queue: string, sent: seq<Envelope>) {
    Readdressed(item, queue) in sent
  }

  /** A message of one of the items, whose call was pending. */
  predicate IsOwn(d: Desk, work: seq<Item>, queue: string, m: Envelope) {
    exists i :: 0 <= i < |work| && m == Readdressed(work[i], queue) && work[i].id in d.table.pending
  }

  predicate AreDistinct(work: seq<Item>) {
    forall i, j :: 0 <= i < j < |work| ==> work[i].id != work[j].id
  }

  /** The loop sends nothing but its items' own messages, readdressed, and none for a call that
      was not pending when the loop began. */
  lemma {:induction false} OnlyOwnAreSent(d: Desk, work: seq<Item>, queue: string, script: seq<Interval>, m: Envelope)
    requires Valid(d.table) && |script| == |work|
    ensures var (d', sent) := Republished(d, work, queue, script);
      && d'.table.pending.Keys <= d.table.pending.Keys && |sent| <= |work|
      && (m in sent ==> IsOwn(d, work, queue, m))
    decreases |work|
  {
    hide Readdressed, Valid, AfterTurn;
    if work != [] {
      var next := NextDesk(d, work, script);
      NextDeskPends(d, work, script);
      OnlyOwnAreSent(next, work[1..], queue, script[1..], m);
      if m in Republished(next, work[1..], queue, script[1..]).1 {
        var i :| 0 <= i < |work[1..]| && m == Readdressed(work[1..][i], queue) && work[1..][i].id in next.table.pending;
        assert work[i + 1] == work[1..][i];
      }
    }
  }

  /** It sends at most one message for each call: no two carry the same correlation id. */
  lemma {:induction false} SentAreDistinct(d: Desk, work: seq<Item>, queue: string, script: seq<Interval>, k: nat,
                                           l: nat)
    requires Valid(d.table) && |script| == |work| && AreDistinct(work)
    requires k < l < |Republished(d, work, queue, script).1|
    ensures var sent := Republished(d, work, queue, script).1; sent[k].correlationId != sent[l].correlationId
    decreases |work|
  {
    hide Valid, AfterTurn;
    var next := NextDesk(d, work, script);
    var rest := work[1..];
    assert AreDistinct(rest) by {
      assert forall i :: 0 <= i < |rest| ==> rest[i] == work[i + 1];
    }
    var later := Republished(next, rest, queue, script[1..]).1;
    var taken := if work[0].id in d.table.pending && script[0].refused != Some(ConnectionBlocked) then 1 else 0;
    if k >= taken {
      SentAreDistinct(next, rest, queue, script[1..], k - taken, l - taken);
    } else {
      assert Republished(d, work, queue, script).1[l] == later[l - 1] && later[l - 1] in later;
      OnlyOwnAreSent(next, rest, queue, script[1..], later[l - 1]);
      var i :| 0 <= i < |rest| && later[l - 1] == Readdressed(rest[i], queue);
      assert work[0].id != work[i + 1].id;
    }
  }

  /** A call the loop sent nothing for is complete by its end. */
  lemma {:induction false} UnsentAreComplete(d: Desk, work: seq<Item>, queue: string, script: seq<Interval>, i: nat)
    requires Valid(d.table) && |script| == |work| && i < |work|
    ensures var (d', sent) := Republished(d, work, queue, script);
      work[i].id in d'.table.pending ==> IsSent(work[i], queue, sent)
    decreases |work|
  {
    hide Readdressed, Valid, AfterTurn;
    var next := NextDesk(d, work, script);
    NextDeskPends(d, work, script);
    var (d', sent) := Republished(d, work, queue, script);
    if i > 0 {
      UnsentAreComplete(next, work[1..], queue, script[1..], i - 1);
    } else {
      OnlyOwnAreSent(next, work[1..], queue, script[1..], Readdressed(work[0], queue));
      if script[0].refused == Some(ConnectionBlocked) {
        RefusedIsComplete(d, work[0].id, script[0]);
      } else {
        assert work[0].id in d.table.pending ==> sent[0] == Readdressed(work[0], queue);
      }
    }
  }

  lemma RefusedIsComplete(d: Desk, id: Id, interval: Interval)
    requires Valid(d.table) && interval.refused.Some?
    ensures id !in AfterTurn(d, id, interval).table.pending
  {
    FinishLaw(OnReplies(d, interval.arrivals).table, id, Failed(interval.refused.value));
  }

  function NextDesk(d: Desk, work: seq<Item>, script: seq<Interval>): (next: Desk)
    requires Valid(d.table) && |script| == |work| && work != []
    ensures Valid(next.table)
  {
    if work[0].id in d.table.pending then AfterTurn(d, work[0].id, script[0]) else Forget(d, work[0].id)
  }

  lemma NextDeskPends(d: Desk, work: seq<Item>, script: seq<Interval>)
    requires Valid(d.table) && |script| == |work| && work != []
    ensures NextDesk(d, work, script).table.pending.Keys <= d.table.pending.Keys
  {
    OnRepliesPends(d, script[0].arrivals);
  }

  // ---------------------------------------------------------------- the object

  class Session {
    const policy: Policy
    const correlation: CorrelationTable<Outcome>
    var parked: map<Id, Envelope>
    var started: bool
    var replyQueue: Option<string>
    var lossHandled: bool
    var lost: bool
    var listening: bool
    var queue: string
    var used: set<string>
    var epoch: nat
    var task: Task
    var lock: Lock
    var closing: nat

    ghost function DeskNow(): Desk
      reads this, correlation
    {
      Desk(correlation.State(), parked)
    }

    ghost function LinkNow(): Link
      reads this
    {
      Link(started, replyQueue, lossHandled, lost, listening, queue, used, epoch, task, lock, closing)
    }

    ghost function State(): SessionState.Session
      reads this, correlation
    {
      SessionState.Session(policy, DeskNow(), LinkNow())
    }

    /** A session as `start` leaves it. */
    constructor (policy: Policy, queue: string)
      ensures fresh(correlation) && Valid(correlation.State())
      ensures State() == SessionState.Session(policy, Desk(Table(map[], []), map[]),
                           Link(true, Some(queue), false, false, true, queue, {queue}, 0, Idle, Free, 0))
    {
      this.policy := policy;
      correlation := new CorrelationTable<Outcome>();
      parked := map[];
      started, replyQueue, lossHandled, lost, listening := true, Some(queue), false, false, true;
      this.queue, used, epoch, task, lock, closing := queue, {queue}, 0, Idle, Free, 0;
    }

    method RememberPublish(id: Id, envelope: Envelope)
      modifies this`parked
      ensures DeskNow() == Remember(old(DeskNow()), id, envelope)
    {
      parked := parked[id := envelope];
    }

    method ForgetPublish(id: Id)
      modifies this`parked
      ensures DeskNow() == Forget(old(DeskNow()), id)
    {
      if id in parked {
        parked := parked - {id};
      }
    }

    method SettleCall(id: Id, outcome: Outcome)
      requires Valid(correlation.State())
      modifies this`parked, correlation
      ensures DeskNow() == Settle(old(DeskNow()), id, outcome) && Valid(correlation.State())
    {
      FinishLaw(correlation.State(), id, outcome);
      var _ := correlation.FinishId(id, outcome);
      ForgetPublish(id);
    }

    method FailAll(reason: Reason)
      requires Valid(correlation.State())
      modifies this`parked, correlation
      ensures DeskNow() == FailOutstanding(old(DeskNow()), reason) && Valid(correlation.State())
    {
      DiscardLaw(correlation.State(), Failed(reason));
      correlation.DiscardAllIds(Failed(reason));
      parked := map[];
    }

    /** The start of a request: refused on a closed session, for a malformed id, and for one
        already outstanding, each without any effect; otherwise registered. */
    method BeginRequest(id: Id) returns (admission: Admission)
      requires Valid(correlation.State())
      modifies correlation
      ensures admission.NotStarted? <==> !Open(LinkNow())
      ensures admission.InvalidId? <==> Open(LinkNow()) && !ValidId(id)
      ensures admission.IdCollision? <==> Open(LinkNow()) && ValidId(id) && id in old(correlation.pending)
      ensures admission.Admitted? ==>
                && DeskNow() == old(DeskNow()).(table := Register(old(DeskNow()).table, id))
                && admission.handle == |old(correlation.futures)|
      ensures !admission.Admitted? ==> DeskNow() == old(DeskNow())
      ensures Valid(correlation.State())
    {
      if replyQueue.None? || !started {
        return NotStarted;
      }
      if id !in correlation.pending {
        RegisterLaw(correlation.State(), id);
      }
      var handle := correlation.RegisterId(id);
      if handle.None? {
        return if ValidId(id) then IdCollision else InvalidId;
      }
      return Admitted(handle.value);
    }

    /** The loss callback: idempotent until a new connection is wired. */
    method ConnectionLoss()
      requires Valid(correlation.State())
      modifies this, correlation
      ensures State() == OnConnectionLost(old(State())) && Valid(correlation.State())
    {
      if lossHandled {
        return;
      }
      lossHandled := true;
      started := false;
      replyQueue := None;
      if policy.failOutstanding {
        FailAll(ConnectionLost);
        return;
      }
      if task.Idle? {
        task := Running(0);
      }
    }

    /** A reply reaches the session: first one wins, others are dropped. */
    method TakeReply(reply: Reply)
      requires Valid(correlation.State())
      modifies this`parked, correlation
      ensures DeskNow() == OnReply(old(DeskNow()), reply) && Valid(correlation.State())
    {
      if reply.correlationId.Some? {
        SettleCall(reply.correlationId.value, Answered(reply));
      }
    }

    /** `reconnect` with the lock in hand, up to its first await. */
    method EnterReconnect(owner: Owner)
      requires Valid(correlation.State())
      modifies this, correlation
      ensures State() == Enter(old(State()), owner) && Valid(correlation.State())
    {
      if replyQueue.Some? && started {
        lock := Free;
        if owner.Auto? {
          task := Idle;
        }
        return;
      }
      started := false;
      if policy.failOutstanding {
        FailAll(ConnectionLost);
      }
      lock := Held(owner, Teardown);
    }

    method NewConnection(owner: Owner, name: string)
      modifies this
      ensures LinkNow() == Renew(old(State()), owner, name).link && DeskNow() == old(DeskNow())
    {
      replyQueue, listening, lossHandled, lost := None, false, false, false;
      queue, used, epoch, lock := name, used + {name}, epoch + 1, Held(owner, Declaring(false));
    }

    method QueueDeclared(owner: Owner)
      modifies this
      ensures LinkNow() == Declared(old(LinkNow()), owner) && DeskNow() == old(DeskNow())
    {
      replyQueue := Some(queue);
      lock := Held(owner, Consuming(false));
    }

    method ReleaseLock(owner: Owner)
      modifies this`lock, this`task
      ensures LinkNow() == Finished(old(LinkNow()), owner)
    {
      lock := Free;
      if owner.Auto? {
        task := Idle;
      }
    }

    /** The loop between two publishes: forget the settled calls up to the first pending one. */
    method PassOver(work: seq<Item>) returns (passed: nat)
      modifies this`parked
      ensures passed <= |work| && work[passed..] == NextPending(old(DeskNow()), work)
      ensures DeskNow() == ForgetSettled(old(DeskNow()), work)
    {
      ghost var before := DeskNow();
      passed := 0;
      assert work[0..] == work;
      while passed < |work| && work[passed].id !in correlation.pending
        invariant passed <= |work| && correlation.State() == before.table
        invariant NextPending(before, work) == NextPending(before, work[passed..])
        invariant ForgetSettled(before, work) == ForgetSettled(DeskNow(), work[passed..])
      {
        assert work[passed..][0] == work[passed] && work[passed..][1..] == work[passed + 1..];
        ForgetPublish(work[passed].id);
        passed := passed + 1;
      }
    }

    method GoOn(owner: Owner, work: seq<Item>)
      modifies this
      ensures State() == Proceed(old(State()), owner, work)
    {
      hide NextPending, ForgetSettled;
      var passed := PassOver(work);
      if passed == |work| {
        ReleaseLock(owner);
      } else {
        lock := Held(owner, Republishing(work[passed..], Checked));
      }
    }

    /** The consumer is up. */
    method ConsumerUp(owner: Owner, work: seq<Item>)
      modifies this
      ensures State() == Consumed(old(State()), owner, work)
    {
      started, listening := true, true;
      if policy.failOutstanding || replyQueue.None? {
        ReleaseLock(owner);
      } else {
        GoOn(owner, work);
      }
    }

    /** A turn ends: an acknowledged item stays parked, a refused one fails its call. */
    method TurnOver(owner: Owner, work: seq<Item>, refused: Option<Reason>)
      requires Valid(correlation.State()) && work != []
      modifies this, correlation
      ensures State() == EndTurn(old(State()), owner, work, refused)
    {
      if refused.Some? {
        SettleCall(work[0].id, Failed(refused.value));
      }
      GoOn(owner, work[1..]);
    }

    /** The reconnection raised; the automatic task counts its attempts. */
    method AttemptFailed(owner: Owner)
      requires Valid(correlation.State())
      modifies this, correlation
      ensures State() == Raised(old(State()), owner) && Valid(correlation.State())
    {
      lock := Free;
      if owner.Auto? && task.Running? {
        if task.failures + 1 >= policy.maxAttempts {
          FailAll(ConnectionLost);
          task := Idle;
        } else {
          task := Running(task.failures + 1);
        }
      }
    }

    /** `close`, up to its wait for the automatic reconnection, and past it unless that
        swallows its cancellation. */
    method CloseSession(swallowed: bool)
      requires Valid(correlation.State()) && (swallowed ==> MaySwallow(LinkNow()))
      modifies this, correlation
      ensures State() == Closed(old(State()), swallowed) && Valid(correlation.State())
    {
      hide Valid, FailOutstanding;
      started := false;
      assert DeskNow() == old(DeskNow());
      FailAll(SessionClosed);
      if swallowed {
        closing := closing + 1;
        return;
      }
      if lock.Held? && lock.owner.Auto? {
        lock := Free;
      }
      task := Idle;
      listening, replyQueue := false, None;
    }

    /** The rest of `close`, once the reconnection it waited for is over.  What has been opened
        meanwhile is not started again, and calls taken on meanwhile are not failed. */
    method CloseGoesOn()
      requires closing > 0
      modifies this
      ensures LinkNow() == ClosedAfterAll(old(LinkNow())) && DeskNow() == old(DeskNow())
    {
      listening, replyQueue := false, None;
      closing := closing - 1;
    }

    /** The republish loop as a whole, on the envelopes parked when it starts. */
    method RepublishParked(order: seq<Id>, script: seq<Interval>) returns (sent: seq<Envelope>)
      requires Valid(correlation.State()) && replyQueue.Some?
      requires (forall i :: 0 <= i < |order| ==> order[i] in parked) && |script| == |order|
      modifies this`parked, correlation
      ensures (DeskNow(), sent)
           == Republished(old(DeskNow()), old(Items(order, parked)), replyQueue.value, script)
    {
      hide Valid, AfterTurn, OnReplies, Settle;
      var envelopes := parked;
      ghost var work := Items(order, envelopes);
      ghost var (desk, all) := Republished(DeskNow(), work, replyQueue.value, script);
      assert work[0..] == work && script[0..] == script;
      sent := [];
      for i := 0 to |order|
        invariant Valid(correlation.State())
        invariant Republished(DeskNow(), work[i..], replyQueue.value, script[i..]).0 == desk
        invariant sent + Republished(DeskNow(), work[i..], replyQueue.value, script[i..]).1 == all
      {
        var item := Item(order[i], envelopes[order[i]]);
        assert work[i..][0] == item && work[i..][1..] == work[i + 1..];
        assert script[i..][0] == script[i] && script[i..][1..] == script[i + 1..];
        if item.id !in correlation.pending {
          ForgetPublish(item.id);
        } else {
          sent := sent + SentIn(item, replyQueue.value, script[i]);
          AwaitConfirm(item.id, script[i]);
        }
      }
      assert work[|order|..] == [];
      assert Republished(DeskNow(), work[|order|..], replyQueue.value, script[|order|..]) == (DeskNow(), []);
      assert sent + [] == sent;
      assert DeskNow() == desk;
      assert sent == all;
    }

    /** The wait for one confirm, with the replies that come first. */
    method AwaitConfirm(id: Id, interval: Interval)
      requires Valid(correlation.State())
      modifies this`parked, correlation
      ensures DeskNow() == AfterTurn(old(DeskNow()), id, interval) && Valid(correlation.State())
    {
      TakeReplies(interval.arrivals);
      if interval.refused.Some? {
        SettleCall(id, Failed(interval.refused.value));
      }
    }

    method TakeReplies(arrivals: seq<Reply>)
      requires Valid(correlation.State())
      modifies this`parked, correlation
      ensures DeskNow() == OnReplies(old(DeskNow()), arrivals) && Valid(correlation.State())
    {
      ghost var final := OnReplies(DeskNow(), arrivals);
      for i := 0 to |arrivals|
        invariant Valid(correlation.State())
        invariant OnReplies(DeskNow(), arrivals[i..]) == final
      {
        assert arrivals[i..][0] == arrivals[i] && arrivals[i..][1..] == arrivals[i + 1..];
        TakeReply(arrivals[i]);
      }
    }
  }
}
