/** The session between two awaits: pending calls, parked envelopes, the connection epoch,
    and the reconnection that republishes what was parked. */
module SessionState {
  import opened Results
  import opened Correlation
  import RpcServer

  /** A request message: what is published, and kept to publish it again.  Queue profile and
      flags do not change. */
  datatype Envelope = Envelope(exchange: string, routingKey: string, body: RpcServer.Request,
                               replyTo: string, correlationId: Id)

  datatype Reply = Reply(queue: string, correlationId: Option<string>, body: RpcServer.ReplyBody)

  datatype Reason = ConnectionLost | PublishNack | PublishReturned | ConnectionBlocked | RequestTimeout | SessionClosed

  datatype Outcome = Answered(reply: Reply) | Failed(reason: Reason)

  // ---------------------------------------------------------------- the desk

  /** What the session holds for its callers. */
  datatype Desk = Desk(table: Table<Outcome>, parked: map<Id, Envelope>)

  function Remember(d: Desk, id: Id, envelope: Envelope): Desk {
    d.(parked := d.parked[id := envelope])
  }

  function Forget(d: Desk, id: Id): Desk {
    d.(parked := d.parked - {id})
  }

  /** Complete a call, if it is still pending, and forget its envelope. */
  function Settle(d: Desk, id: Id, outcome: Outcome): Desk
    requires Valid(d.table)
  {
    Forget(d.(table := Finish(d.table, id, outcome)), id)
  }

  function FailOutstanding(d: Desk, reason: Reason): Desk
    requires Valid(d.table)
  {
    Desk(DiscardAll(d.table, Failed(reason)), map[])
  }

  function OnReply(d: Desk, reply: Reply): Desk
    requires Valid(d.table)
  {
    if reply.correlationId.Some? then Settle(d, reply.correlationId.value, Answered(reply)) else d
  }

  // ---------------------------------------------------------------- the republish loop

  datatype Item = Item(id: Id, envelope: Envelope)

  /** The parked envelopes, listed. */
  function Items(order: seq<Id>, parked: map<Id, Envelope>): seq<Item>
    requires forall i :: 0 <= i < |order| ==> order[i] in parked
  {
    seq(|order|, i requires 0 <= i < |order| => Item(order[i], parked[order[i]]))
  }

  /** Properties are copied, and two of them rewritten, before the message goes out again. */
  function Readdressed(item: Item, queue: string): Envelope {
    item.envelope.(replyTo := queue, correlationId := item.id)
  }

  /** What is left of the work once the loop has passed over every item whose call is no
      longer pending. */
  function NextPending(d: Desk, work: seq<Item>): seq<Item>
    decreases |work|
  {
    if work == [] || work[0].id in d.table.pending then work else NextPending(d, work[1..])
  }

  /** It depends on which calls are pending, and not on what is parked. */
  lemma {:induction false} SamePendingSameRest(d: Desk, d': Desk, work: seq<Item>)
    requires d.table == d'.table
    ensures NextPending(d, work) == NextPending(d', work)
    decreases |work|
  {
    if work != [] && work[0].id !in d.table.pending {
      SamePendingSameRest(d, d', work[1..]);
    }
  }

  /** The desk once those items' envelopes are forgotten. */
  function ForgetSettled(d: Desk, work: seq<Item>): Desk
    decreases |work|
  {
    if work == [] || work[0].id in d.table.pending then d else ForgetSettled(Forget(d, work[0].id), work[1..])
  }

  // ---------------------------------------------------------------- the link

  datatype Policy = Policy(failOutstanding: bool, maxAttempts: nat)

  /** `_auto_reconnect_task`: absent or done, or running with so many failed attempts. */
  datatype Task = Idle | Running(failures: nat)

  datatype Owner = Auto | Caller

  datatype Answer = Acked | Nacked | Returned

  /** Where one turn of the republish loop waits: before its write, or for its confirm. */
  datatype Turn = Checked | Written(answer: Option<Answer>)

  /** Where `reconnect` waits.  `ready` says that the awaited result is already set, while the
      task has not resumed yet. */
  datatype Phase =
    | Teardown
    | Declaring(ready: bool)
    | Consuming(ready: bool)
    | Republishing(work: seq<Item>, turn: Turn)

  datatype Lock = Free | Held(owner: Owner, phase: Phase)

  datatype Link = Link(
    started: bool, replyQueue: Option<string>, lossHandled: bool,
    lost: bool,                // the connection has notified its loss
    listening: bool,           // the reply task is alive
    queue: string,             // the name this epoch's reply queue has or gets
    used: set<string>, epoch: nat, task: Task, lock: Lock,
    closing: nat)              // calls of `close` that wait for a reconnection to end

  datatype Session = Session(policy: Policy, desk: Desk, link: Link)

  predicate Open(l: Link) {
    l.replyQueue.Some? && l.started
  }

  /** The loss callback. */
  function OnConnectionLost(s: Session): Session
    requires Valid(s.desk.table)
  {
    if s.link.lossHandled then s
    else
      var link := s.link.(lossHandled := true, started := false, replyQueue := None);
      if s.policy.failOutstanding then s.(desk := FailOutstanding(s.desk, ConnectionLost), link := link)
      else s.(link := link.(task := if link.task.Idle? then Running(0) else link.task))
  }

  /** A reconnection that ends without an exception: the lock is released, and the automatic
      task, if it was the one, is done. */
  function Finished(l: Link, owner: Owner): Link {
    l.(lock := Free, task := if owner.Auto? then Idle else l.task)
  }

  /** A reconnection that raises.  The automatic task counts the attempt; after its last one
      it fails every pending call and ends. */
  function Raised(s: Session, owner: Owner): Session
    requires Valid(s.desk.table)
  {
    if owner.Caller? || s.link.task.Idle? then s.(link := s.link.(lock := Free))
    else if s.link.task.failures + 1 < s.policy.maxAttempts then
      s.(link := s.link.(lock := Free, task := Running(s.link.task.failures + 1)))
    else
      s.(desk := FailOutstanding(s.desk, ConnectionLost), link := s.link.(lock := Free, task := Idle))
  }

  /** Entering `reconnect` once the lock is free, up to its first await. */
  function Enter(s: Session, owner: Owner): Session
    requires Valid(s.desk.table)
  {
    if Open(s.link) then s.(link := Finished(s.link, owner))
    else
      s.(desk := if s.policy.failOutstanding then FailOutstanding(s.desk, ConnectionLost) else s.desk,
         link := s.link.(started := false, lock := Held(owner, Teardown)))
  }

  /** From the end of the teardown to the first await of `start`: a new connection, a new
      epoch, and a reply queue name never used before. */
  function Renew(s: Session, owner: Owner, name: string): Session {
    s.(link := s.link.(replyQueue := None, listening := false, lost := false, lossHandled := false,
                       queue := name, used := s.link.used + {name}, epoch := s.link.epoch + 1,
                       lock := Held(owner, Declaring(false))))
  }

  /** The queue is declared. */
  function Declared(l: Link, owner: Owner): Link {
    l.(replyQueue := Some(l.queue), lock := Held(owner, Consuming(false)))
  }

  /** Pass over the settled items; stop at the first pending one, or finish. */
  function Proceed(s: Session, owner: Owner, work: seq<Item>): Session {
    var rest := NextPending(s.desk, work);
    s.(desk := ForgetSettled(s.desk, work),
       link := if rest == [] then Finished(s.link, owner)
               else s.link.(lock := Held(owner, Republishing(rest, Checked))))
  }

  /** The consumer is up: `start` is over, and republishing begins, on the envelopes parked
      at this moment, unless a loss has taken the reply queue away meanwhile. */
  function Consumed(s: Session, owner: Owner, work: seq<Item>): Session {
    var s := s.(link := s.link.(started := true, listening := true));
    if s.policy.failOutstanding || s.link.replyQueue.None? then s.(link := Finished(s.link, owner))
    else Proceed(s, owner, work)
  }

  function ReasonOf(answer: Answer): Reason {
    if answer.Nacked? then PublishNack else PublishReturned
  }

  /** The end of a turn: an acknowledged item stays parked, a refused one fails its call. */
  function EndTurn(s: Session, owner: Owner, work: seq<Item>, refused: Option<Reason>): Session
    requires Valid(s.desk.table) && work != []
  {
    var desk := if refused.Some? then Settle(s.desk, work[0].id, Failed(refused.value)) else s.desk;
    Proceed(s.(desk := desk), owner, work[1..])
  }

  /** Where the automatic reconnection may swallow its cancellation and go on: in the teardown,
      where it waits for tasks it has itself cancelled, and where it awaits an answer through
      `wait_for`, which in Python 3.11 hands out instead what is already there, the answer or
      the loss of the connection. */
  predicate MaySwallow(l: Link) {
    l.lock.Held? && l.lock.owner.Auto? &&
    match l.lock.phase
    case Teardown => true
    case Declaring(_) => true
    case Consuming(ready) => ready || l.lost
    case Republishing(_, turn) => turn.Checked?
  }

  /** `close`: callers get an error, and the automatic task is cancelled.  If it swallows the
      cancellation, it goes on as it was, and `close` waits for it. */
  function Closed(s: Session, swallowed: bool): Session
    requires Valid(s.desk.table)
  {
    s.(desk := FailOutstanding(s.desk, SessionClosed),
       link := if swallowed then s.link.(started := false, closing := s.link.closing + 1)
               else s.link.(started := false, listening := false, replyQueue := None, task := Idle,
                            lock := if s.link.lock.Held? && s.link.lock.owner.Auto? then Free else s.link.lock))
  }

  /** `close` goes on, once the reconnection it waited for has ended. */
  function ClosedAfterAll(l: Link): Link
    requires l.closing > 0
  {
    l.(listening := false, replyQueue := None, closing := l.closing - 1)
  }
}
