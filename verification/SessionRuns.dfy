/** The session among its callers, the broker and the servers: one step for every stretch
    between two awaits, and runs of such steps in any order. */
module SessionRuns {
  import opened Results
  import opened Correlation
  import opened SessionState
  import RpcServer

  /** How far `request` has come: registered, its message written, waiting for the reply
      after the confirm, or returned to its caller. */
  datatype Stage = Registered | Sent | Waiting | Ended

  datatype Call = Call(envelope: Envelope, handle: nat, epoch: nat, stage: Stage)

  /** Which attempts have been made at which request bodies. */
  type Handled = set<(RpcServer.Request, RpcServer.Attempt)>

  /** Messages with the broker, what handlers have made of which request bodies, and the
      replies servers have published. */
  datatype Net = Net(published: set<Envelope>, handled: Handled, replies: set<Reply>)

  datatype Mark = Skipped | Confirmed | Refused(reason: Reason)

  /** How one item's turn ended, and what its call had come to, if anything, by then. */
  datatype Entry = Entry(id: Id, mark: Mark, before: Option<Outcome>)

  /** The history of the latest republish round: the envelopes it started from, how each
      turn so far ended, and every message it wrote on the new connection. */
  datatype Round = Round(snapshot: seq<Item>, log: seq<Entry>, sent: seq<Envelope>)

  datatype System = System(session: Session, calls: map<Id, Call>, net: Net, round: Round)

  datatype Step =
    | Request(id: Id, exchange: string, routingKey: string, methodName: string, params: string)
    | Write(id: Id)                                // its message leaves
    | PublishConfirmed(id: Id)                     // acknowledged, and the caller's task resumes
    | PublishFails(id: Id, reason: Reason)
    | PublishRaises(id: Id)                        // an exception `request` does not catch
    | TimeOut(id: Id)
    | Serve(message: Envelope, auth: Option<RpcServer.Problem>, handler: RpcServer.Attempt, blocked: bool)
    | Deliver(reply: Reply)
    | Lose
    | ReplyLoopFails
    | Acquire(owner: Owner)
    | StartFresh(name: string)
    | Ready                                        // the awaited declare-ok or consume-ok is set
    | Resume                                       // and the reconnecting task sees it
    | Begin(order: seq<Id>)                        // as Resume, once consuming
    | TurnWrite
    | TurnAnswer(answer: Answer)
    | TurnResume
    | TurnBlocked
    | Raise                                        // the reconnection raises where it waits
    | Close(swallowed: bool)                       // swallowed: the reconnection does not end by it
    | CloseGoesOn                                  // the reconnection it waited for is over

  function Start(policy: Policy, queue: string): System {
    System(Session(policy, Desk(Table(map[], []), map[]),
                   Link(true, Some(queue), false, false, true, queue, {queue}, 0, Idle, Free, 0)),
           map[], Net({}, {}, {}), Round([], [], []))
  }

  predicate InPhase(s: System, phase: Phase) {
    s.session.link.lock.Held? && s.session.link.lock.phase == phase
  }

  predicate InTurn(s: System) {
    && s.session.link.lock.Held? && s.session.link.lock.phase.Republishing?
    && s.session.link.lock.phase.work != []
  }

  /** A reconnection that awaits something which may still raise. */
  predicate MayRaise(s: System) {
    s.session.link.lock.Held? &&
    match s.session.link.lock.phase
    case Teardown => false
    case Declaring(ready) => !ready
    case Consuming(ready) => !ready
    case Republishing(_, turn) => turn.Checked? || turn.answer.None?
  }

  predicate Lists(order: seq<Id>, parked: map<Id, Envelope>) {
    && (forall i, j :: 0 <= i < j < |order| ==> order[i] != order[j])
    && (forall i :: 0 <= i < |order| ==> order[i] in parked)
    && forall id :: id in parked ==> id in order
  }

  /** The guards.  Ids are never reused; replies come only from servers. */
  predicate Enabled(s: System, step: Step) {
    var link := s.session.link;
    match step
    case Request(id, _, _, _, _) => Open(link) && ValidId(id) && id !in s.calls
    case Write(id) => id in s.calls && s.calls[id].stage.Registered? && s.calls[id].epoch == link.epoch && !link.lost
    case PublishConfirmed(id) => id in s.calls && s.calls[id].stage.Sent?
    case PublishFails(id, reason) =>
      && id in s.calls
      && (if s.calls[id].stage.Sent? then reason.PublishNack? || reason.PublishReturned?
          else s.calls[id].stage.Registered? && reason.ConnectionBlocked?)
    case PublishRaises(id) => id in s.calls && (s.calls[id].stage.Registered? || s.calls[id].stage.Sent?)
    case TimeOut(id) => id in s.calls && s.calls[id].stage.Waiting? && id in s.session.desk.table.pending
    case Serve(message, _, _, _) => message in s.net.published
    case Deliver(reply) => link.listening && reply in s.net.replies && reply.queue == link.queue
    case Lose => !link.lost
    case ReplyLoopFails => link.listening
    case Acquire(owner) => link.lock.Free? && (owner.Auto? ==> link.task.Running?)
    case StartFresh(name) => InPhase(s, Teardown) && name !in link.used
    case Ready => (InPhase(s, Declaring(false)) || InPhase(s, Consuming(false))) && !link.lost
    case Resume => InPhase(s, Declaring(true))
    case Begin(order) => InPhase(s, Consuming(true)) && Lists(order, s.session.desk.parked)
    case TurnWrite => InTurn(s) && link.lock.phase.turn.Checked?
    case TurnAnswer(_) => InTurn(s) && link.lock.phase.turn == Written(None) && !link.lost
    case TurnResume => InTurn(s) && link.lock.phase.turn.Written? && link.lock.phase.turn.answer.Some?
    case TurnBlocked => InTurn(s) && link.lock.phase.turn.Checked?
    case Raise => MayRaise(s)
    case Close(swallowed) => !(link.lock.Held? && link.lock.owner.Caller?) && (swallowed ==> MaySwallow(link))
    case CloseGoesOn => link.closing > 0 && link.task.Idle? && link.lock.Free?
  }

  function DeliveryOf(m: Envelope): RpcServer.Delivery {
    RpcServer.Delivery(Some(m.replyTo), Some(m.correlationId), Some(m.body))
  }

  /** The replies among a server's effects. */
  function Replies(effects: seq<RpcServer.Effect>): set<Reply> {
    set e | e in effects && e.Publish? :: Reply(e.routingKey, e.correlationId, e.body)
  }

  function Served(net: Net, m: Envelope, auth: Option<RpcServer.Problem>, handler: RpcServer.Attempt, blocked: bool)
    : Net
  {
    net.(handled := if RpcServer.WellAddressed(DeliveryOf(m)) && auth.None?
                    then net.handled + {(m.body, handler)} else net.handled,
         replies := net.replies + Replies(RpcServer.Serve(DeliveryOf(m), auth, handler, blocked).effects))
  }

  /** What a call has come to, if it is complete. */
  function ResultIn(d: Desk, calls: map<Id, Call>, id: Id): Option<Outcome> {
    if id in calls && calls[id].handle < |d.table.futures| then d.table.futures[calls[id].handle] else None
  }

  function Passed(d: Desk, calls: map<Id, Call>, id: Id): Entry {
    Entry(id, Skipped, ResultIn(d, calls, id))
  }

  /** One log entry for each item the loop passes over before it stops. */
  function Skips(d: Desk, calls: map<Id, Call>, work: seq<Item>): seq<Entry>
    decreases |work|
  {
    if work == [] || work[0].id in d.table.pending then []
    else [Passed(d, calls, work[0].id)] + Skips(d, calls, work[1..])
  }

  function AtStage(s: System, id: Id, stage: Stage): map<Id, Call>
    requires id in s.calls
  {
    s.calls[id := s.calls[id].(stage := stage)]
  }

  function MarkOf(answer: Answer): Mark {
    if answer.Acked? then Confirmed else Refused(ReasonOf(answer))
  }

  /** A republish round begins, unless the policy or a loss leaves nothing to republish. */
  function BeginRound(s: System, order: seq<Id>): System
    requires s.session.link.lock.Held? && Lists(order, s.session.desk.parked)
  {
    var work := Items(order, s.session.desk.parked);
    s.(session := Consumed(s.session, s.session.link.lock.owner, work),
       round := if s.session.policy.failOutstanding || s.session.link.replyQueue.None? then Round([], [], [])
                else Round(work, Skips(s.session.desk, s.calls, work), []))
  }

  function EndOfTurn(s: System, mark: Mark): System
    requires Valid(s.session.desk.table) && InTurn(s)
  {
    var (owner, work) := (s.session.link.lock.owner, s.session.link.lock.phase.work);
    var refused := if mark.Refused? then Some(mark.reason) else None;
    var session := EndTurn(s.session, owner, work, refused);
    s.(session := session,
       round := s.round.(log := s.round.log + [Entry(work[0].id, mark, ResultIn(s.session.desk, s.calls, work[0].id))]
                                + Skips(session.desk, s.calls, work[1..])))
  }

  function WriteTurn(s: System): System
    requires InTurn(s)
  {
    var link := s.session.link;
    var phase := Republishing(link.lock.phase.work, Written(None));
    var session := s.session.(link := link.(lock := link.lock.(phase := phase)));
    if link.lost || link.replyQueue.None? then s.(session := session)
    else
      var wire := Readdressed(link.lock.phase.work[0], link.replyQueue.value);
      s.(session := session, net := s.net.(published := s.net.published + {wire}),
         round := s.round.(sent := s.round.sent + [wire]))
  }

  /** One step.  Where a step acts on the session alone, it is the session's own function. */
  function Apply(s: System, step: Step): System
    requires Enabled(s, step) && Valid(s.session.desk.table)
  {
    var (session, desk, link) := (s.session, s.session.desk, s.session.link);
    match step
    case Request(id, exchange, routingKey, methodName, params) =>
      var body := RpcServer.Request(methodName, params, id);
      var envelope := Envelope(exchange, routingKey, body, link.replyQueue.value, id);
      s.(session := session.(desk := desk.(table := Register(desk.table, id))),
         calls := s.calls[id := Call(envelope, |desk.table.futures|, link.epoch, Registered)])
    case Write(id) =>
      s.(calls := AtStage(s, id, Sent), net := s.net.(published := s.net.published + {s.calls[id].envelope}))
    case PublishConfirmed(id) =>
      s.(session := session.(desk := Remember(desk, id, s.calls[id].envelope)), calls := AtStage(s, id, Waiting))
    case PublishFails(id, reason) =>
      s.(session := session.(desk := Settle(desk, id, Failed(reason))), calls := AtStage(s, id, Ended))
    case PublishRaises(id) => s.(calls := AtStage(s, id, Ended))
    case TimeOut(id) =>
      s.(session := session.(desk := Settle(desk, id, Failed(RequestTimeout))), calls := AtStage(s, id, Ended))
    case Serve(message, auth, handler, blocked) => s.(net := Served(s.net, message, auth, handler, blocked))
    case Deliver(reply) => s.(session := session.(desk := OnReply(desk, reply)))
    case Lose => s.(session := OnConnectionLost(session.(link := link.(lost := true))))
    case ReplyLoopFails =>
      s.(session := session.(desk := FailOutstanding(desk, ConnectionLost), link := link.(listening := false)))
    case Acquire(owner) => s.(session := Enter(session, owner))
    case StartFresh(name) => s.(session := Renew(session, link.lock.owner, name))
    case Ready =>
      var phase := if link.lock.phase.Declaring? then Declaring(true) else Consuming(true);
      s.(session := session.(link := link.(lock := link.lock.(phase := phase))))
    case Resume => s.(session := session.(link := Declared(link, link.lock.owner)))
    case Begin(order) => BeginRound(s, order)
    case TurnWrite => WriteTurn(s)
    case TurnAnswer(answer) =>
      var phase := Republishing(link.lock.phase.work, Written(Some(answer)));
      s.(session := session.(link := link.(lock := link.lock.(phase := phase))))
    case TurnResume => EndOfTurn(s, MarkOf(link.lock.phase.turn.answer.value))
    case TurnBlocked => EndOfTurn(s, Refused(ConnectionBlocked))
    case Raise => s.(session := Raised(session, link.lock.owner))
    case Close(swallowed) => s.(session := Closed(session, swallowed))
    case CloseGoesOn => s.(session := session.(link := ClosedAfterAll(link)))
  }
}
