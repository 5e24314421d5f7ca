/** The RPC server: one delivery in, at most one reply and exactly one settlement out. */
module RpcServer {
  import opened Results

  const INVALID_ENVELOPE := -33003
  const SERVER_ERROR := -32000

  /** A JSON-RPC request body, as its text decodes. */
  datatype Request = Request(methodName: string, params: string, id: string)

  datatype ReplyBody = ResultOf(value: string, id: string) | ErrorOf(code: int, errorId: Option<string>)

  /** A delivered message: the two properties the server reads, and its body if it decodes. */
  datatype Delivery = Delivery(replyTo: Option<string>, correlationId: Option<string>, body: Option<Request>)

  datatype Problem = NackDelivery(requeue: bool) | RpcError(code: int, id: Option<string>) | OtherException

  /** How the handler, or the code around it, ends. */
  datatype Attempt = Value(value: string) | Raises(problem: Problem)

  datatype Effect =
    | Publish(routingKey: string, correlationId: Option<string>, body: ReplyBody)
    | Ack
    | Nack(requeue: bool)

  /** The id a reply carries when the message had no correlation id: the body's own. */
  function RequestId(d: Delivery): string {
    if d.correlationId.Some? then d.correlationId.value else if d.body.Some? then d.body.value.id else ""
  }

  /** Whether the two ids the request travels with agree, so that it reaches the checks that
      come before the handler. */
  predicate WellAddressed(d: Delivery) {
    d.body.Some? && (d.correlationId.Some? ==> d.correlationId.value == d.body.value.id)
  }

  function Evaluate(d: Delivery, auth: Option<Problem>, handler: Attempt): Attempt {
    if !WellAddressed(d) then Raises(RpcError(INVALID_ENVELOPE, None))
    else if auth.Some? then Raises(auth.value)
    else handler
  }

  function Or(preferred: Option<string>, other: Option<string>): Option<string> {
    if preferred.Some? then preferred else other
  }

  /** What one delivery comes to: its effects, in order, and whether the server's loop gets an
      exception instead of going on. */
  datatype Handled = Handled(effects: seq<Effect>, raises: bool)

  /** Publish the reply, if there is somewhere to, and ack.  The publish is outside the
      handler's `try`: while the broker blocks publishing it raises, and the ack after it is
      never reached. */
  function Reply(d: Delivery, body: ReplyBody, blocked: bool): Handled {
    if !Answerable(d) then Handled([Ack], false)
    else if blocked then Handled([], true)
    else
      var correlation := if d.correlationId == Some("") then None else d.correlationId;
      Handled([Publish(d.replyTo.value, correlation, body), Ack], false)
  }

  predicate Answerable(d: Delivery) {
    d.replyTo.Some? && d.replyTo.value != ""
  }

  function Serve(d: Delivery, auth: Option<Problem>, handler: Attempt, blocked: bool): Handled {
    match Evaluate(d, auth, handler)
    case Value(value) => Reply(d, ResultOf(value, RequestId(d)), blocked)
    case Raises(NackDelivery(requeue)) => Handled([Nack(requeue)], false)
    case Raises(RpcError(code, id)) => Reply(d, ErrorOf(code, Or(d.correlationId, id)), blocked)
    case Raises(OtherException) => Reply(d, ErrorOf(SERVER_ERROR, d.correlationId), blocked)
  }

  predicate Settles(e: Effect) {
    e.Ack? || e.Nack?
  }

  /** One settlement, and nothing after it. */
  predicate SettledLast(effects: seq<Effect>) {
    && effects != [] && Settles(effects[|effects| - 1])
    && forall i :: 0 <= i < |effects| - 1 ==> !Settles(effects[i])
  }

  /** A reply is due unless the handler refuses the delivery or it names no reply queue. */
  predicate ReplyDue(d: Delivery, auth: Option<Problem>, handler: Attempt) {
    var attempt := Evaluate(d, auth, handler);
    Answerable(d) && !(attempt.Raises? && attempt.problem.NackDelivery?)
  }

  /** A delivery is settled, exactly once and last, if and only if it is not the case that a
      reply is due while publishing is blocked; then nothing happens to it at all, and the
      loop gets the exception.  A reply that is due otherwise goes out before the ack, to the
      queue named and under the delivery's own id, and no other reply ever does. */
  lemma SettledOnce(d: Delivery, auth: Option<Problem>, handler: Attempt, blocked: bool)
    ensures var (h, due) := (Serve(d, auth, handler, blocked), ReplyDue(d, auth, handler));
      && (SettledLast(h.effects) <==> !(blocked && due))
      && (h.raises <==> blocked && due) && (h.raises ==> h.effects == [])
      && (!h.raises ==> |h.effects| == if due then 2 else 1)
      && (forall i :: 0 <= i < |h.effects| ==> (h.effects[i].Publish? <==> due && i == 0))
      && (due && !blocked ==>
            && h.effects[1].Ack? && h.effects[0].routingKey == d.replyTo.value
            && (d.correlationId.Some? && d.correlationId.value != "" ==> h.effects[0].correlationId == d.correlationId)
            && (d.correlationId.None? || d.correlationId.value == "" ==> h.effects[0].correlationId.None?))
  {
    var h := Serve(d, auth, handler, blocked);
    if !(blocked && ReplyDue(d, auth, handler)) {
      assert h.effects == (if ReplyDue(d, auth, handler) then [h.effects[0], Ack] else [h.effects[0]]);
    }
  }

  /** A result is only ever what the handler returned for this very body, under the body's
      own id; and a handler's result is lost only for want of a reply queue, or because
      publishing is blocked. */
  lemma ResultsAreTheHandlers(d: Delivery, auth: Option<Problem>, handler: Attempt, blocked: bool, value: string,
                              id: string)
    ensures var effects := Serve(d, auth, handler, blocked).effects;
      (exists i :: 0 <= i < |effects| && effects[i].Publish? && effects[i].body == ResultOf(value, id))
      <==> && WellAddressed(d) && auth.None? && handler == Value(value) && id == d.body.value.id
           && Answerable(d) && !blocked
  {
    var effects := Serve(d, auth, handler, blocked).effects;
    if WellAddressed(d) && auth.None? && handler == Value(value) && id == d.body.value.id && Answerable(d) && !blocked {
      assert effects[0].Publish? && effects[0].body == ResultOf(value, id);
    }
  }

  /** The problem a delivery ends in before its handler has a say, or by its handler. */
  predicate RaisedBy(d: Delivery, auth: Option<Problem>, handler: Attempt, problem: Problem) {
    WellAddressed(d) && (auth == Some(problem) || (auth.None? && handler == Raises(problem)))
  }

  /** Which settlement.  A delivery is refused, to be delivered again or not as asked, iff its
      ids agree and authorization, or if that passes the handler, refuses it so; it is acked
      iff it is not refused and no reply to it is held up. */
  lemma SettledAs(d: Delivery, auth: Option<Problem>, handler: Attempt, blocked: bool, requeue: bool)
    ensures var effects := Serve(d, auth, handler, blocked).effects;
      && (Nack(requeue) in effects <==> RaisedBy(d, auth, handler, NackDelivery(requeue)))
      && (Ack in effects <==>
            && !RaisedBy(d, auth, handler, NackDelivery(true)) && !RaisedBy(d, auth, handler, NackDelivery(false))
            && !(blocked && Answerable(d)))
  {
    var effects := Serve(d, auth, handler, blocked).effects;
    if effects == [Nack(requeue)] {
      assert effects[0] == Nack(requeue);
    }
    if effects != [] && effects[|effects| - 1] == Ack {
      assert Ack in effects;
    }
  }

  /** Which error.  An error goes out iff there is somewhere to send it and: the ids disagree;
      or an `RpcError` was raised, with its code; or something else was.  It carries the
      delivery's own correlation id if there is one, else the id of the `RpcError`. */
  lemma ErrorsAreMapped(d: Delivery, auth: Option<Problem>, handler: Attempt, blocked: bool, code: int,
                        id: Option<string>)
    ensures var effects := Serve(d, auth, handler, blocked).effects;
      (exists i :: 0 <= i < |effects| && effects[i].Publish? && effects[i].body == ErrorOf(code, id))
      <==> && Answerable(d) && !blocked
           && (d.correlationId.Some? ==> id == d.correlationId)
           && ((!WellAddressed(d) && code == INVALID_ENVELOPE && (d.correlationId.None? ==> id.None?))
               || (RaisedBy(d, auth, handler, OtherException) && code == SERVER_ERROR
                   && (d.correlationId.None? ==> id.None?))
               || (d.correlationId.None? && RaisedBy(d, auth, handler, RpcError(code, id)))
               || (d.correlationId.Some? && exists own :: RaisedBy(d, auth, handler, RpcError(code, own))))
  {
    var effects := Serve(d, auth, handler, blocked).effects;
    if Answerable(d) && !blocked {
      match Evaluate(d, auth, handler)
      case Raises(RpcError(c, own)) =>
        assert effects[0].Publish? && effects[0].body == ErrorOf(c, Or(d.correlationId, own));
        assert WellAddressed(d) ==> RaisedBy(d, auth, handler, RpcError(c, own));
      case Raises(OtherException) =>
        assert effects[0].Publish? && effects[0].body == ErrorOf(SERVER_ERROR, d.correlationId);
      case _ =>
    }
  }

  /** An ordinary request, answered by its handler, while publishing is blocked: neither the
      reply nor the ack goes out. */
  lemma BlockedReplyLeavesDeliveryUnsettled()
    ensures var d := Delivery(Some("replies"), Some("1"), Some(Request("add", "[1,2]", "1")));
      && Serve(d, None, Value("3"), true) == Handled([], true)
      && Serve(d, None, Value("3"), false) == Handled([Publish("replies", Some("1"), ResultOf("3", "1")), Ack], false)
  {}

  // ---------------------------------------------------------------- the loop

  /** One delivery and what it meets with. */
  datatype Encounter = Encounter(delivery: Delivery, auth: Option<Problem>, handler: Attempt, blocked: bool)

  predicate Stops(e: Encounter) {
    e.blocked && ReplyDue(e.delivery, e.auth, e.handler)
  }

  /** The effects on each delivery the loop takes, up to the one that ends it. */
  function ServeAll(encounters: seq<Encounter>): seq<seq<Effect>>
    decreases |encounters|
  {
    if encounters == [] then []
    else
      var e := encounters[0];
      var h := Serve(e.delivery, e.auth, e.handler, e.blocked);
      [h.effects] + if h.raises then [] else ServeAll(encounters[1..])
  }

  /** Every delivery before the first blocked reply is settled once; that one is not, and
      those after it are not even taken: the server is gone. */
  lemma {:induction false} LoopEndsAtBlockedReply(encounters: seq<Encounter>, n: nat)
    requires n <= |encounters| && forall i :: 0 <= i < n ==> !Stops(encounters[i])
    requires n < |encounters| ==> Stops(encounters[n])
    ensures var all := ServeAll(encounters);
      && |all| == (if n < |encounters| then n + 1 else n)
      && (forall i :: 0 <= i < n ==> SettledLast(all[i]))
      && (n < |encounters| ==> all[n] == [])
    decreases |encounters|
  {
    if encounters != [] {
      var e := encounters[0];
      SettledOnce(e.delivery, e.auth, e.handler, e.blocked);
      if n > 0 {
        hide Serve, SettledLast, ReplyDue;
        assert !Stops(e);
        LoopEndsAtBlockedReply(encounters[1..], n - 1);
        var all := ServeAll(encounters);
        assert forall i :: 0 < i < |all| ==> all[i] == ServeAll(encounters[1..])[i - 1];
      }
    }
  }

  /** The handler of one delivery, in the order its effects happen. */
  method Handle(d: Delivery, auth: Option<Problem>, handler: Attempt, blocked: bool)
    returns (effects: seq<Effect>, raises: bool)
    ensures Handled(effects, raises) == Serve(d, auth, handler, blocked)
  {
    effects, raises := [], false;
    var out := ErrorOf(SERVER_ERROR, d.correlationId);
    var attempt := handler;
    if d.body.None? {
      attempt := Raises(RpcError(INVALID_ENVELOPE, None));
    } else if d.correlationId.Some? && d.correlationId.value != d.body.value.id {
      attempt := Raises(RpcError(INVALID_ENVELOPE, None));
    } else if auth.Some? {
      attempt := Raises(auth.value);
    }
    match attempt {
      case Value(value) =>
        var requestId := if d.correlationId.Some? then d.correlationId.value else d.body.value.id;
        out := ResultOf(value, requestId);
      case Raises(NackDelivery(requeue)) =>
        effects := effects + [Nack(requeue)];
        return;
      case Raises(RpcError(code, id)) =>
        var requestId := if d.correlationId.Some? then d.correlationId else id;
        out := ErrorOf(code, requestId);
      case Raises(OtherException) =>
    }
    if d.replyTo.Some? && d.replyTo.value != "" {
      var correlation: Option<string> := None;
      if d.correlationId.Some? && d.correlationId.value != "" {
        correlation := d.correlationId;
      }
      if blocked {
        return effects, true;
      }
      effects := effects + [Publish(d.replyTo.value, correlation, out)];
    }
    effects := effects + [Ack];
  }

  /** The server's loop: an exception out of the handler ends it. */
  method Loop(encounters: seq<Encounter>) returns (all: seq<seq<Effect>>)
    ensures all == ServeAll(encounters)
  {
    hide Serve;
    all := [];
    assert encounters[0..] == encounters;
    for i := 0 to |encounters|
      invariant all + ServeAll(encounters[i..]) == ServeAll(encounters)
    {
      var e := encounters[i];
      var effects, raises := Handle(e.delivery, e.auth, e.handler, e.blocked);
      OneMoreServed(all, encounters, i, effects, raises);
      all := all + [effects];
      if raises {
        return;
      }
    }
    assert all + ServeAll([]) == all;
  }

  lemma OneMoreServed(all: seq<seq<Effect>>, encounters: seq<Encounter>, i: nat, effects: seq<Effect>, raises: bool)
    requires i < |encounters|
    requires var e := encounters[i]; Handled(effects, raises) == Serve(e.delivery, e.auth, e.handler, e.blocked)
    ensures all + ServeAll(encounters[i..])
         == if raises then all + [effects] else all + [effects] + ServeAll(encounters[i + 1..])
  {
    hide Serve;
    assert encounters[i..][0] == encounters[i] && encounters[i..][1..] == encounters[i + 1..];
    var rest := if raises then [] else ServeAll(encounters[i + 1..]);
    assert all + ([effects] + rest) == all + [effects] + rest;
  }
}
