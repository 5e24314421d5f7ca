/** From the caller back to the server: what a call that was answered returns or raises is what
    some server's handling of its own message came to, over all runs. */
module SessionConclusions {
  import opened Results
  import opened Correlation
  import opened SessionState
  import opened SessionRuns
  import opened SessionParking
  import opened SessionSafety
  import opened SessionAnswers
  import RpcServer

  /** What the server's own code, or the handler, raised, if anything. */
  function Problem(serve: Step): Option<RpcServer.Problem>
    requires serve.Serve?
  {
    if serve.auth.Some? then serve.auth
    else if serve.handler.Raises? then Some(serve.handler.problem) else None
  }

  /** The step in which a server, publishing not blocked, takes a message of this call, and its
      authorization and handler end so that the caller is to get this. */
  predicate ServesTo(serve: Step, id: Id, end: Conclusion) {
    && serve.Serve? && !serve.blocked && serve.message.correlationId == id
    && match end
       case Returns(value) => serve.auth.None? && serve.handler == RpcServer.Value(value)
       case RaisesRemote(code) =>
         Problem(serve).Some? &&
         (match Problem(serve).value
          case RpcError(c, _) => c == code
          case OtherException => code == -32000
          case NackDelivery(_) => false)
       case RaisesBadEnvelope => false
  }

  predicate RepliesWith(serve: Step, r: Reply) {
    serve.Serve? &&
    r in Replies(RpcServer.Serve(DeliveryOf(serve.message), serve.auth, serve.handler, serve.blocked).effects)
  }

  /** A reply a server makes of a message a session sent concludes the call as served. */
  lemma ReplyConcludes(s: System, serve: Step, r: Reply)
    requires Sound(s) && RepliesWith(serve, r) && serve.message in s.net.published
    ensures r.correlationId == Some(serve.message.correlationId)
    ensures ServesTo(serve, serve.message.correlationId, Conclude(serve.message.correlationId, r))
  {
    PublishedAreWellAddressed(s, serve.message);
    hide Sound;
    var effects := RpcServer.Serve(DeliveryOf(serve.message), serve.auth, serve.handler, serve.blocked).effects;
    var e :| e in effects && e.Publish? && r == Reply(e.routingKey, e.correlationId, e.body);
  }

  /** Replies come from servers only. */
  lemma OnlyServersReply(s: System, step: Step, r: Reply)
    requires Enabled(s, step) && Valid(s.session.desk.table)
    requires r !in s.net.replies && r in Apply(s, step).net.replies
    ensures RepliesWith(step, r) && step.message in s.net.published
  {
    hide BeginRound, EndOfTurn, RpcServer.Serve, OnConnectionLost, OnReply, Raised, Closed, Consumed, Enter, Renew;
    if IsTurnEnd(step) {
      TurnEndsReplyNothing(s, step);
    }
  }

  lemma TurnEndsReplyNothing(s: System, step: Step)
    requires Enabled(s, step) && Valid(s.session.desk.table) && IsTurnEnd(step)
    ensures Apply(s, step).net == s.net
  {}

  lemma {:induction false} RepliesAreServed(s: System, steps: seq<Step>, r: Reply) returns (i: nat)
    requires Sound(s) && IsRun(s, steps) && r !in s.net.replies && r in Run(s, steps).net.replies
    ensures i < |steps| && RepliesWith(steps[i], r)
    ensures IsRun(s, steps[..i]) && Sound(Run(s, steps[..i]))
    ensures steps[i].message in Run(s, steps[..i]).net.published
    decreases |steps|
  {
    hide Sound, Apply, Enabled, RepliesWith;
    DeskIsValid(s);
    StepOk(s, steps[0]);
    if r in Apply(s, steps[0]).net.replies {
      OnlyServersReply(s, steps[0], r);
      i := 0;
    } else {
      var j := RepliesAreServed(Apply(s, steps[0]), steps[1..], r);
      assert steps[..j + 1][1..] == steps[1..][..j] && steps[..j + 1][0] == steps[0];
      i := j + 1;
    }
  }

  /** A call that was answered ends as some server's taking of its own message did: with the
      value the handler returned, authorization having passed; or with the error authorization
      or the handler raised, by the code of an `RpcError` and -32000 for anything else. */
  lemma EndsAsServed(policy: Policy, queue: string, steps: seq<Step>, id: Id, r: Reply)
    requires IsHistory(policy, queue, steps) && id in After(policy, queue, steps).calls
    requires ResultOfCall(After(policy, queue, steps), id) == Some(Answered(r))
    ensures exists i :: 0 <= i < |steps| && ServesTo(steps[i], id, Conclude(id, r))
                        && steps[i].message.body == After(policy, queue, steps).calls[id].envelope.body
  {
    AnsweredIffDelivered(policy, queue, steps, id, r);
    var i :| 0 <= i < |steps| && PendsBefore(policy, queue, steps, id, i) && steps[i] == Deliver(r);
    HistoryRuns(policy, queue, steps, i);
    DeliveredAreReplies(After(policy, queue, steps[..i]), r);
    var j := ServedBefore(policy, queue, steps, i, r);
    HistoryRuns(policy, queue, steps, j);
    ReplyConcludes(After(policy, queue, steps[..j]), steps[j], r);
    OwnBody(After(policy, queue, steps[..j]), steps[j].message);
    hide *;
    BodyStays(policy, queue, steps, j, id);
  }

  lemma ServedBefore(policy: Policy, queue: string, steps: seq<Step>, i: nat, r: Reply) returns (j: nat)
    requires IsHistory(policy, queue, steps) && i <= |steps| && IsHistory(policy, queue, steps[..i])
    requires r in After(policy, queue, steps[..i]).net.replies
    ensures j < i && RepliesWith(steps[j], r) && IsHistory(policy, queue, steps[..j])
    ensures steps[j].message in After(policy, queue, steps[..j]).net.published
  {
    StartOk(policy, queue);
    hide Sound, RepliesWith, Run, IsRun;
    j := RepliesAreServed(Start(policy, queue), steps[..i], r);
    assert steps[..i][..j] == steps[..j];
  }

  lemma BodyStays(policy: Policy, queue: string, steps: seq<Step>, j: nat, id: Id)
    requires IsHistory(policy, queue, steps) && j <= |steps| && IsHistory(policy, queue, steps[..j])
    requires id in After(policy, queue, steps[..j]).calls
    ensures id in After(policy, queue, steps).calls
    ensures After(policy, queue, steps).calls[id].envelope == After(policy, queue, steps[..j]).calls[id].envelope
  {
    StartOk(policy, queue);
    hide Sound, Run, IsRun, Keeps;
    assert steps[..j] + steps[j..] == steps;
    LaterKeeps(Start(policy, queue), steps[..j], steps[j..]);
  }

  lemma DeliveredAreReplies(s: System, r: Reply)
    requires Enabled(s, Deliver(r))
    ensures r in s.net.replies
  {}

  lemma OwnBody(s: System, m: Envelope)
    requires Sound(s) && m in s.net.published
    ensures m.correlationId in s.calls && m.body == s.calls[m.correlationId].envelope.body
  {}
}
