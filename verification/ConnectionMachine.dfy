/** The connection's handshake: which calls, in which order, open it. */
module ConnectionMachine {

  datatype State =
    | Init | TcpConnected | TlsHandshaking | TlsVerified | Start | StartOk | Tune | TuneOk | Open | OpenOk
    | Closing | Closed | Error

  const START_OK := 11
  const TUNE_OK := 31
  const OPEN := 40
  const CLOSE := 50
  const CLOSE_OK := 51
  const UPDATE_SECRET := 70

  /** One call on the machine. */
  datatype Call =
    | OnTcpConnected(tls: bool)
    | OnTlsVerified
    | AllowHeader
    | OnStart
    | OnStartOkSent
    | OnTune
    | OnTuneOkSent(heartbeat: int)
    | OnOpenSent
    | OnOpenOk
    | BeginClose
    | OnCloseOk
    | AssertCanSend(methodId: nat)
    | Reject                        // called from outside, when a peer breaks the protocol

  datatype Machine = Machine(state: State, heartbeat: int)

  const FRESH := Machine(Init, 60)

  predicate ConnectionIsUp(s: State) {
    s.TcpConnected? || s.TlsVerified?
  }

  /** Whether a connection method may be sent now. */
  predicate MaySend(s: State, methodId: nat) {
    if methodId == START_OK then s.Start?
    else if methodId == TUNE_OK then s.Tune?
    else if methodId == OPEN then s.TuneOk?
    else if methodId == CLOSE then s.OpenOk? || s.Open? || s.TuneOk? || s.Tune? || s.StartOk? || s.Start?
    else if methodId == CLOSE_OK then s.Closing?
    else methodId == UPDATE_SECRET && s.OpenOk?
  }

  predicate IsCheck(c: Call) {
    c.AllowHeader? || c.AssertCanSend?
  }

  /** Whether the machine accepts a call; otherwise the call raises. */
  predicate Accepts(s: State, c: Call) {
    match c
    case OnTcpConnected(_) => s.Init?
    case OnTlsVerified => s.TlsHandshaking?
    case AllowHeader => ConnectionIsUp(s)
    case OnStart => ConnectionIsUp(s)
    case OnStartOkSent => s.Start?
    case OnTune => s.StartOk?
    case OnTuneOkSent(heartbeat) => s.Tune? && 0 < heartbeat <= 60
    case OnOpenSent => s.TuneOk?
    case OnOpenOk => s.Open?
    case BeginClose => !s.Closed? && !s.Error?
    case OnCloseOk => true
    case AssertCanSend(methodId) => MaySend(s, methodId)
    case Reject => false
  }

  /** The state an accepted call leads to. */
  function Target(s: State, c: Call): State {
    match c
    case OnTcpConnected(tls) => if tls then TlsHandshaking else TcpConnected
    case OnTlsVerified => TlsVerified
    case OnStart => Start
    case OnStartOkSent => StartOk
    case OnTune => Tune
    case OnTuneOkSent(_) => TuneOk
    case OnOpenSent => Open
    case OnOpenOk => OpenOk
    case BeginClose => Closing
    case OnCloseOk => Closed
    case _ => s
  }

  function Step(m: Machine, c: Call): Machine {
    if !Accepts(m.state, c) then m.(state := Error)
    else Machine(Target(m.state, c), if c.OnTuneOkSent? then c.heartbeat else m.heartbeat)
  }

  function Run(m: Machine, calls: seq<Call>): Machine
    decreases |calls|
  {
    if calls == [] then m else Run(Step(m, calls[0]), calls[1..])
  }

  /** The calls of a run, without the checks that pass. */
  function Strip(m: Machine, calls: seq<Call>): seq<Call>
    decreases |calls|
  {
    if calls == [] then []
    else (if IsCheck(calls[0]) && Accepts(m.state, calls[0]) then [] else [calls[0]])
         + Strip(Step(m, calls[0]), calls[1..])
  }

  // ---------------------------------------------------------------- the handshake

  predicate IsOver(s: State) {
    s.Closing? || s.Closed? || s.Error?
  }

  function AfterTransport(heartbeat: int): seq<Call> {
    [OnStart, OnStartOkSent, OnTune, OnTuneOkSent(heartbeat), OnOpenSent, OnOpenOk]
  }

  /** The whole handshake, over plain TCP or over TLS. */
  function Handshake(tls: bool, heartbeat: int): seq<Call> {
    (if tls then [OnTcpConnected(true), OnTlsVerified] else [OnTcpConnected(false)]) + AfterTransport(heartbeat)
  }

  /** What of it is left in a state. */
  function Rest(s: State, tls: bool, heartbeat: int): seq<Call>
    requires !IsOver(s)
  {
    match s
    case Init => Handshake(tls, heartbeat)
    case TlsHandshaking => [OnTlsVerified] + AfterTransport(heartbeat)
    case TcpConnected => AfterTransport(heartbeat)
    case TlsVerified => AfterTransport(heartbeat)
    case Start => AfterTransport(heartbeat)[1..]
    case StartOk => AfterTransport(heartbeat)[2..]
    case Tune => AfterTransport(heartbeat)[3..]
    case TuneOk => AfterTransport(heartbeat)[4..]
    case Open => AfterTransport(heartbeat)[5..]
    case OpenOk => []
  }

  /** The heartbeat is settled once tune-ok is sent. */
  predicate Settled(s: State) {
    s.TuneOk? || s.Open? || s.OpenOk?
  }

  predicate Completes(m: Machine, calls: seq<Call>, heartbeat: int) {
    && !IsOver(m.state) && (if Settled(m.state) then heartbeat == m.heartbeat else 0 < heartbeat <= 60)
    && (calls == Rest(m.state, false, heartbeat) || calls == Rest(m.state, true, heartbeat))
  }

  /** Once over, never open. */
  lemma {:induction false} OverStaysOver(m: Machine, calls: seq<Call>)
    requires IsOver(m.state)
    ensures IsOver(Run(m, calls).state)
    decreases |calls|
  {
    if calls != [] {
      OverStaysOver(Step(m, calls[0]), calls[1..]);
    }
  }

  /** A call that is neither a passing check nor the next one of the handshake ends it. */
  lemma OneCall(m: Machine, c: Call, later: seq<Call>, heartbeat: int)
    requires !(IsCheck(c) && Accepts(m.state, c))
    ensures Completes(m, [c] + later, heartbeat) <==>
              !IsOver(m.state) && !IsOver(Step(m, c).state) && Completes(Step(m, c), later, heartbeat)
  {
    if !IsOver(m.state) {
      HeadAndTail(c, later, Rest(m.state, false, heartbeat));
      HeadAndTail(c, later, Rest(m.state, true, heartbeat));
    }
  }

  lemma HeadAndTail(c: Call, later: seq<Call>, all: seq<Call>)
    ensures [c] + later == all <==> all != [] && c == all[0] && later == all[1..]
  {
    assert ([c] + later)[1..] == later && ([c] + later)[0] == c;
    if all != [] && c == all[0] && later == all[1..] {
      assert [c] + later == all;
    }
  }

  lemma {:induction false} OpensIff(m: Machine, calls: seq<Call>, heartbeat: int)
    ensures Run(m, calls) == Machine(OpenOk, heartbeat) <==> Completes(m, Strip(m, calls), heartbeat)
    decreases |calls|
  {
    if calls == [] {
    } else {
      var m' := Step(m, calls[0]);
      OpensIff(m', calls[1..], heartbeat);
      if IsCheck(calls[0]) && Accepts(m.state, calls[0]) {
        assert Strip(m, calls) == Strip(m', calls[1..]);
      } else {
        OneCall(m, calls[0], Strip(m', calls[1..]), heartbeat);
        if IsOver(m.state) {
          OverStaysOver(m, calls);
        }
        if IsOver(m'.state) {
          OverStaysOver(m', calls[1..]);
        }
      }
    }
  }

  /** The exact language: a fresh machine is open, with this heartbeat, iff the calls made on
      it, passing checks aside, are exactly the plain or the TLS handshake with this
      heartbeat, and the heartbeat is from 1 to 60. */
  lemma OpenIffHandshake(calls: seq<Call>, heartbeat: int)
    ensures Run(FRESH, calls) == Machine(OpenOk, heartbeat) <==>
              && 0 < heartbeat <= 60
              && (Strip(FRESH, calls) == Handshake(false, heartbeat)
                  || Strip(FRESH, calls) == Handshake(true, heartbeat))
  {
    OpensIff(FRESH, calls, heartbeat);
  }

  // ---------------------------------------------------------------- order

  /** How far along a state is. */
  function Position(s: State): nat {
    match s
    case Init => 0
    case TlsHandshaking => 1
    case TcpConnected => 2
    case TlsVerified => 2
    case Start => 3
    case StartOk => 4
    case Tune => 5
    case TuneOk => 6
    case Open => 7
    case OpenOk => 8
    case Closing => 9
    case Closed => 10
    case Error => 10
  }

  /** The position never goes back, the two terminal states are never left, and the heartbeat
      is always one the broker may be told. */
  lemma {:induction false} NeverBack(m: Machine, calls: seq<Call>)
    requires 0 < m.heartbeat <= 60
    ensures var m' := Run(m, calls);
      && Position(m.state) <= Position(m'.state)
      && (m.state.Closed? || m.state.Error? ==> m'.state.Closed? || m'.state.Error?)
      && 0 < m'.heartbeat <= 60
    decreases |calls|
  {
    if calls != [] {
      NeverBack(Step(m, calls[0]), calls[1..]);
    }
  }

  /** A rejection from outside ends the handshake for good, wherever it comes. */
  lemma RejectedNeverOpens(m: Machine, before: seq<Call>, after: seq<Call>)
    ensures IsOver(Run(m, before + [Reject] + after).state)
  {
    RunAppend(m, before + [Reject], after);
    RunAppend(m, before, [Reject]);
    var rejected := Run(m, before + [Reject]);
    assert Run(Run(m, before), [Reject]) == Step(Run(m, before), Reject);
    OverStaysOver(rejected, after);
  }

  lemma {:induction false} RunAppend(m: Machine, a: seq<Call>, b: seq<Call>)
    ensures Run(m, a + b) == Run(Run(m, a), b)
    decreases |a|
  {
    if a == [] {
      assert a + b == b;
    } else {
      assert (a + b)[1..] == a[1..] + b;
      RunAppend(Step(m, a[0]), a[1..], b);
    }
  }

  /** Either terminal state can become the other: close-ok is taken even after an error, and
      a rejected call turns a closed machine into a failed one. */
  lemma TerminalStates(m: Machine, c: Call)
    requires m.state.Closed? || m.state.Error?
    ensures Step(m, c).state == if c.OnCloseOk? then Closed else Error
  {}

  /** Closing from anywhere: `begin_close` leads to closing unless the machine is over, and from
      there only close-ok leads on; it closes from every state. */
  lemma ClosingStates(m: Machine, c: Call)
    ensures var next := Step(m, c).state;
      && (next.Closed? <==> c.OnCloseOk?)
      && (next.Closing? <==>
            (c.BeginClose? && !m.state.Closed? && !m.state.Error?) || (m.state.Closing? && c == AssertCanSend(51)))
      && Step(m, c).heartbeat == if m.state.Tune? && next.TuneOk? then c.heartbeat else m.heartbeat
  {}

  /** The check of what may be sent goes along with the handshake: start-ok (11), tune-ok (31)
      and open (40) exactly where sending them is the next call, close (50) from start on until
      the machine is over, close-ok (51) while closing, update-secret (70) once open, and
      nothing else; and the protocol header exactly where the broker's start is next. */
  lemma ChecksFollowHandshake(s: State, methodId: nat, heartbeat: int)
    requires 0 < heartbeat <= 60
    ensures Accepts(s, AssertCanSend(methodId)) <==>
              || (methodId == 11 && Accepts(s, OnStartOkSent))
              || (methodId == 31 && Accepts(s, OnTuneOkSent(heartbeat)))
              || (methodId == 40 && Accepts(s, OnOpenSent))
              || (methodId == 50 && 3 <= Position(s) <= 8)
              || (methodId == 51 && s.Closing?)
              || (methodId == 70 && s.OpenOk?)
    ensures Accepts(s, AllowHeader) <==> Accepts(s, OnStart)
  {}

  // ---------------------------------------------------------------- the object

  class ConnectionStateMachine {
    var state: State
    var heartbeat: int

    ghost function Now(): Machine
      reads this
    {
      Machine(state, heartbeat)
    }

    constructor ()
      ensures Now() == FRESH
    {
      state, heartbeat := Init, 60;
    }

    /** Always an exception. */
    method RejectNow()
      modifies this`state
      ensures Now() == Step(old(Now()), Reject)
    {
      state := Error;
    }

    /** Each method says whether it returned; otherwise it raised. */
    method TcpConnectedNow(tls: bool) returns (returned: bool)
      modifies this
      ensures Now() == Step(old(Now()), OnTcpConnected(tls)) && returned == Accepts(old(state), OnTcpConnected(tls))
    {
      if state != Init {
        RejectNow();
        return false;
      }
      state := if tls then TlsHandshaking else TcpConnected;
      return true;
    }

    method TlsVerifiedNow() returns (returned: bool)
      modifies this
      ensures Now() == Step(old(Now()), OnTlsVerified) && returned == Accepts(old(state), OnTlsVerified)
    {
      if state != TlsHandshaking {
        RejectNow();
        return false;
      }
      state := TlsVerified;
      return true;
    }

    method AllowAmqpHeader() returns (returned: bool)
      modifies this
      ensures Now() == Step(old(Now()), AllowHeader) && returned == Accepts(old(state), AllowHeader)
    {
      if state == TlsHandshaking {
        RejectNow();
        return false;
      }
      if state !in {TcpConnected, TlsVerified} {
        RejectNow();
        return false;
      }
      return true;
    }

    method ConnectionStart() returns (returned: bool)
      modifies this
      ensures Now() == Step(old(Now()), OnStart) && returned == Accepts(old(state), OnStart)
    {
      if state !in {TcpConnected, TlsVerified} {
        RejectNow();
        return false;
      }
      state := Start;
      return true;
    }

    method StartOkSent() returns (returned: bool)
      modifies this
      ensures Now() == Step(old(Now()), OnStartOkSent) && returned == Accepts(old(state), OnStartOkSent)
    {
      if state != Start {
        RejectNow();
        return false;
      }
      state := StartOk;
      return true;
    }

    method ConnectionTune() returns (returned: bool)
      modifies this
      ensures Now() == Step(old(Now()), OnTune) && returned == Accepts(old(state), OnTune)
    {
      if state != StartOk {
        RejectNow();
        return false;
      }
      state := Tune;
      return true;
    }

    method TuneOkSent(heartbeat: int) returns (returned: bool)
      modifies this
      ensures Now() == Step(old(Now()), OnTuneOkSent(heartbeat))
      ensures returned == Accepts(old(state), OnTuneOkSent(heartbeat))
    {
      if state != Tune {
        RejectNow();
        return false;
      }
      if heartbeat <= 0 || heartbeat > 60 {
        RejectNow();
        return false;
      }
      this.heartbeat := heartbeat;
      state := TuneOk;
      return true;
    }

    method OpenSent() returns (returned: bool)
      modifies this
      ensures Now() == Step(old(Now()), OnOpenSent) && returned == Accepts(old(state), OnOpenSent)
    {
      if state != TuneOk {
        RejectNow();
        return false;
      }
      state := Open;
      return true;
    }

    method OpenOkReceived() returns (returned: bool)
      modifies this
      ensures Now() == Step(old(Now()), OnOpenOk) && returned == Accepts(old(state), OnOpenOk)
    {
      if state != Open {
        RejectNow();
        return false;
      }
      state := OpenOk;
      return true;
    }

    method StartClosing() returns (returned: bool)
      modifies this
      ensures Now() == Step(old(Now()), BeginClose) && returned == Accepts(old(state), BeginClose)
    {
      if state in {Closed, Error} {
        RejectNow();
        return false;
      }
      state := Closing;
      return true;
    }

    method CloseOkReceived()
      modifies this
      ensures Now() == Step(old(Now()), OnCloseOk)
    {
      state := Closed;
    }

    method AssertCanSendMethod(methodId: nat) returns (returned: bool)
      modifies this
      ensures Now() == Step(old(Now()), AssertCanSend(methodId))
      ensures returned == Accepts(old(state), AssertCanSend(methodId))
    {
      var legal: map<nat, set<State>> := map[
        START_OK := {Start},
        TUNE_OK := {Tune},
        OPEN := {TuneOk},
        CLOSE := {OpenOk, Open, TuneOk, Tune, StartOk, Start},
        CLOSE_OK := {Closing},
        UPDATE_SECRET := {OpenOk}];
      if methodId !in legal {
        RejectNow();
        return false;
      }
      if state !in legal[methodId] {
        RejectNow();
        return false;
      }
      return true;
    }
  }
}
