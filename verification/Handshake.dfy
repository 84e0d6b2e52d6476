/**
 The connect handshake as a product of both sides, without failures and in any interleaving. The client reads
 the session's SequenceHeader, resends its replay list and then sends TerminalInfo; the session sends the header
 and then reads one control message, which must be TerminalInfo. QUIC gives control and data their own streams;
 TCP puts both on one, and before StartDemux a read takes whatever comes next.
 */
module Handshake {
  import opened Bytes
  import opened ReplayLog

  datatype Transport = TwoStreams | OneStream

  datatype Msg = SequenceHeader(last: nat) | TerminalInfo | Data(e: Entry)

  datatype ClientPhase = ReadingHeader | Resending(rest: seq<Entry>) | ClientRunning | ClientFailed

  datatype SessionPhase = SendingHeader | ReadingInfo | Replaying(rest: seq<Entry>) | SessionRunning | SessionClosed

  /** The inputs: what each side retains for the other, and the session's recvSeq. */
  datatype Setup = Setup(transport: Transport, clientBuf: seq<Entry>, sessionReplay: seq<Entry>, recvSeq: nat) {
    function ClientReplay(): seq<Entry> { Since(clientBuf, recvSeq) }
  }

  datatype State = State(
    client: ClientPhase,
    session: SessionPhase,
    upControl: seq<Msg>,    // client to session; on one stream it carries the data too
    upData: seq<Msg>,
    downControl: seq<Msg>,
    downData: seq<Msg>
  )

  const START := State(ReadingHeader, SendingHeader, [], [], [], [])

  datatype Step = SendHeader | ReadHeader | Resend | SendInfo | ReadInfo | Replay | StartReaders

  predicate Enabled(setup: Setup, state: State, st: Step) {
    match st
    case SendHeader => state.session.SendingHeader?
    case ReadHeader => state.client.ReadingHeader? && state.downControl != []
    case Resend => state.client.Resending? && state.client.rest != []
    case SendInfo => state.client == Resending([])
    case ReadInfo => state.session.ReadingInfo? && state.upControl != []
    case Replay => state.session.Replaying? && state.session.rest != []
    case StartReaders => state.session == Replaying([])
  }

  function Next(setup: Setup, state: State, st: Step): State
    requires Enabled(setup, state, st)
  {
    match st
    case SendHeader =>
      state.(session := ReadingInfo, downControl := state.downControl + [SequenceHeader(setup.recvSeq)])
    case ReadHeader =>
      var m := state.downControl[0];
      state.(downControl := state.downControl[1..],
         client := if m.SequenceHeader? then Resending(Since(setup.clientBuf, m.last)) else ClientFailed)
    case Resend =>
      var d := Data(state.client.rest[0]);
      var state' := state.(client := Resending(state.client.rest[1..]));
      if setup.transport.TwoStreams? then state'.(upData := state.upData + [d])
      else state'.(upControl := state.upControl + [d])
    case SendInfo => state.(client := ClientRunning, upControl := state.upControl + [TerminalInfo])
    case ReadInfo =>
      state.(upControl := state.upControl[1..],
         session := if state.upControl[0].TerminalInfo? then Replaying(setup.sessionReplay) else SessionClosed)
    case Replay =>
      var d := Data(state.session.rest[0]);
      var state' := state.(session := Replaying(state.session.rest[1..]));
      if setup.transport.TwoStreams? then state'.(downData := state.downData + [d])
      else state'.(downControl := state.downControl + [d])
    case StartReaders => state.(session := SessionRunning)
  }

  function Exec(setup: Setup, state: State, steps: seq<Step>): Option<State>
    decreases |steps|
  {
    if steps == [] then Some(state)
    else if Enabled(setup, state, steps[0]) then Exec(setup, Next(setup, state, steps[0]), steps[1..])
    else None
  }

  ghost predicate Stuck(setup: Setup, state: State) { forall st :: !Enabled(setup, state, st) }

  /** Steps that remain at most: every step uses one up. */
  function Remaining(setup: Setup, state: State): nat {
    var c := match state.client
      case ReadingHeader => |setup.ClientReplay()| + 2
      case Resending(rest) => |rest| + 1
      case _ => 0;
    var s := match state.session
      case SendingHeader => |setup.sessionReplay| + 3
      case ReadingInfo => |setup.sessionReplay| + 2
      case Replaying(rest) => |rest| + 1
      case _ => 0;
    c + s
  }

  // ---- Invariant ---------------------------------------------------------------------------

  ghost predicate HeaderOk(setup: Setup, state: State) {
    && (state.session.SendingHeader? ==> state.downControl == [] && state.client.ReadingHeader?)
    && (state.client.ReadingHeader? && !state.session.SendingHeader? ==>
          state.downControl != [] && state.downControl[0] == SequenceHeader(setup.recvSeq))
    && !state.client.ClientFailed?
  }

  /** How far the client is, and whether the session has already read the first message of its stream. */
  ghost predicate UpOk(setup: Setup, state: State) {
    var replay := setup.ClientReplay();
    var unread := state.session.SendingHeader? || state.session.ReadingInfo?;
    match state.client
    case ReadingHeader => unread && state.upControl == []
    case Resending(rest) =>
      && |rest| <= |replay|
      && if setup.transport.TwoStreams? || replay == [] then unread && state.upControl == []
         else unread ==>
                if |rest| == |replay| then state.upControl == []
                else state.upControl != [] && state.upControl[0].Data?
    case ClientRunning =>
      unread ==>
        && state.upControl != []
        && (state.upControl[0].TerminalInfo? <==> setup.transport.TwoStreams? || replay == [])
    case ClientFailed => false
  }

  ghost predicate OutcomeOk(setup: Setup, state: State) {
    var good := setup.transport.TwoStreams? || setup.ClientReplay() == [];
    && (state.session.Replaying? || state.session.SessionRunning? ==> good && state.client.ClientRunning?)
    && (state.session.SessionClosed? ==> !good)
  }

  ghost predicate Inv(setup: Setup, state: State) {
    HeaderOk(setup, state) && UpOk(setup, state) && OutcomeOk(setup, state)
  }

  lemma {:induction false} StepKeeps(setup: Setup, state: State, st: Step)
    requires Inv(setup, state) && Enabled(setup, state, st)
    ensures Inv(setup, Next(setup, state, st))
    ensures Remaining(setup, Next(setup, state, st)) < Remaining(setup, state)
  {
  }

  lemma {:induction false} RunKeeps(setup: Setup, state: State, steps: seq<Step>)
    requires Inv(setup, state) && Exec(setup, state, steps).Some?
    ensures Inv(setup, Exec(setup, state, steps).value)
    ensures |steps| + Remaining(setup, Exec(setup, state, steps).value) <= Remaining(setup, state)
    decreases |steps|
  {
    if steps != [] {
      StepKeeps(setup, state, steps[0]);
      RunKeeps(setup, Next(setup, state, steps[0]), steps[1..]);
    }
  }

  /** Every failure-free handshake is finite, and where it can go no further the client is in its ioLoop and the
      session either runs its readers or has closed the connection: it runs exactly when the transport has two
      streams or the client has nothing to resend. */
  lemma {:induction false} HandshakeOutcome(setup: Setup, steps: seq<Step>, state: State)
    requires Exec(setup, START, steps) == Some(state)
    ensures |steps| <= Remaining(setup, START)
    ensures !state.client.ClientFailed?
    ensures state.session.Replaying? || state.session.SessionRunning? ==>
              setup.transport.TwoStreams? || setup.ClientReplay() == []
    ensures Stuck(setup, state) ==>
              state.client.ClientRunning? && (state.session.SessionRunning? || state.session.SessionClosed?)
    ensures Stuck(setup, state) ==>
              (state.session.SessionRunning? <==> setup.transport.TwoStreams? || setup.ClientReplay() == [])
  {
    RunKeeps(setup, START, steps);
    if Stuck(setup, state) {
      assert !Enabled(setup, state, SendHeader) && !Enabled(setup, state, ReadHeader) && !Enabled(setup, state, Resend);
      assert !Enabled(setup, state, SendInfo) && !Enabled(setup, state, ReadInfo);
      assert !Enabled(setup, state, Replay) && !Enabled(setup, state, StartReaders);
    }
  }

  // ---- What the streams carry --------------------------------------------------------------

  function AsData(es: seq<Entry>): seq<Msg> { seq(|es|, i requires 0 <= i < |es| => Data(es[i])) }

  /** The last of `all`, and what came before it. */
  ghost predicate Splits(all: seq<Entry>, rest: seq<Entry>, done: seq<Msg>) {
    |rest| <= |all| && rest == all[|all| - |rest|..] && done == AsData(all[..|all| - |rest|])
  }

  /** Over two streams: the Data each side has written so far, on the data streams and in order; only the header and
      TerminalInfo are on the control streams. */
  ghost predicate Carries(setup: Setup, state: State) {
    && setup.transport.TwoStreams?
    && (match state.client
        case ReadingHeader => state.upData == []
        case Resending(rest) => Splits(setup.ClientReplay(), rest, state.upData)
        case ClientRunning => state.upData == AsData(setup.ClientReplay())
        case ClientFailed => false)
    && (match state.session
        case SendingHeader => state.downData == []
        case ReadingInfo => state.downData == []
        case Replaying(rest) => Splits(setup.sessionReplay, rest, state.downData)
        case SessionRunning => state.downData == AsData(setup.sessionReplay)
        case SessionClosed => state.downData == [])
    && state.upControl ==
       (if state.client.ClientRunning? && (state.session.SendingHeader? || state.session.ReadingInfo?)
        then [TerminalInfo] else [])
    && state.downControl ==
       (if state.client.ReadingHeader? && !state.session.SendingHeader? then [SequenceHeader(setup.recvSeq)] else [])
  }

  lemma {:induction false} SplitsOn(all: seq<Entry>, rest: seq<Entry>, done: seq<Msg>)
    requires Splits(all, rest, done) && rest != []
    ensures Splits(all, rest[1..], done + [Data(rest[0])])
  {
    MoveOne(all, |all| - |rest|);
  }

  lemma {:induction false} SplitsEnds(all: seq<Entry>, done: seq<Msg>)
    ensures Splits(all, all, [])
    ensures Splits(all, [], done) ==> done == AsData(all)
  {
    assert all[..|all|] == all;
  }

  lemma {:induction false} StepCarries(setup: Setup, state: State, st: Step)
    requires Inv(setup, state) && Carries(setup, state) && Enabled(setup, state, st)
    ensures Carries(setup, Next(setup, state, st))
  {
    match st
    case ReadHeader => SplitsEnds(setup.ClientReplay(), []);
    case Resend => SplitsOn(setup.ClientReplay(), state.client.rest, state.upData);
    case SendInfo => SplitsEnds(setup.ClientReplay(), state.upData);
    case ReadInfo => SplitsEnds(setup.sessionReplay, []);
    case Replay => SplitsOn(setup.sessionReplay, state.session.rest, state.downData);
    case StartReaders => SplitsEnds(setup.sessionReplay, state.downData);
    case SendHeader =>
  }

  lemma {:induction false} RunCarries(setup: Setup, state: State, steps: seq<Step>)
    requires Inv(setup, state) && Carries(setup, state) && Exec(setup, state, steps).Some?
    ensures Carries(setup, Exec(setup, state, steps).value)
    decreases |steps|
  {
    if steps != [] {
      StepKeeps(setup, state, steps[0]);
      StepCarries(setup, state, steps[0]);
      RunCarries(setup, Next(setup, state, steps[0]), steps[1..]);
    }
  }

  /** Over two streams a handshake that has come to its end has put exactly each side's replay list on its data stream,
      in order, and left nothing unread on the control streams. */
  lemma {:induction false} HandshakeCarries(setup: Setup, steps: seq<Step>, state: State)
    requires setup.transport.TwoStreams? && Exec(setup, START, steps) == Some(state) && Stuck(setup, state)
    ensures state.upData == AsData(setup.ClientReplay()) && state.downData == AsData(setup.sessionReplay)
    ensures state.upControl == [] && state.downControl == []
  {
    RunCarries(setup, START, steps);
    HandshakeOutcome(setup, steps, state);
  }
}
