/** The other direction: a handler run to its end on what the network and the terminal hand it is a finite run of the
    protocol's steps. */
module HandlersAreSteps {
  import opened Bytes
  import opened ReplayLog
  import opened Packets
  import opened Streams
  import S = SessionModel
  import C = ClientModel
  import opened Reconnect
  import SessionRuns
  import ClientRuns

  lemma {:induction false} ExecCons(sys: System, st: Step, more: seq<Step>)
    requires Enabled(sys, st)
    ensures Exec(sys, [st] + more) == Exec(Next(sys, st), more)
  {
    assert ([st] + more)[1..] == more;
  }

  lemma {:induction false} ExecOne(sys: System, st: Step)
    requires Enabled(sys, st)
    ensures Exec(sys, [st]) == Some(Next(sys, st))
  {
    ExecCons(sys, st, []);
    assert [st] + [] == [st];
  }

  lemma {:induction false} ExecAppend(sys: System, one: seq<Step>, two: seq<Step>)
    requires Exec(sys, one).Some?
    ensures Exec(sys, one + two) == Exec(Exec(sys, one).value, two)
    decreases |one|
  {
    if one == [] {
      assert one + two == two;
    } else {
      assert (one + two)[0] == one[0] && (one + two)[1..] == one[1..] + two;
      ExecAppend(Next(sys, one[0]), one[1..], two);
    }
  }

  // ---- The session -------------------------------------------------------------------------

  /** What the select loop can receive in this state. */
  ghost predicate SessionFed(sys: System, i: S.Input) {
    match i
    case PtyData(data, _, _) => sys.s.spawned && 0 < |data| <= S.PTY_READ_BUF_SIZE
    case Stream(ev, _) => sys.queue != [] && sys.queue[0] == ev
    case _ => true
  }

  function StepsOf(i: S.Input): seq<Step> {
    match i
    case PtyData(data, _, ok) => [Loop(PtyChunk(data, ok))]
    case FlushDue(ok) => [Loop(FlushNow(ok))]
    case Stream(_, ok) => [Loop(Handle(ok))]
    case NewConn(_, _, _, _, _, _) => []
    case HeartbeatLost => [Loop(CloseNow)]
    case AcceptFailed(cancelled) => if cancelled then [Loop(Exit)] else []
    case Stopping(ok) => [Loop(FlushNow(ok)), Loop(Exit)]
  }

  /** The steps take the session where the turn does, with the same Data on the same connections and the same PTY
      writes. */
  ghost predicate SessionTurn(sys: System, steps: seq<Step>, t: S.Turn) {
    var end := Exec(sys, steps);
    && end.Some?
    && end.value.s == t.state
    && Carried(sys.down, end.value.down, t.sent)
    && end.value.h.ptyOut == sys.h.ptyOut + t.written
  }

  /** A graceful stop is a flush and then the exit. */
  lemma {:induction false} StoppingIsSteps(sys: System, ok: bool)
    requires sys.s.phase.Looping? && (sys.s.conn.Some? ==> sys.s.conn.value in sys.down)
    ensures SessionTurn(sys, [Loop(FlushNow(ok)), Loop(Exit)], S.React(sys.s, S.Stopping(ok)))
  {
    var sys1 := Next(sys, Loop(FlushNow(ok)));
    SessionRuns.TurnIsStep(sys, FlushNow(ok));
    ExecCons(sys, Loop(FlushNow(ok)), [Loop(Exit)]);
    ExecOne(sys1, Loop(Exit));
    assert [Loop(FlushNow(ok))] + [Loop(Exit)] == [Loop(FlushNow(ok)), Loop(Exit)];
  }

  lemma {:induction false} OneTurn(sys: System, st: LoopStep, t: S.Turn)
    requires LoopEnabled(sys, st) && (sys.s.conn.Some? ==> sys.s.conn.value in sys.down)
    requires t == S.React(sys.s, SessionRuns.InputOf(sys, st))
    ensures SessionTurn(sys, [Loop(st)], t)
  {
    ExecOne(sys, Loop(st));
    SessionRuns.TurnIsStep(sys, st);
  }

  /** Every turn of the select loop other than a new connection, which SessionRuns.NewConnIsSteps treats. */
  lemma {:induction false} TurnIsSteps(sys: System, i: S.Input)
    requires sys.s.phase.Looping? && (sys.s.conn.Some? ==> sys.s.conn.value in sys.down)
    requires SessionFed(sys, i) && !i.NewConn?
    ensures SessionTurn(sys, StepsOf(i), S.React(sys.s, i))
  {
    var t := S.React(sys.s, i);
    match i
    case PtyData(data, _, ok) => OneTurn(sys, PtyChunk(data, ok), t);
    case FlushDue(ok) => OneTurn(sys, FlushNow(ok), t);
    case Stream(_, ok) => OneTurn(sys, Handle(ok), t);
    case HeartbeatLost => OneTurn(sys, CloseNow, t);
    case AcceptFailed(cancelled) =>
      if cancelled { OneTurn(sys, Exit, t); } else { CarriedNothing(sys.down, sys.down); }
    case Stopping(ok) => StoppingIsSteps(sys, ok);
  }

  // ---- The client's ioLoop -----------------------------------------------------------------

  /** The next messages on the client's connection. */
  ghost predicate NextData(sys: System, es: seq<Entry>) {
    && sys.c.conn.Some? && sys.c.conn.value in sys.down
    && var link := sys.down[sys.c.conn.value];
       && |link.outcomes| + |es| <= |link.sent|
       && es == link.sent[|link.outcomes|..|link.outcomes| + |es|]
  }

  /** What ioLoop can receive in this state. */
  ghost predicate IoFed(sys: System, i: C.Input) {
    match i
    case StdinChunk(data, _, _, _) => 0 < |data| <= C.STDIN_BUF_SIZE
    case DataMessage(e, _) => NextData(sys, [e])
    case ShutdownMessage(arrivals, accepts) => NextData(sys, C.Drained(arrivals, accepts, 0))
    case _ => true
  }

  function LostSteps(lost: bool): seq<Step> { if lost then [Io(ClientDrop)] else [] }

  function ReceiveSteps(n: nat): seq<Step> { if n == 0 then [] else [Io(Receive(true))] + ReceiveSteps(n - 1) }

  function IoStepsOf(i: C.Input): seq<Step> {
    match i
    case StdinChunk(data, _, overdue, ok) => if overdue then LostSteps(true) else [Io(Stdin(data, ok))]
    case StdinClosed(ok) => [Io(ClientFlush(ok)), Io(ClientQuit)]
    case DeadlineDue(overdue, ok) => if overdue then LostSteps(true) else [Io(ClientFlush(ok))]
    case ControlMessage => []
    case ShutdownMessage(arrivals, accepts) => ReceiveSteps(|C.Drained(arrivals, accepts, 0)|) + [Io(ClientQuit)]
    case ControlFailed => LostSteps(true)
    case DataMessage(_, ok) => [Io(Receive(ok))]
    case DataFailed(shutdownSeen) => [Io(if shutdownSeen then ClientQuit else ClientDrop)]
    case HeartbeatDue(overdue, ok) => LostSteps(overdue || !ok)
    case Cancelled => [Io(ClientQuit)]
  }

  /** The steps take the client where the turn does, and out of the loop exactly when the turn ends it, with the same
      Data sent and the same output. */
  ghost predicate ClientTurn(sys: System, steps: seq<Step>, t: C.Turn) {
    var end := Exec(sys, steps);
    && end.Some?
    && end.value.c == C.AfterLoop(t, false)
    && Carried(sys.up, end.value.up, Tag(sys.c.conn, t.sent))
    && end.value.h.stdout == sys.h.stdout + t.written
  }

  ghost predicate InLoop(sys: System) {
    sys.c.phase.Running? && sys.c.conn.Some? && sys.c.conn.value in sys.up && sys.c.conn.value in sys.down
  }

  /** The state after writing out es. */
  function Read(c: C.Client, es: seq<Entry>): C.Client {
    if es == [] then c else c.(recvSeq := es[|es| - 1].seqNo)
  }

  /** From sys to end the client wrote out es and did nothing else. */
  ghost predicate HasRead(sys: System, end: System, es: seq<Entry>) {
    InLoop(end) && end.up == sys.up && end.c == Read(sys.c, es) && end.h.stdout == sys.h.stdout + es
  }

  lemma {:induction false} OneReceive(sys: System, es: seq<Entry>)
    requires InLoop(sys) && es != [] && NextData(sys, es)
    ensures IoEnabled(sys, Receive(true))
    ensures HasRead(sys, IoNext(sys, Receive(true)), [es[0]]) && NextData(IoNext(sys, Receive(true)), es[1..])
  {
    var sys', id := IoNext(sys, Receive(true)), sys.c.conn.value;
    var link, link' := sys.down[id], sys'.down[id];
    assert link.sent[|link.outcomes|] == es[0];
    assert es[1..] == link'.sent[|link'.outcomes|..|link'.outcomes| + |es| - 1];
  }

  /** One receipt and then the rest. */
  lemma {:induction false} ReadOn(sys: System, mid: System, es: seq<Entry>)
    requires es != [] && Enabled(sys, Io(Receive(true))) && mid == Next(sys, Io(Receive(true)))
    requires HasRead(sys, mid, [es[0]])
    requires Exec(mid, ReceiveSteps(|es| - 1)).Some? && HasRead(mid, Exec(mid, ReceiveSteps(|es| - 1)).value, es[1..])
    ensures Exec(sys, ReceiveSteps(|es|)).Some? && HasRead(sys, Exec(sys, ReceiveSteps(|es|)).value, es)
  {
    ExecCons(sys, Io(Receive(true)), ReceiveSteps(|es| - 1));
    Assoc(sys.h.stdout, [es[0]], es[1..]);
    assert [es[0]] + es[1..] == es;
  }

  lemma {:induction false} ReadingIsSteps(sys: System, es: seq<Entry>)
    requires InLoop(sys) && NextData(sys, es)
    ensures Exec(sys, ReceiveSteps(|es|)).Some? && HasRead(sys, Exec(sys, ReceiveSteps(|es|)).value, es)
    decreases |es|
  {
    if es == [] {
      assert sys.h.stdout + [] == sys.h.stdout;
    } else {
      OneReceive(sys, es);
      var mid := Next(sys, Io(Receive(true)));
      ReadingIsSteps(mid, es[1..]);
      ReadOn(sys, mid, es);
    }
  }

  /** The drain after a Shutdown is that many receipts and then Run's return. */
  lemma {:induction false} DrainIsSteps(sys: System, arrivals: seq<Option<Entry>>, accepts: nat)
    requires InLoop(sys) && NextData(sys, C.Drained(arrivals, accepts, 0))
    ensures
      var i := C.ShutdownMessage(arrivals, accepts);
      ClientTurn(sys, IoStepsOf(i), C.React(sys.c, i))
  {
    var es := C.Drained(arrivals, accepts, 0);
    ReadingIsSteps(sys, es);
    var mid := Exec(sys, ReceiveSteps(|es|)).value;
    ExecAppend(sys, ReceiveSteps(|es|), [Io(ClientQuit)]);
    ExecOne(mid, Io(ClientQuit));
    CarriedNothing(sys.up, sys.up);
  }

  /** End of stdin: a last flush, whatever its outcome, and Run's return. */
  lemma {:induction false} EofIsSteps(sys: System, ok: bool)
    requires InLoop(sys)
    ensures ClientTurn(sys, [Io(ClientFlush(ok)), Io(ClientQuit)], C.React(sys.c, C.StdinClosed(ok)))
  {
    var sys1 := Next(sys, Io(ClientFlush(ok)));
    ClientRuns.IoTurnIsStep(sys, ClientFlush(ok));
    ExecCons(sys, Io(ClientFlush(ok)), [Io(ClientQuit)]);
    ExecOne(sys1, Io(ClientQuit));
    assert [Io(ClientFlush(ok))] + [Io(ClientQuit)] == [Io(ClientFlush(ok)), Io(ClientQuit)];
  }

  lemma {:induction false} OneStepTurn(sys: System, st: IoStep, t: C.Turn)
    requires InLoop(sys) && IoEnabled(sys, st) && t == C.React(sys.c, ClientRuns.IoInputOf(sys, st))
    ensures ClientTurn(sys, [Io(st)], t)
  {
    ExecOne(sys, Io(st));
    ClientRuns.IoTurnIsStep(sys, st);
  }

  lemma {:induction false} NoStepTurn(sys: System)
    ensures ClientTurn(sys, [], C.Turn(sys.c, [], [], None))
  {
    CarriedNothing(sys.up, sys.up);
    assert sys.h.stdout + [] == sys.h.stdout;
  }

  lemma {:induction false} LostTurn(sys: System, t: C.Turn)
    requires InLoop(sys) && t == C.Turn(sys.c, [], [], Some(C.ExitNetwork))
    ensures ClientTurn(sys, LostSteps(true), t)
  {
    OneStepTurn(sys, ClientDrop, t);
  }

  lemma {:induction false} QuitTurn(sys: System, reason: C.ExitReason)
    requires InLoop(sys) && !reason.ExitNetwork?
    ensures ClientTurn(sys, [Io(ClientQuit)], C.Turn(sys.c, [], [], Some(reason)))
  {
    OneStepTurn(sys, ClientQuit, C.Turn(sys.c, [], [], Some(C.ExitCancelled)));
  }

  /** Every turn of ioLoop, whatever it receives. */
  lemma {:induction false} IoTurnIsSteps(sys: System, i: C.Input)
    requires InLoop(sys) && IoFed(sys, i)
    ensures ClientTurn(sys, IoStepsOf(i), C.React(sys.c, i))
  {
    var t := C.React(sys.c, i);
    match i
    case StdinChunk(data, _, overdue, ok) =>
      if overdue { LostTurn(sys, t); } else { OneStepTurn(sys, Stdin(data, ok), t); }
    case StdinClosed(ok) => EofIsSteps(sys, ok);
    case DeadlineDue(overdue, ok) =>
      if overdue { LostTurn(sys, t); } else { OneStepTurn(sys, ClientFlush(ok), t); }
    case ControlMessage => NoStepTurn(sys);
    case ShutdownMessage(arrivals, accepts) => DrainIsSteps(sys, arrivals, accepts);
    case ControlFailed => LostTurn(sys, t);
    case DataMessage(_, ok) => OneStepTurn(sys, Receive(ok), t);
    case DataFailed(seen) => if seen { QuitTurn(sys, C.ExitShutdown); } else { LostTurn(sys, t); }
    case HeartbeatDue(overdue, ok) => if overdue || !ok { LostTurn(sys, t); } else { NoStepTurn(sys); }
    case Cancelled => QuitTurn(sys, C.ExitCancelled);
  }

  // ---- A whole ioLoop ----------------------------------------------------------------------

  /** Steps of anyone but the client. */
  predicate NotClient(st: Step) { st.Loop? || st.Accepting? || st.Reader? || (st.Connect? && st.d.Stranger?) }

  /** One turn of ioLoop after any steps of the others. */
  datatype Move = Move(others: seq<Step>, i: C.Input)

  function InputsOf(moves: seq<Move>): (inputs: seq<C.Input>)
    ensures |inputs| == |moves|
  {
    seq(|moves|, k requires 0 <= k < |moves| => moves[k].i)
  }

  predicate AllOthers(steps: seq<Step>) { forall i :: 0 <= i < |steps| ==> NotClient(steps[i]) }

  /** Connections never disappear. */
  ghost predicate ConnsKept(sys: System, sys': System) {
    && sys.up.Keys <= sys'.up.Keys
    && sys.down.Keys <= sys'.down.Keys
    && (sys.up.Keys <= sys.accepted ==> sys'.up.Keys <= sys'.accepted)
  }

  lemma {:induction false} StepKeepsConns(sys: System, st: Step)
    requires Enabled(sys, st)
    ensures ConnsKept(sys, Next(sys, st))
  {
  }

  lemma {:induction false} RunKeepsConns(sys: System, steps: seq<Step>)
    requires Exec(sys, steps).Some?
    ensures ConnsKept(sys, Exec(sys, steps).value)
    decreases |steps|
  {
    if steps != [] {
      StepKeepsConns(sys, steps[0]);
      RunKeepsConns(Next(sys, steps[0]), steps[1..]);
    }
  }

  lemma {:induction false} UntouchedThen(one: System, two: System, three: System)
    requires ClientRuns.ClientUntouched(one, two) && ClientRuns.ClientUntouched(two, three)
    ensures ClientRuns.ClientUntouched(one, three)
  {
    forall id: ConnId ensures Stream(three.up, id) == Stream(one.up, id) {
      assert Stream(two.up, id) == Stream(one.up, id);
    }
  }

  lemma {:induction false} OthersRun(sys: System, others: seq<Step>)
    requires sys.up.Keys <= sys.accepted && Exec(sys, others).Some? && AllOthers(others)
    ensures ClientRuns.ClientUntouched(sys, Exec(sys, others).value)
    decreases |others|
  {
    if others != [] {
      var sys' := Next(sys, others[0]);
      ClientRuns.OthersLeaveClient(sys, others[0]);
      StepKeepsConns(sys, others[0]);
      OthersRun(sys', others[1..]);
      UntouchedThen(sys, sys', Exec(sys, others).value);
    }
  }

  lemma {:induction false} OthersTurn(sys: System, others: seq<Step>)
    requires InLoop(sys) && sys.up.Keys <= sys.accepted && Exec(sys, others).Some? && AllOthers(others)
    ensures ClientTurn(sys, others, C.Turn(sys.c, [], [], None)) && InLoop(Exec(sys, others).value)
  {
    OthersRun(sys, others);
    RunKeepsConns(sys, others);
    CarriedNothing(sys.up, Exec(sys, others).value.up);
    assert sys.h.stdout + [] == sys.h.stdout;
  }

  /** Every message that the loop is given is there when its turn comes. */
  ghost predicate AllFed(sys: System, moves: seq<Move>, k: nat)
    requires k <= |moves|
    decreases |moves| - k
  {
    k == |moves| ||
    (&& AllOthers(moves[k].others)
     && var mid := Exec(sys, moves[k].others);
        && mid.Some?
        && IoFed(mid.value, moves[k].i)
        && var end := Exec(mid.value, IoStepsOf(moves[k].i));
           C.React(sys.c, moves[k].i).reason.None? && end.Some? ==> AllFed(end.value, moves, k + 1))
  }

  /** The steps of the loop's turns and of everyone else's, up to the turn that ends the loop. */
  function AllSteps(sys: System, moves: seq<Move>, k: nat): seq<Step>
    requires k <= |moves|
    decreases |moves| - k
  {
    if k == |moves| then []
    else
      var turn := moves[k].others + IoStepsOf(moves[k].i);
      var end := Exec(sys, turn);
      turn + if C.React(sys.c, moves[k].i).reason.None? && end.Some? then AllSteps(end.value, moves, k + 1) else []
  }

  lemma {:induction false} TurnThen(sys: System, one: seq<Step>, two: seq<Step>, t: C.Turn, u: C.Turn)
    requires ClientTurn(sys, one, t) && t.reason.None? && t.state.conn == sys.c.conn
    requires ClientTurn(Exec(sys, one).value, two, u)
    ensures ClientTurn(sys, one + two, C.Then(t, u))
  {
    var mid := Exec(sys, one).value;
    ExecAppend(sys, one, two);
    var end := Exec(mid, two).value;
    CarriedThen(sys.up, mid.up, end.up, Tag(sys.c.conn, t.sent), Tag(sys.c.conn, u.sent));
    TagAppend(sys.c.conn, t.sent, u.sent);
    Assoc(sys.h.stdout, t.written, u.written);
  }

  /** One move: the others' steps and the turn. */
  lemma {:induction false} MoveIsSteps(sys: System, m: Move)
    requires InLoop(sys) && sys.up.Keys <= sys.accepted && Exec(sys, m.others).Some? && AllOthers(m.others)
    requires IoFed(Exec(sys, m.others).value, m.i)
    ensures ClientTurn(sys, m.others + IoStepsOf(m.i), C.React(sys.c, m.i))
  {
    OthersTurn(sys, m.others);
    var mid := Exec(sys, m.others).value;
    var idle, t := C.Turn(sys.c, [], [], None), C.React(sys.c, m.i);
    IoTurnIsSteps(mid, m.i);
    TurnThen(sys, m.others, IoStepsOf(m.i), idle, t);
    assert C.Then(idle, t) == t;
  }

  /** Every run of ioLoop, on what the network and the terminal hand it and with anyone else's steps between its turns,
      is a run of the protocol. */
  lemma {:induction false} IoLoopIsSteps(sys: System, moves: seq<Move>, k: nat)
    requires k <= |moves| && InLoop(sys) && sys.up.Keys <= sys.accepted && AllFed(sys, moves, k)
    ensures ClientTurn(sys, AllSteps(sys, moves, k), C.RunFrom(sys.c, InputsOf(moves), k))
    decreases |moves| - k
  {
    if k == |moves| {
      NoStepTurn(sys);
    } else {
      var m := moves[k];
      var turn, t := m.others + IoStepsOf(m.i), C.React(sys.c, m.i);
      MoveIsSteps(sys, m);
      ExecAppend(sys, m.others, IoStepsOf(m.i));
      C.StaysConnected(sys.c, m.i);
      var end := Exec(sys, turn).value;
      if t.reason.None? {
        RunKeepsConns(sys, turn);
        IoLoopIsSteps(end, moves, k + 1);
        TurnThen(sys, turn, AllSteps(end, moves, k + 1), t, C.RunFrom(t.state, InputsOf(moves), k + 1));
      } else {
        assert turn + [] == turn;
      }
    }
  }
}
