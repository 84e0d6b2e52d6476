/**
 Reconnects over TCP, where everything the client sends shares one ordered stream and the session's first read takes
 whatever comes first.
 */
module TcpRetry {
  import opened Bytes
  import opened ReplayLog
  import opened Packets
  import opened Streams
  import L = Lane
  import S = SessionModel
  import C = ClientModel
  import opened Reconnect
  import Safety = ReconnectSafety
  import ClientRuns
  import opened HandlersAreSteps
  import H = HandshakeRuns

  /** What the client writes on a connection; control messages other than TerminalInfo only follow later. */
  datatype Message = InfoMessage | DataMessage(e: Entry)

  /** The protocol over one-stream connections; wire holds what the client wrote on each, in order. */
  datatype Tcp = Tcp(sys: System, wire: map<ConnId, seq<Message>>)

  function Wire(t: Tcp, id: ConnId): seq<Message> { if id in t.wire then t.wire[id] else [] }

  /** The messages a step of the client writes on its connection. */
  function Wrote(sys: System, st: Step): seq<Message>
    requires Enabled(sys, st)
  {
    match st
    case Connect(ClientReplay(ok)) => if ok then [DataMessage(sys.c.phase.rest[0])] else []
    case Connect(SendInfo(ok)) => if ok then [InfoMessage] else []
    case Io(Stdin(chunk, ok)) => AsMessages(C.Stdin(sys.c, chunk, ok).sent)
    case Io(ClientFlush(ok)) => AsMessages(C.Flush(sys.c, ok).sent)
    case _ => []
  }

  function AsMessages(e: Option<Entry>): seq<Message> { if e.Some? then [DataMessage(e.value)] else [] }

  /** The session's current connection is one of the client's. */
  predicate OnOwnConn(sys: System) {
    sys.s.conn.Some? && sys.s.conn.value in sys.down && sys.down[sys.s.conn.value].own
  }

  /** The session's handshake read returns TerminalInfo only if that is the first message of the stream. */
  predicate TcpEnabled(t: Tcp, st: Step) {
    && Enabled(t.sys, st)
    && (st.Accepting? && st.b.Info? && st.b.ok && OnOwnConn(t.sys) ==>
          Wire(t, t.sys.s.conn.value) != [] && Wire(t, t.sys.s.conn.value)[0].InfoMessage?)
  }

  function TcpNext(t: Tcp, st: Step): Tcp
    requires TcpEnabled(t, st)
  {
    Tcp(Next(t.sys, st),
        if t.sys.c.conn.Some? && Wrote(t.sys, st) != []
        then t.wire[t.sys.c.conn.value := Wire(t, t.sys.c.conn.value) + Wrote(t.sys, st)]
        else t.wire)
  }

  function TcpExec(t: Tcp, steps: seq<Step>): Option<Tcp>
    decreases |steps|
  {
    if steps == [] then Some(t)
    else if TcpEnabled(t, steps[0]) then TcpExec(TcpNext(t, steps[0]), steps[1..])
    else None
  }

  function TcpInit(sessionReplay: int, clientReplay: int): Tcp { Tcp(Init(sessionReplay, clientReplay), map[]) }

  /** A run over TCP is a run of the protocol, so every delivery guarantee holds for it. */
  lemma {:induction false} TcpRunIsRun(t: Tcp, steps: seq<Step>)
    requires TcpExec(t, steps).Some?
    ensures Exec(t.sys, steps) == Some(TcpExec(t, steps).value.sys)
    decreases |steps|
  {
    if steps != [] {
      TcpRunIsRun(TcpNext(t, steps[0]), steps[1..]);
    }
  }

  // ---- What is first on the wire -----------------------------------------------------------

  /** A connection's first message is TerminalInfo exactly if the client had nothing to resend on it. */
  ghost predicate FirstOk(t: Tcp, id: ConnId) {
    Wire(t, id) != [] ==>
      id in t.sys.up && t.sys.up[id].begun && (Wire(t, id)[0].InfoMessage? <==> t.sys.up[id].replayed == 0)
  }

  /** How much of the replay list is still to come. */
  ghost predicate WriterOk(t: Tcp) {
    t.sys.c.conn.Some? ==>
      var id := t.sys.c.conn.value;
      match t.sys.c.phase
      case AwaitingHeader => Wire(t, id) == []
      case Replaying(rest) =>
        && id in t.sys.up && t.sys.up[id].begun && |rest| <= t.sys.up[id].replayed
        && (Wire(t, id) == [] ==> |rest| == t.sys.up[id].replayed)
      case Running => Wire(t, id) != []
      case _ => true
  }

  ghost predicate WireOk(t: Tcp) { WriterOk(t) && forall id :: FirstOk(t, id) }

  /** What the wire invariant needs of the rest. */
  ghost predicate Linked(sys: System) {
    && sys.up.Keys <= sys.accepted && sys.accepted <= sys.down.Keys
    && (sys.c.conn.None? <==> sys.c.phase.Idle? || sys.c.phase.Done?)
  }

  lemma {:induction false} LoopKeepsWire(t: Tcp, st: LoopStep)
    requires WireOk(t) && TcpEnabled(t, Loop(st))
    ensures WireOk(TcpNext(t, Loop(st)))
  {
    var t' := TcpNext(t, Loop(st));
    forall id ensures FirstOk(t', id) { assert FirstOk(t, id); }
  }

  lemma {:induction false} AcceptKeepsWire(t: Tcp, st: AcceptStep)
    requires Linked(t.sys) && WireOk(t) && TcpEnabled(t, Accepting(st))
    ensures WireOk(TcpNext(t, Accepting(st)))
  {
    var t' := TcpNext(t, Accepting(st));
    if st.Accept? { assert FirstOk(t, st.id); }
    forall id ensures FirstOk(t', id) { assert FirstOk(t, id); }
  }

  lemma {:induction false} ConnectKeepsWire(t: Tcp, st: ConnectStep)
    requires Linked(t.sys) && WireOk(t) && TcpEnabled(t, Connect(st))
    ensures WireOk(TcpNext(t, Connect(st)))
  {
    var t' := TcpNext(t, Connect(st));
    if st.Dial? { assert FirstOk(t, st.id); }
    forall id ensures FirstOk(t', id) { assert FirstOk(t, id); }
  }

  lemma {:induction false} IoKeepsWire(t: Tcp, st: IoStep)
    requires Linked(t.sys) && WireOk(t) && TcpEnabled(t, Io(st))
    ensures WireOk(TcpNext(t, Io(st)))
  {
    var t' := TcpNext(t, Io(st));
    forall id ensures FirstOk(t', id) { assert FirstOk(t, id); }
  }

  lemma {:induction false} StepKeepsWire(t: Tcp, st: Step)
    requires Linked(t.sys) && WireOk(t) && TcpEnabled(t, st)
    ensures WireOk(TcpNext(t, st))
  {
    match st
    case Loop(a) => LoopKeepsWire(t, a);
    case Accepting(b) => AcceptKeepsWire(t, b);
    case Reader(r) =>
      forall id ensures FirstOk(TcpNext(t, st), id) { assert FirstOk(t, id); }
    case Connect(d) => ConnectKeepsWire(t, d);
    case Io(i) => IoKeepsWire(t, i);
  }

  lemma {:induction false} RunKeepsWire(t: Tcp, steps: seq<Step>)
    requires Safety.Inv(t.sys) && WireOk(t) && TcpExec(t, steps).Some?
    ensures Safety.Inv(TcpExec(t, steps).value.sys) && WireOk(TcpExec(t, steps).value)
    decreases |steps|
  {
    if steps != [] {
      StepKeepsWire(t, steps[0]);
      Safety.StepKeeps(t.sys, steps[0]);
      RunKeepsWire(TcpNext(t, steps[0]), steps[1..]);
    }
  }

  lemma {:induction false} TcpReachable(a: int, b: int, steps: seq<Step>)
    requires TcpExec(TcpInit(a, b), steps).Some?
    ensures
      var t := TcpExec(TcpInit(a, b), steps).value;
      Safety.Inv(t.sys) && WireOk(t)
  {
    Safety.InitInv(a, b);
    RunKeepsWire(TcpInit(a, b), steps);
  }

  /** On one ordered stream the session's TerminalInfo read succeeds on the client's connection only if the client had
      nothing to resend on it: in every run, whatever failed before. */
  lemma {:induction false} OneStreamOrder(a: int, b: int, steps: seq<Step>, t: Tcp, spawnOk: bool)
    requires TcpExec(TcpInit(a, b), steps) == Some(t)
    requires TcpEnabled(t, Accepting(Info(true, spawnOk))) && OnOwnConn(t.sys)
    ensures
      var id := t.sys.s.conn.value;
      id in t.sys.up && t.sys.up[id].begun && t.sys.up[id].replayed == 0
  {
    TcpReachable(a, b, steps);
    assert FirstOk(t, t.sys.s.conn.value);
  }

  // ---- The wire carries the upstream Data --------------------------------------------------

  /** The Data on a wire. */
  function DataIn(ms: seq<Message>): seq<Entry> {
    if ms == [] then []
    else DataIn(ms[..|ms| - 1]) + (if ms[|ms| - 1].DataMessage? then [ms[|ms| - 1].e] else [])
  }

  lemma {:induction false} DataInAppend(ms: seq<Message>, more: seq<Message>)
    ensures DataIn(ms + more) == DataIn(ms) + DataIn(more)
  {
    if more == [] {
      assert ms + more == ms;
    } else {
      assert (ms + more)[..|ms + more| - 1] == ms + more[..|more| - 1];
      DataInAppend(ms, more[..|more| - 1]);
    }
  }

  ghost predicate Carries(t: Tcp) { forall id: ConnId :: DataIn(Wire(t, id)) == Stream(t.sys.up, id) }

  /** The client's connection carries what the step wrote, and no other connection changes. */
  ghost predicate StreamsGrow(sys: System, st: Step)
    requires Enabled(sys, st)
  {
    forall id: ConnId ::
      Stream(Next(sys, st).up, id) ==
      Stream(sys.up, id) + if sys.c.conn == Some(id) then DataIn(Wrote(sys, st)) else []
  }

  lemma {:induction false} DataInOne(m: Message)
    ensures DataIn([m]) == if m.DataMessage? then [m.e] else []
  {
    assert [m][..0] == [];
  }

  lemma {:induction false} ResendGrows(sys: System, e: Entry)
    requires ConnectEnabled(sys, ClientReplay(true)) && e == sys.c.phase.rest[0]
    requires sys.up[sys.c.conn.value].pending != []
    ensures
      var up' := ConnectNext(sys, ClientReplay(true)).up;
      forall id: ConnId :: Stream(up', id) == Stream(sys.up, id) + if sys.c.conn == Some(id) then [e] else []
  {
  }

  lemma {:induction false} ConnectGrows(sys: System, st: ConnectStep)
    requires Safety.ClientControl(sys) && ConnectEnabled(sys, st)
    ensures StreamsGrow(sys, Connect(st))
  {
    if st == ClientReplay(true) {
      ResendGrows(sys, sys.c.phase.rest[0]);
      DataInOne(DataMessage(sys.c.phase.rest[0]));
    } else {
      DataInOne(InfoMessage);
      forall id: ConnId ensures Stream(ConnectNext(sys, st).up, id) == Stream(sys.up, id) + [] { }
    }
  }

  lemma {:induction false} IoGrows(sys: System, st: IoStep)
    requires Safety.ClientControl(sys) && IoEnabled(sys, st)
    ensures StreamsGrow(sys, Io(st))
  {
    var sent := match st
      case Stdin(chunk, ok) => C.Stdin(sys.c, chunk, ok).sent
      case ClientFlush(ok) => C.Flush(sys.c, ok).sent
      case _ => None;
    if sent.Some? { DataInOne(DataMessage(sent.value)); }
  }

  lemma {:induction false} StepGrows(sys: System, st: Step)
    requires Safety.ClientControl(sys) && sys.up.Keys <= sys.accepted && Enabled(sys, st)
    ensures StreamsGrow(sys, st)
  {
    match st
    case Connect(d) => ConnectGrows(sys, d);
    case Io(i) => IoGrows(sys, i);
    case _ => ClientRuns.OthersLeaveClient(sys, st);
  }

  lemma {:induction false} StepCarries(t: Tcp, st: Step)
    requires Safety.ClientControl(t.sys) && t.sys.up.Keys <= t.sys.accepted && TcpEnabled(t, st) && Carries(t)
    ensures Carries(TcpNext(t, st))
  {
    StepGrows(t.sys, st);
    var t', wrote := TcpNext(t, st), Wrote(t.sys, st);
    forall id: ConnId ensures DataIn(Wire(t', id)) == Stream(t'.sys.up, id) {
      assert DataIn(Wire(t, id)) == Stream(t.sys.up, id);
      if t.sys.c.conn == Some(id) { DataInAppend(Wire(t, id), wrote); }
    }
  }

  lemma {:induction false} RunCarries(t: Tcp, steps: seq<Step>)
    requires Safety.Inv(t.sys) && Carries(t) && TcpExec(t, steps).Some?
    ensures Carries(TcpExec(t, steps).value)
    decreases |steps|
  {
    if steps != [] {
      StepCarries(t, steps[0]);
      Safety.StepKeeps(t.sys, steps[0]);
      RunCarries(TcpNext(t, steps[0]), steps[1..]);
    }
  }

  /** In every run the Data among what the client wrote on a connection is that connection's upstream Data. */
  lemma {:induction false} WireIsStream(a: int, b: int, steps: seq<Step>, t: Tcp, id: ConnId)
    requires TcpExec(TcpInit(a, b), steps) == Some(t) && id in t.sys.up
    ensures DataIn(Wire(t, id)) == t.sys.up[id].sent
  {
    Safety.InitInv(a, b);
    RunCarries(TcpInit(a, b), steps);
    assert DataIn(Wire(t, id)) == Stream(t.sys.up, id);
  }

  // ---- Starvation --------------------------------------------------------------------------

  /** The session lacks input and is not past the handshake with the client: at most it waits for TerminalInfo on
      a connection whose client has, or will have, something to resend. */
  ghost predicate Starved(sys: System, r: nat) {
    && sys.s.recvSeq == r < sys.c.sendSeq
    && (OnOwnConn(sys) ==>
          && sys.s.phase.AwaitingInfo?
          && sys.s.conn.value in sys.up
          && sys.up[sys.s.conn.value].base == r
          && (sys.up[sys.s.conn.value].begun ==> sys.up[sys.s.conn.value].replayed > 0))
  }

  /** The session has begun to send on no connection of the client that it had not begun before. */
  ghost predicate NoneBegun(sys: System, sys': System) {
    forall id :: id in sys'.down && sys'.down[id].own && sys'.down[id].begun ==> id in sys.down && sys.down[id].begun
  }

  /** The client has no connection on which the session has begun to send. */
  ghost predicate Unheard(sys: System) {
    sys.c.conn.Some? ==>
      var id := sys.c.conn.value;
      id in sys.down && sys.down[id].own && !sys.down[id].begun
  }

  /** The session stays starved at r, nothing reaches the PTY, and no handshake with the client completes. */
  ghost predicate StaysStarved(sys: System, sys': System, r: nat) {
    && Starved(sys', r)
    && sys'.h.ptyOut == sys.h.ptyOut
    && NoneBegun(sys, sys')
  }

  /** Data on the current connection can only come from the client. */
  lemma {:induction false} DataIsOwn(sys: System)
    requires Safety.Inv(sys) && sys.queue != [] && sys.s.phase.Looping? && sys.s.conn == Some(sys.queue[0].conn)
    requires sys.queue[0].what.GotData?
    ensures sys.queue[0].conn in sys.down && sys.down[sys.queue[0].conn].own
  {
    var id := sys.queue[0].conn;
    assert L.LinkOk(Up(sys).links[id], Up(sys).log, Up(sys).sender == Some(id));
    assert Safety.DataOf(sys.queue, id) != [];
  }

  lemma {:induction false} LoopStarved(sys: System, st: LoopStep, r: nat)
    requires Safety.SessionControl(sys) && Starved(sys, r) && LoopEnabled(sys, st)
    requires st.Handle? && sys.s.conn == Some(sys.queue[0].conn) && sys.queue[0].what.GotData? ==>
               sys.queue[0].conn in sys.down && sys.down[sys.queue[0].conn].own
    ensures StaysStarved(sys, LoopNext(sys, st), r)
  {
  }

  lemma {:induction false} AcceptStarved(t: Tcp, st: AcceptStep, r: nat)
    requires Safety.SessionControl(t.sys) && Starved(t.sys, r) && TcpEnabled(t, Accepting(st))
    requires t.sys.s.conn.Some? ==> FirstOk(t, t.sys.s.conn.value)
    ensures StaysStarved(t.sys, AcceptNext(t.sys, st), r)
  {
  }

  lemma {:induction false} ConnectStarved(sys: System, st: ConnectStep, r: nat)
    requires Safety.SessionControl(sys) && L.Retained(Up(sys)) && Starved(sys, r) && ConnectEnabled(sys, st)
    ensures StaysStarved(sys, ConnectNext(sys, st), r)
  {
    if st.GetHeader? {
      L.ReplayIsRun(sys.h.clientLog, sys.c.buf, sys.up[sys.c.conn.value].base);
    }
  }

  lemma {:induction false} IoStarved(sys: System, st: IoStep, r: nat)
    requires Safety.SessionControl(sys) && Starved(sys, r) && IoEnabled(sys, st)
    ensures StaysStarved(sys, IoNext(sys, st), r)
  {
  }

  lemma {:induction false} ReaderStarved(sys: System, st: ReaderStep, r: nat)
    requires Starved(sys, r) && ReaderEnabled(sys, st)
    ensures StaysStarved(sys, ReaderNext(sys, st), r)
  {
  }

  lemma {:induction false} StepStarved(t: Tcp, st: Step, r: nat)
    requires Safety.Inv(t.sys) && WireOk(t) && Starved(t.sys, r) && TcpEnabled(t, st)
    ensures StaysStarved(t.sys, Next(t.sys, st), r)
  {
    var sys := t.sys;
    match st {
      case Loop(a) =>
        if a.Handle? && sys.s.conn == Some(sys.queue[0].conn) && sys.queue[0].what.GotData? { DataIsOwn(sys); }
        LoopStarved(sys, a, r);
      case Accepting(b) =>
        assert sys.s.conn.Some? ==> FirstOk(t, sys.s.conn.value);
        AcceptStarved(t, b, r);
      case Reader(e) => ReaderStarved(sys, e, r);
      case Connect(d) => ConnectStarved(sys, d, r);
      case Io(i) => IoStarved(sys, i, r);
    }
  }

  /** A connection stays whose it is. */
  ghost predicate OwnKept(sys: System, sys': System) {
    forall id :: id in sys.down ==> id in sys'.down && sys'.down[id].own == sys.down[id].own
  }

  lemma {:induction false} LoopKeepsOwn(sys: System, st: LoopStep)
    requires LoopEnabled(sys, st)
    ensures OwnKept(sys, LoopNext(sys, st))
  {
  }

  lemma {:induction false} AcceptKeepsOwn(sys: System, st: AcceptStep)
    requires AcceptEnabled(sys, st)
    ensures OwnKept(sys, AcceptNext(sys, st))
  {
  }

  lemma {:induction false} StepKeepsOwn(sys: System, st: Step)
    requires Enabled(sys, st)
    ensures OwnKept(sys, Next(sys, st))
  {
    match st
    case Loop(a) => LoopKeepsOwn(sys, a);
    case Accepting(b) => AcceptKeepsOwn(sys, b);
    case Reader(_) =>
    case Connect(_) =>
    case Io(_) =>
  }

  lemma {:induction false} StaysUnheard(sys: System, sys': System)
    requires Unheard(sys) && NoneBegun(sys, sys') && OwnKept(sys, sys')
    requires sys'.c.conn.None? || sys'.c.conn == sys.c.conn
    ensures Unheard(sys')
  {
  }

  lemma {:induction false} IoUnheard(sys: System, st: IoStep)
    requires IoEnabled(sys, st) && !st.Receive?
    ensures
      var sys' := IoNext(sys, st);
      sys'.h.stdout == sys.h.stdout && (sys'.c.conn.None? || sys'.c.conn == sys.c.conn)
  {
  }

  /** A client that the session never begins to send to reads nothing. */
  lemma {:induction false} StepUnheard(sys: System, st: Step)
    requires sys.up.Keys <= sys.accepted && Enabled(sys, st)
    requires Unheard(sys) && NoneBegun(sys, Next(sys, st)) && OwnKept(sys, Next(sys, st))
    requires sys.c.conn.Some? && sys.c.conn.value in sys.down && !sys.down[sys.c.conn.value].begun ==>
               sys.down[sys.c.conn.value].sent == []
    ensures Unheard(Next(sys, st)) && Next(sys, st).h.stdout == sys.h.stdout
  {
    match st
    case Connect(d) => if !d.Dial? { StaysUnheard(sys, Next(sys, st)); }
    case Io(i) =>
      IoUnheard(sys, i);
      StaysUnheard(sys, Next(sys, st));
    case _ =>
      ClientRuns.OthersLeaveClient(sys, st);
      StaysUnheard(sys, Next(sys, st));
  }

  lemma {:induction false} UnbegunIsEmpty(sys: System, id: ConnId)
    requires L.LinksOk(Down(sys)) && id in sys.down && !sys.down[id].begun
    ensures sys.down[id].sent == []
  {
    assert L.LinkOk(Down(sys).links[id], Down(sys).log, Down(sys).sender == Some(id));
  }

  lemma {:induction false} NoneBegunThen(one: System, two: System, three: System)
    requires NoneBegun(one, two) && NoneBegun(two, three) && OwnKept(one, two) && OwnKept(two, three)
    ensures NoneBegun(one, three)
  {
  }

  /** Over one-stream connections the outcome repeats for ever: while the session has no connection and lacks some of
      the client's input, no run ever delivers any input to the PTY again, no handshake with the client completes, and
      a client that has lost its old connection reads no more output either. */
  lemma {:induction false} RetryNeverDelivers(t: Tcp, steps: seq<Step>, r: nat)
    requires Safety.Inv(t.sys) && WireOk(t) && Starved(t.sys, r) && TcpExec(t, steps).Some?
    ensures
      var end := TcpExec(t, steps).value.sys;
      && StaysStarved(t.sys, end, r) && OwnKept(t.sys, end)
      && (Unheard(t.sys) ==> Unheard(end) && end.h.stdout == t.sys.h.stdout)
    decreases |steps|
  {
    if steps != [] {
      var st, t' := steps[0], TcpNext(t, steps[0]);
      StepStarved(t, st, r);
      StepKeepsOwn(t.sys, st);
      StepKeepsWire(t, st);
      Safety.StepKeeps(t.sys, st);
      RetryNeverDelivers(t', steps[1..], r);
      NoneBegunThen(t.sys, t'.sys, TcpExec(t, steps).value.sys);
      if Unheard(t.sys) {
        if t.sys.c.conn.Some? { UnbegunIsEmpty(t.sys, t.sys.c.conn.value); }
        StepUnheard(t.sys, st);
      }
    }
  }

  /** From the initial state: once the session is disconnected without having received everything, it stays that way
      whatever both sides do, and once the client is disconnected too, stdout stands still. */
  lemma {:induction false} TcpReconnectStarves(a: int, b: int, before: seq<Step>, t: Tcp, after: seq<Step>, end: Tcp)
    requires TcpExec(TcpInit(a, b), before) == Some(t) && TcpExec(t, after) == Some(end)
    requires t.sys.s.conn.None? && t.sys.s.recvSeq < t.sys.c.sendSeq
    ensures end.sys.s.recvSeq == t.sys.s.recvSeq
    ensures end.sys.h.ptyOut == t.sys.h.ptyOut
    ensures OnOwnConn(end.sys) ==> end.sys.s.phase.AwaitingInfo?
    ensures t.sys.c.conn.None? ==> end.sys.h.stdout == t.sys.h.stdout
  {
    TcpReachable(a, b, before);
    RetryNeverDelivers(t, after, t.sys.s.recvSeq);
  }

  /** In every reachable state the client has something to resend exactly when the session has not received
      everything, however much the buffer has evicted. */
  lemma {:induction false} ReplayEmptyIffLevel(a: int, b: int, steps: seq<Step>, sys: System)
    requires Exec(Init(a, b), steps) == Some(sys)
    ensures Since(sys.c.buf, sys.s.recvSeq) == [] <==> sys.s.recvSeq == sys.c.sendSeq
  {
    Safety.ReachableInv(a, b, steps);
    LevelReplay(sys);
  }

  lemma {:induction false} LevelReplay(sys: System)
    requires L.Retained(Up(sys)) && L.OutputOk(Up(sys))
    ensures Since(sys.c.buf, sys.s.recvSeq) == [] <==> sys.s.recvSeq == sys.c.sendSeq
  {
    L.ReplayIsRun(sys.h.clientLog, sys.c.buf, sys.s.recvSeq);
  }

  // ---- When a TCP reconnect does go through ------------------------------------------------

  predicate IsInfo(st: Step) { st.Accepting? && st.b.Info? }

  /** Without a handshake read, one stream is as good as two. */
  lemma {:induction false} ObeysWithoutInfo(t: Tcp, steps: seq<Step>)
    requires Exec(t.sys, steps).Some?
    requires forall i :: 0 <= i < |steps| ==> !IsInfo(steps[i])
    ensures TcpExec(t, steps).Some? && TcpExec(t, steps).value.sys == Exec(t.sys, steps).value
    decreases |steps|
  {
    if steps != [] {
      ObeysWithoutInfo(TcpNext(t, steps[0]), steps[1..]);
    }
  }

  lemma {:induction false} TcpAppend(t: Tcp, one: seq<Step>, two: seq<Step>)
    requires TcpExec(t, one).Some?
    ensures TcpExec(t, one + two) == TcpExec(TcpExec(t, one).value, two)
    decreases |one|
  {
    if one == [] {
      assert one + two == two;
    } else {
      assert (one + two)[0] == one[0] && (one + two)[1..] == one[1..] + two;
      TcpAppend(TcpNext(t, one[0]), one[1..], two);
    }
  }

  lemma {:induction false} ReplayHasNoInfo(n: nat, m: nat)
    ensures forall i :: 0 <= i < |H.ReplaySteps(n, m)| ==> !IsInfo(H.ReplaySteps(n, m)[i])
  {
    if n > 0 && m > 0 { ReplayHasNoInfo(n - 1, m - 1); }
  }

  lemma {:induction false} TcpCons(t: Tcp, st: Step, more: seq<Step>)
    requires TcpEnabled(t, st)
    ensures TcpExec(t, [st] + more) == TcpExec(TcpNext(t, st), more)
  {
    assert ([st] + more)[1..] == more;
  }

  /** With nothing to resend, TerminalInfo is the first message on a new connection. */
  lemma {:induction false} InfoComesFirst(t: Tcp, id: ConnId)
    requires WriterOk(t) && AcceptEnabled(t.sys, Accept(id, true))
    requires t.sys.c.phase.AwaitingHeader? && t.sys.c.conn == Some(id) && Since(t.sys.c.buf, t.sys.s.recvSeq) == []
    ensures
      var mid := TcpExec(t, H.FrontSteps(id, 0));
      mid.Some? && Wire(mid.value, id) == [InfoMessage] && mid.value.sys.s.conn == Some(id)
  {
    var accept, header, info := Accepting(Accept(id, true)), Connect(GetHeader), Connect(SendInfo(true));
    assert H.FrontSteps(id, 0) == [accept] + ([header] + ([info] + []));
    var t1 := TcpNext(t, accept);
    TcpCons(t, accept, [header] + ([info] + []));
    var t2 := TcpNext(t1, header);
    TcpCons(t1, header, [info] + []);
    TcpCons(t2, info, []);
    assert Wire(TcpNext(t2, info), id) == [] + [InfoMessage];
  }

  lemma {:induction false} FrontHasNoInfo(id: ConnId)
    ensures forall i :: 0 <= i < |H.FrontSteps(id, 0)| ==> !IsInfo(H.FrontSteps(id, 0)[i])
  {
    assert H.FrontSteps(id, 0) == [Accepting(Accept(id, true)), Connect(GetHeader), Connect(SendInfo(true))];
  }

  lemma {:induction false} BackObeys(t: Tcp, id: ConnId, m: nat)
    requires Exec(t.sys, H.BackSteps(m)).Some? && Wire(t, id) == [InfoMessage]
    requires t.sys.s.conn == Some(id)
    ensures TcpExec(t, H.BackSteps(m)).Some?
    ensures TcpExec(t, H.BackSteps(m)).value.sys == Exec(t.sys, H.BackSteps(m)).value
  {
    var steps := H.BackSteps(m);
    assert steps[0] == Accepting(Info(true, true)) && steps[1..] == H.ReplaySteps(m, m);
    ReplayHasNoInfo(m, m);
    ObeysWithoutInfo(TcpNext(t, steps[0]), steps[1..]);
  }

  /** A reconnect without anything to resend obeys the order of one stream. */
  lemma {:induction false} ReconnectObeys(t: Tcp, id: ConnId, m: nat)
    requires WriterOk(t) && AcceptEnabled(t.sys, Accept(id, true))
    requires t.sys.c.phase.AwaitingHeader? && t.sys.c.conn == Some(id) && Since(t.sys.c.buf, t.sys.s.recvSeq) == []
    requires Exec(t.sys, H.FrontSteps(id, 0)).Some? && Exec(t.sys, H.FrontSteps(id, 0) + H.BackSteps(m)).Some?
    ensures
      var steps := H.FrontSteps(id, 0) + H.BackSteps(m);
      TcpExec(t, steps).Some? && TcpExec(t, steps).value.sys == Exec(t.sys, steps).value
  {
    FrontHasNoInfo(id);
    ObeysWithoutInfo(t, H.FrontSteps(id, 0));
    InfoComesFirst(t, id);
    ExecAppend(t.sys, H.FrontSteps(id, 0), H.BackSteps(m));
    TcpAppend(t, H.FrontSteps(id, 0), H.BackSteps(m));
    BackObeys(TcpExec(t, H.FrontSteps(id, 0)).value, id, m);
  }

  /** The other half of the criterion: a session that has received everything can always be reconnected over TCP. */
  lemma {:induction false} TcpReconnectSucceeds(a: int, b: int, before: seq<Step>, t: Tcp, id: ConnId)
    requires TcpExec(TcpInit(a, b), before) == Some(t) && AcceptEnabled(t.sys, Accept(id, true))
    requires t.sys.c.phase.AwaitingHeader? && t.sys.c.conn == Some(id) && t.sys.s.recvSeq == t.sys.c.sendSeq
    ensures
      var m := |Since(S.Accept(t.sys.s, id, true).buf, t.sys.c.recvSeq)|;
      var end := TcpExec(t, H.FrontSteps(id, 0) + H.BackSteps(m));
      end.Some? && H.BothRunning(t.sys, end.value.sys, id)
  {
    TcpReachable(a, b, before);
    LevelReplay(t.sys);
    var m := |Since(S.Accept(t.sys.s, id, true).buf, t.sys.c.recvSeq)|;
    H.ReconnectSucceeds(t.sys, id);
    H.ClientGetsThrough(t.sys, id, 0);
    ReconnectObeys(t, id, m);
  }
}
