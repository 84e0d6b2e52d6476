/**
 The reconnect protocol: one session, one client and any number of connections, stepped in any order.

 The network is a pair of FIFO streams per connection and direction of Data; control messages appear as the
 two SequenceHeader values (a Link's base) and the TerminalInfo flag. A connection may fail for either side at
 any step. Strangers may connect and displace the client; they send no Data.
 */
module Reconnect {
  import opened Bytes
  import opened ReplayLog
  import opened Packets
  import opened Lane
  import S = SessionModel
  import C = ClientModel

  const STREAM_QUEUE_SIZE: nat := 8

  /** What happened so far, for stating theorems; no step reads it. */
  datatype History = History(
    ptyIn: seq<byte>,              // bytes the session's loop took from the PTY channel
    sessionLog: seq<seq<byte>>,    // payloads the session stored, by sequence number
    clientLog: seq<seq<byte>>,     // payloads the client stored
    stdout: seq<Entry>,            // Data the client wrote out
    ptyOut: seq<Entry>,            // Data the session wrote to the PTY
    typed: seq<byte>,              // stdin bytes of the current ioLoop
    loopStart: nat,                // client payloads stored before the current ioLoop
    spawns: nat                    // PTY spawns tried, failed ones included
  )

  datatype System = System(
    s: S.Session,
    c: C.Client,
    down: map<ConnId, Link>,       // session to client
    up: map<ConnId, Link>,         // client to session; opened when the session accepts
    accepted: set<ConnId>,
    infos: set<ConnId>,            // connections on which TerminalInfo was sent
    fetched: map<ConnId, nat>,     // connections whose reader goroutines run, and how much they read
    queue: seq<S.Event>,           // streamCh
    h: History
  )

  /** The cases of the session's select loop. CloseNow is a failed or overdue heartbeat; Exit is the shell
      exiting or the context ending. */
  datatype LoopStep =
    | PtyChunk(data: seq<byte>, ok: bool)
    | FlushNow(ok: bool)
    | CloseNow
    | Exit
    | Handle(ok: bool)

  /** The stages of handleNewConn. */
  datatype AcceptStep =
    | Accept(id: ConnId, ok: bool)
    | Info(ok: bool, spawnOk: bool)
    | SessionReplay(ok: bool)
    | StartReaders

  /** The session's reader goroutines. */
  datatype ReaderStep = Fetch(id: ConnId) | FetchOther(id: ConnId, what: S.What)

  /** The stages of the client's Run loop before ioLoop, and strangers that connect. */
  datatype ConnectStep =
    | Dial(id: ConnId)
    | Stranger(id: ConnId, last: nat)
    | GetHeader
    | ClientReplay(ok: bool)
    | SendInfo(ok: bool)

  /** The cases of the client's ioLoop. Drop and Quit may also interrupt the connect stages. */
  datatype IoStep =
    | Stdin(chunk: seq<byte>, ok: bool)
    | ClientFlush(ok: bool)
    | Receive(ok: bool)
    | ClientDrop
    | ClientQuit

  datatype Step =
    | Loop(a: LoopStep)
    | Accepting(b: AcceptStep)
    | Reader(r: ReaderStep)
    | Connect(d: ConnectStep)
    | Io(i: IoStep)

  predicate LoopEnabled(sys: System, st: LoopStep) {
    && sys.s.phase.Looping?
    && match st
       case PtyChunk(data, _) => sys.s.spawned && 0 < |data| <= S.PTY_READ_BUF_SIZE
       case Handle(_) => sys.queue != []
       case _ => true
  }

  predicate AcceptEnabled(sys: System, st: AcceptStep) {
    match st
    case Accept(id, _) => sys.s.phase.Looping? && id in sys.down && id !in sys.accepted
    case Info(ok, _) =>
      && sys.s.phase.AwaitingInfo? && sys.s.conn.Some? && sys.s.conn.value in sys.down
      && (ok ==> sys.s.conn.value in sys.infos || !sys.down[sys.s.conn.value].own)
    case SessionReplay(_) =>
      sys.s.phase.Replaying? && sys.s.phase.rest != [] && sys.s.conn.Some? && sys.s.conn.value in sys.down
    case StartReaders => sys.s.phase == S.Replaying([]) && sys.s.conn.Some?
  }

  predicate ReaderEnabled(sys: System, st: ReaderStep) {
    && st.id in sys.fetched
    && |sys.queue| < STREAM_QUEUE_SIZE
    && match st
       case Fetch(id) => id in sys.up && sys.fetched[id] < |sys.up[id].sent|
       case FetchOther(_, what) => !what.GotData?
  }

  predicate ConnectEnabled(sys: System, st: ConnectStep) {
    match st
    case Dial(id) => sys.c.phase.Idle? && id !in sys.down
    case Stranger(id, _) => id !in sys.down
    case GetHeader => sys.c.phase.AwaitingHeader? && sys.c.conn.Some? && sys.c.conn.value in sys.up
    case ClientReplay(_) =>
      sys.c.phase.Replaying? && sys.c.phase.rest != [] && sys.c.conn.Some? && sys.c.conn.value in sys.up
    case SendInfo(_) => sys.c.phase == C.Replaying([]) && sys.c.conn.Some?
  }

  predicate IoEnabled(sys: System, st: IoStep) {
    match st
    case Stdin(chunk, _) => sys.c.phase.Running? && 0 < |chunk| <= C.STDIN_BUF_SIZE
    case ClientFlush(_) => sys.c.phase.Running?
    case Receive(_) =>
      && sys.c.phase.Running? && sys.c.conn.Some? && sys.c.conn.value in sys.down
      && |sys.down[sys.c.conn.value].outcomes| < |sys.down[sys.c.conn.value].sent|
    case ClientDrop => sys.c.conn.Some?
    case ClientQuit => !sys.c.phase.Done?
  }

  predicate Enabled(sys: System, st: Step) {
    match st
    case Loop(a) => LoopEnabled(sys, a)
    case Accepting(b) => AcceptEnabled(sys, b)
    case Reader(r) => ReaderEnabled(sys, r)
    case Connect(d) => ConnectEnabled(sys, d)
    case Io(i) => IoEnabled(sys, i)
  }

  /** A message appended to one connection's stream. */
  function Put(links: map<ConnId, Link>, conn: Option<ConnId>, e: Option<Entry>): map<ConnId, Link> {
    if e.Some? && conn.Some? && conn.value in links
    then links[conn.value := links[conn.value].(sent := links[conn.value].sent + [e.value])]
    else links
  }

  /** The next replay entry leaves the pending list and joins the stream. */
  function PutReplay(links: map<ConnId, Link>, conn: Option<ConnId>, e: Option<Entry>): map<ConnId, Link> {
    if e.Some? && conn.Some? && conn.value in links && links[conn.value].pending != []
    then
      var link := links[conn.value];
      links[conn.value := link.(sent := link.sent + [e.value], pending := link.pending[1..])]
    else links
  }

  function Taken(links: map<ConnId, Link>, id: ConnId, ok: bool): map<ConnId, Link>
    requires id in links
  {
    links[id := links[id].(outcomes := links[id].outcomes + [ok])]
  }

  /** What a flush adds to the log: the pending payload, if the number advanced. */
  function Logged(log: seq<seq<byte>>, before: nat, after: nat, payload: seq<byte>): seq<seq<byte>> {
    if after > before then log + [payload] else log
  }

  /** The session's state and output after a step that may have flushed. */
  function SessionFlushed(sys: System, r: S.Effect, payload: seq<byte>): System {
    sys.(s := r.state, down := Put(sys.down, sys.s.conn, r.sent),
       h := sys.h.(sessionLog := Logged(sys.h.sessionLog, sys.s.sendSeq, r.state.sendSeq, payload)))
  }

  function ClientFlushed(sys: System, r: C.Effect, payload: seq<byte>): System {
    sys.(c := r.state, up := Put(sys.up, sys.c.conn, r.sent),
       h := sys.h.(clientLog := Logged(sys.h.clientLog, sys.c.sendSeq, r.state.sendSeq, payload)))
  }

  /** The head event: discarded unless its tag is the current connection. */
  function NextHandle(sys: System, ok: bool): System
    requires sys.queue != []
  {
    var ev := sys.queue[0];
    var r := S.HandleEvent(sys.s, ev, ok);
    sys.(s := r.state, queue := sys.queue[1..],
       up := if sys.s.conn == Some(ev.conn) && ev.what.GotData? && ev.conn in sys.up
             then Taken(sys.up, ev.conn, ok) else sys.up,
       h := sys.h.(ptyOut := if r.written.Some? then sys.h.ptyOut + [r.written.value] else sys.h.ptyOut))
  }

  function LoopNext(sys: System, st: LoopStep): System
    requires LoopEnabled(sys, st)
  {
    match st
    case PtyChunk(data, ok) =>
      var sys' := SessionFlushed(sys, S.TakeChunk(sys.s, data, ok), sys.s.pending + data);
      sys'.(h := sys'.h.(ptyIn := sys.h.ptyIn + data))
    case FlushNow(ok) => SessionFlushed(sys, S.Flush(sys.s, ok), sys.s.pending)
    case CloseNow => sys.(s := S.CloseConn(sys.s))
    case Exit => sys.(s := S.Quit(sys.s))
    case Handle(ok) => NextHandle(sys, ok)
  }

  function AcceptNext(sys: System, st: AcceptStep): System
    requires AcceptEnabled(sys, st)
  {
    match st
    case Accept(id, ok) =>
      var s' := S.Accept(sys.s, id, ok);
      sys.(s := s', accepted := sys.accepted + {id},
         up := if ok then sys.up[id := Fresh(true, s'.recvSeq)] else sys.up,
         h := sys.h.(sessionLog := Logged(sys.h.sessionLog, sys.s.sendSeq, s'.sendSeq, sys.s.pending)))
    case Info(ok, spawnOk) =>
      var id := sys.s.conn.value;
      var s' := S.GetInfo(sys.s, ok, spawnOk, sys.down[id].base);
      sys.(s := s',
         down := if s'.phase.Replaying? then sys.down[id := BeginLink(sys.s.buf, sys.s.sendSeq, sys.down[id])]
                 else sys.down,
         h := sys.h.(spawns := if ok && !sys.s.spawned then sys.h.spawns + 1 else sys.h.spawns))
    case SessionReplay(ok) =>
      var r := S.ReplayOne(sys.s, ok);
      sys.(s := r.state, down := PutReplay(sys.down, sys.s.conn, r.sent))
    case StartReaders => sys.(s := S.StartReaders(sys.s), fetched := sys.fetched[sys.s.conn.value := 0])
  }

  function ReaderNext(sys: System, st: ReaderStep): System
    requires ReaderEnabled(sys, st)
  {
    match st
    case Fetch(id) =>
      sys.(queue := sys.queue + [S.Event(id, S.GotData(sys.up[id].sent[sys.fetched[id]]))],
         fetched := sys.fetched[id := sys.fetched[id] + 1])
    case FetchOther(id, what) => sys.(queue := sys.queue + [S.Event(id, what)])
  }

  function ConnectNext(sys: System, st: ConnectStep): System
    requires ConnectEnabled(sys, st)
  {
    match st
    case Dial(id) => sys.(c := C.Dialed(sys.c, id), down := sys.down[id := Fresh(true, sys.c.recvSeq)])
    case Stranger(id, last) => sys.(down := sys.down[id := Fresh(false, last)])
    case GetHeader =>
      var id := sys.c.conn.value;
      sys.(c := C.GotHeader(sys.c, sys.up[id].base),
           up := sys.up[id := BeginLink(sys.c.buf, sys.c.sendSeq, sys.up[id])])
    case ClientReplay(ok) =>
      var r := C.ReplayOne(sys.c, ok);
      sys.(c := r.state, up := PutReplay(sys.up, sys.c.conn, r.sent))
    case SendInfo(ok) =>
      if ok then
        sys.(c := C.EnterLoop(sys.c), infos := sys.infos + {sys.c.conn.value},
           h := sys.h.(typed := [], loopStart := |sys.h.clientLog|))
      else sys.(c := C.Drop(sys.c))
  }

  function IoNext(sys: System, st: IoStep): System
    requires IoEnabled(sys, st)
  {
    match st
    case Stdin(chunk, ok) =>
      var sys' := ClientFlushed(sys, C.Stdin(sys.c, chunk, ok), sys.c.pending + C.Filtered(sys.c, chunk).out);
      sys'.(h := sys'.h.(typed := sys.h.typed + chunk))
    case ClientFlush(ok) => ClientFlushed(sys, C.Flush(sys.c, ok), sys.c.pending)
    case Receive(ok) =>
      var id := sys.c.conn.value;
      var e := sys.down[id].sent[|sys.down[id].outcomes|];
      sys.(c := C.Receive(sys.c, e, ok),
         down := if ok then Taken(sys.down, id, true) else sys.down,
         h := sys.h.(stdout := if ok then sys.h.stdout + [e] else sys.h.stdout))
    case ClientDrop => sys.(c := C.Drop(sys.c))
    case ClientQuit => sys.(c := C.Quit(sys.c))
  }

  function Next(sys: System, st: Step): System
    requires Enabled(sys, st)
  {
    match st
    case Loop(a) => LoopNext(sys, a)
    case Accepting(b) => AcceptNext(sys, b)
    case Reader(r) => ReaderNext(sys, r)
    case Connect(d) => ConnectNext(sys, d)
    case Io(i) => IoNext(sys, i)
  }

  function Init(sessionReplay: int, clientReplay: int): System {
    System(S.Start(LimitsFor(sessionReplay)), C.Start(LimitsFor(clientReplay)),
           map[], map[], {}, {}, map[], [], History([], [], [], [], [], [], 0, 0))
  }

  /** The state after a whole run of steps, if each was possible. */
  function Exec(sys: System, steps: seq<Step>): Option<System>
    decreases |steps|
  {
    if steps == [] then Some(sys)
    else if Enabled(sys, steps[0]) then Exec(Next(sys, steps[0]), steps[1..])
    else None
  }

  // ---- The two directions ------------------------------------------------------------------

  function Down(sys: System): Lane {
    Lane(sys.s.limits, sys.h.sessionLog, sys.s.sendSeq, sys.s.buf, sys.c.recvSeq, sys.h.stdout, sys.down,
         if sys.s.phase.AwaitingInfo? then None else sys.s.conn, sys.c.conn)
  }

  function Up(sys: System): Lane {
    Lane(sys.c.limits, sys.h.clientLog, sys.c.sendSeq, sys.c.buf, sys.s.recvSeq, sys.h.ptyOut, sys.up,
         if sys.c.phase.AwaitingHeader? then None else sys.c.conn, sys.s.conn)
  }
}
