/** What every run of the reconnect protocol keeps, and the delivery guarantees that follow. */
module ReconnectSafety {
  import opened Bytes
  import opened ReplayLog
  import opened Packets
  import L = Lane
  import S = SessionModel
  import C = ClientModel
  import opened Reconnect
  import Coalesce
  import Escape

  // ---- Invariant ---------------------------------------------------------------------------

  /** At the head of the session's loop a current connection has a spawned PTY and running readers; inside
      handleNewConn its readers have not started; the replay lists are the lanes' pending lists. */
  ghost predicate SessionControl(sys: System) {
    && sys.up.Keys <= sys.accepted
    && sys.accepted <= sys.down.Keys
    && sys.fetched.Keys <= sys.up.Keys
    && (forall id :: id in sys.down && id !in sys.accepted ==> !sys.down[id].begun)
    && (forall id :: id in sys.up ==> sys.up[id].own && (sys.up[id].begun ==> sys.down[id].own))
    && sys.h.spawns == (if sys.s.spawned || (sys.s.phase.Exited? && sys.h.spawns > 0) then 1 else 0)
    && (sys.s.conn.Some? ==>
          var id := sys.s.conn.value;
          && id in sys.up
          && match sys.s.phase
             case Looping => sys.s.spawned && id in sys.fetched && sys.down[id].pending == []
             case AwaitingInfo => id !in sys.fetched && !sys.down[id].begun
             case Replaying(rest) => sys.s.spawned && id !in sys.fetched && sys.down[id].pending == rest
             case Exited => false)
    && (sys.s.conn.None? ==> sys.s.phase.Looping? || sys.s.phase.Exited?)
  }

  ghost predicate ClientControl(sys: System) {
    && (sys.c.conn.None? <==> sys.c.phase.Idle? || sys.c.phase.Done?)
    && (sys.c.conn.Some? ==>
          var id := sys.c.conn.value;
          && id in sys.down && sys.down[id].own
          && match sys.c.phase
             case AwaitingHeader => id in sys.up ==> !sys.up[id].begun
             case Replaying(rest) => id in sys.up && sys.up[id].pending == rest
             case Running => id in sys.up && sys.up[id].pending == []
             case _ => true)
  }

  /** The Data of one connection among the queued events, in order. */
  function DataOf(q: seq<S.Event>, id: ConnId): seq<Entry> {
    if q == [] then []
    else (if q[0].conn == id && q[0].what.GotData? then [q[0].what.e] else []) + DataOf(q[1..], id)
  }

  /** The first n messages of a stream are handled, or among the queued events. */
  ghost predicate InStep(q: seq<S.Event>, link: L.Link, n: nat, id: ConnId) {
    |link.outcomes| <= n <= |link.sent| && DataOf(q, id) == link.sent[|link.outcomes|..n]
  }

  /** Queued events come from started readers, and those of the current connection are exactly the messages
      read from it and not yet handled. */
  ghost predicate QueueOk(sys: System) {
    && (forall i :: 0 <= i < |sys.queue| ==> sys.queue[i].conn in sys.fetched)
    && (forall id :: id in sys.fetched && id in sys.up ==> sys.fetched[id] <= |sys.up[id].sent|)
    && (sys.s.conn.Some? && sys.s.conn.value in sys.up ==>
          var id := sys.s.conn.value;
          if id in sys.fetched then InStep(sys.queue, sys.up[id], sys.fetched[id], id)
          else sys.up[id].outcomes == [])
  }

  const MAX_FLUSH: nat := 65536

  /** Limits of everything flushed; and the client records a message as taken only once it is written out. */
  ghost predicate SizesOk(sys: System) {
    && (forall id :: id in sys.down ==> false !in sys.down[id].outcomes)
    && |sys.s.pending| < Coalesce.THRESHOLD
    && |sys.c.pending| < Coalesce.THRESHOLD
    && (forall i :: 0 <= i < |sys.h.sessionLog| ==> 0 < |sys.h.sessionLog[i]| <= MAX_FLUSH)
    && (forall i :: 0 <= i < |sys.h.clientLog| ==> 0 < |sys.h.clientLog[i]| <= MAX_FLUSH)
  }

  ghost predicate SessionBytes(sys: System) {
    Concat(sys.h.sessionLog) + sys.s.pending == sys.h.ptyIn
  }

  ghost predicate LoopBytes(sys: System) {
    var r := Escape.FeedAll(Escape.Start(), sys.h.typed);
    && sys.h.loopStart <= |sys.h.clientLog|
    && Concat(sys.h.clientLog[sys.h.loopStart..]) + sys.c.pending <= r.out
    && (!r.gone ==> Concat(sys.h.clientLog[sys.h.loopStart..]) + sys.c.pending == r.out)
    && (sys.c.phase.Running? ==> !r.gone && r.state == sys.c.esc)
  }

  ghost predicate Inv(sys: System) {
    && SessionControl(sys)
    && ClientControl(sys)
    && QueueOk(sys)
    && L.Inv(Down(sys))
    && L.Inv(Up(sys))
    && SizesOk(sys)
    && SessionBytes(sys)
    && LoopBytes(sys)
  }

  // ---- Each step is an act of each direction, or none --------------------------------------

  function StoreIf(payload: seq<byte>, sent: bool): Option<L.Act> {
    if payload == [] then None else Some(L.Store(payload, sent))
  }

  function DropSenderIf(dropped: bool): Option<L.Act> { if dropped then Some(L.DropSender) else None }

  function DropReceiverIf(dropped: bool): Option<L.Act> { if dropped then Some(L.DropReceiver) else None }

  ghost predicate Refined(lane: L.Lane, a: Option<L.Act>, lane': L.Lane) {
    if a.None? then lane' == lane else L.Enabled(lane, a.value) && lane' == L.Apply(lane, a.value)
  }

  /** The step from sys to sys' is act a of the downstream lane and act b of the upstream lane. */
  ghost predicate Acts(sys: System, sys': System, a: Option<L.Act>, b: Option<L.Act>) {
    Refined(Down(sys), a, Down(sys')) && Refined(Up(sys), b, Up(sys'))
  }

  lemma {:induction false} ActsKeepLanes(sys: System, sys': System, a: Option<L.Act>, b: Option<L.Act>)
    requires L.Inv(Down(sys)) && L.Inv(Up(sys)) && Acts(sys, sys', a, b)
    ensures L.Inv(Down(sys')) && L.Inv(Up(sys'))
  {
    if a.Some? { L.ActKeepsInv(Down(sys), a.value); }
    if b.Some? { L.ActKeepsInv(Up(sys), b.value); }
  }

  // -- the session's select loop

  function LoopDown(sys: System, st: LoopStep): Option<L.Act>
    requires LoopEnabled(sys, st)
  {
    match st
    case PtyChunk(data, ok) =>
      var payload := sys.s.pending + data;
      if |payload| >= Coalesce.THRESHOLD then StoreIf(payload, sys.s.conn.Some? && ok) else None
    case FlushNow(ok) => StoreIf(sys.s.pending, sys.s.conn.Some? && ok)
    case _ => DropSenderIf(LoopNext(sys, st).s.conn.None?)
  }

  function LoopUp(sys: System, st: LoopStep): Option<L.Act>
    requires LoopEnabled(sys, st)
  {
    if st.Handle? && sys.s.conn == Some(sys.queue[0].conn) && sys.queue[0].what.GotData? then Some(L.Take(st.ok))
    else DropReceiverIf(LoopNext(sys, st).s.conn.None?)
  }

  /** A flush reaches the current connection's stream, or the connection is dropped. */
  lemma {:induction false} FlushDownActs(sys: System, ok: bool)
    requires SessionControl(sys) && LoopEnabled(sys, FlushNow(ok))
    ensures Refined(Down(sys), LoopDown(sys, FlushNow(ok)), Down(LoopNext(sys, FlushNow(ok))))
  {
  }

  lemma {:induction false} ChunkDownActs(sys: System, data: seq<byte>, ok: bool)
    requires SessionControl(sys) && LoopEnabled(sys, PtyChunk(data, ok))
    ensures Refined(Down(sys), LoopDown(sys, PtyChunk(data, ok)), Down(LoopNext(sys, PtyChunk(data, ok))))
  {
  }

  lemma {:induction false} LoopDownActs(sys: System, st: LoopStep)
    requires SessionControl(sys) && LoopEnabled(sys, st)
    ensures Refined(Down(sys), LoopDown(sys, st), Down(LoopNext(sys, st)))
  {
    match st
    case PtyChunk(data, ok) => ChunkDownActs(sys, data, ok);
    case FlushNow(ok) => FlushDownActs(sys, ok);
    case _ =>
  }

  /** The Data at the head of the queue is the next unread message of the current connection. */
  lemma {:induction false} HeadIsNext(sys: System)
    requires QueueOk(sys) && sys.queue != [] && sys.queue[0].what.GotData?
    requires sys.s.conn == Some(sys.queue[0].conn) && sys.queue[0].conn in sys.up && sys.queue[0].conn in sys.fetched
    ensures
      var link := sys.up[sys.queue[0].conn];
      |link.outcomes| < |link.sent| && sys.queue[0].what.e == link.sent[|link.outcomes|]
  {
    var id := sys.queue[0].conn;
    assert DataOf(sys.queue, id)[0] == sys.queue[0].what.e;
  }

  /** An event tagged with the current connection is the next message of its stream; a stale one changes
      nothing. */
  lemma {:induction false} HandleUpActs(sys: System, ok: bool)
    requires SessionControl(sys) && QueueOk(sys) && LoopEnabled(sys, Handle(ok))
    ensures Refined(Up(sys), LoopUp(sys, Handle(ok)), Up(LoopNext(sys, Handle(ok))))
  {
    var ev := sys.queue[0];
    if sys.s.conn == Some(ev.conn) && ev.what.GotData? { HeadIsNext(sys); }
  }

  lemma {:induction false} LoopUpActs(sys: System, st: LoopStep)
    requires SessionControl(sys) && QueueOk(sys) && LoopEnabled(sys, st)
    ensures Refined(Up(sys), LoopUp(sys, st), Up(LoopNext(sys, st)))
  {
    if st.Handle? { HandleUpActs(sys, st.ok); }
  }

  lemma {:induction false} HandleControl(sys: System, ok: bool)
    requires SessionControl(sys) && ClientControl(sys) && LoopEnabled(sys, Handle(ok))
    ensures SessionControl(NextHandle(sys, ok)) && ClientControl(NextHandle(sys, ok))
  {
  }

  lemma {:induction false} FlushControl(sys: System, r: S.Effect, payload: seq<byte>)
    requires SessionControl(sys) && ClientControl(sys) && sys.s.phase.Looping?
    requires r.state.phase.Looping? && r.state.spawned == sys.s.spawned
    requires r.state.conn.Some? ==> r.state.conn == sys.s.conn
    ensures
      var sys' := SessionFlushed(sys, r, payload);
      SessionControl(sys') && ClientControl(sys')
  {
  }

  lemma {:induction false} LoopControl(sys: System, st: LoopStep)
    requires SessionControl(sys) && ClientControl(sys) && LoopEnabled(sys, st)
    ensures SessionControl(LoopNext(sys, st)) && ClientControl(LoopNext(sys, st))
  {
    match st
    case PtyChunk(data, ok) => FlushControl(sys, S.TakeChunk(sys.s, data, ok), sys.s.pending + data);
    case FlushNow(ok) => FlushControl(sys, S.Flush(sys.s, ok), sys.s.pending);
    case CloseNow =>
    case Exit =>
    case Handle(ok) => HandleControl(sys, ok);
  }

  /** Handling the head event takes the next message of its connection, if it was one. */
  lemma {:induction false} HeadHandled(q: seq<S.Event>, link: L.Link, n: nat, id: ConnId, ok: bool)
    requires q != [] && InStep(q, link, n, id)
    ensures if q[0].conn == id && q[0].what.GotData? then InStep(q[1..], link.(outcomes := link.outcomes + [ok]), n, id)
            else InStep(q[1..], link, n, id)
  {
    if q[0].conn == id && q[0].what.GotData? {
      var o := |link.outcomes|;
      assert DataOf(q, id)[1..] == DataOf(q[1..], id);
      assert link.sent[o..n][1..] == link.sent[o + 1..n];
    }
  }

  lemma {:induction false} HandleQueue(sys: System, ok: bool)
    requires SessionControl(sys) && QueueOk(sys) && LoopEnabled(sys, Handle(ok))
    ensures QueueOk(NextHandle(sys, ok))
  {
    var sys' := NextHandle(sys, ok);
    assert forall i :: 0 <= i < |sys'.queue| ==> sys'.queue[i] == sys.queue[i + 1];
    if sys.s.conn.Some? {
      var id := sys.s.conn.value;
      HeadHandled(sys.queue, sys.up[id], sys.fetched[id], id, ok);
    }
  }

  lemma {:induction false} LoopQueue(sys: System, st: LoopStep)
    requires SessionControl(sys) && QueueOk(sys) && LoopEnabled(sys, st)
    ensures QueueOk(LoopNext(sys, st))
  {
    if st.Handle? { HandleQueue(sys, st.ok); }
  }

  lemma {:induction false} LoopSizes(sys: System, st: LoopStep)
    requires SizesOk(sys) && LoopEnabled(sys, st)
    ensures SizesOk(LoopNext(sys, st))
  {
  }

  lemma {:induction false} ChunkSessionBytes(sys: System, data: seq<byte>, ok: bool)
    requires SessionBytes(sys) && LoopEnabled(sys, PtyChunk(data, ok))
    ensures SessionBytes(LoopNext(sys, PtyChunk(data, ok)))
  {
    ConcatSnoc(sys.h.sessionLog, sys.s.pending + data);
    AppendMore(Concat(sys.h.sessionLog), sys.s.pending, data);
    var sys' := LoopNext(sys, PtyChunk(data, ok));
    assert || (sys'.s.pending == [] && sys'.h.sessionLog == sys.h.sessionLog + [sys.s.pending + data])
           || (sys'.s.pending == sys.s.pending + data && sys'.h.sessionLog == sys.h.sessionLog);
  }

  lemma {:induction false} FlushSessionBytes(sys: System, ok: bool)
    requires SessionBytes(sys) && LoopEnabled(sys, FlushNow(ok))
    ensures SessionBytes(LoopNext(sys, FlushNow(ok)))
  {
    var sys', log, p := LoopNext(sys, FlushNow(ok)), sys.h.sessionLog, sys.s.pending;
    assert sys'.h.ptyIn == sys.h.ptyIn;
    if p == [] {
      assert sys'.s.pending == p && sys'.h.sessionLog == log;
    } else {
      assert sys'.s.pending == [] && sys'.h.sessionLog == log + [p];
      assert Concat(log + [p]) + [] == Concat(log) + p by { ConcatSnoc(log, p); }
    }
  }

  lemma {:induction false} LoopSessionBytes(sys: System, st: LoopStep)
    requires SessionBytes(sys) && LoopEnabled(sys, st)
    ensures SessionBytes(LoopNext(sys, st))
  {
    match st
    case PtyChunk(data, ok) => ChunkSessionBytes(sys, data, ok);
    case FlushNow(ok) => FlushSessionBytes(sys, ok);
    case _ =>
  }

  lemma {:induction false} LoopCounts(sys: System, st: LoopStep)
    requires SizesOk(sys) && SessionBytes(sys) && LoopBytes(sys) && LoopEnabled(sys, st)
    ensures
      var sys' := LoopNext(sys, st);
      SizesOk(sys') && SessionBytes(sys') && LoopBytes(sys')
  {
    LoopSizes(sys, st);
    LoopSessionBytes(sys, st);
    SameLoopBytes(sys, LoopNext(sys, st));
  }

  lemma {:induction false} LoopKeeps(sys: System, st: LoopStep)
    requires Inv(sys) && LoopEnabled(sys, st)
    ensures Inv(LoopNext(sys, st))
  {
    LoopControl(sys, st);
    LoopQueue(sys, st);
    LoopDownActs(sys, st);
    LoopUpActs(sys, st);
    ActsKeepLanes(sys, LoopNext(sys, st), LoopDown(sys, st), LoopUp(sys, st));
    LoopCounts(sys, st);
  }

  // -- handleNewConn

  function AcceptDown(sys: System, st: AcceptStep): Option<L.Act>
    requires AcceptEnabled(sys, st)
  {
    match st
    case Accept(_, _) => if sys.s.pending == [] then Some(L.DropSender) else StoreIf(sys.s.pending, false)
    case Info(_, _) => if AcceptNext(sys, st).s.phase.Replaying? then Some(L.Begin(sys.s.conn.value)) else None
    case SessionReplay(ok) => Some(if ok then L.WriteReplay else L.DropSender)
    case StartReaders => None
  }

  function AcceptUp(sys: System, st: AcceptStep): Option<L.Act>
    requires AcceptEnabled(sys, st)
  {
    match st
    case Accept(id, ok) => Some(if ok then L.Open(id) else L.DropReceiver)
    case _ => DropReceiverIf(AcceptNext(sys, st).s.conn.None?)
  }

  lemma {:induction false} NewConnDownActs(sys: System, id: ConnId, ok: bool)
    requires AcceptEnabled(sys, Accept(id, ok))
    ensures Refined(Down(sys), AcceptDown(sys, Accept(id, ok)), Down(AcceptNext(sys, Accept(id, ok))))
  {
  }

  lemma {:induction false} InfoDownActs(sys: System, ok: bool, spawnOk: bool)
    requires SessionControl(sys) && AcceptEnabled(sys, Info(ok, spawnOk))
    ensures Refined(Down(sys), AcceptDown(sys, Info(ok, spawnOk)), Down(AcceptNext(sys, Info(ok, spawnOk))))
  {
  }

  lemma {:induction false} AcceptDownActs(sys: System, st: AcceptStep)
    requires SessionControl(sys) && AcceptEnabled(sys, st)
    ensures Refined(Down(sys), AcceptDown(sys, st), Down(AcceptNext(sys, st)))
  {
    match st
    case Accept(id, ok) => NewConnDownActs(sys, id, ok);
    case Info(ok, spawnOk) => InfoDownActs(sys, ok, spawnOk);
    case SessionReplay(_) =>
    case StartReaders =>
  }

  lemma {:induction false} AcceptUpActs(sys: System, st: AcceptStep)
    requires SessionControl(sys) && ClientControl(sys) && QueueOk(sys) && AcceptEnabled(sys, st)
    ensures Refined(Up(sys), AcceptUp(sys, st), Up(AcceptNext(sys, st)))
  {
  }

  lemma {:induction false} NewConnControl(sys: System, id: ConnId, ok: bool)
    requires SessionControl(sys) && ClientControl(sys) && AcceptEnabled(sys, Accept(id, ok))
    ensures
      var sys' := AcceptNext(sys, Accept(id, ok));
      SessionControl(sys') && ClientControl(sys')
  {
  }

  lemma {:induction false} InfoControl(sys: System, ok: bool, spawnOk: bool)
    requires SessionControl(sys) && ClientControl(sys) && AcceptEnabled(sys, Info(ok, spawnOk))
    ensures
      var sys' := AcceptNext(sys, Info(ok, spawnOk));
      SessionControl(sys') && ClientControl(sys')
  {
  }

  lemma {:induction false} ReplayControl(sys: System, ok: bool)
    requires SessionControl(sys) && ClientControl(sys) && AcceptEnabled(sys, SessionReplay(ok))
    ensures
      var sys' := AcceptNext(sys, SessionReplay(ok));
      SessionControl(sys') && ClientControl(sys')
  {
  }

  lemma {:induction false} AcceptControl(sys: System, st: AcceptStep)
    requires SessionControl(sys) && ClientControl(sys) && AcceptEnabled(sys, st)
    ensures SessionControl(AcceptNext(sys, st)) && ClientControl(AcceptNext(sys, st))
  {
    match st
    case Accept(id, ok) => NewConnControl(sys, id, ok);
    case Info(ok, spawnOk) => InfoControl(sys, ok, spawnOk);
    case SessionReplay(ok) => ReplayControl(sys, ok);
    case StartReaders =>
  }

  lemma {:induction false} AcceptQueue(sys: System, st: AcceptStep)
    requires SessionControl(sys) && ClientControl(sys) && QueueOk(sys) && AcceptEnabled(sys, st)
    ensures QueueOk(AcceptNext(sys, st))
  {
    if st.StartReaders? {
      DataOfAbsent(sys.queue, sys.s.conn.value);
    }
  }

  /** The flush before a new connection is set moves the pending bytes to the log. */
  lemma {:induction false} NewConnBytes(sys: System, id: ConnId, ok: bool)
    requires SessionBytes(sys) && AcceptEnabled(sys, Accept(id, ok))
    ensures SessionBytes(AcceptNext(sys, Accept(id, ok)))
  {
    var sys', log, p := AcceptNext(sys, Accept(id, ok)), sys.h.sessionLog, sys.s.pending;
    if p == [] {
      assert sys'.s.pending == p && sys'.h.sessionLog == log;
    } else {
      assert sys'.s.pending == [] && sys'.h.sessionLog == log + [p];
      assert Concat(log + [p]) + [] == Concat(log) + p by { ConcatSnoc(log, p); }
    }
  }

  lemma {:induction false} AcceptSizes(sys: System, st: AcceptStep)
    requires SizesOk(sys) && AcceptEnabled(sys, st)
    ensures SizesOk(AcceptNext(sys, st))
  {
  }

  lemma {:induction false} AcceptCounts(sys: System, st: AcceptStep)
    requires SizesOk(sys) && SessionBytes(sys) && LoopBytes(sys) && AcceptEnabled(sys, st)
    ensures
      var sys' := AcceptNext(sys, st);
      SizesOk(sys') && SessionBytes(sys') && LoopBytes(sys')
  {
    AcceptSizes(sys, st);
    if st.Accept? { NewConnBytes(sys, st.id, st.ok); }
    SameLoopBytes(sys, AcceptNext(sys, st));
  }

  /** Steps outside ioLoop leave its bytes alone. */
  lemma {:induction false} SameLoopBytes(sys: System, sys': System)
    requires LoopBytes(sys) && sys'.c.pending == sys.c.pending && (sys'.c.phase.Running? ==> sys'.c == sys.c)
    requires sys'.h.clientLog == sys.h.clientLog
    requires sys'.h.typed == sys.h.typed && sys'.h.loopStart == sys.h.loopStart
    ensures LoopBytes(sys')
  {
  }

  lemma {:induction false} AcceptKeeps(sys: System, st: AcceptStep)
    requires Inv(sys) && AcceptEnabled(sys, st)
    ensures Inv(AcceptNext(sys, st))
  {
    AcceptControl(sys, st);
    AcceptQueue(sys, st);
    AcceptDownActs(sys, st);
    AcceptUpActs(sys, st);
    ActsKeepLanes(sys, AcceptNext(sys, st), AcceptDown(sys, st), AcceptUp(sys, st));
    AcceptCounts(sys, st);
  }

  // -- the session's readers

  lemma {:induction false} DataOfSnoc(q: seq<S.Event>, ev: S.Event, id: ConnId)
    ensures DataOf(q + [ev], id) == DataOf(q, id) + (if ev.conn == id && ev.what.GotData? then [ev.what.e] else [])
  {
    if q != [] {
      assert (q + [ev])[1..] == q[1..] + [ev];
      DataOfSnoc(q[1..], ev, id);
    }
  }

  lemma {:induction false} DataOfAbsent(q: seq<S.Event>, id: ConnId)
    requires forall i :: 0 <= i < |q| ==> q[i].conn != id
    ensures DataOf(q, id) == []
  {
    if q != [] {
      DataOfAbsent(q[1..], id);
    }
  }

  /** A reader appends to the queue what it read, so the current connection's queued Data stays in step. */
  lemma {:induction false} ReaderQueue(sys: System, st: ReaderStep)
    requires SessionControl(sys) && QueueOk(sys) && ReaderEnabled(sys, st)
    ensures QueueOk(ReaderNext(sys, st))
  {
    var sys' := ReaderNext(sys, st);
    var ev := sys'.queue[|sys.queue|];
    if sys.s.conn.Some? && sys.s.conn.value in sys.fetched {
      var id := sys.s.conn.value;
      DataOfSnoc(sys.queue, ev, id);
      if st.Fetch? && st.id == id {
        SliceSnoc(sys.up[id].sent, |sys.up[id].outcomes|, sys.fetched[id] + 1);
      }
    }
  }

  lemma {:induction false} ReaderKeeps(sys: System, st: ReaderStep)
    requires Inv(sys) && ReaderEnabled(sys, st)
    ensures Inv(ReaderNext(sys, st))
  {
    var sys' := ReaderNext(sys, st);
    ReaderQueue(sys, st);
    assert Down(sys') == Down(sys) && Up(sys') == Up(sys);
    assert SessionControl(sys') && ClientControl(sys');
  }

  // -- the client's connect stages

  function ConnectDown(sys: System, st: ConnectStep): Option<L.Act>
    requires ConnectEnabled(sys, st)
  {
    match st
    case Dial(id) => Some(L.Open(id))
    case Stranger(id, last) => Some(L.Foreign(id, last))
    case _ => DropReceiverIf(ConnectNext(sys, st).c.conn.None?)
  }

  function ConnectUp(sys: System, st: ConnectStep): Option<L.Act>
    requires ConnectEnabled(sys, st)
  {
    match st
    case Dial(_) => None
    case Stranger(_, _) => None
    case GetHeader => Some(L.Begin(sys.c.conn.value))
    case ClientReplay(ok) => Some(if ok then L.WriteReplay else L.DropSender)
    case SendInfo(ok) => DropSenderIf(!ok)
  }

  lemma {:induction false} ConnectDownActs(sys: System, st: ConnectStep)
    requires SessionControl(sys) && ClientControl(sys) && ConnectEnabled(sys, st)
    ensures Refined(Down(sys), ConnectDown(sys, st), Down(ConnectNext(sys, st)))
  {
  }

  lemma {:induction false} ConnectUpActs(sys: System, st: ConnectStep)
    requires SessionControl(sys) && ClientControl(sys) && QueueOk(sys) && ConnectEnabled(sys, st)
    ensures Refined(Up(sys), ConnectUp(sys, st), Up(ConnectNext(sys, st)))
  {
  }

  lemma {:induction false} DialControl(sys: System, st: ConnectStep)
    requires SessionControl(sys) && ClientControl(sys) && ConnectEnabled(sys, st) && (st.Dial? || st.Stranger?)
    ensures SessionControl(ConnectNext(sys, st)) && ClientControl(ConnectNext(sys, st))
  {
  }

  lemma {:induction false} HeaderControl(sys: System)
    requires SessionControl(sys) && ClientControl(sys) && ConnectEnabled(sys, GetHeader)
    ensures SessionControl(ConnectNext(sys, GetHeader)) && ClientControl(ConnectNext(sys, GetHeader))
  {
  }

  lemma {:induction false} ResendControl(sys: System, ok: bool)
    requires SessionControl(sys) && ClientControl(sys) && ConnectEnabled(sys, ClientReplay(ok))
    ensures SessionControl(ConnectNext(sys, ClientReplay(ok))) && ClientControl(ConnectNext(sys, ClientReplay(ok)))
  {
  }

  lemma {:induction false} ConnectControl(sys: System, st: ConnectStep)
    requires SessionControl(sys) && ClientControl(sys) && ConnectEnabled(sys, st)
    ensures SessionControl(ConnectNext(sys, st)) && ClientControl(ConnectNext(sys, st))
  {
    match st
    case Dial(_) => DialControl(sys, st);
    case Stranger(_, _) => DialControl(sys, st);
    case GetHeader => HeaderControl(sys);
    case ClientReplay(ok) => ResendControl(sys, ok);
    case SendInfo(_) =>
  }

  /** The client only appends to its streams. */
  ghost predicate Extends(up: map<ConnId, L.Link>, up': map<ConnId, L.Link>) {
    && up.Keys == up'.Keys
    && forall id :: id in up ==> up[id].sent <= up'[id].sent && up'[id].outcomes == up[id].outcomes
  }

  /** What the readers fetched and the loop has not handled stays what it is while streams grow. */
  lemma {:induction false} QueueFrame(sys: System, sys': System)
    requires QueueOk(sys) && Extends(sys.up, sys'.up)
    requires sys'.queue == sys.queue && sys'.fetched == sys.fetched && sys'.s == sys.s
    ensures QueueOk(sys')
  {
    if sys.s.conn.Some? && sys.s.conn.value in sys.up && sys.s.conn.value in sys.fetched {
      var id := sys.s.conn.value;
      var o, n := |sys.up[id].outcomes|, sys.fetched[id];
      assert sys'.up[id].sent[o..n] == sys.up[id].sent[o..n];
    }
  }

  lemma {:induction false} ConnectExtends(sys: System, st: ConnectStep)
    requires ConnectEnabled(sys, st)
    ensures Extends(sys.up, ConnectNext(sys, st).up)
  {
  }

  lemma {:induction false} ConnectQueue(sys: System, st: ConnectStep)
    requires QueueOk(sys) && ConnectEnabled(sys, st)
    ensures QueueOk(ConnectNext(sys, st))
  {
    ConnectExtends(sys, st);
    QueueFrame(sys, ConnectNext(sys, st));
  }

  lemma {:induction false} ConnectSizes(sys: System, st: ConnectStep)
    requires SizesOk(sys) && ConnectEnabled(sys, st)
    ensures SizesOk(ConnectNext(sys, st))
  {
  }

  /** A new ioLoop starts with nothing typed and nothing stored. */
  lemma {:induction false} FreshLoopBytes(sys: System)
    requires ConnectEnabled(sys, SendInfo(true))
    ensures LoopBytes(ConnectNext(sys, SendInfo(true)))
  {
    assert Escape.FeedAll(Escape.Start(), []) == Escape.Start();
  }

  lemma {:induction false} ConnectCounts(sys: System, st: ConnectStep)
    requires SizesOk(sys) && SessionBytes(sys) && LoopBytes(sys) && ConnectEnabled(sys, st)
    ensures
      var sys' := ConnectNext(sys, st);
      SizesOk(sys') && SessionBytes(sys') && LoopBytes(sys')
  {
    ConnectSizes(sys, st);
    if st == SendInfo(true) { FreshLoopBytes(sys); } else { SameLoopBytes(sys, ConnectNext(sys, st)); }
  }

  lemma {:induction false} ConnectKeeps(sys: System, st: ConnectStep)
    requires Inv(sys) && ConnectEnabled(sys, st)
    ensures Inv(ConnectNext(sys, st))
  {
    ConnectControl(sys, st);
    ConnectQueue(sys, st);
    ConnectDownActs(sys, st);
    ConnectUpActs(sys, st);
    ActsKeepLanes(sys, ConnectNext(sys, st), ConnectDown(sys, st), ConnectUp(sys, st));
    ConnectCounts(sys, st);
  }

  // -- the client's ioLoop

  function IoDown(sys: System, st: IoStep): Option<L.Act>
    requires IoEnabled(sys, st)
  {
    if st.Receive? && st.ok then Some(L.Take(true)) else DropReceiverIf(IoNext(sys, st).c.conn.None?)
  }

  function IoUp(sys: System, st: IoStep): Option<L.Act>
    requires IoEnabled(sys, st)
  {
    match st
    case Stdin(chunk, ok) =>
      var r := C.Filtered(sys.c, chunk);
      if r.gone then Some(L.DropSender)
      else if r.out != [] && |sys.c.pending + r.out| >= Coalesce.THRESHOLD then StoreIf(sys.c.pending + r.out, ok)
      else None
    case ClientFlush(ok) => StoreIf(sys.c.pending, ok)
    case _ => DropSenderIf(IoNext(sys, st).c.conn.None?)
  }

  lemma {:induction false} IoDownActs(sys: System, st: IoStep)
    requires IoEnabled(sys, st) && (sys.c.phase.Running? ==> sys.c.conn.Some?)
    ensures Refined(Down(sys), IoDown(sys, st), Down(IoNext(sys, st)))
  {
  }

  /** Input reaches the current connection's stream, or the connection is dropped. */
  lemma {:induction false} StdinUpActs(sys: System, chunk: seq<byte>, ok: bool)
    requires ClientControl(sys) && IoEnabled(sys, Stdin(chunk, ok))
    ensures Refined(Up(sys), IoUp(sys, Stdin(chunk, ok)), Up(IoNext(sys, Stdin(chunk, ok))))
  {
  }

  lemma {:induction false} IoUpActs(sys: System, st: IoStep)
    requires ClientControl(sys) && IoEnabled(sys, st)
    ensures Refined(Up(sys), IoUp(sys, st), Up(IoNext(sys, st)))
  {
    if st.Stdin? { StdinUpActs(sys, st.chunk, st.ok); }
  }

  lemma {:induction false} ClientFlushControl(sys: System, r: C.Effect, payload: seq<byte>)
    requires SessionControl(sys) && ClientControl(sys) && sys.c.phase.Running?
    requires if r.state.phase.Running? then r.state.conn == sys.c.conn
             else r.state.conn.None? && (r.state.phase.Idle? || r.state.phase.Done?)
    ensures
      var sys' := ClientFlushed(sys, r, payload);
      SessionControl(sys') && ClientControl(sys')
  {
  }

  lemma {:induction false} ReceiveControl(sys: System, ok: bool)
    requires SessionControl(sys) && ClientControl(sys) && IoEnabled(sys, Receive(ok))
    ensures
      var sys' := IoNext(sys, Receive(ok));
      SessionControl(sys') && ClientControl(sys')
  {
  }

  lemma {:induction false} IoControl(sys: System, st: IoStep)
    requires SessionControl(sys) && ClientControl(sys) && IoEnabled(sys, st)
    ensures SessionControl(IoNext(sys, st)) && ClientControl(IoNext(sys, st))
  {
    match st
    case Stdin(chunk, ok) =>
      ClientFlushControl(sys, C.Stdin(sys.c, chunk, ok), sys.c.pending + C.Filtered(sys.c, chunk).out);
    case ClientFlush(ok) => ClientFlushControl(sys, C.Flush(sys.c, ok), sys.c.pending);
    case Receive(ok) => ReceiveControl(sys, ok);
    case ClientDrop =>
    case ClientQuit =>
  }

  lemma {:induction false} IoExtends(sys: System, st: IoStep)
    requires IoEnabled(sys, st)
    ensures Extends(sys.up, IoNext(sys, st).up)
  {
  }

  lemma {:induction false} IoQueue(sys: System, st: IoStep)
    requires QueueOk(sys) && IoEnabled(sys, st)
    ensures QueueOk(IoNext(sys, st))
  {
    IoExtends(sys, st);
    QueueFrame(sys, IoNext(sys, st));
  }

  lemma {:induction false} ConcatTail(log: seq<seq<byte>>, from: nat, p: seq<byte>)
    requires from <= |log|
    ensures Concat((log + [p])[from..]) == Concat(log[from..]) + p
  {
    assert (log + [p])[from..] == log[from..] + [p];
    ConcatSnoc(log[from..], p);
  }

  /** A flush moves the pending bytes from the coalescer to the log. */
  lemma {:induction false} ClientFlushCounts(sys: System, ok: bool)
    requires SizesOk(sys) && SessionBytes(sys) && LoopBytes(sys) && ClientControl(sys)
    requires IoEnabled(sys, ClientFlush(ok))
    ensures
      var sys' := IoNext(sys, ClientFlush(ok));
      SizesOk(sys') && SessionBytes(sys') && LoopBytes(sys')
  {
    ConcatTail(sys.h.clientLog, sys.h.loopStart, sys.c.pending);
  }

  /** A chunk of stdin extends the escape machine's output exactly by what it makes of that chunk alone. */
  lemma {:induction false} ChunkOutput(typed: seq<byte>, chunk: seq<byte>)
    ensures
      var r := Escape.FeedAll(Escape.Start(), typed);
      var f := Escape.FeedAll(Escape.Run(r.state, [], false), chunk);
      !r.gone ==> Escape.FeedAll(Escape.Start(), typed + chunk) == Escape.Run(f.state, r.out + f.out, f.gone)
  {
    var r := Escape.FeedAll(Escape.Start(), typed);
    Escape.ChunkingIgnored(Escape.Start(), typed, chunk);
    Escape.OutputFrames(r.state, r.out, chunk);
  }

  lemma {:induction false} StdinSizes(sys: System, chunk: seq<byte>, ok: bool)
    requires SizesOk(sys) && IoEnabled(sys, Stdin(chunk, ok))
    ensures SizesOk(IoNext(sys, Stdin(chunk, ok)))
  {
    Escape.OutputBound(sys.c.esc, chunk);
  }

  lemma {:induction false} AppendMore(a: seq<byte>, p: seq<byte>, q: seq<byte>)
    ensures a + (p + q) == a + p + q
    ensures a <= a + q
  {
  }

  /** Whether it is flushed, kept or discarded by ~., the chunk's output is accounted for. */
  lemma {:induction false} StdinLoopBytes(sys: System, chunk: seq<byte>, ok: bool)
    requires LoopBytes(sys) && IoEnabled(sys, Stdin(chunk, ok))
    ensures LoopBytes(IoNext(sys, Stdin(chunk, ok)))
  {
    var sys', f := IoNext(sys, Stdin(chunk, ok)), C.Filtered(sys.c, chunk);
    var stored := Concat(sys.h.clientLog[sys.h.loopStart..]);
    ChunkOutput(sys.h.typed, chunk);
    AppendMore(stored, sys.c.pending, f.out);
    AppendMore(stored + sys.c.pending, [], f.out);
    if sys'.h.clientLog != sys.h.clientLog {
      ConcatTail(sys.h.clientLog, sys.h.loopStart, sys.c.pending + f.out);
      assert sys'.c.pending == [];
    }
  }

  lemma {:induction false} IoCounts(sys: System, st: IoStep)
    requires SizesOk(sys) && SessionBytes(sys) && LoopBytes(sys) && ClientControl(sys) && IoEnabled(sys, st)
    ensures
      var sys' := IoNext(sys, st);
      SizesOk(sys') && SessionBytes(sys') && LoopBytes(sys')
  {
    match st
    case Stdin(chunk, ok) => StdinSizes(sys, chunk, ok); StdinLoopBytes(sys, chunk, ok);
    case ClientFlush(ok) => ClientFlushCounts(sys, ok);
    case _ =>
  }

  lemma {:induction false} IoKeeps(sys: System, st: IoStep)
    requires Inv(sys) && IoEnabled(sys, st)
    ensures Inv(IoNext(sys, st))
  {
    IoControl(sys, st);
    IoQueue(sys, st);
    IoDownActs(sys, st);
    IoUpActs(sys, st);
    ActsKeepLanes(sys, IoNext(sys, st), IoDown(sys, st), IoUp(sys, st));
    IoCounts(sys, st);
  }

  // ---- Whole runs --------------------------------------------------------------------------

  lemma {:induction false} StepKeeps(sys: System, st: Step)
    requires Inv(sys) && Enabled(sys, st)
    ensures Inv(Next(sys, st))
  {
    match st
    case Loop(a) => LoopKeeps(sys, a);
    case Accepting(b) => AcceptKeeps(sys, b);
    case Reader(r) => ReaderKeeps(sys, r);
    case Connect(d) => ConnectKeeps(sys, d);
    case Io(i) => IoKeeps(sys, i);
  }

  lemma {:induction false} RunKeeps(sys: System, steps: seq<Step>)
    requires Inv(sys) && Exec(sys, steps).Some?
    ensures Inv(Exec(sys, steps).value)
    decreases |steps|
  {
    if steps != [] {
      StepKeeps(sys, steps[0]);
      RunKeeps(Next(sys, steps[0]), steps[1..]);
    }
  }

  lemma {:induction false} InitLanes(sys: System, session: Limits, client: Limits)
    requires session.slots >= 1 && client.slots >= 1
    requires Down(sys) == L.Initial(session) && Up(sys) == L.Initial(client)
    ensures L.Inv(Down(sys)) && L.Inv(Up(sys))
  {
    L.InitialInv(session);
    L.InitialInv(client);
  }

  lemma {:induction false} InitControl(sessionReplay: int, clientReplay: int)
    ensures
      var sys := Init(sessionReplay, clientReplay);
      SessionControl(sys) && ClientControl(sys) && QueueOk(sys) && SizesOk(sys)
  {
  }

  lemma {:induction false} InitBytes(sessionReplay: int, clientReplay: int)
    ensures
      var sys := Init(sessionReplay, clientReplay);
      SessionBytes(sys) && LoopBytes(sys)
  {
    assert Escape.FeedAll(Escape.Start(), []) == Escape.Start();
  }

  lemma {:induction false} InitInv(sessionReplay: int, clientReplay: int)
    ensures Inv(Init(sessionReplay, clientReplay))
  {
    InitLanes(Init(sessionReplay, clientReplay), LimitsFor(sessionReplay), LimitsFor(clientReplay));
    InitControl(sessionReplay, clientReplay);
    InitBytes(sessionReplay, clientReplay);
  }

  lemma {:induction false} ReachableInv(sessionReplay: int, clientReplay: int, steps: seq<Step>)
    requires Exec(Init(sessionReplay, clientReplay), steps).Some?
    ensures Inv(Exec(Init(sessionReplay, clientReplay), steps).value)
  {
    InitInv(sessionReplay, clientReplay);
    RunKeeps(Init(sessionReplay, clientReplay), steps);
  }
}
