/** When a session ends, when it loses its connection, what a turn of its loop does: in terms of the inputs and the
    fields alone. */
module SessionLife {
  import opened Bytes
  import opened ReplayLog
  import opened Packets
  import opened SessionModel

  // ---- One flush ---------------------------------------------------------------------------

  /** A flush numbers and retains the pending bytes, sends them if there is a connection, and loses the connection
      exactly if that write fails; without pending bytes nothing happens. */
  lemma {:induction false} FlushLaw(s: Session, ok: bool)
    ensures s.pending == [] ==> Flush(s, ok) == Effect(s, None)
    ensures s.pending != [] ==>
              var r, e := Flush(s, ok), Entry(s.sendSeq + 1, s.pending);
              && r.state.pending == [] && r.state.sendSeq == s.sendSeq + 1
              && r.state.buf != [] && r.state.buf[|r.state.buf| - 1] == e
              && r.sent == (if s.conn.Some? && ok then Some(e) else None)
              && r.state.conn == (if s.conn.Some? && !ok then None else s.conn)
              && r.state.recvSeq == s.recvSeq && r.state.spawned == s.spawned && r.state.phase == s.phase
  {
  }

  /** A chunk waits for the timer until 32 KB are pending, and then everything is flushed at once. */
  lemma {:induction false} ChunkLaw(s: Session, data: seq<byte>, ok: bool)
    requires data != []
    ensures |s.pending| + |data| < 32768 ==>
              TakeChunk(s, data, ok) == Effect(s.(pending := s.pending + data), None)
    ensures |s.pending| + |data| >= 32768 ==> TakeChunk(s, data, ok) == Flush(s.(pending := s.pending + data), ok)
  {
  }

  // ---- One event ---------------------------------------------------------------------------

  /** The event comes from the current connection. */
  predicate Current(s: Session, ev: Event) { s.conn == Some(ev.conn) }

  /** A stale event changes nothing; a read error costs the connection and nothing else; a Shutdown ends the session;
      Data moves recvSeq, and reaches the PTY, unless that write fails; anything else is ignored. */
  lemma {:induction false} EventLaw(s: Session, ev: Event, ok: bool)
    ensures
      var r := HandleEvent(s, ev, ok);
      && (!Current(s, ev) ==> r == Handled(s, None))
      && (Current(s, ev) && ev.what.ReadFailed? ==> r == Handled(s.(conn := None), None))
      && (Current(s, ev) && ev.what.GotShutdown? ==> r == Handled(s.(conn := None, phase := Exited), None))
      && (Current(s, ev) && ev.what.GotOther? ==> r == Handled(s, None))
      && (Current(s, ev) && ev.what.GotData? && s.spawned && ok ==>
            r == Handled(s.(recvSeq := ev.what.e.seqNo), Some(ev.what.e)))
      && (Current(s, ev) && ev.what.GotData? && s.spawned && !ok ==> r == Handled(s, None))
  {
  }

  // ---- One new connection ------------------------------------------------------------------

  /** The number of replay entries for a connection that declared `last`. */
  function Missing(s: Session, c: ConnId, last: nat): seq<Entry> {
    Since(Flush(s.(conn := None), true).state.buf, last)
  }

  /** The outcome of handleNewConn for every combination of answers: whatever was pending is flushed first and to
      nobody; the connection stays exactly if the header, TerminalInfo, the PTY and every replay write succeed; the
      session ends exactly if a PTY has to be spawned and cannot be; the Data sent is the replay up to the first failed
      write; and recvSeq does not move. */
  lemma {:induction false} ConnectLaw(s: Session, c: ConnId, last: nat, headerOk: bool, infoOk: bool, spawnOk: bool,
                                      accepts: nat)
    requires s.phase.Looping?
    ensures
      var r, replay := Connect(s, c, last, headerOk, infoOk, spawnOk, accepts), Missing(s, c, last);
      var through := headerOk && infoOk && (s.spawned || spawnOk);
      && r.state.pending == [] && r.state.recvSeq == s.recvSeq
      && r.state.sendSeq == s.sendSeq + (if s.pending == [] then 0 else 1)
      && r.state.buf == Flush(s.(conn := None), true).state.buf
      && r.sent == (if through then replay[..Min(accepts, |replay|)] else [])
      && r.state.conn == (if through && accepts >= |replay| then Some(c) else None)
      && r.state.spawned == (s.spawned || (headerOk && infoOk && spawnOk))
      && r.state.phase == (if headerOk && infoOk && !s.spawned && !spawnOk then Exited else Looping)
  {
    var g := GetInfo(Accept(s, c, headerOk), infoOk, spawnOk, last);
    if g.phase.Replaying? { ReplayAllExact(g, accepts); }
  }

  // ---- One turn ----------------------------------------------------------------------------

  /** The inputs that end a session: its shell or context ends, a Shutdown from the current client, or a PTY that cannot
      be spawned for the first client. */
  predicate Fatal(s: Session, i: Input) {
    || i.Stopping?
    || i == AcceptFailed(true)
    || (i.Stream? && Current(s, i.ev) && i.ev.what.GotShutdown?)
    || (i.NewConn? && i.headerOk && i.infoOk && !s.spawned && !i.spawnOk)
  }

  /** A turn ends the session if and only if its input is one of those. */
  lemma {:induction false} ExitsExactly(s: Session, i: Input)
    requires s.phase.Looping?
    ensures React(s, i).state.phase.Exited? <==> Fatal(s, i)
    ensures Fatal(s, i) ==> React(s, i).state.conn.None?
  {
    if i.NewConn? { ConnectLaw(s, i.c, i.last, i.headerOk, i.infoOk, i.spawnOk, i.accepts); }
  }

  /** The inputs that cost a session its current connection: those that end it, another connection, a lost heartbeat,
      a read error on this connection, and Data that cannot be written to it. */
  predicate Disconnecting(s: Session, i: Input) {
    || Fatal(s, i)
    || i.NewConn?
    || i.HeartbeatLost?
    || (i.Stream? && Current(s, i.ev) && i.ev.what.ReadFailed?)
    || (i.FlushDue? && s.pending != [] && !i.ok)
    || (i.PtyData? && i.data != [] && |s.pending| + |i.data| >= 32768 && !i.ok)
  }

  /** The connection is kept through every other input. */
  lemma {:induction false} KeepsConnection(s: Session, i: Input)
    requires s.phase.Looping? && s.conn.Some? && !i.NewConn?
    ensures React(s, i).state.conn == if Disconnecting(s, i) then None else s.conn
  {
  }

  /** The flushes of a turn: when there are bytes, at 32 KB, at the deadline, before a new connection and at the end. */
  predicate Flushes(s: Session, i: Input) {
    || (i.PtyData? && i.data != [] && |s.pending| + |i.data| >= 32768)
    || ((i.FlushDue? || i.Stopping? || i.NewConn?) && s.pending != [])
  }

  /** The bytes a flush takes. */
  function Flushed(s: Session, i: Input): seq<byte> { if i.PtyData? then s.pending + i.data else s.pending }

  /** What the input did to the numbering: a flush takes the next number and is retained under it; bytes that are not
      flushed stay pending. */
  ghost predicate Numbered(s: Session, i: Input, s': Session) {
    if Flushes(s, i) then
      && s'.sendSeq == s.sendSeq + 1 && s'.pending == []
      && s'.buf != [] && s'.buf[|s'.buf| - 1] == Entry(s.sendSeq + 1, Flushed(s, i))
    else
      s'.sendSeq == s.sendSeq && s'.buf == s.buf && s'.pending == Flushed(s, i)
  }

  lemma {:induction false} ChunkNumbers(s: Session, data: seq<byte>, now: int, ok: bool)
    requires s.phase.Looping?
    ensures Numbered(s, PtyData(data, now, ok), TakeChunk(s, data, ok).state)
  {
    if data == [] {
      assert s.pending + [] == s.pending;
    } else {
      ChunkLaw(s, data, ok);
      FlushLaw(s.(pending := s.pending + data), ok);
    }
  }

  lemma {:induction false} FlushNumbers(s: Session, i: Input, ok: bool)
    requires i == FlushDue(ok) || i == Stopping(ok)
    ensures Numbered(s, i, Flush(s, ok).state)
  {
    FlushLaw(s, ok);
  }

  lemma {:induction false} TurnNumbers(s: Session, i: Input)
    requires s.phase.Looping? && !i.NewConn?
    ensures Numbered(s, i, React(s, i).state)
  {
    match i
    case PtyData(data, now, ok) => ChunkNumbers(s, data, now, ok);
    case FlushDue(ok) => FlushNumbers(s, i, ok);
    case Stopping(ok) => FlushNumbers(s, i, ok);
    case Stream(ev, ok) =>
    case HeartbeatLost =>
    case AcceptFailed(_) =>
  }

  /** A turn advances sendSeq exactly if it flushes, by one, and retains what it flushed under that number; bytes it
      does not flush stay pending. */
  lemma {:induction false} NumbersExactly(s: Session, i: Input)
    requires s.phase.Looping?
    ensures Numbered(s, i, React(s, i).state)
  {
    if i.NewConn? {
      ConnectLaw(s, i.c, i.last, i.headerOk, i.infoOk, i.spawnOk, i.accepts);
      FlushLaw(s.(conn := None), true);
    } else {
      TurnNumbers(s, i);
    }
  }

  /** What a turn other than a new connection sends: the flushed bytes under their number, if there is a connection that
      takes them. */
  lemma {:induction false} SendsExactly(s: Session, i: Input)
    requires s.phase.Looping? && !i.NewConn?
    ensures React(s, i).sent ==
            if Flushes(s, i) && s.conn.Some? && i.ok then [Packet(s.conn.value, Entry(s.sendSeq + 1, Flushed(s, i)))]
            else []
  {
  }

  /** recvSeq moves only with Data from the current connection that reached the PTY. */
  lemma {:induction false} AcknowledgesExactly(s: Session, i: Input)
    requires s.phase.Looping? && (s.conn.Some? ==> s.spawned)
    ensures
      var t := React(s, i);
      if i.Stream? && Current(s, i.ev) && i.ev.what.GotData? && i.ok
      then t.state.recvSeq == i.ev.what.e.seqNo && t.written == [i.ev.what.e]
      else t.state.recvSeq == s.recvSeq && t.written == []
  {
    if i.NewConn? { ConnectLaw(s, i.c, i.last, i.headerOk, i.infoOk, i.spawnOk, i.accepts); }
  }

  // ---- Whole runs --------------------------------------------------------------------------

  /** Inputs that can end a session in some state. */
  predicate MayEnd(i: Input) {
    || i.Stopping? || i == AcceptFailed(true) || (i.Stream? && i.ev.what.GotShutdown?)
    || (i.NewConn? && i.headerOk && i.infoOk && !i.spawnOk)
  }

  lemma {:induction false} NetworkTurn(s: Session, i: Input)
    requires s.phase.Looping? && !MayEnd(i)
    ensures React(s, i).state.phase.Looping?
  {
    ExitsExactly(s, i);
    TurnSettles(s, i);
  }

  /** No list of network failures ends a session: lost heartbeats, read errors, failed headers, handshakes, replays and
      writes, in any order and number, leave it at its loop head, ready for the next connection. */
  lemma {:induction false} NetworkNeverEnds(s: Session, inputs: seq<Input>, k: nat)
    requires k <= |inputs| && s.phase.Looping?
    requires forall j :: k <= j < |inputs| ==> !MayEnd(inputs[j])
    ensures RunFrom(s, inputs, k).state.phase.Looping?
    decreases |inputs| - k
  {
    if k < |inputs| {
      NetworkTurn(s, inputs[k]);
      NetworkNeverEnds(React(s, inputs[k]).state, inputs, k + 1);
    }
  }

  /** One more input ends a run that is not over if and only if it is fatal where it is met. */
  lemma {:induction false} LastTurnEnds(s: Session, inputs: seq<Input>, last: Input)
    requires RunFrom(s, inputs, 0).state.phase.Looping?
    ensures RunFrom(s, inputs + [last], 0).state.phase.Exited? <==> Fatal(RunFrom(s, inputs, 0).state, last)
  {
    RunSnoc(s, inputs, last, 0);
    ExitsExactly(RunFrom(s, inputs, 0).state, last);
  }

  /** The first n inputs end the run. */
  predicate EndedBy(s: Session, inputs: seq<Input>, n: nat) {
    n <= |inputs| && RunFrom(s, inputs[..n], 0).state.phase.Exited?
  }

  lemma {:induction false} EndsOnce(s: Session, inputs: seq<Input>, n: nat)
    requires 1 <= n <= |inputs| && s.phase.Looping?
    ensures EndedBy(s, inputs, n) <==> EndedBy(s, inputs, n - 1) || FatalAt(s, inputs, n - 1)
  {
    RunSettled(s, inputs[..n - 1], 0);
    if EndedBy(s, inputs, n - 1) {
      ExitedPrefix(s, inputs, n - 1, n, 0);
    } else {
      SliceSnoc(inputs, 0, n);
      LastTurnEnds(s, inputs[..n - 1], inputs[n - 1]);
    }
  }

  /** A run is over if and only if some turn's input was fatal in the state it met. */
  lemma {:induction false} RunEndsExactly(s: Session, inputs: seq<Input>, n: nat)
    requires n <= |inputs| && s.phase.Looping?
    ensures EndedBy(s, inputs, n) <==> exists k :: 0 <= k < n && FatalAt(s, inputs, k)
    decreases n
  {
    if n == 0 {
      assert inputs[..0] == [];
    } else {
      EndsOnce(s, inputs, n);
      RunEndsExactly(s, inputs, n - 1);
    }
  }

  /** Input k is fatal where the run meets it. */
  predicate FatalAt(s: Session, inputs: seq<Input>, k: nat) {
    && k < |inputs|
    && RunFrom(s, inputs[..k], 0).state.phase.Looping?
    && Fatal(RunFrom(s, inputs[..k], 0).state, inputs[k])
  }

  lemma {:induction false} RunSettled(s: Session, inputs: seq<Input>, k: nat)
    requires k <= |inputs| && (s.phase.Looping? || s.phase.Exited?)
    ensures RunFrom(s, inputs, k).state.phase.Looping? || RunFrom(s, inputs, k).state.phase.Exited?
    decreases |inputs| - k
  {
    if k < |inputs| && s.phase.Looping? {
      TurnSettles(s, inputs[k]);
      RunSettled(React(s, inputs[k]).state, inputs, k + 1);
    }
  }

  /** What follows the end of a run changes nothing. */
  lemma {:induction false} ExitedPrefix(s: Session, inputs: seq<Input>, m: nat, n: nat, k: nat)
    requires k <= m <= n <= |inputs| && RunFrom(s, inputs[..m], k).state.phase.Exited?
    ensures RunFrom(s, inputs[..n], k) == RunFrom(s, inputs[..m], k)
    decreases m - k
  {
    if k < m && !s.phase.Exited? {
      assert inputs[..m][k] == inputs[..n][k];
      ExitedPrefix(React(s, inputs[k]).state, inputs, m, n, k + 1);
    }
  }
}

/** When the client leaves ioLoop and for what reason, when Run returns, what a turn does: in terms of the inputs and
    the fields alone. */
module ClientLife {
  import opened Bytes
  import opened ReplayLog
  import opened Packets
  import opened ClientModel
  import Escape

  // ---- One flush ---------------------------------------------------------------------------

  /** A flush numbers and retains the pending bytes and sends them; a failed write gives up the connection. */
  lemma {:induction false} FlushLaw(c: Client, ok: bool)
    ensures c.pending == [] ==> Flush(c, ok) == Effect(c, None)
    ensures c.pending != [] ==>
              var r, e := Flush(c, ok), Entry(c.sendSeq + 1, c.pending);
              && r.state.pending == [] && r.state.sendSeq == c.sendSeq + 1
              && r.state.buf != [] && r.state.buf[|r.state.buf| - 1] == e
              && r.sent == (if ok then Some(e) else None)
              && (if ok then r.state.conn == c.conn && r.state.phase == c.phase
                  else r.state.conn.None? && r.state.phase.Idle?)
              && r.state.recvSeq == c.recvSeq && r.state.esc == c.esc
  {
  }

  /** A chunk of stdin: ~. ends the loop and throws the chunk and whatever is pending away; otherwise its output waits
      for the timer until 32 KB are pending, and then everything is flushed at once. */
  lemma {:induction false} StdinLaw(c: Client, data: seq<byte>, ok: bool)
    ensures
      var f := Filtered(c, data);
      var more := c.(esc := f.state, pending := c.pending + f.out);
      && (f.gone ==> Stdin(c, data, ok) == Effect(c.(conn := None, phase := Done), None))
      && (!f.gone && (f.out == [] || |c.pending| + |f.out| < 32768) ==> Stdin(c, data, ok) == Effect(more, None))
      && (!f.gone && f.out != [] && |c.pending| + |f.out| >= 32768 ==> Stdin(c, data, ok) == Flush(more, ok))
  {
  }

  // ---- One turn of ioLoop ------------------------------------------------------------------

  /** The input makes the loop flush: at 32 KB, at the deadline, at the end of stdin. A loop that finds itself overdue
      does not. */
  predicate Flushes(c: Client, i: Input) {
    || (i.StdinChunk? && !i.overdue && !Filtered(c, i.data).gone && Filtered(c, i.data).out != []
        && |c.pending| + |Filtered(c, i.data).out| >= 32768)
    || (i.DeadlineDue? && !i.overdue && c.pending != [])
    || (i.StdinClosed? && c.pending != [])
  }

  /** The bytes a flush takes. */
  function Flushed(c: Client, i: Input): seq<byte> {
    if i.StdinChunk? then c.pending + Filtered(c, i.data).out else c.pending
  }

  predicate WriteOk(i: Input) { (i.StdinChunk? || i.DeadlineDue? || i.StdinClosed?) && i.ok }

  /** The network is gone: a failed read or write, or 15 s of silence noticed before any of the loop's writes. */
  predicate NetworkLost(c: Client, i: Input) {
    || i.ControlFailed?
    || (i.DataFailed? && !i.shutdownSeen)
    || (i.HeartbeatDue? && (i.overdue || !i.ok))
    || ((i.StdinChunk? || i.DeadlineDue?) && i.overdue)
    || ((i.StdinChunk? || i.DeadlineDue?) && Flushes(c, i) && !i.ok)
  }

  /** Each reason to leave the loop is given for exactly these inputs, and for no other input is the loop left. */
  lemma {:induction false} LeavesExactly(c: Client, i: Input)
    requires c.conn.Some?
    ensures
      var reason := React(c, i).reason;
      && (reason == Some(ExitNetwork) <==> NetworkLost(c, i))
      && (reason == Some(ExitEscape) <==> i.StdinChunk? && !i.overdue && Filtered(c, i.data).gone)
      && (reason == Some(ExitShutdown) <==> i.ShutdownMessage? || (i.DataFailed? && i.shutdownSeen))
      && (reason == Some(ExitStdinEOF) <==> i.StdinClosed? || (i.DataMessage? && !i.ok))
      && (reason == Some(ExitCancelled) <==> i.Cancelled?)
  {
  }

  /** A turn sends the flushed bytes under the next number, if the write succeeds, and nothing else. */
  lemma {:induction false} SendsExactly(c: Client, i: Input)
    ensures React(c, i).sent == if Flushes(c, i) && WriteOk(i) then [Entry(c.sendSeq + 1, Flushed(c, i))] else []
  {
  }

  /** A turn advances sendSeq exactly if it flushes, by one, and retains what it flushed under that number, sent or
      not. */
  ghost predicate Numbered(c: Client, i: Input, c': Client) {
    if Flushes(c, i) then
      && c'.sendSeq == c.sendSeq + 1 && c'.pending == []
      && c'.buf != [] && c'.buf[|c'.buf| - 1] == Entry(c.sendSeq + 1, Flushed(c, i))
    else
      c'.sendSeq == c.sendSeq && c'.buf == c.buf
  }

  lemma {:induction false} NumbersExactly(c: Client, i: Input)
    ensures Numbered(c, i, React(c, i).state)
  {
    match i
    case StdinChunk(data, _, overdue, ok) =>
      if !overdue { StdinNumbers(c, data, i.now, ok); }
    case StdinClosed(ok) => FlushLaw(c, ok);
    case DeadlineDue(_, ok) => FlushLaw(c, ok);
    case _ =>
  }

  lemma {:induction false} StdinNumbers(c: Client, data: seq<byte>, now: int, ok: bool)
    ensures Numbered(c, StdinChunk(data, now, false, ok), Stdin(c, data, ok).state)
  {
    var f := Filtered(c, data);
    StdinLaw(c, data, ok);
    FlushLaw(c.(esc := f.state, pending := c.pending + f.out), ok);
  }

  /** What a turn writes out, and recvSeq: the Data, if stdout takes it; after a Shutdown, what the drain found. */
  lemma {:induction false} ShowsExactly(c: Client, i: Input)
    ensures
      var t := React(c, i);
      && t.written == (if i.DataMessage? && i.ok then [i.e]
                       else if i.ShutdownMessage? then Drained(i.arrivals, i.accepts, 0) else [])
      && t.state.recvSeq == (if t.written == [] then c.recvSeq else t.written[|t.written| - 1].seqNo)
  {
    if i.StdinChunk? { StdinLaw(c, i.data, i.ok); }
  }

  // ---- When ioLoop ends by ~. --------------------------------------------------------------

  /** Everything typed from input k on. */
  function Typed(inputs: seq<Input>, k: nat): seq<byte>
    requires k <= |inputs|
    decreases |inputs| - k
  {
    if k == |inputs| then []
    else (if inputs[k].StdinChunk? then inputs[k].data else []) + Typed(inputs, k + 1)
  }

  /** The escape machine has read `typed` since the connection began and seen no ~. yet. */
  ghost predicate HasRead(c: Client, typed: seq<byte>) {
    var r := Escape.FeedAll(Escape.Start(), typed);
    !r.gone && c.esc == r.state
  }

  lemma {:induction false} ReadsOn(c: Client, typed: seq<byte>, data: seq<byte>)
    requires HasRead(c, typed)
    ensures
      var r, f := Escape.FeedAll(Escape.Start(), typed + data), Filtered(c, data);
      r.gone == f.gone && r.state == f.state
  {
    var r := Escape.FeedAll(Escape.Start(), typed);
    Escape.ChunkingIgnored(Escape.Start(), typed, data);
    Escape.OutputFrames(r.state, r.out, data);
  }

  lemma {:induction false} TurnReads(c: Client, i: Input, typed: seq<byte>)
    requires HasRead(c, typed) && React(c, i).reason.None?
    ensures HasRead(React(c, i).state, typed + (if i.StdinChunk? then i.data else []))
  {
    if i.StdinChunk? {
      ReadsOn(c, typed, i.data);
      StdinLaw(c, i.data, i.ok);
      FlushLaw(c.(esc := Filtered(c, i.data).state, pending := c.pending + Filtered(c, i.data).out), i.ok);
    } else {
      assert typed + [] == typed;
      FlushLaw(c, WriteOk(i));
    }
  }

  lemma {:induction false} EscapeWasSeen(c: Client, inputs: seq<Input>, k: nat, typed: seq<byte>)
    requires k <= |inputs| && HasRead(c, typed) && c.conn.Some? && c.phase.Running?
    requires RunFrom(c, inputs, k).reason == Some(ExitEscape)
    ensures Escape.FeedAll(Escape.Start(), typed + Typed(inputs, k)).gone
    decreases |inputs| - k
  {
    var i := inputs[k];
    var data := if i.StdinChunk? then i.data else [];
    var all := typed + Typed(inputs, k);
    Assoc(typed, data, Typed(inputs, k + 1));
    LeavesExactly(c, i);
    if React(c, i).reason.Some? {
      ReadsOn(c, typed, data);
      assert all[..|typed + data|] == typed + data;
      Escape.RestIgnored(Escape.Start(), all, |typed + data|);
    } else {
      TurnReads(c, i, typed);
      StaysConnected(c, i);
      EscapeWasSeen(React(c, i).state, inputs, k + 1, typed + data);
    }
  }

  /** ioLoop ends for ~. only if what was typed on this connection contains one at its start or right after CR or LF,
      whatever else happened. */
  lemma {:induction false} EscapeNeedsTildeDot(c: Client, inputs: seq<Input>)
    requires c.conn.Some? && RunFrom(EnterLoop(c), inputs, 0).reason == Some(ExitEscape)
    ensures exists i: nat :: Escape.TildeDot(Typed(inputs, 0), i)
  {
    assert Escape.FeedAll(Escape.Start(), []) == Escape.Start();
    EscapeWasSeen(EnterLoop(c), inputs, 0, []);
    assert [] + Typed(inputs, 0) == Typed(inputs, 0);
    Escape.DisconnectsExactly(Typed(inputs, 0));
  }

  // ---- One round of Run --------------------------------------------------------------------

  /** The round gets through to ioLoop. */
  predicate Through(c: Client, r: Round) {
    r.Dials? && r.header.Some? && r.accepts >= |Since(c.buf, r.header.value)| && r.infoOk
  }

  /** The ioLoop of a round that gets through. */
  function LoopOf(c: Client, r: Round): Turn
    requires r.Dials?
  {
    RunFrom(EnterLoop(Dialed(c, r.id)), r.inputs, 0)
  }

  /** Run returns for every reason but a lost network, and for that one if the context ends. */
  predicate Final(c: Client, r: Round) {
    if Through(c, r) then LoopOf(c, r).reason.Some? && (LoopOf(c, r).reason != Some(ExitNetwork) || r.cancelled)
    else r.cancelled
  }

  /** After a round Run has returned, is still in its ioLoop, or dials again, each exactly when it should. */
  lemma {:induction false} RoundLaw(c: Client, r: Round)
    requires c.phase.Idle? && c.conn.None?
    ensures
      var t := PlayRound(c, r);
      && (t.state.phase.Done? <==> Final(c, r))
      && (t.state.phase.Running? <==> Through(c, r) && LoopOf(c, r).reason.None?)
      && (t.state.phase.Idle? <==> !t.state.phase.Done? && !t.state.phase.Running?)
      && (t.state.conn == if t.state.phase.Running? then Some(r.id) else None)
  {
    if r.Dials? { RunningUntilReason(EnterLoop(Dialed(c, r.id)), r.inputs, 0); }
  }

  /** What a round sends and shows: the replay up to the first failed write, and what its ioLoop does. */
  lemma {:induction false} RoundSends(c: Client, r: Round)
    requires r.Dials? && r.header.Some?
    ensures
      var t, replay := PlayRound(c, r), Since(c.buf, r.header.value);
      if Through(c, r) then t.sent == Tag(Some(r.id), replay + LoopOf(c, r).sent) && t.written == LoopOf(c, r).written
      else t.sent == Tag(Some(r.id), replay[..Min(r.accepts, |replay|)]) && t.written == []
  {
  }

  // ---- Run ---------------------------------------------------------------------------------

  /** Inputs that make Run return: end of stdin, a Shutdown, a broken stdout, the end of the context. */
  predicate MayReturn(i: Input) {
    || i.StdinClosed? || i.ShutdownMessage? || (i.DataFailed? && i.shutdownSeen) || (i.DataMessage? && !i.ok)
    || i.Cancelled?
  }

  /** A round in which nothing but the network fails. */
  ghost predicate OnlyNetwork(r: Round) {
    && !r.cancelled
    && (r.Dials? ==>
          && (forall k :: 0 <= k < |r.inputs| ==> !MayReturn(r.inputs[k]))
          && (forall i: nat :: !Escape.TildeDot(Typed(r.inputs, 0), i)))
  }

  lemma {:induction false} LoopOnlyLost(c: Client, inputs: seq<Input>, k: nat)
    requires k <= |inputs| && c.conn.Some? && c.phase.Running?
    requires forall j :: k <= j < |inputs| ==> !MayReturn(inputs[j])
    ensures RunFrom(c, inputs, k).reason in {None, Some(ExitNetwork), Some(ExitEscape)}
    decreases |inputs| - k
  {
    if k < |inputs| {
      LeavesExactly(c, inputs[k]);
      StaysConnected(c, inputs[k]);
      if React(c, inputs[k]).reason.None? { LoopOnlyLost(React(c, inputs[k]).state, inputs, k + 1); }
    }
  }

  lemma {:induction false} NetworkRound(c: Client, r: Round)
    requires c.phase.Idle? && c.conn.None? && OnlyNetwork(r)
    ensures !PlayRound(c, r).state.phase.Done?
  {
    RoundLaw(c, r);
    if Through(c, r) {
      LoopOnlyLost(EnterLoop(Dialed(c, r.id)), r.inputs, 0);
      if LoopOf(c, r).reason == Some(ExitEscape) { EscapeNeedsTildeDot(Dialed(c, r.id), r.inputs); }
    }
  }

  /** No list of rounds in which only the network fails makes Run return: failed dials, exchanges, writes and reads, and
      silence, in any order and number. */
  lemma {:induction false} NetworkNeverReturns(c: Client, rounds: seq<Round>, k: nat)
    requires k <= |rounds| && c.phase.Idle? && c.conn.None?
    requires forall j :: k <= j < |rounds| ==> OnlyNetwork(rounds[j])
    ensures !PlayFrom(c, rounds, k).state.phase.Done?
    decreases |rounds| - k
  {
    if k < |rounds| {
      NetworkRound(c, rounds[k]);
      RoundLaw(c, rounds[k]);
      var c1 := PlayRound(c, rounds[k]).state;
      if c1.phase.Idle? { NetworkNeverReturns(c1, rounds, k + 1); }
    }
  }

  /** Round k is final where Run meets it. */
  predicate FinalAt(c: Client, rounds: seq<Round>, k: nat) {
    && k < |rounds|
    && PlayFrom(c, rounds[..k], 0).state.phase.Idle?
    && Final(PlayFrom(c, rounds[..k], 0).state, rounds[k])
  }

  predicate ReturnedBy(c: Client, rounds: seq<Round>, n: nat) {
    n <= |rounds| && PlayFrom(c, rounds[..n], 0).state.phase.Done?
  }

  /** Run is idle without a connection, in ioLoop, or has returned. */
  lemma {:induction false} PlaySettled(c: Client, rounds: seq<Round>, k: nat)
    requires k <= |rounds| && c.phase.Idle? && c.conn.None?
    ensures
      var c' := PlayFrom(c, rounds, k).state;
      c'.phase.Running? || c'.phase.Done? || (c'.phase.Idle? && c'.conn.None?)
    decreases |rounds| - k
  {
    if k < |rounds| {
      RoundLaw(c, rounds[k]);
      var c1 := PlayRound(c, rounds[k]).state;
      if c1.phase.Idle? { PlaySettled(c1, rounds, k + 1); }
    }
  }

  /** Once Run has returned, or while it is in an ioLoop that has not ended, further rounds change and send nothing. */
  lemma {:induction false} NothingAfter(c: Client, rounds: seq<Round>, m: nat, n: nat, k: nat)
    requires k <= m <= n <= |rounds| && !PlayFrom(c, rounds[..m], k).state.phase.Idle?
    ensures PlayFrom(c, rounds[..n], k) == PlayFrom(c, rounds[..m], k)
    decreases m - k
  {
    if k < m && c.phase.Idle? {
      assert rounds[..m][k] == rounds[..n][k];
      NothingAfter(PlayRound(c, rounds[k]).state, rounds, m, n, k + 1);
    }
  }

  lemma {:induction false} ReturnsOnce(c: Client, rounds: seq<Round>, n: nat)
    requires 1 <= n <= |rounds| && c.phase.Idle? && c.conn.None?
    ensures ReturnedBy(c, rounds, n) <==> ReturnedBy(c, rounds, n - 1) || FinalAt(c, rounds, n - 1)
  {
    PlaySettled(c, rounds[..n - 1], 0);
    var t := PlayFrom(c, rounds[..n - 1], 0);
    if t.state.phase.Idle? {
      SliceSnoc(rounds, 0, n);
      PlaySnoc(c, rounds[..n - 1], rounds[n - 1], 0);
      RoundLaw(t.state, rounds[n - 1]);
    } else {
      NothingAfter(c, rounds, n - 1, n, 0);
    }
  }

  /** Run has returned if and only if some round was final where Run met it. */
  lemma {:induction false} ReturnsExactly(c: Client, rounds: seq<Round>, n: nat)
    requires n <= |rounds| && c.phase.Idle? && c.conn.None?
    ensures ReturnedBy(c, rounds, n) <==> exists k :: 0 <= k < n && FinalAt(c, rounds, k)
    decreases n
  {
    if n == 0 {
      assert rounds[..0] == [];
    } else {
      ReturnsOnce(c, rounds, n);
      ReturnsExactly(c, rounds, n - 1);
    }
  }
}
