/** The session's event handlers (internal/session/session.go) as functions on its state. What the network
    and the PTY answer comes in as a boolean; what goes out is returned beside the new state. */
module SessionModel {
  import opened Bytes
  import opened ReplayLog
  import opened Packets
  import Coalesce

  const PTY_READ_BUF_SIZE: nat := 32 * 1024

  /** Looping is the head of the select loop; the next two are inside handleNewConn. */
  datatype Phase = Looping | AwaitingInfo | Replaying(rest: seq<Entry>) | Exited

  datatype Session = Session(
    limits: Limits,
    pending: seq<byte>,     // bytes in the coalescer
    sendSeq: nat,
    recvSeq: nat,
    buf: seq<Entry>,        // entries in the catchup buffer
    conn: Option<ConnId>,
    spawned: bool,          // ptmx != nil
    phase: Phase
  )

  /** A Data message that a handler puts on the current connection, if any. */
  datatype Effect = Effect(state: Session, sent: Option<Entry>)

  /** What a reader goroutine reports, tagged with its connection. */
  datatype What = GotData(e: Entry) | GotShutdown | GotOther | ReadFailed

  datatype Event = Event(conn: ConnId, what: What)

  datatype Handled = Handled(state: Session, written: Option<Entry>)

  function Start(limits: Limits): Session { Session(limits, [], 0, 0, [], None, false, Looping) }

  function CloseConn(s: Session): Session { s.(conn := None) }

  /** Any return from Run, with its deferred closeConn. */
  function Quit(s: Session): Session { CloseConn(s).(phase := Exited) }

  /** Gives a payload the next number and keeps it for replay. */
  function StoreNext(s: Session, data: seq<byte>): Session {
    s.(sendSeq := s.sendSeq + 1, buf := Stored(s.buf, Entry(s.sendSeq + 1, data), s.limits))
  }

  /** WriteData on the current connection, if there is one; a failure closes it. */
  function Write(s: Session, e: Entry, writeOk: bool): Effect {
    if s.conn.None? then Effect(s, None)
    else if writeOk then Effect(s, Some(e))
    else Effect(CloseConn(s), None)
  }

  function Flush(s: Session, writeOk: bool): Effect {
    if s.pending == [] then Effect(s, None)
    else Write(StoreNext(s.(pending := []), s.pending), Entry(s.sendSeq + 1, s.pending), writeOk)
  }

  function TakeChunk(s: Session, data: seq<byte>, writeOk: bool): Effect {
    var s' := s.(pending := s.pending + data);
    if data != [] && |s'.pending| >= Coalesce.THRESHOLD then Flush(s', writeOk) else Effect(s', None)
  }

  function HandleEvent(s: Session, ev: Event, ptyOk: bool): Handled {
    if s.conn != Some(ev.conn) then Handled(s, None)
    else match ev.what
      case ReadFailed => Handled(CloseConn(s), None)
      case GotShutdown => Handled(Quit(s), None)
      case GotOther => Handled(s, None)
      case GotData(e) =>
        if s.spawned && !ptyOk then Handled(s, None)
        else Handled(s.(recvSeq := e.seqNo), if s.spawned then Some(e) else None)
  }

  /** handleNewConn up to and including the SequenceHeader: the old connection is gone before the flush. */
  function Accept(s: Session, c: ConnId, headerOk: bool): Session {
    var s' := Flush(CloseConn(s), true).state;
    if headerOk then s'.(conn := Some(c), phase := AwaitingInfo) else s'
  }

  /** The TerminalInfo read, the PTY spawn and the replay list. A failed spawn ends the session. */
  function GetInfo(s: Session, infoOk: bool, spawnOk: bool, lastClientSeq: nat): Session {
    if !infoOk then CloseConn(s).(phase := Looping)
    else if !s.spawned && !spawnOk then Quit(s)
    else s.(spawned := true, phase := Replaying(Since(s.buf, lastClientSeq)))
  }

  function ReplayOne(s: Session, writeOk: bool): Effect
    requires s.phase.Replaying? && s.phase.rest != []
  {
    if writeOk then Effect(s.(phase := Replaying(s.phase.rest[1..])), Some(s.phase.rest[0]))
    else Effect(CloseConn(s).(phase := Looping), None)
  }

  function StartReaders(s: Session): Session { s.(phase := Looping) }

  // ---- handleNewConn run to its end --------------------------------------------------------

  datatype Connected = Connected(state: Session, sent: seq<Entry>)

  /** The replay loop when the first `accepts` writes succeed. */
  function ReplayAll(s: Session, accepts: nat): Connected
    requires s.phase.Replaying?
    decreases s.phase.rest
  {
    if s.phase.rest == [] then Connected(StartReaders(s), [])
    else if accepts == 0 then Connected(ReplayOne(s, false).state, [])
    else
      var first := ReplayOne(s, true);
      var more := ReplayAll(first.state, accepts - 1);
      Connected(more.state, [s.phase.rest[0]] + more.sent)
  }

  /** handleNewConn after the SequenceHeader was written. */
  function Finish(a: Session, last: nat, infoOk: bool, spawnOk: bool, accepts: nat): Connected {
    var g := GetInfo(a, infoOk, spawnOk, last);
    if g.phase.Replaying? then ReplayAll(g, accepts) else Connected(g, [])
  }

  function Connect(s: Session, c: ConnId, last: nat, headerOk: bool, infoOk: bool, spawnOk: bool, accepts: nat)
    : Connected
  {
    var a := Accept(s, c, headerOk);
    if headerOk then Finish(a, last, infoOk, spawnOk, accepts) else Connected(a, [])
  }

  // ---- The select loop ---------------------------------------------------------------------

  /** What one turn of the loop may receive. FlushDue is the coalescer's timer or the PTY channel closing;
      HeartbeatLost a heartbeat that failed or found the client silent; AcceptFailed an accept error, after the
      context ended or not; Stopping the shell's exit or the end of the context. */
  datatype Input =
    | PtyData(data: seq<byte>, now: int, ok: bool)
    | FlushDue(ok: bool)
    | Stream(ev: Event, ok: bool)
    | NewConn(c: ConnId, last: nat, headerOk: bool, infoOk: bool, spawnOk: bool, accepts: nat)
    | HeartbeatLost
    | AcceptFailed(cancelled: bool)
    | Stopping(ok: bool)

  /** The state, what was sent as Data and what was written to the PTY. */
  datatype Turn = Turn(state: Session, sent: seq<Packet>, written: seq<Entry>)

  function React(s: Session, i: Input): Turn {
    match i
    case PtyData(data, _, ok) => var r := TakeChunk(s, data, ok); Turn(r.state, Tag(s.conn, Listed(r.sent)), [])
    case FlushDue(ok) => var r := Flush(s, ok); Turn(r.state, Tag(s.conn, Listed(r.sent)), [])
    case Stream(ev, ok) => var r := HandleEvent(s, ev, ok); Turn(r.state, [], Listed(r.written))
    case NewConn(c, last, headerOk, infoOk, spawnOk, accepts) =>
      var r := Connect(s, c, last, headerOk, infoOk, spawnOk, accepts); Turn(r.state, Tag(Some(c), r.sent), [])
    case HeartbeatLost => Turn(CloseConn(s), [], [])
    case AcceptFailed(cancelled) => Turn(if cancelled then Quit(s) else s, [], [])
    case Stopping(ok) => var r := Flush(s, ok); Turn(Quit(r.state), Tag(s.conn, Listed(r.sent)), [])
  }

  function Then(t: Turn, u: Turn): Turn { Turn(u.state, t.sent + u.sent, t.written + u.written) }

  /** The loop from input k on, until it runs out of inputs or a turn ends the session. */
  function RunFrom(s: Session, inputs: seq<Input>, k: nat): Turn
    requires k <= |inputs|
    decreases |inputs| - k
  {
    if k == |inputs| || s.phase.Exited? then Turn(s, [], [])
    else
      var t := React(s, inputs[k]);
      Then(t, RunFrom(t.state, inputs, k + 1))
  }

  /** The loop writes the first `accepts` replay entries in order; the connection survives exactly when
      that is all of them. */
  lemma {:induction false} ReplayAllExact(s: Session, accepts: nat)
    requires s.phase.Replaying?
    ensures
      var r, rest := ReplayAll(s, accepts), s.phase.rest;
      && r.sent == rest[..Min(accepts, |rest|)]
      && r.state == s.(phase := Looping, conn := if accepts >= |rest| then s.conn else None)
    decreases s.phase.rest
  {
    if s.phase.rest != [] && accepts > 0 {
      ReplayAllExact(ReplayOne(s, true).state, accepts - 1);
      TakeCons(s.phase.rest, Min(accepts, |s.phase.rest|) - 1);
    }
  }

  lemma {:induction false} ThenAssoc(t: Turn, u: Turn, v: Turn)
    ensures Then(Then(t, u), v) == Then(t, Then(u, v))
  {
    Assoc(t.sent, u.sent, v.sent);
    Assoc(t.written, u.written, v.written);
  }

  /** One turn taken off the front of the loop. */
  lemma {:induction false} RunUnfolds(s: Session, inputs: seq<Input>, k: nat, t: Turn, done: Turn)
    requires k < |inputs| && !s.phase.Exited? && t == React(s, inputs[k])
    ensures Then(done, RunFrom(s, inputs, k)) == Then(Then(done, t), RunFrom(t.state, inputs, k + 1))
    ensures t.state.phase.Exited? ==> RunFrom(t.state, inputs, k + 1) == Turn(t.state, [], [])
  {
    ThenAssoc(done, t, RunFrom(t.state, inputs, k + 1));
  }

  /** One more input: one more turn at the end of the run. */
  lemma {:induction false} RunSnoc(s: Session, inputs: seq<Input>, i: Input, k: nat)
    requires k <= |inputs| && !RunFrom(s, inputs, k).state.phase.Exited?
    ensures RunFrom(s, inputs + [i], k) == Then(RunFrom(s, inputs, k), React(RunFrom(s, inputs, k).state, i))
    decreases |inputs| - k
  {
    var longer := inputs + [i];
    if k == |inputs| {
      var last := React(s, i);
      assert longer[k] == i && RunFrom(last.state, longer, k + 1) == Turn(last.state, [], []);
    } else {
      assert longer[k] == inputs[k];
      var t := React(s, inputs[k]);
      RunSnoc(t.state, inputs, i, k + 1);
      var more := RunFrom(t.state, inputs, k + 1);
      ThenAssoc(t, more, React(more.state, i));
    }
  }

  /** Every turn ends back at the head of the loop, or ends the session. */
  lemma {:induction false} TurnSettles(s: Session, i: Input)
    requires s.phase.Looping?
    ensures React(s, i).state.phase.Looping? || React(s, i).state.phase.Exited?
  {
    if i.NewConn? {
      var g := GetInfo(Accept(s, i.c, i.headerOk), i.infoOk, i.spawnOk, i.last);
      if g.phase.Replaying? { ReplayAllExact(g, i.accepts); }
    }
  }
}

/** The same handlers as methods on a Session object that owns a real catchup buffer and coalescer. */
module SessionObject {
  import opened Bytes
  import opened ReplayLog
  import opened Packets
  import M = SessionModel
  import Catchup
  import Coalesce

  class Session {
    const buf: Catchup.Buffer
    const coal: Coalesce.Coalescer
    var sendSeq: nat
    var recvSeq: nat
    var conn: Option<ConnId>
    var spawned: bool

    ghost predicate Valid()
      reads this, buf, buf.entries
    {
      buf.Valid()
    }

    ghost function Abs(): M.Session
      requires Valid()
      reads this, buf, buf.entries, coal
    {
      M.Session(buf.Bounds(), coal.buf, sendSeq, recvSeq, buf.Queue(), conn, spawned, M.Looping)
    }

    constructor (replaySize: int)
      ensures Valid() && fresh(buf) && fresh(buf.entries) && fresh(coal)
      ensures Abs() == M.Start(LimitsFor(replaySize))
    {
      buf := new Catchup.Buffer(replaySize);
      coal := new Coalesce.Coalescer();
      sendSeq, recvSeq, conn, spawned := 0, 0, None, false;
    }

    method CloseConn()
      requires Valid()
      modifies this`conn
      ensures Valid() && Abs() == M.CloseConn(old(Abs()))
    {
      conn := None;
    }

    /** Gives a payload the next number and keeps it for replay. */
    method StoreNext(data: seq<byte>)
      requires Valid()
      modifies this`sendSeq, buf, buf.entries
      ensures Valid() && sendSeq == old(sendSeq) + 1
      ensures Abs() == M.StoreNext(old(Abs()), data)
    {
      sendSeq := sendSeq + 1;
      buf.Store(sendSeq, data);
    }

    /** The write that ends a flush: nothing without a connection, and a failed one closes it. */
    method WriteData(e: Entry, writeOk: bool) returns (sent: Option<Entry>)
      requires Valid()
      modifies this`conn
      ensures Valid() && M.Effect(Abs(), sent) == M.Write(old(Abs()), e, writeOk)
    {
      sent := None;
      if conn.Some? {
        if writeOk {
          sent := Some(e);
        } else {
          CloseConn();
        }
      }
    }

    /** Takes the coalesced bytes. */
    method TakePending() returns (data: seq<byte>)
      requires Valid()
      modifies coal
      ensures Valid() && data == old(coal.buf) && Abs() == old(Abs()).(pending := [])
    {
      data := coal.Flush();
    }

    /** Stores and numbers the coalesced bytes, and writes them to the connection if there is one. */
    method FlushCoalesced(writeOk: bool) returns (sent: Option<Entry>)
      requires Valid()
      modifies this, buf, buf.entries, coal
      ensures Valid() && M.Effect(Abs(), sent) == M.Flush(old(Abs()), writeOk)
    {
      var data := TakePending();
      if |data| == 0 {
        return None;
      }
      StoreNext(data);
      sent := WriteData(Entry(sendSeq, data), writeOk);
    }

    method TakePtyChunk(data: seq<byte>, now: int, writeOk: bool) returns (sent: Option<Entry>)
      requires Valid()
      modifies this, buf, buf.entries, coal
      ensures Valid() && M.Effect(Abs(), sent) == M.TakeChunk(old(Abs()), data, writeOk)
    {
      sent := None;
      var full := coal.Add(data, now);
      assert Abs() == old(Abs()).(pending := old(Abs()).pending + data);
      if full {
        sent := FlushCoalesced(writeOk);
      }
    }

    /** Returns the payload written to the PTY, and whether the session must end. */
    method HandleStreamEvent(ev: M.Event, ptyOk: bool) returns (written: Option<Entry>, shutdown: bool)
      requires Valid()
      modifies this
      ensures Valid()
      ensures shutdown <==> M.HandleEvent(old(Abs()), ev, ptyOk).state.phase == M.Exited
      ensures written == M.HandleEvent(old(Abs()), ev, ptyOk).written
      ensures Abs() == M.HandleEvent(old(Abs()), ev, ptyOk).state.(phase := M.Looping)
    {
      written, shutdown := None, false;
      if conn != Some(ev.conn) {
        return;
      }
      match ev.what {
        case ReadFailed =>
          CloseConn();
        case GotData(e) =>
          if spawned {
            if !ptyOk {
              return;
            }
            written := Some(e);
          }
          recvSeq := e.seqNo;
        case GotOther =>
        case GotShutdown =>
          CloseConn(); // Run's deferred closeConn
          shutdown := true;
      }
    }

    /** handleNewConn's first part: drop the old connection, flush while there is none, then attach. */
    method Attach(c: ConnId, headerOk: bool)
      requires Valid()
      modifies this, buf, buf.entries, coal
      ensures Valid() && Abs() == M.Accept(old(Abs()), c, headerOk).(phase := M.Looping)
    {
      CloseConn();
      var _ := FlushCoalesced(true);
      if headerOk {
        conn := Some(c);
      }
    }

    /** The replay loop: stops and closes at the first write that fails. */
    method WriteReplay(entries: seq<Entry>, accepts: nat) returns (sent: seq<Entry>)
      requires Valid()
      modifies this`conn
      ensures Valid() && sent == entries[..Min(accepts, |entries|)]
      ensures conn == if accepts >= |entries| then old(conn) else None
    {
      sent := [];
      var i := 0;
      while i < |entries|
        invariant 0 <= i <= |entries| && i <= accepts
        invariant sent == entries[..i]
        invariant conn == old(conn)
      {
        if i == accepts {
          CloseConn();
          return;
        }
        sent := sent + [entries[i]];
        i := i + 1;
      }
    }

    /** handleNewConn after the SequenceHeader: TerminalInfo, PTY spawn, replay. */
    method FinishHandshake(ghost a: M.Session, lastClientSeq: nat, infoOk: bool, spawnOk: bool, accepts: nat)
      returns (sent: seq<Entry>, fatal: bool)
      requires Valid() && a.phase == M.AwaitingInfo && Abs() == a.(phase := M.Looping)
      modifies this
      ensures Valid()
      ensures
        var r := M.Finish(a, lastClientSeq, infoOk, spawnOk, accepts);
        && sent == r.sent
        && Abs() == r.state.(phase := M.Looping)
        && (fatal <==> r.state.phase == M.Exited)
    {
      sent, fatal := [], false;
      if !infoOk {
        CloseConn();
        return;
      }
      if !spawned {
        if !spawnOk {
          CloseConn();
          return sent, true;
        }
        spawned := true;
      }
      var entries := buf.ReplaySince(lastClientSeq);
      ghost var g := M.GetInfo(a, infoOk, spawnOk, lastClientSeq);
      assert g == a.(spawned := true, phase := M.Replaying(entries));
      M.ReplayAllExact(g, accepts);
      sent := WriteReplay(entries, accepts);
    }

    /** A newly accepted connection. `accepts` is how many replay writes succeed; `fatal` reports a failed
        PTY spawn. */
    method HandleNewConn(c: ConnId, lastClientSeq: nat, headerOk: bool, infoOk: bool, spawnOk: bool, accepts: nat)
      returns (sent: seq<Entry>, fatal: bool)
      requires Valid()
      modifies this, buf, buf.entries, coal
      ensures Valid()
      ensures
        var r := M.Connect(old(Abs()), c, lastClientSeq, headerOk, infoOk, spawnOk, accepts);
        && sent == r.sent
        && Abs() == r.state.(phase := M.Looping)
        && (fatal <==> r.state.phase == M.Exited)
    {
      sent, fatal := [], false;
      Attach(c, headerOk);
      if headerOk {
        sent, fatal := FinishHandshake(M.Accept(old(Abs()), c, true), lastClientSeq, infoOk, spawnOk, accepts);
      }
    }

    /** One turn of the select loop. */
    method React(i: M.Input) returns (sent: seq<Packet>, written: seq<Entry>, exited: bool)
      requires Valid()
      modifies this, buf, buf.entries, coal
      ensures Valid()
      ensures
        var t := M.React(old(Abs()), i);
        && sent == t.sent
        && written == t.written
        && exited == t.state.phase.Exited?
        && Abs() == t.state.(phase := M.Looping)
        && (!exited ==> Abs() == t.state)
    {
      M.TurnSettles(Abs(), i);
      sent, written, exited := [], [], false;
      var current := conn;
      match i {
        case PtyData(data, now, ok) =>
          var e := TakePtyChunk(data, now, ok);
          sent := Tag(current, Listed(e));
        case FlushDue(ok) =>
          var e := FlushCoalesced(ok);
          sent := Tag(current, Listed(e));
        case Stream(ev, ok) =>
          var e;
          e, exited := HandleStreamEvent(ev, ok);
          written := Listed(e);
        case NewConn(c, last, headerOk, infoOk, spawnOk, accepts) =>
          var es;
          es, exited := HandleNewConn(c, last, headerOk, infoOk, spawnOk, accepts);
          sent := Tag(Some(c), es);
        case HeartbeatLost =>
          CloseConn();
        case AcceptFailed(cancelled) =>
          if cancelled {
            CloseConn();
            exited := true;
          }
        case Stopping(ok) =>
          var e := FlushCoalesced(ok);
          CloseConn();
          sent, exited := Tag(current, Listed(e)), true;
      }
    }

    /** The select loop over any list of inputs. */
    method Run(inputs: seq<M.Input>) returns (sent: seq<Packet>, written: seq<Entry>, exited: bool)
      requires Valid()
      modifies this, buf, buf.entries, coal
      ensures Valid()
      ensures
        var t := M.RunFrom(old(Abs()), inputs, 0);
        && sent == t.sent
        && written == t.written
        && exited == t.state.phase.Exited?
        && Abs() == t.state.(phase := M.Looping)
    {
      sent, written, exited := [], [], false;
      ghost var whole := M.RunFrom(Abs(), inputs, 0);
      var k := 0;
      while k < |inputs|
        invariant 0 <= k <= |inputs| && Valid() && !exited
        invariant whole == M.Then(M.Turn(Abs(), sent, written), M.RunFrom(Abs(), inputs, k))
      {
        ghost var t, done := M.React(Abs(), inputs[k]), M.Turn(Abs(), sent, written);
        M.RunUnfolds(Abs(), inputs, k, t, done);
        var out, pty;
        out, pty, exited := React(inputs[k]);
        sent, written := sent + out, written + pty;
        if exited {
          return;
        }
        k := k + 1;
      }
    }
  }
}
