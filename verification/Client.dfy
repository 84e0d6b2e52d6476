/** The client's reconnect loop and ioLoop cases (internal/client/client.go) as functions on its state. */
module ClientModel {
  import opened Bytes
  import opened ReplayLog
  import opened Packets
  import Coalesce
  import Escape

  const STDIN_BUF_SIZE: nat := 32 * 1024

  /** Idle is the dial at the head of Run's loop; Replaying is handleSequenceExchange after the header;
      Running is ioLoop; Done is any return from Run. */
  datatype Phase = Idle | AwaitingHeader | Replaying(rest: seq<Entry>) | Running | Done

  datatype Client = Client(
    limits: Limits,
    pending: seq<byte>,      // bytes in the current ioLoop's coalescer
    esc: Escape.State,
    sendSeq: nat,
    recvSeq: nat,
    buf: seq<Entry>,
    conn: Option<ConnId>,
    phase: Phase
  )

  datatype Effect = Effect(state: Client, sent: Option<Entry>)

  function Start(limits: Limits): Client { Client(limits, [], Escape.AfterNewline, 0, 0, [], None, Idle) }

  function Dialed(c: Client, id: ConnId): Client { c.(conn := Some(id), phase := AwaitingHeader) }

  /** Any failure that makes Run close the connection and go round again. */
  function Drop(c: Client): Client { c.(conn := None, phase := Idle) }

  function Quit(c: Client): Client { c.(conn := None, phase := Done) }

  function GotHeader(c: Client, lastReceivedSeq: nat): Client {
    c.(phase := Replaying(Since(c.buf, lastReceivedSeq)))
  }

  function ReplayOne(c: Client, writeOk: bool): Effect
    requires c.phase.Replaying? && c.phase.rest != []
  {
    if writeOk then Effect(c.(phase := Replaying(c.phase.rest[1..])), Some(c.phase.rest[0]))
    else Effect(Drop(c), None)
  }

  /** TerminalInfo was sent: the escape machine is reset and a new coalescer is made. */
  function EnterLoop(c: Client): Client { c.(pending := [], esc := Escape.AfterNewline, phase := Running) }

  /** Gives a payload the next number and keeps it for replay. */
  function StoreNext(c: Client, data: seq<byte>): Client {
    c.(sendSeq := c.sendSeq + 1, buf := Stored(c.buf, Entry(c.sendSeq + 1, data), c.limits))
  }

  function Flush(c: Client, writeOk: bool): Effect {
    if c.pending == [] then Effect(c, None)
    else
      var e := Entry(c.sendSeq + 1, c.pending);
      var c' := StoreNext(c.(pending := []), c.pending);
      if writeOk then Effect(c', Some(e)) else Effect(Drop(c'), None)
  }

  function Filtered(c: Client, chunk: seq<byte>): Escape.Run { Escape.FeedAll(Escape.Run(c.esc, [], false), chunk) }

  function Stdin(c: Client, chunk: seq<byte>, writeOk: bool): Effect {
    var r := Filtered(c, chunk);
    if r.gone then Effect(Quit(c), None)
    else
      var c' := c.(esc := r.state, pending := c.pending + r.out);
      if r.out != [] && |c'.pending| >= Coalesce.THRESHOLD then Flush(c', writeOk) else Effect(c', None)
  }

  function Receive(c: Client, e: Entry, stdoutOk: bool): Client {
    if stdoutOk then c.(recvSeq := e.seqNo) else Quit(c)
  }

  // ---- The ioLoop --------------------------------------------------------------------------

  datatype ExitReason = ExitNetwork | ExitEscape | ExitShutdown | ExitStdinEOF | ExitCancelled

  /** What one turn of ioLoop may receive; `overdue` says that nothing arrived for longer than the timeout. */
  datatype Input =
    | StdinChunk(data: seq<byte>, now: int, overdue: bool, ok: bool)
    | StdinClosed(ok: bool)
    | DeadlineDue(overdue: bool, ok: bool)
    | ControlMessage
    | ShutdownMessage(arrivals: seq<Option<Entry>>, accepts: nat)
    | ControlFailed
    | DataMessage(e: Entry, ok: bool)
    | DataFailed(shutdownSeen: bool)
    | HeartbeatDue(overdue: bool, ok: bool)
    | Cancelled

  /** The state, the Data sent, the Data written to stdout, and why the loop ended, if it did. */
  datatype Turn = Turn(state: Client, sent: seq<Entry>, written: seq<Entry>, reason: Option<ExitReason>)

  /** What drainRemainingData writes from arrival i on: the messages before the first error, as long as writes
      succeed. */
  function Drained(arrivals: seq<Option<Entry>>, accepts: nat, i: nat): (written: seq<Entry>)
    requires i <= |arrivals|
    ensures |written| <= |arrivals| - i
    ensures forall j :: 0 <= j < |written| ==> arrivals[i + j] == Some(written[j])
    ensures i + |written| < |arrivals| ==> arrivals[i + |written|].None? || i + |written| >= accepts
    decreases |arrivals| - i
  {
    if i == |arrivals| || arrivals[i].None? || i >= accepts then []
    else [arrivals[i].value] + Drained(arrivals, accepts, i + 1)
  }

  function Flushed(r: Effect, reason: Option<ExitReason>): Turn { Turn(r.state, Listed(r.sent), [], reason) }

  /** A failed write inside the loop ends it. */
  function LostIf(lost: bool): Option<ExitReason> { if lost then Some(ExitNetwork) else None }

  function React(c: Client, i: Input): Turn {
    match i
    case StdinChunk(data, _, overdue, ok) =>
      if overdue then Turn(c, [], [], Some(ExitNetwork))
      else
        var r := Stdin(c, data, ok);
        if Filtered(c, data).gone then Flushed(r, Some(ExitEscape)) else Flushed(r, LostIf(r.state.conn.None?))
    case StdinClosed(ok) => Flushed(Flush(c, ok), Some(ExitStdinEOF))
    case DeadlineDue(overdue, ok) =>
      if overdue then Turn(c, [], [], Some(ExitNetwork))
      else var r := Flush(c, ok); Flushed(r, LostIf(r.state.conn.None?))
    case ControlMessage => Turn(c, [], [], None)
    case ShutdownMessage(arrivals, accepts) =>
      var es := Drained(arrivals, accepts, 0);
      Turn(if es == [] then c else c.(recvSeq := es[|es| - 1].seqNo), [], es, Some(ExitShutdown))
    case ControlFailed => Turn(c, [], [], Some(ExitNetwork))
    case DataMessage(e, ok) =>
      if ok then Turn(Receive(c, e, true), [], [e], None) else Turn(c, [], [], Some(ExitStdinEOF))
    case DataFailed(shutdownSeen) => Turn(c, [], [], Some(if shutdownSeen then ExitShutdown else ExitNetwork))
    case HeartbeatDue(overdue, ok) => Turn(c, [], [], LostIf(overdue || !ok))
    case Cancelled => Turn(c, [], [], Some(ExitCancelled))
  }

  /** A turn that does not end the loop leaves the connection and the phase alone. */
  lemma {:induction false} StaysConnected(c: Client, i: Input)
    requires c.conn.Some? && c.phase.Running?
    ensures React(c, i).reason.None? ==> React(c, i).state.conn == c.conn && React(c, i).state.phase == c.phase
  {
  }

  function Then(t: Turn, u: Turn): Turn { Turn(u.state, t.sent + u.sent, t.written + u.written, u.reason) }

  /** Without an exit reason ioLoop is still running on its connection. */
  lemma {:induction false} RunningUntilReason(c: Client, inputs: seq<Input>, k: nat)
    requires k <= |inputs| && c.conn.Some? && c.phase.Running?
    ensures
      var t := RunFrom(c, inputs, k);
      t.reason.None? ==> t.state.conn == c.conn && t.state.phase.Running?
    decreases |inputs| - k
  {
    if k < |inputs| {
      StaysConnected(c, inputs[k]);
      if React(c, inputs[k]).reason.None? {
        RunningUntilReason(React(c, inputs[k]).state, inputs, k + 1);
      }
    }
  }

  /** The loop from input k on, until it runs out of inputs or a turn ends it. */
  function RunFrom(c: Client, inputs: seq<Input>, k: nat): Turn
    requires k <= |inputs|
    decreases |inputs| - k
  {
    if k == |inputs| then Turn(c, [], [], None)
    else
      var t := React(c, inputs[k]);
      if t.reason.Some? then t
      else
        Then(t, RunFrom(t.state, inputs, k + 1))
  }

  lemma {:induction false} ThenAssoc(t: Turn, u: Turn, v: Turn)
    ensures Then(Then(t, u), v) == Then(t, Then(u, v))
  {
    Assoc(t.sent, u.sent, v.sent);
    Assoc(t.written, u.written, v.written);
  }

  /** One more input: one more turn at the end of the run. */
  lemma {:induction false} RunSnoc(c: Client, inputs: seq<Input>, i: Input, k: nat)
    requires k <= |inputs| && RunFrom(c, inputs, k).reason.None?
    ensures RunFrom(c, inputs + [i], k) == Then(RunFrom(c, inputs, k), React(RunFrom(c, inputs, k).state, i))
    decreases |inputs| - k
  {
    var longer := inputs + [i];
    if k == |inputs| {
      var last := React(c, i);
      assert longer[k] == i && RunFrom(last.state, longer, k + 1) == Turn(last.state, [], [], None);
    } else {
      assert longer[k] == inputs[k];
      var t := React(c, inputs[k]);
      RunSnoc(t.state, inputs, i, k + 1);
      var more := RunFrom(t.state, inputs, k + 1);
      ThenAssoc(t, more, React(more.state, i));
    }
  }

  // ---- Run's reconnect loop ----------------------------------------------------------------

  /** One round of Run: what the dial, the session's header, the replay writes, the TerminalInfo write and the
      inputs of ioLoop turn out to be; `cancelled` says whether the context ends in the pause after a failure. */
  datatype Round =
    | DialFails(cancelled: bool)
    | Dials(id: ConnId, header: Option<nat>, accepts: nat, infoOk: bool, inputs: seq<Input>, cancelled: bool)

  datatype Trip = Trip(state: Client, sent: seq<Packet>, written: seq<Entry>)

  function Retry(c: Client, cancelled: bool): Client { if cancelled then Quit(c) else Drop(c) }

  /** What Run makes of ioLoop's result; without a reason the loop is still running. */
  function AfterLoop(t: Turn, cancelled: bool): Client {
    if t.reason.None? then t.state
    else if t.reason == Some(ExitNetwork) then Retry(t.state, cancelled)
    else Quit(t.state)
  }

  function PlayRound(c: Client, r: Round): Trip {
    if r.DialFails? then Trip(Retry(c, r.cancelled), [], [])
    else
      var d := Dialed(c, r.id);
      if r.header.None? then Trip(Retry(d, r.cancelled), [], [])
      else
        var replay := Since(c.buf, r.header.value);
        if r.accepts < |replay| || !r.infoOk then
          Trip(Retry(d, r.cancelled), Tag(Some(r.id), replay[..Min(r.accepts, |replay|)]), [])
        else
          var t := RunFrom(EnterLoop(d), r.inputs, 0);
          Trip(AfterLoop(t, r.cancelled), Tag(Some(r.id), replay + t.sent), t.written)
  }

  /** The reconnect loop from round k on, until Run returns or there are no more rounds. */
  function PlayFrom(c: Client, rounds: seq<Round>, k: nat): Trip
    requires k <= |rounds|
    decreases |rounds| - k
  {
    if k == |rounds| || !c.phase.Idle? then Trip(c, [], [])
    else
      var t := PlayRound(c, rounds[k]);
      Join(t, PlayFrom(t.state, rounds, k + 1))
  }

  function Join(t: Trip, u: Trip): Trip { Trip(u.state, t.sent + u.sent, t.written + u.written) }

  lemma {:induction false} JoinAssoc(t: Trip, u: Trip, v: Trip)
    ensures Join(Join(t, u), v) == Join(t, Join(u, v))
  {
    Assoc(t.sent, u.sent, v.sent);
    Assoc(t.written, u.written, v.written);
  }

  /** One more round at the end of the loop. */
  lemma {:induction false} PlaySnoc(c: Client, rounds: seq<Round>, r: Round, k: nat)
    requires k <= |rounds| && PlayFrom(c, rounds, k).state.phase.Idle?
    ensures PlayFrom(c, rounds + [r], k) == Join(PlayFrom(c, rounds, k), PlayRound(PlayFrom(c, rounds, k).state, r))
    decreases |rounds| - k
  {
    var longer := rounds + [r];
    if k == |rounds| {
      var last := PlayRound(c, r);
      assert longer[k] == r && PlayFrom(last.state, longer, k + 1) == Trip(last.state, [], []);
    } else {
      assert longer[k] == rounds[k];
      var t := PlayRound(c, rounds[k]);
      PlaySnoc(t.state, rounds, r, k + 1);
      var more := PlayFrom(t.state, rounds, k + 1);
      JoinAssoc(t, more, PlayRound(more.state, r));
    }
  }
}

/** The same steps as methods on a Client object; the coalescer belongs to one ioLoop and is passed in. */
module ClientObject {
  import opened Bytes
  import opened ReplayLog
  import opened Packets
  import M = ClientModel
  import Catchup
  import Coalesce
  import Escape

  class Client {
    const buf: Catchup.Buffer
    const escape: Escape.Processor
    var sendSeq: nat
    var recvSeq: nat

    ghost predicate Valid()
      reads this, buf, buf.entries
    {
      buf.Valid()
    }

    /** The state while the ioLoop that owns coal runs on connection id. */
    ghost function Abs(coal: Coalesce.Coalescer, id: ConnId): M.Client
      requires Valid()
      reads this, buf, buf.entries, escape, coal
    {
      M.Client(buf.Bounds(), coal.buf, escape.state, sendSeq, recvSeq, buf.Queue(), Some(id), M.Running)
    }

    constructor (replaySize: int)
      ensures Valid() && fresh(buf) && fresh(buf.entries) && fresh(escape)
      ensures Agrees(M.Start(LimitsFor(replaySize)))
    {
      buf := new Catchup.Buffer(replaySize);
      escape := new Escape.Processor();
      sendSeq, recvSeq := 0, 0;
    }

    /** Resends what the session has not received; ok is false when a write failed. */
    method HandleSequenceExchange(lastReceivedSeq: nat, accepts: nat) returns (sent: seq<Entry>, ok: bool)
      requires Valid()
      ensures
        var replay := Since(buf.Queue(), lastReceivedSeq);
        sent == replay[..Min(accepts, |replay|)] && ok == (accepts >= |replay|)
    {
      var entries := buf.ReplaySince(lastReceivedSeq);
      sent, ok := [], true;
      var i := 0;
      while i < |entries|
        invariant 0 <= i <= |entries| && i <= accepts
        invariant sent == entries[..i]
      {
        if i == accepts {
          return sent, false;
        }
        sent := sent + [entries[i]];
        i := i + 1;
      }
    }

    /** Every stdin chunk fits the read buffer. */
    static ghost predicate InputsFit(inputs: seq<M.Input>) {
      forall k :: 0 <= k < |inputs| && inputs[k].StdinChunk? ==> |inputs[k].data| <= M.STDIN_BUF_SIZE
    }

    /** c agrees with the fields that outlive a connection. */
    ghost predicate Agrees(c: M.Client)
      requires Valid()
      reads this, buf, buf.entries
    {
      c.limits == buf.Bounds() && c.buf == buf.Queue() && c.sendSeq == sendSeq && c.recvSeq == recvSeq
    }

    /** The start of a connection's ioLoop: a fresh coalescer and a reset escape machine. */
    method EnterLoop(ghost before: M.Client) returns (coal: Coalesce.Coalescer)
      requires Valid() && before.conn.Some? && Agrees(before)
      modifies escape
      ensures Valid() && fresh(coal)
      ensures Abs(coal, before.conn.value) == M.EnterLoop(before)
    {
      escape.Reset();
      coal := new Coalesce.Coalescer();
    }

    /** Gives a payload the next number and keeps it for replay. */
    method StoreNext(ghost coal: Coalesce.Coalescer, ghost id: ConnId, data: seq<byte>)
      requires Valid()
      modifies this`sendSeq, buf, buf.entries
      ensures Valid() && sendSeq == old(sendSeq) + 1
      ensures Abs(coal, id) == M.StoreNext(old(Abs(coal, id)), data)
    {
      sendSeq := sendSeq + 1;
      buf.Store(sendSeq, data);
    }

    method FlushStdinCoalesced(coal: Coalesce.Coalescer, ghost id: ConnId, writeOk: bool)
      returns (sent: Option<Entry>, ok: bool)
      requires Valid()
      modifies this, buf, buf.entries, coal
      ensures Valid()
      ensures
        var r := M.Flush(old(Abs(coal, id)), writeOk);
        && sent == r.sent
        && (ok <==> r.state.conn.Some?)
        && Abs(coal, id) == r.state.(conn := Some(id), phase := M.Running)
    {
      sent, ok := None, true;
      ghost var c := Abs(coal, id);
      var data := coal.Flush();
      assert Abs(coal, id) == c.(pending := []);
      if |data| == 0 {
        return;
      }
      StoreNext(coal, id, data);
      ok := writeOk;
      if writeOk {
        sent := Some(Entry(sendSeq, data));
      }
    }

    /** One stdin chunk through the escape machine, the coalescer and maybe the connection. */
    method HandleStdin(coal: Coalesce.Coalescer, ghost id: ConnId, chunk: seq<byte>, escapeBuf: array<byte>,
                       now: int, writeOk: bool)
      returns (sent: Option<Entry>, ok: bool, disconnect: bool)
      requires Valid()
      requires escapeBuf.Length >= |chunk| + 1
      modifies this, buf, buf.entries, coal, escape, escapeBuf
      ensures Valid()
      ensures disconnect <==> M.Filtered(old(Abs(coal, id)), chunk).gone
      ensures disconnect ==> Abs(coal, id) == old(Abs(coal, id)).(esc := escape.state)
      ensures !disconnect ==>
                var r := M.Stdin(old(Abs(coal, id)), chunk, writeOk);
                && sent == r.sent
                && (ok <==> r.state.conn.Some?)
                && Abs(coal, id) == r.state.(conn := Some(id), phase := M.Running)
    {
      sent, ok := None, true;
      ghost var before := Abs(coal, id);
      var n;
      n, disconnect := escape.Process(chunk, escapeBuf);
      if disconnect {
        return;
      }
      if n > 0 {
        var full := coal.Add(escapeBuf[..n], now);
        if full {
          sent, ok := FlushStdinCoalesced(coal, id, writeOk);
        }
      }
    }

    method HandleData(coal: Coalesce.Coalescer, ghost id: ConnId, e: Entry, stdoutOk: bool)
      requires Valid()
      modifies this`recvSeq
      ensures Valid()
      ensures stdoutOk ==> Abs(coal, id) == M.Receive(old(Abs(coal, id)), e, true)
      ensures !stdoutOk ==> Abs(coal, id) == old(Abs(coal, id))
    {
      if stdoutOk {
        recvSeq := e.seqNo;
      }
    }

    /** After Shutdown: write out what is still buffered, until an error, a failed write or the timeout
        (the end of arrivals). */
    method DrainRemainingData(arrivals: seq<Option<Entry>>, accepts: nat) returns (written: seq<Entry>)
      modifies this`recvSeq
      ensures written == M.Drained(arrivals, accepts, 0)
      ensures recvSeq == if written == [] then old(recvSeq) else written[|written| - 1].seqNo
    {
      written := [];
      var i := 0;
      while i < |arrivals|
        invariant 0 <= i <= |arrivals| && i == |written| <= accepts
        invariant M.Drained(arrivals, accepts, 0) == written + M.Drained(arrivals, accepts, i)
        invariant recvSeq == if written == [] then old(recvSeq) else written[|written| - 1].seqNo
      {
        if arrivals[i].None? || i == accepts {
          return;
        }
        Assoc(written, [arrivals[i].value], M.Drained(arrivals, accepts, i + 1));
        written := written + [arrivals[i].value];
        recvSeq := arrivals[i].value.seqNo;
        i := i + 1;
      }
    }

    /** One turn of ioLoop. */
    method React(coal: Coalesce.Coalescer, ghost id: ConnId, i: M.Input, escapeBuf: array<byte>)
      returns (sent: seq<Entry>, written: seq<Entry>, reason: Option<M.ExitReason>)
      requires Valid()
      requires i.StdinChunk? ==> escapeBuf.Length >= |i.data| + 1
      modifies this, buf, buf.entries, coal, escape, escapeBuf
      ensures Valid()
      ensures
        var t := M.React(old(Abs(coal, id)), i);
        && sent == t.sent
        && written == t.written
        && reason == t.reason
        && (reason != Some(M.ExitEscape) ==> escape.state == t.state.esc)
        && Abs(coal, id) == t.state.(conn := Some(id), phase := M.Running, esc := escape.state)
    {
      sent, written, reason := [], [], None;
      match i {
        case StdinChunk(data, now, overdue, ok) =>
          if overdue {
            reason := Some(M.ExitNetwork);
          } else {
            var e, wrote, gone := HandleStdin(coal, id, data, escapeBuf, now, ok);
            if gone {
              reason := Some(M.ExitEscape);
            } else {
              sent, reason := Listed(e), M.LostIf(!wrote);
            }
          }
        case StdinClosed(ok) =>
          var e, _ := FlushStdinCoalesced(coal, id, ok);
          sent, reason := Listed(e), Some(M.ExitStdinEOF);
        case DeadlineDue(overdue, ok) =>
          if overdue {
            reason := Some(M.ExitNetwork);
          } else {
            var e, wrote := FlushStdinCoalesced(coal, id, ok);
            sent, reason := Listed(e), M.LostIf(!wrote);
          }
        case ControlMessage =>
        case ShutdownMessage(arrivals, accepts) =>
          written := DrainRemainingData(arrivals, accepts);
          reason := Some(M.ExitShutdown);
        case ControlFailed =>
          reason := Some(M.ExitNetwork);
        case DataMessage(e, ok) =>
          HandleData(coal, id, e, ok);
          if ok {
            written := [e];
          } else {
            reason := Some(M.ExitStdinEOF);
          }
        case DataFailed(shutdownSeen) =>
          reason := Some(if shutdownSeen then M.ExitShutdown else M.ExitNetwork);
        case HeartbeatDue(overdue, ok) =>
          reason := M.LostIf(overdue || !ok);
        case Cancelled =>
          reason := Some(M.ExitCancelled);
      }
    }

    /** ioLoop over any list of inputs, with the 32 KB + 2 escape buffer. */
    method IoLoop(coal: Coalesce.Coalescer, ghost id: ConnId, inputs: seq<M.Input>)
      returns (sent: seq<Entry>, written: seq<Entry>, reason: Option<M.ExitReason>)
      requires Valid() && InputsFit(inputs)
      modifies this, buf, buf.entries, coal, escape
      ensures Valid()
      ensures
        var t := M.RunFrom(old(Abs(coal, id)), inputs, 0);
        && sent == t.sent
        && written == t.written
        && reason == t.reason
        && (reason != Some(M.ExitEscape) ==> escape.state == t.state.esc)
        && Abs(coal, id) == t.state.(conn := Some(id), phase := M.Running, esc := escape.state)
    {
      sent, written, reason := [], [], None;
      ghost var whole := M.RunFrom(Abs(coal, id), inputs, 0);
      var escapeBuf := new byte[M.STDIN_BUF_SIZE + 2];
      var k := 0;
      while k < |inputs|
        invariant 0 <= k <= |inputs| && Valid() && reason.None?
        invariant whole == M.Then(M.Turn(Abs(coal, id), sent, written, None), M.RunFrom(Abs(coal, id), inputs, k))
      {
        ghost var t, done := M.React(Abs(coal, id), inputs[k]), M.Turn(Abs(coal, id), sent, written, None);
        M.StaysConnected(Abs(coal, id), inputs[k]);
        var out, shown;
        out, shown, reason := React(coal, id, inputs[k], escapeBuf);
        sent, written := sent + out, written + shown;
        if reason.Some? {
          return;
        }
        M.ThenAssoc(done, t, M.RunFrom(t.state, inputs, k + 1));
        k := k + 1;
      }
    }

    /** ioLoop on a new connection with its own coalescer. */
    method Converse(ghost c: M.Client, ghost id: ConnId, inputs: seq<M.Input>)
      returns (sent: seq<Entry>, written: seq<Entry>, reason: Option<M.ExitReason>)
      requires Valid() && Agrees(c) && InputsFit(inputs)
      modifies this, buf, buf.entries, escape
      ensures Valid()
      ensures
        var t := M.RunFrom(M.EnterLoop(M.Dialed(c, id)), inputs, 0);
        sent == t.sent && written == t.written && reason == t.reason && Agrees(t.state)
    {
      var coal := EnterLoop(M.Dialed(c, id));
      sent, written, reason := IoLoop(coal, id, inputs);
    }

    /** One round of Run: dial, sequence exchange, TerminalInfo, ioLoop. `again` says that Run goes round once
        more. */
    method PlayRound(ghost c: M.Client, r: M.Round) returns (sent: seq<Packet>, written: seq<Entry>, again: bool)
      requires Valid() && Agrees(c) && (r.Dials? ==> InputsFit(r.inputs))
      modifies this, buf, buf.entries, escape
      ensures Valid()
      ensures
        var t := M.PlayRound(c, r);
        sent == t.sent && written == t.written && (again <==> t.state.phase.Idle?) && Agrees(t.state)
    {
      sent, written, again := [], [], !r.cancelled;
      if r.DialFails? || r.header.None? {
        return;
      }
      var es, ok := HandleSequenceExchange(r.header.value, r.accepts);
      sent := Tag(Some(r.id), es);
      if !ok || !r.infoOk {
        return;
      }
      assert es == Since(c.buf, r.header.value);
      M.RunningUntilReason(M.EnterLoop(M.Dialed(c, r.id)), r.inputs, 0);
      var typed, shown, reason := Converse(c, r.id, r.inputs);
      return Tag(Some(r.id), es + typed), shown, reason == Some(M.ExitNetwork) && !r.cancelled;
    }

    /** Run's reconnect loop over any list of rounds; `again` is false once Run has returned or is still inside the
        last round's ioLoop. */
    method Run(ghost c: M.Client, rounds: seq<M.Round>)
      returns (sent: seq<Packet>, written: seq<Entry>, again: bool)
      requires Valid() && Agrees(c) && c.phase.Idle?
      requires forall k :: 0 <= k < |rounds| && rounds[k].Dials? ==> InputsFit(rounds[k].inputs)
      modifies this, buf, buf.entries, escape
      ensures Valid()
      ensures
        var t := M.PlayFrom(c, rounds, 0);
        sent == t.sent && written == t.written && (again <==> t.state.phase.Idle?) && Agrees(t.state)
    {
      sent, written, again := [], [], true;
      ghost var now, whole := c, M.PlayFrom(c, rounds, 0);
      var k := 0;
      while k < |rounds| && again
        invariant 0 <= k <= |rounds| && Valid() && Agrees(now) && (again <==> now.phase.Idle?)
        invariant whole == M.Join(M.Trip(now, sent, written), M.PlayFrom(now, rounds, k))
      {
        ghost var t := M.PlayRound(now, rounds[k]);
        M.JoinAssoc(M.Trip(now, sent, written), t, M.PlayFrom(t.state, rounds, k + 1));
        var out, shown;
        out, shown, again := PlayRound(now, rounds[k]);
        now := t.state;
        sent, written, k := sent + out, written + shown, k + 1;
      }
    }
  }
}
