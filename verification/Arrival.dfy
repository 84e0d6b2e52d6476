/** The demultiplexed stream does deliver: any messages, any switch point. */
module MuxArrival {
  import opened Bytes
  import opened Protocol
  import opened TcpMux

  lemma {:induction false} ExecAppend(s: State, one: seq<Step>, two: seq<Step>)
    requires Exec(s, one).Some?
    ensures Exec(s, one + two) == Exec(Exec(s, one).value, two)
    decreases |one|
  {
    if one == [] {
      assert one + two == two;
    } else {
      assert (one + two)[0] == one[0] && (one + two)[1..] == one[1..] + two;
      ExecAppend(Next(s, one[0]), one[1..], two);
    }
  }

  lemma {:induction false} ExecCons(s: State, st: Step, more: seq<Step>)
    requires Enabled(s, st)
    ensures Exec(s, [st] + more) == Exec(Next(s, st), more)
  {
    assert ([st] + more)[1..] == more;
  }

  /** A caller takes the lock, writes its whole frame, and the bytes arrive. */
  function SendSteps(m: Message): seq<Step> {
    [Write(Lock(m))] + ([Write(WriteBytes(|Frame(m)|))] + ([Write(Unlock)] + ([Arrive(|Frame(m)|)] + [])))
  }

  /** One message through the demultiplexer to its reader. */
  function DemuxSteps(m: Message): seq<Step> { [Route] + ([if m.Data? then TakeData else TakeControl] + []) }

  /** Nothing is being written, and everything written was read. */
  ghost predicate Quiet(s: State, ms: seq<Message>) {
    && s.w == Writer(ms, None, 0, false, EncodeAll(ms))
    && s.r.arrived == s.r.consumed == |EncodeAll(ms)|
    && s.ch.controlCh == [] && s.ch.dataCh == []
  }

  /** The same with one message on the way. */
  ghost predicate OneToRead(s: State, ms: seq<Message>, m: Message) {
    && s.w == Writer(ms + [m], None, 0, false, EncodeAll(ms + [m]))
    && s.r.consumed == |EncodeAll(ms)| && s.r.arrived == |EncodeAll(ms + [m])|
    && s.ch.controlCh == [] && s.ch.dataCh == []
  }

  lemma {:induction false} Sends(s: State, ms: seq<Message>, m: Message)
    requires Quiet(s, ms) && Sendable(m)
    ensures
      var end := Exec(s, SendSteps(m));
      && end.Some? && OneToRead(end.value, ms, m)
      && end.value.r == s.r.(arrived := |EncodeAll(ms + [m])|) && end.value.ch == s.ch
  {
    var f := Frame(m);
    EncodeAllSnoc(ms, m);
    var s1 := Next(s, Write(Lock(m)));
    ExecCons(s, Write(Lock(m)), [Write(WriteBytes(|f|))] + ([Write(Unlock)] + ([Arrive(|f|)] + [])));
    assert f[0..|f|] == f;
    var s2 := Next(s1, Write(WriteBytes(|f|)));
    ExecCons(s1, Write(WriteBytes(|f|)), [Write(Unlock)] + ([Arrive(|f|)] + []));
    var s3 := Next(s2, Write(Unlock));
    ExecCons(s2, Write(Unlock), [Arrive(|f|)] + []);
    ExecCons(s3, Arrive(|f|), []);
  }

  lemma {:induction false} WholeFrame(m: Message)
    requires Sendable(m)
    ensures ParseFrame(Frame(m)) == Parsed(Ok(m), [])
  {
    ParseWhole(m, []);
    assert Frame(m) + [] == Frame(m);
  }

  lemma {:induction false} FindsIt(s: State, ms: seq<Message>, m: Message)
    requires OneToRead(s, ms, m) && Sendable(m)
    ensures Parse(s.w.wire, s.r) == Parsed(Ok(m), [])
  {
    assert s.w.wire[s.r.consumed..s.r.arrived] == Frame(m) by { EncodeAllSnoc(ms, m); }
    assert s.r.consumed <= s.r.arrived by { EncodeAllSnoc(ms, m); }
    WholeFrame(m);
  }

  lemma {:induction false} SerialOne(s: State, ms: seq<Message>, m: Message)
    requires Quiet(s, ms) && Sendable(m) && s.r.mode.Serial?
    ensures
      var end := Exec(s, SendSteps(m) + [SerialRead]);
      && end.Some? && Quiet(end.value, ms + [m]) && end.value.r.mode.Serial?
      && end.value.r.serial == s.r.serial + [m] && end.value.r.routed == s.r.routed && end.value.ch == s.ch
  {
    Sends(s, ms, m);
    var s1 := Exec(s, SendSteps(m)).value;
    ExecAppend(s, SendSteps(m), [SerialRead]);
    FindsIt(s1, ms, m);
    ExecCons(s1, SerialRead, []);
    assert [SerialRead] + [] == [SerialRead];
  }

  lemma {:induction false} DemuxOne(s: State, ms: seq<Message>, m: Message)
    requires Quiet(s, ms) && Sendable(m) && s.r.mode.Demuxing?
    ensures
      var end := Exec(s, SendSteps(m) + DemuxSteps(m));
      && end.Some? && Quiet(end.value, ms + [m]) && end.value.r.mode.Demuxing?
      && end.value.r.serial == s.r.serial
      && end.value.ch.gotData == s.ch.gotData + (if m.Data? then [m] else [])
      && end.value.ch.gotControl == s.ch.gotControl + (if m.Data? then [] else [m])
  {
    Sends(s, ms, m);
    var s1 := Exec(s, SendSteps(m)).value;
    ExecAppend(s, SendSteps(m), DemuxSteps(m));
    FindsIt(s1, ms, m);
    var take := if m.Data? then TakeData else TakeControl;
    ExecCons(s1, Route, [take] + []);
    assert [] + [m] == [m];
    ExecCons(Next(s1, Route), take, []);
  }

  function SerialRun(ms: seq<Message>): seq<Step> {
    if ms == [] then [] else SerialRun(ms[..|ms| - 1]) + (SendSteps(ms[|ms| - 1]) + [SerialRead])
  }

  function DemuxRun(ms: seq<Message>): seq<Step> {
    if ms == [] then [] else DemuxRun(ms[..|ms| - 1]) + (SendSteps(ms[|ms| - 1]) + DemuxSteps(ms[|ms| - 1]))
  }

  ghost predicate SerialDone(front: seq<Message>) {
    var end := Exec(INITIAL, SerialRun(front));
    && end.Some? && Quiet(end.value, front) && end.value.r.mode.Serial?
    && end.value.r.serial == front && end.value.ch == INITIAL.ch
  }

  lemma {:induction false} SerialMore(init: seq<Message>, m: Message)
    requires SerialDone(init) && Sendable(m)
    ensures SerialDone(init + [m])
  {
    assert (init + [m])[..|init|] == init;
    SerialOne(Exec(INITIAL, SerialRun(init)).value, init, m);
    ExecAppend(INITIAL, SerialRun(init), SendSteps(m) + [SerialRead]);
  }

  lemma {:induction false} SerialPart(front: seq<Message>, n: nat)
    requires AllSendable(front) && n <= |front|
    ensures SerialDone(front[..n])
    decreases n
  {
    if n == 0 {
      assert front[..0] == [];
    } else {
      SerialPart(front, n - 1);
      SerialMore(front[..n - 1], front[n - 1]);
      SliceSnoc(front, 0, n);
    }
  }

  ghost predicate DemuxDone(s: State, front: seq<Message>, back: seq<Message>) {
    var end := Exec(s, DemuxRun(back));
    && end.Some? && Quiet(end.value, front + back) && end.value.r.mode.Demuxing?
    && end.value.r.serial == s.r.serial
    && end.value.ch.gotData == Only(back, true) && end.value.ch.gotControl == Only(back, false)
  }

  lemma {:induction false} DemuxMore(s: State, front: seq<Message>, init: seq<Message>, m: Message)
    requires DemuxDone(s, front, init) && Sendable(m)
    ensures DemuxDone(s, front, init + [m])
  {
    assert (init + [m])[..|init|] == init;
    DemuxOne(Exec(s, DemuxRun(init)).value, front + init, m);
    ExecAppend(s, DemuxRun(init), SendSteps(m) + DemuxSteps(m));
    Assoc(front, init, [m]);
  }

  lemma {:induction false} DemuxNone(s: State, front: seq<Message>)
    requires Quiet(s, front) && s.r.mode.Demuxing? && s.ch == INITIAL.ch
    ensures DemuxDone(s, front, [])
  {
    assert front + [] == front;
  }

  lemma {:induction false} DemuxPart(s: State, front: seq<Message>, back: seq<Message>, n: nat)
    requires DemuxDone(s, front, []) && AllSendable(back) && n <= |back|
    ensures DemuxDone(s, front, back[..n])
    decreases n
  {
    if n == 0 {
      assert back[..0] == [];
    } else {
      DemuxPart(s, front, back, n - 1);
      DemuxMore(s, front, back[..n - 1], back[n - 1]);
      SliceSnoc(back, 0, n);
    }
  }

  /** For any messages that the encoder and decoder both accept, any number of them read before StartDemux, there is a
      run that hands out all of them: the first ones serially, the others on their channels, none twice. */
  lemma {:induction false} EverythingArrives(front: seq<Message>, back: seq<Message>)
    requires AllSendable(front) && AllSendable(back)
    ensures
      var end := Exec(INITIAL, SerialRun(front) + ([StartDemux] + DemuxRun(back)));
      && end.Some?
      && end.value.w.written == front + back
      && end.value.r.serial == front
      && end.value.ch.gotData == Only(back, true) && end.value.ch.gotControl == Only(back, false)
  {
    SerialPart(front, |front|);
    assert front[..|front|] == front;
    var s := Exec(INITIAL, SerialRun(front)).value;
    ExecAppend(INITIAL, SerialRun(front), [StartDemux] + DemuxRun(back));
    ExecCons(s, StartDemux, DemuxRun(back));
    DemuxNone(Next(s, StartDemux), front);
    DemuxPart(Next(s, StartDemux), front, back, |back|);
    assert back[..|back|] == back;
  }
}

/** From every live state of the protocol everything pending and unread can still be delivered, in both directions. */
module Arrival {
  import opened Bytes
  import opened ReplayLog
  import opened Packets
  import L = Lane
  import S = SessionModel
  import C = ClientModel
  import opened Reconnect
  import opened HandlersAreSteps
  import Safety = ReconnectSafety
  import Delivery

  /** Both sides run on connection id and the session has handled all queued events. */
  ghost predicate Live(sys: System, id: ConnId) {
    && sys.s.phase.Looping? && sys.s.conn == Some(id) && sys.s.spawned && sys.queue == []
    && sys.c.phase.Running? && sys.c.conn == Some(id)
    && id in sys.down && id in sys.up && id in sys.fetched
    && sys.fetched[id] == |sys.up[id].outcomes| <= |sys.up[id].sent|
    && |sys.down[id].outcomes| <= |sys.down[id].sent|
  }

  /** Messages on a link that its receiver has not taken. */
  function Unread(links: map<ConnId, L.Link>, id: ConnId): nat {
    if id in links then Max(0, |links[id].sent| - |links[id].outcomes|) else 0
  }

  function UnreadDown(sys: System, id: ConnId): nat { Unread(sys.down, id) }

  function UnreadUp(sys: System, id: ConnId): nat { Unread(sys.up, id) }

  /** What the client has still to read once the session has flushed, and the other way round. */
  function ToRead(sys: System, id: ConnId): nat { UnreadDown(sys, id) + if sys.s.pending == [] then 0 else 1 }

  function ToHandle(sys: System, id: ConnId): nat { UnreadUp(sys, id) + if sys.c.pending == [] then 0 else 1 }

  lemma {:induction false} LiveFromInv(sys: System, id: ConnId)
    requires Safety.Inv(sys)
    requires sys.s.phase.Looping? && sys.s.conn == Some(id) && sys.queue == []
    requires sys.c.phase.Running? && sys.c.conn == Some(id)
    ensures Live(sys, id)
  {
    assert L.LinkOk(Down(sys).links[id], Down(sys).log, Down(sys).sender == Some(id));
    assert L.LinkOk(Up(sys).links[id], Up(sys).log, Up(sys).sender == Some(id));
    assert Safety.InStep(sys.queue, sys.up[id], sys.fetched[id], id);
    assert Safety.DataOf([], id) == [];
  }

  // ---- Bounds ------------------------------------------------------------------------------

  /** At its loop head the session takes any chunk of 1 to 32768 bytes from a running PTY, and ioLoop any such chunk of
      stdin. */
  lemma {:induction false} ChunksTaken(sys: System, data: seq<byte>, ok: bool)
    requires sys.s.phase.Looping? && sys.s.spawned && sys.c.phase.Running?
    ensures Enabled(sys, Loop(PtyChunk(data, ok))) <==> 1 <= |data| <= 32768
    ensures Enabled(sys, Io(Stdin(data, ok))) <==> 1 <= |data| <= 32768
  {
  }

  lemma {:induction false} StepQueue(sys: System, st: Step)
    requires Enabled(sys, st) && |sys.queue| <= 8
    ensures |Next(sys, st).queue| <= 8
  {
  }

  /** At most eight events wait for the session's loop. */
  lemma {:induction false} QueueBounded(sys: System, steps: seq<Step>)
    requires |sys.queue| <= 8 && Exec(sys, steps).Some?
    ensures |Exec(sys, steps).value.queue| <= 8
    decreases |steps|
  {
    if steps != [] {
      StepQueue(sys, steps[0]);
      QueueBounded(Next(sys, steps[0]), steps[1..]);
    }
  }

  // ---- Flushing what is pending ------------------------------------------------------------

  const FLUSHES: seq<Step> := [Loop(FlushNow(true)), Io(ClientFlush(true))]

  lemma {:induction false} SessionFlushes(sys: System, id: ConnId)
    requires Live(sys, id)
    ensures
      var sys' := Next(sys, Loop(FlushNow(true)));
      && Live(sys', id) && sys'.s.pending == [] && sys'.c == sys.c && sys'.up == sys.up
      && sys'.down[id].outcomes == sys.down[id].outcomes
      && |sys'.down[id].sent| == |sys.down[id].sent| + (if sys.s.pending == [] then 0 else 1)
  {
  }

  lemma {:induction false} ClientFlushes(sys: System, id: ConnId)
    requires Live(sys, id)
    ensures
      var sys' := Next(sys, Io(ClientFlush(true)));
      && Live(sys', id) && sys'.c.pending == [] && sys'.s == sys.s && sys'.down == sys.down
      && sys'.up[id].outcomes == sys.up[id].outcomes
      && |sys'.up[id].sent| == |sys.up[id].sent| + (if sys.c.pending == [] then 0 else 1)
  {
  }

  lemma {:induction false} BothFlush(sys: System, id: ConnId)
    requires Live(sys, id)
    ensures
      var end := Exec(sys, FLUSHES);
      && end.Some? && Live(end.value, id) && end.value.s.pending == [] && end.value.c.pending == []
      && UnreadDown(end.value, id) == UnreadDown(sys, id) + (if sys.s.pending == [] then 0 else 1)
      && UnreadUp(end.value, id) == UnreadUp(sys, id) + (if sys.c.pending == [] then 0 else 1)
      && end.value.up[id].outcomes == sys.up[id].outcomes
  {
    SessionFlushes(sys, id);
    var sys1 := Next(sys, Loop(FlushNow(true)));
    ClientFlushes(sys1, id);
    ExecCons(sys, Loop(FlushNow(true)), [Io(ClientFlush(true))]);
    ExecOne(sys1, Io(ClientFlush(true)));
    assert FLUSHES == [Loop(FlushNow(true))] + [Io(ClientFlush(true))];
  }

  // ---- Reading what is unread --------------------------------------------------------------

  /** Only what has been read changes from sys to end. */
  ghost predicate Reading(sys: System, end: System, id: ConnId) {
    && Live(end, id) && id in sys.down && id in sys.up
    && end.s.pending == sys.s.pending && end.c.pending == sys.c.pending
    && end.down[id].sent == sys.down[id].sent && end.up[id].sent == sys.up[id].sent
  }

  lemma {:induction false} ClientReads(sys: System, id: ConnId)
    requires Live(sys, id) && UnreadDown(sys, id) > 0
    ensures
      var end := Exec(sys, [Io(Receive(true))]);
      && end.Some? && Reading(sys, end.value, id) && UnreadDown(end.value, id) == UnreadDown(sys, id) - 1
      && end.value.up == sys.up
  {
    ExecOne(sys, Io(Receive(true)));
  }

  /** The reader goroutine and the loop. */
  function ReadUp(id: ConnId): seq<Step> { [Reader(Fetch(id)), Loop(Handle(true))] }

  lemma {:induction false} SessionReads(sys: System, id: ConnId)
    requires Live(sys, id) && UnreadUp(sys, id) > 0
    ensures
      var end := Exec(sys, ReadUp(id));
      && end.Some? && Reading(sys, end.value, id) && UnreadUp(end.value, id) == UnreadUp(sys, id) - 1
      && end.value.up[id].outcomes == sys.up[id].outcomes + [true]
      && end.value.down == sys.down
  {
    var sys1 := Next(sys, Reader(Fetch(id)));
    assert sys1.queue == [S.Event(id, S.GotData(sys.up[id].sent[sys.fetched[id]]))];
    ExecCons(sys, Reader(Fetch(id)), [Loop(Handle(true))]);
    ExecOne(sys1, Loop(Handle(true)));
    assert ReadUp(id) == [Reader(Fetch(id))] + [Loop(Handle(true))];
  }

  function DownSteps(n: nat): seq<Step> { if n == 0 then [] else [Io(Receive(true))] + DownSteps(n - 1) }

  function UpSteps(id: ConnId, n: nat): seq<Step> { if n == 0 then [] else ReadUp(id) + UpSteps(id, n - 1) }

  lemma {:induction false} ClientReadsAll(sys: System, id: ConnId, n: nat)
    requires Live(sys, id) && UnreadDown(sys, id) == n
    ensures
      var end := Exec(sys, DownSteps(n));
      end.Some? && Reading(sys, end.value, id) && UnreadDown(end.value, id) == 0 && end.value.up == sys.up
    decreases n
  {
    if n > 0 {
      ClientReads(sys, id);
      var sys1 := Exec(sys, [Io(Receive(true))]).value;
      ClientReadsAll(sys1, id, n - 1);
      ExecAppend(sys, [Io(Receive(true))], DownSteps(n - 1));
    }
  }

  /** The last PTY write on the connection, if any, succeeded. */
  predicate LastOk(o: seq<bool>) { o == [] || o[|o| - 1] }

  lemma {:induction false} SessionReadsAll(sys: System, id: ConnId, n: nat)
    requires Live(sys, id) && UnreadUp(sys, id) == n && (n > 0 || LastOk(sys.up[id].outcomes))
    ensures
      var end := Exec(sys, UpSteps(id, n));
      && end.Some? && Reading(sys, end.value, id) && UnreadUp(end.value, id) == 0 && end.value.down == sys.down
      && LastOk(end.value.up[id].outcomes)
    decreases n
  {
    if n > 0 {
      SessionReads(sys, id);
      var sys1 := Exec(sys, ReadUp(id)).value;
      SessionReadsAll(sys1, id, n - 1);
      ExecAppend(sys, ReadUp(id), UpSteps(id, n - 1));
    }
  }

  // ---- Everything can arrive ---------------------------------------------------------------

  /** The rest of a run in which everybody flushes and reads. */
  function ArrivalSteps(id: ConnId, n: nat, m: nat): seq<Step> { FLUSHES + (DownSteps(n) + UpSteps(id, m)) }

  lemma {:induction false} AllRead(sys: System, id: ConnId)
    requires Live(sys, id) && (ToHandle(sys, id) > 0 || LastOk(sys.up[id].outcomes))
    ensures
      var end := Exec(sys, ArrivalSteps(id, ToRead(sys, id), ToHandle(sys, id)));
      && end.Some? && Live(end.value, id)
      && end.value.s.pending == [] && end.value.c.pending == []
      && UnreadDown(end.value, id) == 0 && UnreadUp(end.value, id) == 0 && LastOk(end.value.up[id].outcomes)
  {
    var n, m := ToRead(sys, id), ToHandle(sys, id);
    BothFlush(sys, id);
    var sys1 := Exec(sys, FLUSHES).value;
    ClientReadsAll(sys1, id, n);
    var sys2 := Exec(sys1, DownSteps(n)).value;
    SessionReadsAll(sys2, id, m);
    ExecAppend(sys, FLUSHES, DownSteps(n) + UpSteps(id, m));
    ExecAppend(sys1, DownSteps(n), UpSteps(id, m));
  }

  /** Both sides have received everything, and are level if nothing was lost to eviction. */
  ghost predicate AllArrived(sys: System) {
    && sys.s.pending == [] && sys.c.pending == []
    && sys.c.recvSeq == sys.s.sendSeq && sys.s.recvSeq == sys.c.sendSeq
    && (L.Gapless(sys.h.stdout) ==> Concat(L.Payloads(sys.h.stdout)) == sys.h.ptyIn)
    && (L.Gapless(sys.h.ptyOut) ==> Concat(L.Payloads(sys.h.ptyOut)) == Concat(sys.h.clientLog))
  }

  lemma {:induction false} ReadIsArrived(a: int, b: int, steps: seq<Step>, sys: System, id: ConnId)
    requires Exec(Init(a, b), steps) == Some(sys) && Live(sys, id) && sys.s.pending == [] && sys.c.pending == []
    requires UnreadDown(sys, id) == 0 && UnreadUp(sys, id) == 0 && LastOk(sys.up[id].outcomes)
    ensures AllArrived(sys)
  {
    Delivery.CaughtUpClient(a, b, steps, sys, id);
    Delivery.CaughtUpSession(a, b, steps, sys, id);
  }

  lemma {:induction false} ReachableLive(a: int, b: int, steps: seq<Step>, sys: System, id: ConnId)
    requires Exec(Init(a, b), steps) == Some(sys)
    requires sys.s.phase.Looping? && sys.s.conn == Some(id) && sys.queue == []
    requires sys.c.phase.Running? && sys.c.conn == Some(id)
    ensures Live(sys, id)
  {
    Safety.ReachableInv(a, b, steps);
    LiveFromInv(sys, id);
  }

  /** From every reachable state in which both sides run on one connection there is a run after which both have received
      everything: nothing is pending, each side's recvSeq is the other's sendSeq, and if no connection lost anything to
      eviction, stdout is everything the PTY produced and the PTY got everything the client sent. A failed PTY write as
      the last of all is the one exception: only a reconnect makes up for that. */
  lemma {:induction false} EverythingCanArrive(a: int, b: int, steps: seq<Step>, sys: System, id: ConnId)
    requires Exec(Init(a, b), steps) == Some(sys)
    requires sys.s.phase.Looping? && sys.s.conn == Some(id) && sys.queue == []
    requires sys.c.phase.Running? && sys.c.conn == Some(id)
    ensures id in sys.up
    ensures ToHandle(sys, id) > 0 || LastOk(sys.up[id].outcomes) ==>
              var end := Exec(sys, ArrivalSteps(id, ToRead(sys, id), ToHandle(sys, id)));
              end.Some? && AllArrived(end.value)
  {
    ReachableLive(a, b, steps, sys, id);
    if ToHandle(sys, id) > 0 || LastOk(sys.up[id].outcomes) {
      AllRead(sys, id);
      var more := ArrivalSteps(id, ToRead(sys, id), ToHandle(sys, id));
      ExecAppend(Init(a, b), steps, more);
      ReadIsArrived(a, b, steps + more, Exec(sys, more).value, id);
    }
  }
}
