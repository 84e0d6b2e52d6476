/** Concrete runs in which delivery skips a number, and in which TCP leaves the session starved. */
module Witnesses {
  import opened Bytes
  import opened ReplayLog
  import opened Packets
  import L = Lane
  import S = SessionModel
  import C = ClientModel
  import Escape
  import opened Reconnect
  import opened TcpRetry

  /** One step of a run from one known state to the next. */
  ghost predicate Steps(t: Tcp, st: Step, t': Tcp) { TcpEnabled(t, st) && TcpNext(t, st) == t' }

  lemma {:induction false} TwoSteps(t0: Tcp, a: Step, t1: Tcp, b: Step, t2: Tcp)
    requires Steps(t0, a, t1) && Steps(t1, b, t2)
    ensures TcpExec(t0, [a, b]) == Some(t2)
  {
    TcpCons(t1, b, []);
    TcpCons(t0, a, [b] + []);
    assert [a, b] == [a] + ([b] + []);
  }

  lemma {:induction false} ThreeSteps(t0: Tcp, a: Step, t1: Tcp, b: Step, t2: Tcp, c: Step, t3: Tcp)
    requires Steps(t0, a, t1) && Steps(t1, b, t2) && Steps(t2, c, t3)
    ensures TcpExec(t0, [a, b, c]) == Some(t3)
  {
    TwoSteps(t1, b, t2, c, t3);
    TcpCons(t0, a, [b, c]);
    assert [a, b, c] == [a] + [b, c];
  }

  // ---- Connecting --------------------------------------------------------------------------

  /** The first stages of a connection over which the client has nothing to resend. */
  function DialSteps(id: ConnId): seq<Step> { [Connect(Dial(id)), Accepting(Accept(id, true)), Connect(GetHeader)] }

  const INFO_STEPS: seq<Step> := [Connect(SendInfo(true)), Accepting(Info(true, true))]

  /** An upstream link begun with nothing to replay. */
  const BEGUN := L.Link(true, 0, true, 0, 0, 0, [], [], [])

  /** A session with no connection and nothing pending meets an idle client that never sent anything. */
  ghost predicate Apart(t: Tcp, id: ConnId) {
    && t.sys.s.phase.Looping? && t.sys.s.conn.None? && t.sys.s.pending == [] && t.sys.s.recvSeq == 0
    && t.sys.c.phase.Idle? && t.sys.c.buf == [] && t.sys.c.sendSeq == 0
    && id !in t.sys.down && id !in t.sys.up && id !in t.sys.accepted && id !in t.wire
  }

  /** The two after the header exchange. */
  function Met(t: Tcp, id: ConnId): Tcp {
    t.(sys := t.sys.(
         s := t.sys.s.(conn := Some(id), phase := S.AwaitingInfo),
         c := t.sys.c.(conn := Some(id), phase := C.Replaying([])),
         down := t.sys.down[id := L.Fresh(true, t.sys.c.recvSeq)], up := t.sys.up[id := BEGUN],
         accepted := t.sys.accepted + {id}))
  }

  /** The two after TerminalInfo, with the session's replay list taken. */
  function Introduced(t: Tcp, id: ConnId): Tcp {
    var base := L.Fresh(true, t.sys.c.recvSeq);
    t.(sys := t.sys.(
         s := t.sys.s.(conn := Some(id), spawned := true, phase := S.Replaying(Since(t.sys.s.buf, t.sys.c.recvSeq))),
         c := C.EnterLoop(t.sys.c.(conn := Some(id))),
         down := t.sys.down[id := L.BeginLink(t.sys.s.buf, t.sys.s.sendSeq, base)], up := t.sys.up[id := BEGUN],
         accepted := t.sys.accepted + {id}, infos := t.sys.infos + {id},
         h := t.sys.h.(typed := [], loopStart := |t.sys.h.clientLog|,
                       spawns := if t.sys.s.spawned then t.sys.h.spawns else t.sys.h.spawns + 1)),
       wire := t.wire[id := [InfoMessage]])
  }

  lemma {:induction false} Meets(t: Tcp, id: ConnId)
    requires Apart(t, id)
    ensures TcpExec(t, DialSteps(id)) == Some(Met(t, id))
  {
    var t1 := TcpNext(t, Connect(Dial(id)));
    var t2 := TcpNext(t1, Accepting(Accept(id, true)));
    assert t2.sys.up[id] == L.Fresh(true, 0) && Since([], 0) == [];
    ThreeSteps(t, Connect(Dial(id)), t1, Accepting(Accept(id, true)), t2, Connect(GetHeader), Met(t, id));
  }

  lemma {:induction false} Introduces(t: Tcp, id: ConnId)
    requires Apart(t, id)
    ensures TcpExec(Met(t, id), INFO_STEPS) == Some(Introduced(t, id))
  {
    var t0 := Met(t, id);
    var t1 := TcpNext(t0, Connect(SendInfo(true)));
    assert Wire(t0, id) + [InfoMessage] == [InfoMessage];
    TwoSteps(t0, Connect(SendInfo(true)), t1, Accepting(Info(true, true)), Introduced(t, id));
  }

  lemma {:induction false} Connects(t: Tcp, id: ConnId)
    requires Apart(t, id)
    ensures TcpExec(t, DialSteps(id) + INFO_STEPS) == Some(Introduced(t, id))
  {
    Meets(t, id);
    Introduces(t, id);
    TcpAppend(t, DialSteps(id), INFO_STEPS);
  }

  const CONNECT: seq<Step> := DialSteps(0) + INFO_STEPS

  const HANG_UP: seq<Step> := [Accepting(StartReaders), Loop(CloseNow)]

  /** The session starts its readers and notices that the connection is broken. */
  function HungUp(t: Tcp): Tcp
    requires t.sys.s.conn.Some?
  {
    t.(sys := t.sys.(s := t.sys.s.(conn := None, phase := S.Looping),
                     fetched := t.sys.fetched[t.sys.s.conn.value := 0]))
  }

  lemma {:induction false} HangsUp(t: Tcp)
    requires t.sys.s.phase == S.Replaying([]) && t.sys.s.conn.Some?
    ensures TcpExec(t, HANG_UP) == Some(HungUp(t))
  {
    var t1 := TcpNext(t, Accepting(StartReaders));
    TwoSteps(t, Accepting(StartReaders), t1, Loop(CloseNow), HungUp(t));
  }

  /** After a first connection that the session has given up again. */
  function Abandoned(a: int, b: int): Tcp { HungUp(Introduced(TcpInit(a, b), 0)) }

  lemma {:induction false} ConnectsAndHangsUp(a: int, b: int)
    ensures TcpExec(TcpInit(a, b), CONNECT + HANG_UP) == Some(Abandoned(a, b))
  {
    var t := TcpInit(a, b);
    Connects(t, 0);
    assert Since([], 0) == [];
    HangsUp(Introduced(t, 0));
    TcpAppend(t, CONNECT, HANG_UP);
  }

  // ---- Starvation --------------------------------------------------------------------------

  /** One byte is typed and its write fails. */
  const LOSE_INPUT: seq<Step> := [Io(Stdin([97], true)), Io(ClientFlush(false))]

  lemma {:induction false} TypedOne()
    ensures Escape.FeedAll(Escape.Run(Escape.AfterNewline, [], false), [97]) == Escape.Run(Escape.Mid, [97], false)
  {
    assert [97][..0] == [];
  }

  lemma {:induction false} LosesInput(t: Tcp)
    requires t.sys.c.phase.Running? && t.sys.c.pending == [] && t.sys.c.esc == Escape.AfterNewline
    ensures
      var end := TcpExec(t, LOSE_INPUT);
      && end.Some?
      && end.value.sys.c.conn.None? && end.value.sys.c.sendSeq == t.sys.c.sendSeq + 1
      && end.value.sys.s == t.sys.s
  {
    TypedOne();
    var typed := t.sys.c.(esc := Escape.Mid, pending := [97]);
    assert C.Stdin(t.sys.c, [97], true) == C.Effect(typed, None);
    var t1 := TcpNext(t, Io(Stdin([97], true)));
    assert t1.sys.c == typed;
    TwoSteps(t, Io(Stdin([97], true)), t1, Io(ClientFlush(false)), TcpNext(t1, Io(ClientFlush(false))));
  }

  /** A run over TCP after which TcpReconnectStarves applies: nobody is connected and the session lacks input. */
  lemma {:induction false} StarvationHappens(a: int, b: int)
    ensures
      var end := TcpExec(TcpInit(a, b), CONNECT + HANG_UP + LOSE_INPUT);
      && end.Some?
      && end.value.sys.s.conn.None? && end.value.sys.c.conn.None?
      && end.value.sys.s.recvSeq < end.value.sys.c.sendSeq
  {
    ConnectsAndHangsUp(a, b);
    LosesInput(Abandoned(a, b));
    TcpAppend(TcpInit(a, b), CONNECT + HANG_UP, LOSE_INPUT);
  }

  // ---- A gap -------------------------------------------------------------------------------

  /** The shell prints one byte, which is flushed. */
  function Print(x: byte): seq<Step> { [Loop(PtyChunk([x], true)), Loop(FlushNow(true))] }

  function Printed(t: Tcp, x: byte): Tcp {
    t.(sys := t.sys.(s := S.StoreNext(t.sys.s, [x]),
                     h := t.sys.h.(ptyIn := t.sys.h.ptyIn + [x], sessionLog := t.sys.h.sessionLog + [[x]])))
  }

  lemma {:induction false} Prints(t: Tcp, x: byte)
    requires t.sys.s.phase.Looping? && t.sys.s.spawned && t.sys.s.conn.None? && t.sys.s.pending == []
    ensures TcpExec(t, Print(x)) == Some(Printed(t, x))
  {
    var chunk, flush := Loop(PtyChunk([x], true)), Loop(FlushNow(true));
    var t1 := TcpNext(t, chunk);
    assert [] + [x] == [x];
    assert t1.sys.s == t.sys.s.(pending := [x]);
    TwoSteps(t, chunk, t1, flush, Printed(t, x));
  }

  const DROP: seq<Step> := [Io(ClientDrop)]

  const LOSE_OUTPUT: seq<Step> := Print(7) + Print(8) + DROP

  const KEPT := Entry(2, [8])

  /** Storing a second byte in a one-byte buffer evicts the first. */
  lemma {:induction false} StoredTwice()
    ensures Stored(Stored([], Entry(1, [7]), LimitsFor(1)), KEPT, LimitsFor(1)) == [KEPT]
  {
    var e := Entry(1, [7]);
    SizeOne(e);
    assert LimitsFor(1) == Limits(1, 256);
    assert Stored([], e, LimitsFor(1)) == [e];
    assert [e][1..] == [];
    assert EvictForBytes([e], 1, 1) == EvictForBytes([e][1..], 1, 1) == [];
  }

  /** Number 1 is evicted, number 2 retained, and nobody is connected. */
  lemma {:induction false} LosesOutput(t: Tcp)
    requires t.sys.s.phase.Looping? && t.sys.s.spawned && t.sys.s.conn.None? && t.sys.s.pending == []
    requires t.sys.s.limits == LimitsFor(1) && t.sys.s.buf == [] && t.sys.s.sendSeq == 0 && t.sys.c.conn.Some?
    ensures
      var end := TcpExec(t, LOSE_OUTPUT);
      && end.Some?
      && end.value.sys.s == t.sys.s.(sendSeq := 2, buf := [KEPT])
      && end.value.sys.c == C.Drop(t.sys.c)
      && end.value == t.(sys := end.value.sys)
      && end.value.sys == t.sys.(s := end.value.sys.s, c := end.value.sys.c, h := end.value.sys.h)
      && end.value.sys.h.stdout == t.sys.h.stdout
  {
    StoredTwice();
    Prints(t, 7);
    var t1 := Printed(t, 7);
    Prints(t1, 8);
    var t2 := Printed(t1, 8);
    TcpAppend(t, Print(7), Print(8));
    TcpAppend(t, Print(7) + Print(8), DROP);
    TcpCons(t2, Io(ClientDrop), []);
    assert [Io(ClientDrop)] + [] == DROP;
  }

  const TAKE: seq<Step> := [Accepting(SessionReplay(true)), Io(Receive(true))]

  /** The session replays the one entry it retained, and the client writes it out. */
  lemma {:induction false} TakesTheRest(t: Tcp, id: ConnId)
    requires t.sys.s.phase == S.Replaying([KEPT]) && t.sys.s.conn == Some(id)
    requires t.sys.c.phase.Running? && t.sys.c.conn == Some(id)
    requires id in t.sys.down && t.sys.down[id].pending == [KEPT]
    requires t.sys.down[id].sent == [] && t.sys.down[id].outcomes == []
    ensures TcpExec(t, TAKE).Some? && TcpExec(t, TAKE).value.sys.h.stdout == t.sys.h.stdout + [KEPT]
  {
    var t1 := TcpNext(t, Accepting(SessionReplay(true)));
    assert t1.sys.down[id].sent == [] + [KEPT] == [KEPT];
    TwoSteps(t, Accepting(SessionReplay(true)), t1, Io(Receive(true)), TcpNext(t1, Io(Receive(true))));
  }

  const RETURN: seq<Step> := DialSteps(1) + INFO_STEPS + TAKE

  lemma {:induction false} Returns(t: Tcp)
    requires Apart(t, 1) && t.sys.s.buf == [KEPT] && t.sys.c.recvSeq == 0 && t.sys.h.stdout == []
    ensures TcpExec(t, RETURN).Some? && TcpExec(t, RETURN).value.sys.h.stdout == [KEPT]
  {
    Connects(t, 1);
    assert Since([KEPT], 0) == SinceUpTo([KEPT], 0, 0) + [KEPT] == [KEPT];
    TakesTheRest(Introduced(t, 1), 1);
    TcpAppend(t, DialSteps(1) + INFO_STEPS, TAKE);
    assert [] + [KEPT] == [KEPT];
  }

  /** Delivery does skip numbers: after this run the client has written out number 2 and never number 1. */
  lemma {:induction false} GapsHappen(b: int)
    ensures
      var end := Exec(Init(1, b), CONNECT + HANG_UP + LOSE_OUTPUT + RETURN);
      end.Some? && end.value.h.stdout == [KEPT] && !L.Gapless(end.value.h.stdout)
  {
    var t0, t1 := TcpInit(1, b), Abandoned(1, b);
    ConnectsAndHangsUp(1, b);
    LosesOutput(t1);
    var t2 := TcpExec(t1, LOSE_OUTPUT).value;
    Returns(t2);
    TcpAppend(t0, CONNECT + HANG_UP, LOSE_OUTPUT);
    TcpAppend(t0, CONNECT + HANG_UP + LOSE_OUTPUT, RETURN);
    TcpRunIsRun(t0, CONNECT + HANG_UP + LOSE_OUTPUT + RETURN);
    assert [KEPT][0].seqNo == 2;
  }
}
