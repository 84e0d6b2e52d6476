/** The replay loops of both sides as runs of the protocol, and a reconnect that goes through. */
module HandshakeRuns {
  import opened Bytes
  import opened ReplayLog
  import opened Packets
  import opened Streams
  import L = Lane
  import S = SessionModel
  import C = ClientModel
  import opened Reconnect
  import opened HandlersAreSteps
  import Safety = ReconnectSafety

  // ---- The session's replay loop -----------------------------------------------------------

  /** The steps of a replay of n entries when the first `accepts` writes succeed. */
  function ReplaySteps(n: nat, accepts: nat): seq<Step> {
    if n == 0 then [Accepting(StartReaders)]
    else if accepts == 0 then [Accepting(SessionReplay(false))]
    else [Accepting(SessionReplay(true))] + ReplaySteps(n - 1, accepts - 1)
  }

  ghost predicate ReplayReady(sys: System) {
    && sys.s.phase.Replaying? && sys.s.conn.Some? && sys.s.conn.value in sys.down
    && sys.down[sys.s.conn.value].pending == sys.s.phase.rest
  }

  /** From sys to end only the session moved, to where r says, and put r's Data on its connection. */
  ghost predicate SessionRan(sys: System, end: System, r: S.Connected) {
    && end.s == r.state
    && end.c == sys.c && end.up == sys.up && end.down.Keys == sys.down.Keys
    && Carried(sys.down, end.down, Tag(sys.s.conn, r.sent))
  }

  lemma {:induction false} OneReplayStep(sys: System, sys': System)
    requires ReplayReady(sys) && sys.s.phase.rest != [] && sys' == Next(sys, Accepting(SessionReplay(true)))
    ensures ReplayReady(sys') && sys'.s.conn == sys.s.conn
    ensures SessionRan(sys, sys', S.Connected(S.ReplayOne(sys.s, true).state, [sys.s.phase.rest[0]]))
  {
    CarriedOn(sys.down, sys'.down, sys.s.conn, [sys.s.phase.rest[0]]);
  }

  lemma {:induction false} LastReplayStep(sys: System, st: AcceptStep)
    requires ReplayReady(sys) && AcceptEnabled(sys, st)
    requires st == SessionReplay(false) || st.StartReaders?
    ensures Exec(sys, [Accepting(st)]) == Some(Next(sys, Accepting(st)))
    ensures SessionRan(sys, Next(sys, Accepting(st)), S.Connected(AcceptNext(sys, st).s, []))
  {
    ExecOne(sys, Accepting(st));
    CarriedNothing(sys.down, Next(sys, Accepting(st)).down);
    assert Tag(sys.s.conn, []) == [];
  }

  lemma {:induction false} RanThen(one: System, two: System, three: System, r: S.Connected, q: S.Connected)
    requires SessionRan(one, two, r) && SessionRan(two, three, q) && two.s.conn == one.s.conn
    ensures SessionRan(one, three, S.Connected(q.state, r.sent + q.sent))
  {
    CarriedThen(one.down, two.down, three.down, Tag(one.s.conn, r.sent), Tag(one.s.conn, q.sent));
    TagAppend(one.s.conn, r.sent, q.sent);
  }

  /** The replay loop is that many replay steps, up to the first failed write. */
  lemma {:induction false} ReplayIsSteps(sys: System, accepts: nat)
    requires ReplayReady(sys)
    ensures
      var end := Exec(sys, ReplaySteps(|sys.s.phase.rest|, accepts));
      end.Some? && SessionRan(sys, end.value, S.ReplayAll(sys.s, accepts))
    decreases |sys.s.phase.rest|
  {
    var rest := sys.s.phase.rest;
    if rest == [] {
      LastReplayStep(sys, StartReaders);
    } else if accepts == 0 {
      LastReplayStep(sys, SessionReplay(false));
    } else {
      var st := Accepting(SessionReplay(true));
      var sys1 := Next(sys, st);
      OneReplayStep(sys, sys1);
      ReplayIsSteps(sys1, accepts - 1);
      var more := ReplaySteps(|rest| - 1, accepts - 1);
      ExecCons(sys, st, more);
      RanThen(sys, sys1, Exec(sys1, more).value, S.Connected(sys1.s, [rest[0]]), S.ReplayAll(sys1.s, accepts - 1));
    }
  }

  // ---- The client's sequence exchange ------------------------------------------------------

  function ResendSteps(n: nat, accepts: nat): seq<Step> {
    if n == 0 then []
    else if accepts == 0 then [Connect(ClientReplay(false))]
    else [Connect(ClientReplay(true))] + ResendSteps(n - 1, accepts - 1)
  }

  ghost predicate ResendReady(sys: System) {
    && sys.c.phase.Replaying? && sys.c.conn.Some? && sys.c.conn.value in sys.up
    && sys.up[sys.c.conn.value].pending == sys.c.phase.rest
  }

  /** From sys to end only the client moved, to c, and put es on its connection. */
  ghost predicate ClientRan(sys: System, end: System, c: C.Client, es: seq<Entry>) {
    && end.c == c
    && end.s == sys.s && end.down == sys.down && end.infos == sys.infos
    && end.up.Keys == sys.up.Keys
    && Carried(sys.up, end.up, Tag(sys.c.conn, es))
  }

  /** The client after resending its replay list, or after the write that failed. */
  function Resent(c: C.Client, ok: bool): C.Client { if ok then c.(phase := C.Replaying([])) else C.Drop(c) }

  lemma {:induction false} OneResendStep(sys: System, sys': System)
    requires ResendReady(sys) && sys.c.phase.rest != [] && sys' == Next(sys, Connect(ClientReplay(true)))
    ensures ResendReady(sys') && sys'.c.conn == sys.c.conn
    ensures ClientRan(sys, sys', C.ReplayOne(sys.c, true).state, [sys.c.phase.rest[0]])
  {
    CarriedOn(sys.up, sys'.up, sys.c.conn, [sys.c.phase.rest[0]]);
  }

  lemma {:induction false} NothingResent(sys: System, c: C.Client)
    requires sys.c.conn.Some?
    ensures ClientRan(sys, sys.(c := c), c, [])
  {
    CarriedNothing(sys.up, sys.up);
    assert Tag(sys.c.conn, []) == [];
  }

  lemma {:induction false} ClientRanThen(one: System, two: System, three: System, b: C.Client, es: seq<Entry>,
                                         c: C.Client, more: seq<Entry>)
    requires ClientRan(one, two, b, es) && ClientRan(two, three, c, more) && two.c.conn == one.c.conn
    ensures ClientRan(one, three, c, es + more)
  {
    CarriedThen(one.up, two.up, three.up, Tag(one.c.conn, es), Tag(one.c.conn, more));
    TagAppend(one.c.conn, es, more);
  }

  lemma {:induction false} ResendIsSteps(sys: System, accepts: nat)
    requires ResendReady(sys)
    ensures
      var rest := sys.c.phase.rest;
      var end := Exec(sys, ResendSteps(|rest|, accepts));
      end.Some? && ClientRan(sys, end.value, Resent(sys.c, accepts >= |rest|), rest[..Min(accepts, |rest|)])
    decreases |sys.c.phase.rest|
  {
    var rest := sys.c.phase.rest;
    if rest == [] {
      NothingResent(sys, sys.c);
    } else if accepts == 0 {
      ExecOne(sys, Connect(ClientReplay(false)));
      NothingResent(sys, C.Drop(sys.c));
    } else {
      var st := Connect(ClientReplay(true));
      var sys1 := Next(sys, st);
      OneResendStep(sys, sys1);
      ResendIsSteps(sys1, accepts - 1);
      var more := ResendSteps(|rest| - 1, accepts - 1);
      ExecCons(sys, st, more);
      var k := Min(accepts, |rest|) - 1;
      assert k == Min(accepts - 1, |rest| - 1);
      TakeCons(rest, k);
      ClientRanThen(sys, sys1, Exec(sys1, more).value, sys1.c, [rest[0]], Resent(sys.c, accepts >= |rest|),
                    rest[1..][..k]);
    }
  }

  /** handleSequenceExchange is the header step and then the resends, with the Data and the outcome that
      Client.HandleSequenceExchange reports. */
  lemma {:induction false} ExchangeIsSteps(sys: System, accepts: nat)
    requires ConnectEnabled(sys, GetHeader)
    ensures
      var replay := Since(sys.c.buf, sys.up[sys.c.conn.value].base);
      var end := Exec(sys, [Connect(GetHeader)] + ResendSteps(|replay|, accepts));
      end.Some? && ClientRan(sys, end.value, Resent(sys.c, accepts >= |replay|), replay[..Min(accepts, |replay|)])
  {
    var st := Connect(GetHeader);
    var sys1, replay := Next(sys, st), Since(sys.c.buf, sys.up[sys.c.conn.value].base);
    ResendIsSteps(sys1, accepts);
    ExecCons(sys, st, ResendSteps(|replay|, accepts));
    CarriedNothing(sys.up, sys1.up);
    assert Tag(sys.c.conn, []) == [];
    var es := replay[..Min(accepts, |replay|)];
    ClientRanThen(sys, sys1, Exec(sys1, ResendSteps(|replay|, accepts)).value, sys1.c, [],
                  Resent(sys.c, accepts >= |replay|), es);
    assert [] + es == es;
  }

  // ---- A reconnect that goes through -------------------------------------------------------

  /** The stages up to TerminalInfo without failures; n is the length of the client's replay list. */
  function FrontSteps(id: ConnId, n: nat): seq<Step> {
    [Accepting(Accept(id, true))] + (([Connect(GetHeader)] + ResendSteps(n, n)) + [Connect(SendInfo(true))])
  }

  /** The stages after it; m is the length of the session's replay list. */
  function BackSteps(m: nat): seq<Step> { [Accepting(Info(true, true))] + ReplaySteps(m, m) }

  /** Both sides run on connection id; each has put exactly what the other missed, as far as retained, on it. */
  ghost predicate BothRunning(sys: System, end: System, id: ConnId) {
    && id in end.up && id in end.down
    && end.s.phase.Looping? && end.s.conn == Some(id)
    && end.c.phase.Running? && end.c.conn == Some(id)
    && end.up[id].sent == Since(sys.c.buf, sys.s.recvSeq)
    && end.down[id].sent == Since(end.s.buf, sys.c.recvSeq)
  }

  /** The stages up to TerminalInfo: the session has the connection and waits, the client is in its loop. */
  lemma {:induction false} ClientGetsThrough(sys: System, id: ConnId, n: nat)
    requires sys.up.Keys <= sys.accepted && AcceptEnabled(sys, Accept(id, true))
    requires sys.c.phase.AwaitingHeader? && sys.c.conn == Some(id) && n == |Since(sys.c.buf, sys.s.recvSeq)|
    ensures
      var mid := Exec(sys, FrontSteps(id, n));
      && mid.Some?
      && mid.value.s == S.Accept(sys.s, id, true) && mid.value.down == sys.down && id in mid.value.infos
      && mid.value.c.phase.Running? && mid.value.c.conn == Some(id)
      && id in mid.value.up && mid.value.up[id].sent == Since(sys.c.buf, sys.s.recvSeq)
  {
    var accept, info := Accepting(Accept(id, true)), Connect(SendInfo(true));
    var exchange := [Connect(GetHeader)] + ResendSteps(n, n);
    var sys1, replay := Next(sys, accept), Since(sys.c.buf, sys.s.recvSeq);
    ExecCons(sys, accept, exchange + [info]);
    ExchangeIsSteps(sys1, n);
    var sys2 := Exec(sys1, exchange).value;
    ExecAppend(sys1, exchange, [info]);
    ExecOne(sys2, info);
    assert replay[..n] == replay;
    OnConnTag(Some(id), replay, id);
    assert Stream(sys2.up, id) == Stream(sys1.up, id) + replay;
  }

  /** The stages after TerminalInfo. */
  lemma {:induction false} SessionGetsThrough(sys: System, id: ConnId, m: nat)
    requires sys.s.phase.AwaitingInfo? && sys.s.conn == Some(id) && id in sys.infos && id in sys.down
    requires sys.down[id].sent == [] && m == |Since(sys.s.buf, sys.down[id].base)|
    ensures
      var end := Exec(sys, BackSteps(m));
      && end.Some?
      && end.value.s.phase.Looping? && end.value.s.conn == Some(id) && end.value.s.buf == sys.s.buf
      && end.value.c == sys.c && end.value.up == sys.up
      && id in end.value.down && end.value.down[id].sent == Since(sys.s.buf, sys.down[id].base)
  {
    var info := Accepting(Info(true, true));
    var sys1, replay := Next(sys, info), Since(sys.s.buf, sys.down[id].base);
    ExecCons(sys, info, ReplaySteps(m, m));
    ReplayIsSteps(sys1, m);
    S.ReplayAllExact(sys1.s, m);
    assert replay[..m] == replay;
    OnConnTag(Some(id), replay, id);
    var end := Exec(sys1, ReplaySteps(m, m)).value;
    assert Stream(end.down, id) == Stream(sys1.down, id) + replay;
  }

  /** What the invariant says of a connection that the client dialled and the session has not accepted. */
  lemma {:induction false} DialledIsFresh(sys: System, id: ConnId)
    requires Safety.Inv(sys) && sys.c.conn == Some(id) && id in sys.down && id !in sys.accepted
    ensures sys.down[id].sent == [] && sys.down[id].base == sys.c.recvSeq
  {
    assert L.LinkOk(Down(sys).links[id], Down(sys).log, Down(sys).sender == Some(id));
    assert L.ReceiverOk(Down(sys));
  }

  /** With separate streams a reconnect can always go through: from any reachable state in which the client has dialled
      and the session is at its loop head, a run without failures leads to both sides running, each having resent
      exactly what it retained of what the other declared missing. */
  lemma {:induction false} ReconnectSucceeds(sys: System, id: ConnId)
    requires Safety.Inv(sys) && AcceptEnabled(sys, Accept(id, true))
    requires sys.c.phase.AwaitingHeader? && sys.c.conn == Some(id)
    ensures
      var n, m := |Since(sys.c.buf, sys.s.recvSeq)|, |Since(S.Accept(sys.s, id, true).buf, sys.c.recvSeq)|;
      var end := Exec(sys, FrontSteps(id, n) + BackSteps(m));
      end.Some? && BothRunning(sys, end.value, id)
  {
    var n, m := |Since(sys.c.buf, sys.s.recvSeq)|, |Since(S.Accept(sys.s, id, true).buf, sys.c.recvSeq)|;
    DialledIsFresh(sys, id);
    ClientGetsThrough(sys, id, n);
    ExecAppend(sys, FrontSteps(id, n), BackSteps(m));
    SessionGetsThrough(Exec(sys, FrontSteps(id, n)).value, id, m);
  }
}
