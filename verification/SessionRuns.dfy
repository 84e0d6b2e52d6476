/** What a set of connections carries, and how it grows. */
module Streams {
  import opened Bytes
  import opened ReplayLog
  import opened Packets
  import L = Lane

  /** The Data put on a connection so far; none if it does not exist. */
  function Stream(links: map<ConnId, L.Link>, id: ConnId): seq<Entry> {
    if id in links then links[id].sent else []
  }

  /** Between the two moments exactly these packets were sent, each on its connection. */
  ghost predicate Carried(before: map<ConnId, L.Link>, after: map<ConnId, L.Link>, ps: seq<Packet>) {
    forall id: ConnId :: Stream(after, id) == Stream(before, id) + OnConn(ps, id)
  }

  lemma {:induction false} CarriedNothing(before: map<ConnId, L.Link>, after: map<ConnId, L.Link>)
    requires forall id: ConnId :: Stream(after, id) == Stream(before, id)
    ensures Carried(before, after, [])
  {
  }

  lemma {:induction false} CarriedOn(before: map<ConnId, L.Link>, after: map<ConnId, L.Link>, conn: Option<ConnId>,
                                     es: seq<Entry>)
    requires forall id: ConnId :: Stream(after, id) == Stream(before, id) + (if conn == Some(id) then es else [])
    ensures Carried(before, after, Tag(conn, es))
  {
    forall id: ConnId ensures Stream(after, id) == Stream(before, id) + OnConn(Tag(conn, es), id) {
      OnConnTag(conn, es, id);
    }
  }

  lemma {:induction false} CarriedThen(one: map<ConnId, L.Link>, two: map<ConnId, L.Link>,
                                       three: map<ConnId, L.Link>, ps: seq<Packet>, qs: seq<Packet>)
    requires Carried(one, two, ps) && Carried(two, three, qs)
    ensures Carried(one, three, ps + qs)
  {
    forall id: ConnId ensures Stream(three, id) == Stream(one, id) + OnConn(ps + qs, id) {
      OnConnAppend(ps, qs, id);
      Assoc(Stream(one, id), OnConn(ps, id), OnConn(qs, id));
    }
  }

  lemma {:induction false} TagMore(ps: seq<Packet>, id: ConnId, es: seq<Entry>, more: seq<Entry>)
    ensures ps + Tag(Some(id), es) + Tag(Some(id), more) == ps + Tag(Some(id), es + more)
  {
    TagAppend(Some(id), es, more);
    Assoc(ps, Tag(Some(id), es), Tag(Some(id), more));
  }

  lemma {:induction false} SameStreams(first: map<ConnId, L.Link>, one: map<ConnId, L.Link>, two: map<ConnId, L.Link>,
                                       ps: seq<Packet>)
    requires Carried(first, one, ps) && forall id :: Stream(two, id) == Stream(one, id)
    ensures Carried(first, two, ps)
  {
    forall id: ConnId ensures Stream(two, id) == Stream(first, id) + OnConn(ps, id) {
      assert Stream(two, id) == Stream(one, id);
    }
  }
}

/** Every run of the protocol, as the session sees it, is a run of its select loop over a list of inputs. */
module SessionRuns {
  import opened Bytes
  import opened ReplayLog
  import opened Packets
  import opened Streams
  import S = SessionModel
  import opened Reconnect
  import Safety = ReconnectSafety

  /** The input that a step of the loop takes. */
  function InputOf(sys: System, st: LoopStep): S.Input
    requires LoopEnabled(sys, st)
  {
    match st
    case PtyChunk(data, ok) => S.PtyData(data, 0, ok)
    case FlushNow(ok) => S.FlushDue(ok)
    case CloseNow => S.HeartbeatLost
    case Exit => S.AcceptFailed(true)
    case Handle(ok) => S.Stream(sys.queue[0], ok)
  }

  /** What happened to the connection that handleNewConn is working on. */
  datatype Answers = Answers(c: ConnId, last: nat, infoOk: bool, spawnOk: bool, accepts: nat)

  function AsInput(a: Answers): S.Input { S.NewConn(a.c, a.last, true, a.infoOk, a.spawnOk, a.accepts) }

  /** The answers after one more stage, read off the step alone. */
  function Hear(a: Answers, st: Step): Answers {
    match st
    case Accepting(Info(ok, spawnOk)) => a.(infoOk := ok, spawnOk := spawnOk)
    case Accepting(SessionReplay(ok)) => if ok then a.(accepts := a.accepts + 1) else a
    case _ => a
  }

  function HearAll(a: Answers, steps: seq<Step>): Answers
    decreases |steps|
  {
    if steps == [] then a else HearAll(Hear(a, steps[0]), steps[1..])
  }

  /** The inputs of the turns that ended, and the answers of the handshake under way, if any. */
  datatype Progress = Progress(inputs: seq<S.Input>, opening: Option<Answers>)

  const NOTHING := Progress([], None)

  predicate Settled(s: S.Session) { s.phase.Looping? || s.phase.Exited? }

  function AcceptProgress(sys: System, p: Progress, st: AcceptStep): Progress
    requires AcceptEnabled(sys, st)
  {
    match st
    case Accept(id, ok) =>
      if ok then p.(opening := Some(Answers(id, sys.down[id].base, false, false, 0)))
      else p.(inputs := p.inputs + [S.NewConn(id, sys.down[id].base, false, false, false, 0)])
    case _ =>
      if p.opening.None? then p
      else
        var a := Hear(p.opening.value, Accepting(st));
        if Settled(AcceptNext(sys, st).s) then Progress(p.inputs + [AsInput(a)], None) else p.(opening := Some(a))
  }

  function StepProgress(sys: System, p: Progress, st: Step): Progress
    requires Enabled(sys, st)
  {
    match st
    case Loop(a) => p.(inputs := p.inputs + [InputOf(sys, a)])
    case Accepting(b) => AcceptProgress(sys, p, b)
    case _ => p
  }

  function RunProgress(sys: System, p: Progress, steps: seq<Step>): Progress
    requires Exec(sys, steps).Some?
    decreases |steps|
  {
    if steps == [] then p
    else RunProgress(Next(sys, steps[0]), StepProgress(sys, p, steps[0]), steps[1..])
  }

  // ---- What the inputs explain -------------------------------------------------------------

  /** The replay list of the handshake that began at the loop head s. */
  function ReplayOf(s: S.Session, a: Answers): seq<Entry> { Since(S.Accept(s, a.c, true).buf, a.last) }

  function Replayed(s: S.Session, a: Answers): seq<Entry> { ReplayOf(s, a)[..Min(a.accepts, |ReplayOf(s, a)|)] }

  /** handleNewConn began at the loop head s and has got as far as the answers say. */
  ghost predicate Opening(s: S.Session, a: Answers, sys: System) {
    && s.phase.Looping?
    && match sys.s.phase
       case AwaitingInfo =>
         && sys.s == S.Accept(s, a.c, true) && a.accepts == 0
         && a.c in sys.down && sys.down[a.c].base == a.last
       case Replaying(_) =>
         && a.infoOk && (s.spawned || a.spawnOk) && a.accepts <= |ReplayOf(s, a)|
         && sys.s == S.Accept(s, a.c, true).(spawned := true, phase := S.Replaying(ReplayOf(s, a)[a.accepts..]))
       case _ => false
  }

  /** The loop run from the first state over the collected inputs, plus the handshake under way, is where the session
      is now, what it put on every connection and what it wrote to the PTY. */
  ghost predicate Explained(first: System, sys: System, p: Progress) {
    var t := S.RunFrom(first.s, p.inputs, 0);
    && sys.h.ptyOut == first.h.ptyOut + t.written
    && match p.opening
       case None => sys.s == t.state && Settled(sys.s) && Carried(first.down, sys.down, t.sent)
       case Some(a) =>
         && Opening(t.state, a, sys)
         && Carried(first.down, sys.down, t.sent + Tag(Some(a.c), Replayed(t.state, a)))
  }

  // ---- One step ----------------------------------------------------------------------------

  /** A turn of the session's loop changes the session as its step does, puts on the connections what the step
      appends to their streams, and writes to the PTY what the step records. */
  lemma {:induction false} TurnIsStep(sys: System, st: LoopStep)
    requires LoopEnabled(sys, st)
    requires sys.s.conn.Some? ==> sys.s.conn.value in sys.down
    ensures
      var t, sys' := S.React(sys.s, InputOf(sys, st)), LoopNext(sys, st);
      && sys'.s == t.state
      && Carried(sys.down, sys'.down, t.sent)
      && sys'.h.ptyOut == sys.h.ptyOut + t.written
  {
    var sys' := LoopNext(sys, st);
    if st.PtyChunk? {
      CarriedOn(sys.down, sys'.down, sys.s.conn, Listed(S.TakeChunk(sys.s, st.data, st.ok).sent));
    } else if st.FlushNow? {
      CarriedOn(sys.down, sys'.down, sys.s.conn, Listed(S.Flush(sys.s, st.ok).sent));
    } else {
      CarriedNothing(sys.down, sys'.down);
    }
  }

  lemma {:induction false} LoopExplained(first: System, sys: System, p: Progress, st: LoopStep)
    requires Explained(first, sys, p) && LoopEnabled(sys, st)
    requires sys.s.conn.Some? ==> sys.s.conn.value in sys.down
    requires Settled(LoopNext(sys, st).s)
    ensures Explained(first, LoopNext(sys, st), StepProgress(sys, p, Loop(st)))
  {
    var t, i := S.RunFrom(first.s, p.inputs, 0), InputOf(sys, st);
    S.RunSnoc(first.s, p.inputs, i, 0);
    TurnIsStep(sys, st);
    CarriedThen(first.down, sys.down, LoopNext(sys, st).down, t.sent, S.React(t.state, i).sent);
  }

  lemma {:induction false} LoopSettles(sys: System, st: LoopStep)
    requires LoopEnabled(sys, st)
    ensures Settled(LoopNext(sys, st).s)
  {
  }

  /** Another party's step leaves the session and what it sent alone. */
  ghost predicate SessionUntouched(sys: System, sys': System) {
    && sys'.s == sys.s
    && sys'.h.ptyOut == sys.h.ptyOut
    && (forall id :: Stream(sys'.down, id) == Stream(sys.down, id))
    && (forall id :: id in sys.down ==> id in sys'.down && sys'.down[id].base == sys.down[id].base)
  }

  lemma {:induction false} ConnectUntouched(sys: System, st: ConnectStep)
    requires ConnectEnabled(sys, st)
    ensures SessionUntouched(sys, ConnectNext(sys, st))
  {
  }

  lemma {:induction false} IoUntouched(sys: System, st: IoStep)
    requires IoEnabled(sys, st)
    ensures SessionUntouched(sys, IoNext(sys, st))
  {
  }

  lemma {:induction false} OthersLeaveSession(sys: System, st: Step)
    requires Enabled(sys, st) && !st.Loop? && !st.Accepting?
    ensures SessionUntouched(sys, Next(sys, st))
  {
    match st
    case Connect(d) => ConnectUntouched(sys, d);
    case Io(i) => IoUntouched(sys, i);
    case _ =>
  }

  lemma {:induction false} OthersExplained(first: System, sys: System, p: Progress, st: Step)
    requires Explained(first, sys, p) && Enabled(sys, st) && !st.Loop? && !st.Accepting?
    ensures Explained(first, Next(sys, st), p)
  {
    OthersLeaveSession(sys, st);
    var t := S.RunFrom(first.s, p.inputs, 0);
    var ps := if p.opening.None? then t.sent
              else t.sent + Tag(Some(p.opening.value.c), Replayed(t.state, p.opening.value));
    SameStreams(first.down, sys.down, Next(sys, st).down, ps);
  }

  // -- handleNewConn

  /** A connection is accepted: its header is lost, or the handshake begins. */
  lemma {:induction false} AcceptExplained(first: System, sys: System, p: Progress, id: ConnId, ok: bool)
    requires Explained(first, sys, p) && AcceptEnabled(sys, Accept(id, ok))
    ensures Explained(first, AcceptNext(sys, Accept(id, ok)), AcceptProgress(sys, p, Accept(id, ok)))
  {
    var t, sys' := S.RunFrom(first.s, p.inputs, 0), AcceptNext(sys, Accept(id, ok));
    var p' := AcceptProgress(sys, p, Accept(id, ok));
    if ok {
      var a := p'.opening.value;
      assert Replayed(t.state, a) == [];
      assert t.sent + Tag(Some(id), []) == t.sent;
    } else {
      S.RunSnoc(first.s, p.inputs, S.NewConn(id, sys.down[id].base, false, false, false, 0), 0);
      assert t.sent + Tag(Some(id), []) == t.sent && t.written + [] == t.written;
    }
    SameStreams(first.down, sys.down, sys'.down, t.sent);
  }

  /** The handshake ended in the state and with the Data that handleNewConn run to its end gives. */
  lemma {:induction false} HandshakeEnds(first: System, sys': System, p: Progress, a: Answers, s: S.Session)
    requires
      var t := S.RunFrom(first.s, p.inputs, 0);
      && s == t.state && s.phase.Looping?
      && sys'.h.ptyOut == first.h.ptyOut + t.written
      && Carried(first.down, sys'.down, t.sent + Tag(Some(a.c), Replayed(s, a)))
    requires Settled(sys'.s)
    requires
      var r := S.Connect(s, a.c, a.last, true, a.infoOk, a.spawnOk, a.accepts);
      sys'.s == r.state && r.sent == Replayed(s, a)
    ensures Explained(first, sys', Progress(p.inputs + [AsInput(a)], None))
  {
    var t := S.RunFrom(first.s, p.inputs, 0);
    S.RunSnoc(first.s, p.inputs, AsInput(a), 0);
    assert t.written + [] == t.written;
  }

  /** What handleNewConn run to its end makes of the answers, once TerminalInfo is there and the PTY runs. */
  lemma {:induction false} ConnectExact(s: S.Session, a: Answers)
    requires a.infoOk && (s.spawned || a.spawnOk) && a.accepts <= |ReplayOf(s, a)|
    ensures
      var r := S.Connect(s, a.c, a.last, true, a.infoOk, a.spawnOk, a.accepts);
      && r.sent == Replayed(s, a)
      && r.state == S.Accept(s, a.c, true).(spawned := true, phase := S.Looping,
                      conn := if a.accepts == |ReplayOf(s, a)| then Some(a.c) else None)
  {
    S.ReplayAllExact(S.GetInfo(S.Accept(s, a.c, true), true, a.spawnOk, a.last), a.accepts);
  }

  lemma {:induction false} InfoExplained(first: System, sys: System, p: Progress, ok: bool, spawnOk: bool)
    requires Explained(first, sys, p) && p.opening.Some? && AcceptEnabled(sys, Info(ok, spawnOk))
    ensures Explained(first, AcceptNext(sys, Info(ok, spawnOk)), AcceptProgress(sys, p, Info(ok, spawnOk)))
  {
    var t, sys' := S.RunFrom(first.s, p.inputs, 0), AcceptNext(sys, Info(ok, spawnOk));
    var a := Hear(p.opening.value, Accepting(Info(ok, spawnOk)));
    assert Replayed(t.state, a) == [] == Replayed(t.state, p.opening.value);
    SameStreams(first.down, sys.down, sys'.down, t.sent + Tag(Some(a.c), []));
    if Settled(sys'.s) {
      HandshakeEnds(first, sys', p, a, t.state);
    } else {
      assert ReplayOf(t.state, a)[0..] == ReplayOf(t.state, a);
    }
  }

  /** One more replay entry is on the stream. */
  lemma {:induction false} ReplayGrows(sys: System, e: Entry)
    requires AcceptEnabled(sys, SessionReplay(true)) && sys.down[sys.s.conn.value].pending == sys.s.phase.rest
    requires e == sys.s.phase.rest[0]
    ensures Carried(sys.down, AcceptNext(sys, SessionReplay(true)).down, Tag(sys.s.conn, [e]))
  {
    CarriedOn(sys.down, AcceptNext(sys, SessionReplay(true)).down, sys.s.conn, [e]);
  }

  lemma {:induction false} ReplayedOneMore(s: S.Session, a: Answers)
    requires a.accepts < |ReplayOf(s, a)|
    ensures Replayed(s, a.(accepts := a.accepts + 1)) == Replayed(s, a) + [ReplayOf(s, a)[a.accepts]]
  {
    MoveOne(ReplayOf(s, a), a.accepts);
  }

  lemma {:induction false} ReplayExplained(first: System, sys: System, p: Progress)
    requires Explained(first, sys, p) && p.opening.Some? && AcceptEnabled(sys, SessionReplay(true))
    requires sys.down[sys.s.conn.value].pending == sys.s.phase.rest
    ensures Explained(first, AcceptNext(sys, SessionReplay(true)), AcceptProgress(sys, p, SessionReplay(true)))
  {
    var t, sys' := S.RunFrom(first.s, p.inputs, 0), AcceptNext(sys, SessionReplay(true));
    var a := p.opening.value;
    var e := ReplayOf(t.state, a)[a.accepts];
    MoveOne(ReplayOf(t.state, a), a.accepts);
    ReplayedOneMore(t.state, a);
    ReplayGrows(sys, e);
    CarriedThen(first.down, sys.down, sys'.down, t.sent + Tag(Some(a.c), Replayed(t.state, a)), Tag(Some(a.c), [e]));
    TagMore(t.sent, a.c, Replayed(t.state, a), [e]);
  }

  /** A failed replay write, or the start of the readers, ends the handshake. */
  lemma {:induction false} LastStageExplained(first: System, sys: System, p: Progress, st: AcceptStep)
    requires Explained(first, sys, p) && p.opening.Some? && AcceptEnabled(sys, st)
    requires st == SessionReplay(false) || st == StartReaders
    ensures Explained(first, AcceptNext(sys, st), AcceptProgress(sys, p, st))
  {
    var t, sys' := S.RunFrom(first.s, p.inputs, 0), AcceptNext(sys, st);
    var a := p.opening.value;
    ConnectExact(t.state, a);
    SameStreams(first.down, sys.down, sys'.down, t.sent + Tag(Some(a.c), Replayed(t.state, a)));
    HandshakeEnds(first, sys', p, a, t.state);
  }

  lemma {:induction false} StepExplained(first: System, sys: System, p: Progress, st: Step)
    requires Safety.SessionControl(sys) && Explained(first, sys, p) && Enabled(sys, st)
    ensures Explained(first, Next(sys, st), StepProgress(sys, p, st))
  {
    match st
    case Loop(a) =>
      LoopSettles(sys, a);
      LoopExplained(first, sys, p, a);
    case Accepting(Accept(id, ok)) => AcceptExplained(first, sys, p, id, ok);
    case Accepting(Info(ok, spawnOk)) => InfoExplained(first, sys, p, ok, spawnOk);
    case Accepting(SessionReplay(ok)) =>
      if ok { ReplayExplained(first, sys, p); } else { LastStageExplained(first, sys, p, SessionReplay(false)); }
    case Accepting(StartReaders) => LastStageExplained(first, sys, p, StartReaders);
    case _ => OthersExplained(first, sys, p, st);
  }

  // ---- Whole runs --------------------------------------------------------------------------

  lemma {:induction false} RunExplained(first: System, sys: System, p: Progress, steps: seq<Step>)
    requires Safety.Inv(sys) && Explained(first, sys, p) && Exec(sys, steps).Some?
    ensures Explained(first, Exec(sys, steps).value, RunProgress(sys, p, steps))
    decreases |steps|
  {
    if steps != [] {
      StepExplained(first, sys, p, steps[0]);
      Safety.StepKeeps(sys, steps[0]);
      RunExplained(first, Next(sys, steps[0]), StepProgress(sys, p, steps[0]), steps[1..]);
    }
  }

  lemma {:induction false} NothingExplained(sys: System)
    requires Settled(sys.s)
    ensures Explained(sys, sys, NOTHING)
  {
    assert S.RunFrom(sys.s, [], 0) == S.Turn(sys.s, [], []);
    assert sys.h.ptyOut + [] == sys.h.ptyOut;
    CarriedNothing(sys.down, sys.down);
  }

  /** Whatever the client, strangers and the network did in between: where the session stands at a loop head or after
      its exit, what it put on each connection and what it wrote to the PTY are what its select loop makes of a list
      of inputs, so every guarantee about runs of the protocol is one about the loop. */
  lemma {:induction false} SessionRunIsLoop(a: int, b: int, steps: seq<Step>, sys: System)
    requires Exec(Init(a, b), steps) == Some(sys) && Settled(sys.s)
    ensures
      var t := S.RunFrom(S.Start(LimitsFor(a)), RunProgress(Init(a, b), NOTHING, steps).inputs, 0);
      && t.state == sys.s
      && t.written == sys.h.ptyOut
      && (forall id :: id in sys.down ==> OnConn(t.sent, id) == sys.down[id].sent)
  {
    var first := Init(a, b);
    Safety.InitInv(a, b);
    NothingExplained(first);
    RunExplained(first, first, NOTHING, steps);
    var p := RunProgress(first, NOTHING, steps);
    var t := S.RunFrom(first.s, p.inputs, 0);
    assert [] + t.written == t.written;
    forall id | id in sys.down ensures OnConn(t.sent, id) == sys.down[id].sent {
      assert Stream(sys.down, id) == Stream(first.down, id) + OnConn(t.sent, id);
    }
  }

  // ---- handleNewConn among everyone else's steps -------------------------------------------

  /** Later stages of one handshake, and steps of anyone else. */
  predicate StagesAndOthers(steps: seq<Step>) {
    forall i :: 0 <= i < |steps| ==> !steps[i].Loop? && !(steps[i].Accepting? && steps[i].b.Accept?)
  }

  /** At a loop head only others can move. */
  lemma {:induction false} OthersHearNothing(sys: System, p: Progress, a: Answers, steps: seq<Step>)
    requires Settled(sys.s) && p.opening.None? && Exec(sys, steps).Some? && StagesAndOthers(steps)
    ensures RunProgress(sys, p, steps) == p && HearAll(a, steps) == a
    decreases |steps|
  {
    if steps != [] {
      var st := steps[0];
      assert !st.Loop? && !st.Accepting?;
      OthersLeaveSession(sys, st);
      OthersHearNothing(Next(sys, st), p, a, steps[1..]);
    }
  }

  lemma {:induction false} HeardInFull(sys: System, p: Progress, steps: seq<Step>)
    requires p.opening.Some? && !Settled(sys.s) && Exec(sys, steps).Some? && StagesAndOthers(steps)
    ensures
      var a, p' := HearAll(p.opening.value, steps), RunProgress(sys, p, steps);
      p' == p.(opening := Some(a)) || p' == Progress(p.inputs + [AsInput(a)], None)
    decreases |steps|
  {
    if steps != [] {
      var st := steps[0];
      var sys', p' := Next(sys, st), StepProgress(sys, p, st);
      if !st.Accepting? { OthersLeaveSession(sys, st); }
      if p'.opening.Some? {
        HeardInFull(sys', p', steps[1..]);
      } else {
        OthersHearNothing(sys', p', Hear(p.opening.value, st), steps[1..]);
      }
    }
  }

  lemma {:induction false} HearKeepsConn(a: Answers, steps: seq<Step>)
    ensures HearAll(a, steps).c == a.c && HearAll(a, steps).last == a.last
    decreases |steps|
  {
    if steps != [] { HearKeepsConn(Hear(a, steps[0]), steps[1..]); }
  }

  /** The stages of one handshake amount to one input. */
  lemma {:induction false} OneInput(sys: System, id: ConnId, headerOk: bool, p: Progress, more: seq<Step>)
    requires
      var accept := Accept(id, headerOk);
      && AcceptEnabled(sys, accept) && p == AcceptProgress(sys, NOTHING, accept)
      && Exec(AcceptNext(sys, accept), more).Some? && StagesAndOthers(more)
      && RunProgress(AcceptNext(sys, accept), p, more).opening.None?
    ensures
      var a := HearAll(Answers(id, sys.down[id].base, false, false, 0), more);
      RunProgress(AcceptNext(sys, Accept(id, headerOk)), p, more).inputs ==
      [S.NewConn(id, sys.down[id].base, headerOk, a.infoOk, a.spawnOk, a.accepts)]
  {
    var a := Answers(id, sys.down[id].base, false, false, 0);
    var sys1 := AcceptNext(sys, Accept(id, headerOk));
    HearKeepsConn(a, more);
    if headerOk { HeardInFull(sys1, p, more); } else { OthersHearNothing(sys1, p, a, more); }
  }

  /** From sys to end the session did what r says, with r's Data on connection id and none elsewhere. */
  ghost predicate Ran(sys: System, end: System, id: ConnId, r: S.Connected) {
    && end.s == r.state
    && end.h.ptyOut == sys.h.ptyOut
    && forall other: ConnId :: Stream(end.down, other) == Stream(sys.down, other) + if other == id then r.sent else []
  }

  lemma {:induction false} OneTurnRan(sys: System, end: System, i: S.Input, r: S.Connected)
    requires i.NewConn? && sys.s.phase.Looping? && Explained(sys, end, Progress([i], None))
    requires r == S.Connect(sys.s, i.c, i.last, i.headerOk, i.infoOk, i.spawnOk, i.accepts)
    ensures Ran(sys, end, i.c, r)
  {
    var t := S.Turn(r.state, Tag(Some(i.c), r.sent), []);
    assert S.React(sys.s, i) == t && S.RunFrom(t.state, [i], 1) == S.Turn(t.state, [], []);
    assert S.RunFrom(sys.s, [i], 0) == t;
    assert sys.h.ptyOut + [] == sys.h.ptyOut;
    forall other: ConnId
      ensures Stream(end.down, other) == Stream(sys.down, other) + if other == i.c then r.sent else []
    {
      OnConnTag(Some(i.c), r.sent, other);
      assert Stream(end.down, other) == Stream(sys.down, other) + OnConn(t.sent, other);
    }
  }

  /** handleNewConn run to its end is its stages taken one after the other with any steps of the client, strangers and
      readers between them, for every combination of answers: the session ends up where the handler does, and
      the new connection, and no other, carries the replay the handler wrote. */
  lemma {:induction false} NewConnIsSteps(sys: System, id: ConnId, headerOk: bool, more: seq<Step>, end: System)
    requires Safety.Inv(sys) && AcceptEnabled(sys, Accept(id, headerOk))
    requires Exec(AcceptNext(sys, Accept(id, headerOk)), more) == Some(end)
    requires StagesAndOthers(more) && Settled(end.s)
    ensures
      var a := HearAll(Answers(id, sys.down[id].base, false, false, 0), more);
      Ran(sys, end, id, S.Connect(sys.s, id, sys.down[id].base, headerOk, a.infoOk, a.spawnOk, a.accepts))
  {
    var accept := Accepting(Accept(id, headerOk));
    var sys1, p := Next(sys, accept), StepProgress(sys, NOTHING, accept);
    NothingExplained(sys);
    StepExplained(sys, sys, NOTHING, accept);
    Safety.StepKeeps(sys, accept);
    RunExplained(sys, sys1, p, more);
    OneInput(sys, id, headerOk, p, more);
    var a := HearAll(Answers(id, sys.down[id].base, false, false, 0), more);
    OneTurnRan(sys, end, S.NewConn(id, sys.down[id].base, headerOk, a.infoOk, a.spawnOk, a.accepts),
               S.Connect(sys.s, id, sys.down[id].base, headerOk, a.infoOk, a.spawnOk, a.accepts));
  }
}
