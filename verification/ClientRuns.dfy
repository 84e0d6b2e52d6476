/** Every run of the protocol, as the client sees it, is a run of its reconnect loop over a list of rounds. */
module ClientRuns {
  import opened Bytes
  import opened ReplayLog
  import opened Packets
  import opened Streams
  import C = ClientModel
  import opened Reconnect
  import Safety = ReconnectSafety

  /** What happened so far on the connection that the client is using. */
  datatype Dialing = Dialing(id: ConnId, header: Option<nat>, accepts: nat, infoOk: bool, inputs: seq<C.Input>)

  function AsRound(d: Dialing, cancelled: bool): C.Round {
    C.Dials(d.id, d.header, d.accepts, d.infoOk, d.inputs, cancelled)
  }

  /** The input of ioLoop that a step takes. */
  function IoInputOf(sys: System, st: IoStep): C.Input
    requires IoEnabled(sys, st)
  {
    match st
    case Stdin(chunk, ok) => C.StdinChunk(chunk, 0, false, ok)
    case ClientFlush(ok) => C.DeadlineDue(false, ok)
    case Receive(ok) =>
      var link := sys.down[sys.c.conn.value];
      C.DataMessage(link.sent[|link.outcomes|], ok)
    case ClientDrop => C.ControlFailed
    case ClientQuit => C.Cancelled
  }

  function HearConnect(sys: System, d: Dialing, st: ConnectStep): Dialing
    requires ConnectEnabled(sys, st)
  {
    match st
    case GetHeader => d.(header := Some(sys.up[sys.c.conn.value].base))
    case ClientReplay(ok) => if ok then d.(accepts := d.accepts + 1) else d
    case SendInfo(ok) => d.(infoOk := ok)
    case _ => d
  }

  function HearIo(sys: System, d: Dialing, st: IoStep): Dialing
    requires IoEnabled(sys, st)
  {
    if sys.c.phase.Running? then d.(inputs := d.inputs + [IoInputOf(sys, st)]) else d
  }

  /** The rounds that ended, and the one under way, if any. */
  datatype Progress = Progress(rounds: seq<C.Round>, opening: Option<Dialing>)

  const NOTHING := Progress([], None)

  /** The round goes on while the client has a connection. */
  function Noted(p: Progress, d: Dialing, goesOn: bool, cancelled: bool): Progress {
    if goesOn then p.(opening := Some(d)) else Progress(p.rounds + [AsRound(d, cancelled)], None)
  }

  function StepProgress(sys: System, p: Progress, st: Step): Progress
    requires Enabled(sys, st)
  {
    match st
    case Connect(Dial(id)) => p.(opening := Some(Dialing(id, None, 0, false, [])))
    case Connect(Stranger(_, _)) => p
    case Connect(d) =>
      if p.opening.None? then p
      else Noted(p, HearConnect(sys, p.opening.value, d), ConnectNext(sys, d).c.conn.Some?, false)
    case Io(i) =>
      if p.opening.None? then p.(rounds := p.rounds + [C.DialFails(true)])
      else Noted(p, HearIo(sys, p.opening.value, i), IoNext(sys, i).c.conn.Some?, i.ClientQuit?)
    case _ => p
  }

  function RunProgress(sys: System, p: Progress, steps: seq<Step>): Progress
    requires Exec(sys, steps).Some?
    decreases |steps|
  {
    if steps == [] then p
    else RunProgress(Next(sys, steps[0]), StepProgress(sys, p, steps[0]), steps[1..])
  }

  /** The rounds of a run, the unfinished one included. */
  function RoundsOf(p: Progress): seq<C.Round> {
    if p.opening.None? then p.rounds else p.rounds + [AsRound(p.opening.value, false)]
  }

  // ---- What the rounds explain -------------------------------------------------------------

  function ReplayOf(c: C.Client, d: Dialing): seq<Entry> {
    if d.header.None? then [] else Since(c.buf, d.header.value)
  }

  /** The ioLoop of the round that began in state c. */
  function LoopOf(c: C.Client, d: Dialing): C.Turn { C.RunFrom(C.EnterLoop(C.Dialed(c, d.id)), d.inputs, 0) }

  function SentBy(c: C.Client, d: Dialing): seq<Entry> {
    if d.infoOk then ReplayOf(c, d) + LoopOf(c, d).sent else ReplayOf(c, d)[..Min(d.accepts, |ReplayOf(c, d)|)]
  }

  function Shown(c: C.Client, d: Dialing): seq<Entry> { if d.infoOk then LoopOf(c, d).written else [] }

  ghost predicate Opening(c: C.Client, d: Dialing, now: C.Client) {
    && c.phase.Idle?
    && match now.phase
       case AwaitingHeader =>
         now == C.Dialed(c, d.id) && d.header.None? && d.accepts == 0 && !d.infoOk && d.inputs == []
       case Replaying(_) =>
         && d.header.Some? && !d.infoOk && d.inputs == [] && d.accepts <= |ReplayOf(c, d)|
         && now == C.Dialed(c, d.id).(phase := C.Replaying(ReplayOf(c, d)[d.accepts..]))
       case Running =>
         && d.header.Some? && d.infoOk && d.accepts == |ReplayOf(c, d)|
         && LoopOf(c, d).reason.None? && now == LoopOf(c, d).state
       case _ => false
  }

  /** The packets and the output of the finished rounds and of the one under way. */
  function Total(first: C.Client, p: Progress): C.Trip {
    var t := C.PlayFrom(first, p.rounds, 0);
    if p.opening.None? then t
    else
      var d := p.opening.value;
      C.Trip(t.state, t.sent + Tag(Some(d.id), SentBy(t.state, d)), t.written + Shown(t.state, d))
  }

  ghost predicate Explained(first: System, sys: System, p: Progress) {
    var t := Total(first.c, p);
    && Carried(first.up, sys.up, t.sent)
    && sys.h.stdout == first.h.stdout + t.written
    && match p.opening
       case None => sys.c == t.state && (sys.c.phase.Idle? || sys.c.phase.Done?)
       case Some(d) => Opening(t.state, d, sys.c) && sys.c.conn == Some(d.id)
  }

  // ---- One step ----------------------------------------------------------------------------

  /** A turn of ioLoop changes the client as its step does, sends and writes out the same, and ends the loop exactly
      when the step gives up the connection. */
  lemma {:induction false} IoTurnIsStep(sys: System, st: IoStep)
    requires IoEnabled(sys, st) && sys.c.phase.Running? && sys.c.conn.Some? && sys.c.conn.value in sys.up
    ensures
      var t, sys' := C.React(sys.c, IoInputOf(sys, st)), IoNext(sys, st);
      && (t.reason.None? <==> sys'.c.conn.Some?)
      && sys'.c == C.AfterLoop(t, st.ClientQuit?)
      && (if t.reason.None? then sys'.c.phase.Running? && sys'.c.conn == sys.c.conn
          else sys'.c.phase.Idle? || sys'.c.phase.Done?)
      && Carried(sys.up, sys'.up, Tag(sys.c.conn, t.sent))
      && sys'.h.stdout == sys.h.stdout + t.written
  {
    var t, sys' := C.React(sys.c, IoInputOf(sys, st)), IoNext(sys, st);
    CarriedOn(sys.up, sys'.up, sys.c.conn, t.sent);
  }

  /** Another party's step leaves the client and what it sent alone. */
  ghost predicate ClientUntouched(sys: System, sys': System) {
    && sys'.c == sys.c
    && sys'.h.stdout == sys.h.stdout
    && forall id: ConnId :: Stream(sys'.up, id) == Stream(sys.up, id)
  }

  lemma {:induction false} LoopUntouched(sys: System, st: LoopStep)
    requires LoopEnabled(sys, st)
    ensures ClientUntouched(sys, LoopNext(sys, st))
  {
  }

  lemma {:induction false} AcceptUntouched(sys: System, st: AcceptStep)
    requires sys.up.Keys <= sys.accepted && AcceptEnabled(sys, st)
    ensures ClientUntouched(sys, AcceptNext(sys, st))
  {
  }

  lemma {:induction false} OthersLeaveClient(sys: System, st: Step)
    requires sys.up.Keys <= sys.accepted && Enabled(sys, st)
    requires st.Loop? || st.Accepting? || st.Reader? || (st.Connect? && st.d.Stranger?)
    ensures ClientUntouched(sys, Next(sys, st))
  {
    match st
    case Loop(a) => LoopUntouched(sys, a);
    case Accepting(b) => AcceptUntouched(sys, b);
    case _ =>
  }

  lemma {:induction false} OthersExplained(first: System, sys: System, sys': System, p: Progress)
    requires Explained(first, sys, p) && ClientUntouched(sys, sys')
    ensures Explained(first, sys', p)
  {
    SameStreams(first.up, sys.up, sys'.up, Total(first.c, p).sent);
  }

  // -- the end of a round

  /** A round that ended as PlayRound says adds up. */
  lemma {:induction false} RoundEnds(first: System, sys': System, p: Progress, d: Dialing, cancelled: bool)
    requires
      var t := C.PlayFrom(first.c, p.rounds, 0);
      && t.state.phase.Idle?
      && Carried(first.up, sys'.up, t.sent + Tag(Some(d.id), SentBy(t.state, d)))
      && sys'.h.stdout == first.h.stdout + (t.written + Shown(t.state, d))
      && C.PlayRound(t.state, AsRound(d, cancelled)) ==
         C.Trip(sys'.c, Tag(Some(d.id), SentBy(t.state, d)), Shown(t.state, d))
    requires sys'.c.phase.Idle? || sys'.c.phase.Done?
    ensures Explained(first, sys', Progress(p.rounds + [AsRound(d, cancelled)], None))
  {
    C.PlaySnoc(first.c, p.rounds, AsRound(d, cancelled), 0);
  }

  /** Losing the connection before ioLoop. */
  lemma {:induction false} ConnectingEnds(first: System, sys: System, sys': System, p: Progress, cancelled: bool)
    requires Explained(first, sys, p) && p.opening.Some? && !sys.c.phase.Running?
    requires sys'.c == C.Retry(sys.c, cancelled) && sys'.h.stdout == sys.h.stdout
    requires forall id: ConnId :: Stream(sys'.up, id) == Stream(sys.up, id)
    ensures Explained(first, sys', Progress(p.rounds + [AsRound(p.opening.value, cancelled)], None))
  {
    SameStreams(first.up, sys.up, sys'.up, Total(first.c, p).sent);
    RoundEnds(first, sys', p, p.opening.value, cancelled);
  }

  // -- connecting

  lemma {:induction false} DialExplained(first: System, sys: System, p: Progress, id: ConnId)
    requires Explained(first, sys, p) && ConnectEnabled(sys, Dial(id))
    ensures Explained(first, ConnectNext(sys, Dial(id)), StepProgress(sys, p, Connect(Dial(id))))
  {
    var t := C.PlayFrom(first.c, p.rounds, 0);
    assert t.sent + Tag(Some(id), []) == t.sent && t.written + [] == t.written;
  }

  lemma {:induction false} HeaderExplained(first: System, sys: System, p: Progress)
    requires Explained(first, sys, p) && ConnectEnabled(sys, GetHeader)
    ensures Explained(first, ConnectNext(sys, GetHeader), StepProgress(sys, p, Connect(GetHeader)))
  {
    var sys', d := ConnectNext(sys, GetHeader), HearConnect(sys, p.opening.value, GetHeader);
    var c := C.PlayFrom(first.c, p.rounds, 0).state;
    assert ReplayOf(c, d)[0..] == ReplayOf(c, d);
    SameStreams(first.up, sys.up, sys'.up, Total(first.c, p).sent);
  }

  lemma {:induction false} ReplayGrows(sys: System, e: Entry)
    requires ConnectEnabled(sys, ClientReplay(true)) && sys.up[sys.c.conn.value].pending == sys.c.phase.rest
    requires e == sys.c.phase.rest[0]
    ensures Carried(sys.up, ConnectNext(sys, ClientReplay(true)).up, Tag(sys.c.conn, [e]))
  {
    CarriedOn(sys.up, ConnectNext(sys, ClientReplay(true)).up, sys.c.conn, [e]);
  }

  /** The round under way sent and showed some more. */
  lemma {:induction false} TotalGrows(first: System, sys: System, sys': System, p: Progress, d': Dialing,
                                      es: seq<Entry>, shown: seq<Entry>)
    requires p.opening.Some? && d'.id == p.opening.value.id
    requires Carried(first.up, sys.up, Total(first.c, p).sent) && Carried(sys.up, sys'.up, Tag(Some(d'.id), es))
    requires sys.h.stdout == first.h.stdout + Total(first.c, p).written && sys'.h.stdout == sys.h.stdout + shown
    requires
      var c := C.PlayFrom(first.c, p.rounds, 0).state;
      && SentBy(c, d') == SentBy(c, p.opening.value) + es
      && Shown(c, d') == Shown(c, p.opening.value) + shown
    ensures
      var t := Total(first.c, p.(opening := Some(d')));
      Carried(first.up, sys'.up, t.sent) && sys'.h.stdout == first.h.stdout + t.written
  {
    var t, d := C.PlayFrom(first.c, p.rounds, 0), p.opening.value;
    CarriedThen(first.up, sys.up, sys'.up, Total(first.c, p).sent, Tag(Some(d.id), es));
    TagMore(t.sent, d.id, SentBy(t.state, d), es);
    Assoc(first.h.stdout, t.written + Shown(t.state, d), shown);
    Assoc(t.written, Shown(t.state, d), shown);
  }

  lemma {:induction false} SentOneMore(c: C.Client, d: Dialing)
    requires !d.infoOk && d.accepts < |ReplayOf(c, d)|
    ensures
      var d' := d.(accepts := d.accepts + 1);
      && SentBy(c, d') == SentBy(c, d) + [ReplayOf(c, d)[d.accepts]]
      && Shown(c, d') == Shown(c, d) + []
  {
    MoveOne(ReplayOf(c, d), d.accepts);
  }

  lemma {:induction false} ReplayExplained(first: System, sys: System, p: Progress)
    requires Explained(first, sys, p) && ConnectEnabled(sys, ClientReplay(true))
    requires sys.up[sys.c.conn.value].pending == sys.c.phase.rest
    ensures Explained(first, ConnectNext(sys, ClientReplay(true)), StepProgress(sys, p, Connect(ClientReplay(true))))
  {
    var c, sys' := C.PlayFrom(first.c, p.rounds, 0).state, ConnectNext(sys, ClientReplay(true));
    var d := p.opening.value;
    var replay, n := ReplayOf(c, d), d.accepts;
    MoveOne(replay, n);
    SentOneMore(c, d);
    ReplayGrows(sys, replay[n]);
    TotalGrows(first, sys, sys', p, d.(accepts := n + 1), [replay[n]], []);
  }

  lemma {:induction false} InfoExplained(first: System, sys: System, p: Progress)
    requires Explained(first, sys, p) && ConnectEnabled(sys, SendInfo(true))
    ensures Explained(first, ConnectNext(sys, SendInfo(true)), StepProgress(sys, p, Connect(SendInfo(true))))
  {
    var t, sys' := C.PlayFrom(first.c, p.rounds, 0), ConnectNext(sys, SendInfo(true));
    var d := p.opening.value;
    var d' := HearConnect(sys, d, SendInfo(true));
    var replay := ReplayOf(t.state, d);
    assert LoopOf(t.state, d') == C.Turn(C.EnterLoop(C.Dialed(t.state, d.id)), [], [], None);
    assert replay[..|replay|] == replay && replay + [] == replay;
  }

  lemma {:induction false} ConnectExplained(first: System, sys: System, p: Progress, st: ConnectStep)
    requires Explained(first, sys, p) && ConnectEnabled(sys, st) && !st.Stranger?
    requires sys.c.phase.Replaying? && sys.c.conn.Some? && sys.c.conn.value in sys.up ==>
               sys.up[sys.c.conn.value].pending == sys.c.phase.rest
    ensures Explained(first, ConnectNext(sys, st), StepProgress(sys, p, Connect(st)))
  {
    match st
    case Dial(id) => DialExplained(first, sys, p, id);
    case GetHeader => HeaderExplained(first, sys, p);
    case ClientReplay(ok) =>
      if ok { ReplayExplained(first, sys, p); } else { ConnectingEnds(first, sys, ConnectNext(sys, st), p, false); }
    case SendInfo(ok) =>
      if ok { InfoExplained(first, sys, p); } else { ConnectingEnds(first, sys, ConnectNext(sys, st), p, false); }
  }

  // -- ioLoop

  /** One more input of the ioLoop under way. */
  lemma {:induction false} LoopGrows(c: C.Client, d: Dialing, i: C.Input, turn: C.Turn)
    requires d.infoOk && LoopOf(c, d).reason.None? && turn == C.React(LoopOf(c, d).state, i)
    ensures
      var d' := d.(inputs := d.inputs + [i]);
      && LoopOf(c, d') == C.Then(LoopOf(c, d), turn)
      && SentBy(c, d') == SentBy(c, d) + turn.sent
      && Shown(c, d') == Shown(c, d) + turn.written
  {
    C.RunSnoc(C.EnterLoop(C.Dialed(c, d.id)), d.inputs, i, 0);
    Assoc(ReplayOf(c, d), LoopOf(c, d).sent, turn.sent);
  }

  /** What a round amounts to once its ioLoop has ended. */
  lemma {:induction false} LoopedRound(c: C.Client, d: Dialing, cancelled: bool)
    requires d.infoOk && d.header.Some? && d.accepts == |ReplayOf(c, d)|
    ensures C.PlayRound(c, AsRound(d, cancelled)) ==
            C.Trip(C.AfterLoop(LoopOf(c, d), cancelled), Tag(Some(d.id), SentBy(c, d)), Shown(c, d))
  {
  }

  /** A network failure that ends the loop is followed by another round; any other exit by Run's return. */
  lemma {:induction false} TurnAdds(first: System, sys: System, sys': System, p: Progress, i: C.Input, turn: C.Turn,
                                    cancelled: bool)
    requires Explained(first, sys, p) && p.opening.Some? && sys.c.phase.Running?
    requires
      var c, d := C.PlayFrom(first.c, p.rounds, 0).state, p.opening.value;
      var d' := d.(inputs := d.inputs + [i]);
      && LoopOf(c, d') == C.Then(LoopOf(c, d), turn)
      && SentBy(c, d') == SentBy(c, d) + turn.sent
      && Shown(c, d') == Shown(c, d) + turn.written
      && Carried(sys.up, sys'.up, Tag(Some(d.id), turn.sent))
    requires sys'.h.stdout == sys.h.stdout + turn.written
    requires sys'.c == C.AfterLoop(turn, cancelled)
    requires if turn.reason.None? then sys'.c.phase.Running? && sys'.c.conn == sys.c.conn
             else sys'.c.phase.Idle? || sys'.c.phase.Done?
    ensures
      var d := p.opening.value;
      Explained(first, sys', Noted(p, d.(inputs := d.inputs + [i]), turn.reason.None?, cancelled))
  {
    var c, d := C.PlayFrom(first.c, p.rounds, 0).state, p.opening.value;
    var d' := d.(inputs := d.inputs + [i]);
    TotalGrows(first, sys, sys', p, d', turn.sent, turn.written);
    if turn.reason.Some? {
      LoopedRound(c, d', cancelled);
      RoundEnds(first, sys', p, d', cancelled);
    }
  }

  lemma {:induction false} TurnExplained(first: System, sys: System, p: Progress, st: IoStep)
    requires Explained(first, sys, p) && IoEnabled(sys, st) && sys.c.phase.Running?
    requires sys.c.conn.Some? && sys.c.conn.value in sys.up
    ensures Explained(first, IoNext(sys, st), StepProgress(sys, p, Io(st)))
  {
    var i, d := IoInputOf(sys, st), p.opening.value;
    var turn := C.React(sys.c, i);
    IoTurnIsStep(sys, st);
    assert StepProgress(sys, p, Io(st)) ==
           Noted(p, d.(inputs := d.inputs + [i]), turn.reason.None?, st.ClientQuit?);
    LoopGrows(C.PlayFrom(first.c, p.rounds, 0).state, p.opening.value, i, turn);
    TurnAdds(first, sys, IoNext(sys, st), p, i, turn, st.ClientQuit?);
  }

  /** The context ends while Run is between connections. */
  lemma {:induction false} IdleQuitExplained(first: System, sys: System, p: Progress)
    requires Explained(first, sys, p) && p.opening.None? && IoEnabled(sys, ClientQuit)
    ensures Explained(first, IoNext(sys, ClientQuit), StepProgress(sys, p, Io(ClientQuit)))
  {
    var t := C.PlayFrom(first.c, p.rounds, 0);
    C.PlaySnoc(first.c, p.rounds, C.DialFails(true), 0);
    assert t.sent + [] == t.sent && t.written + [] == t.written;
  }

  lemma {:induction false} LeaveIsRetry(sys: System, p: Progress, st: IoStep)
    requires p.opening.Some? && !sys.c.phase.Running? && IoEnabled(sys, st) && (st.ClientDrop? || st.ClientQuit?)
    ensures IoNext(sys, st) == sys.(c := C.Retry(sys.c, st.ClientQuit?))
    ensures StepProgress(sys, p, Io(st)) == Progress(p.rounds + [AsRound(p.opening.value, st.ClientQuit?)], None)
  {
  }

  /** The connection is given up before ioLoop. */
  lemma {:induction false} LeaveExplained(first: System, sys: System, p: Progress, st: IoStep)
    requires Explained(first, sys, p) && p.opening.Some? && !sys.c.phase.Running? && IoEnabled(sys, st)
    requires st.ClientDrop? || st.ClientQuit?
    ensures Explained(first, IoNext(sys, st), StepProgress(sys, p, Io(st)))
  {
    LeaveIsRetry(sys, p, st);
    ConnectingEnds(first, sys, sys.(c := C.Retry(sys.c, st.ClientQuit?)), p, st.ClientQuit?);
  }

  lemma {:induction false} IoExplained(first: System, sys: System, p: Progress, st: IoStep)
    requires Safety.ClientControl(sys) && Explained(first, sys, p) && IoEnabled(sys, st)
    ensures Explained(first, IoNext(sys, st), StepProgress(sys, p, Io(st)))
  {
    if sys.c.phase.Running? {
      TurnExplained(first, sys, p, st);
    } else {
      assert st.ClientDrop? || st.ClientQuit?;
      if p.opening.Some? { LeaveExplained(first, sys, p, st); } else { IdleQuitExplained(first, sys, p); }
    }
  }

  lemma {:induction false} StepExplained(first: System, sys: System, p: Progress, st: Step)
    requires Safety.SessionControl(sys) && Safety.ClientControl(sys) && Explained(first, sys, p) && Enabled(sys, st)
    ensures Explained(first, Next(sys, st), StepProgress(sys, p, st))
  {
    match st
    case Connect(d) =>
      if d.Stranger? {
        OthersLeaveClient(sys, st);
        OthersExplained(first, sys, Next(sys, st), p);
      } else {
        ConnectExplained(first, sys, p, d);
      }
    case Io(i) => IoExplained(first, sys, p, i);
    case _ =>
      OthersLeaveClient(sys, st);
      OthersExplained(first, sys, Next(sys, st), p);
  }

  // ---- Whole runs --------------------------------------------------------------------------

  lemma {:induction false} RunExplained(first: System, sys: System, p: Progress, steps: seq<Step>)
    requires Safety.Inv(sys) && Explained(first, sys, p) && Exec(sys, steps).Some?
    ensures Explained(first, Exec(sys, steps).value, RunProgress(sys, p, steps))
    decreases |steps|
  {
    if steps != [] {
      StepExplained(first, sys, p, steps[0]);
      Safety.StepKeeps(sys, steps[0]);
      RunExplained(first, Next(sys, steps[0]), StepProgress(sys, p, steps[0]), steps[1..]);
    }
  }

  /** An unfinished ioLoop is a round that has not returned yet. */
  lemma {:induction false} UnfinishedRound(first: System, sys: System, p: Progress)
    requires Explained(first, sys, p) && (sys.c.phase.Idle? || sys.c.phase.Done? || sys.c.phase.Running?)
    ensures
      var t := C.PlayFrom(first.c, RoundsOf(p), 0);
      t.state == sys.c && sys.h.stdout == first.h.stdout + t.written && Carried(first.up, sys.up, t.sent)
  {
    if p.opening.Some? {
      C.PlaySnoc(first.c, p.rounds, AsRound(p.opening.value, false), 0);
    }
  }

  /** Whatever the session, strangers and the network did in between: where the client stands between connections,
      inside ioLoop or after Run returned, what it put on each connection and what it wrote to stdout are what its
      reconnect loop makes of a list of rounds. */
  lemma {:induction false} ClientRunIsLoop(a: int, b: int, steps: seq<Step>, sys: System)
    requires Exec(Init(a, b), steps) == Some(sys)
    requires sys.c.phase.Idle? || sys.c.phase.Done? || sys.c.phase.Running?
    ensures
      var t := C.PlayFrom(C.Start(LimitsFor(b)), RoundsOf(RunProgress(Init(a, b), NOTHING, steps)), 0);
      && t.state == sys.c
      && t.written == sys.h.stdout
      && (forall id :: id in sys.up ==> OnConn(t.sent, id) == sys.up[id].sent)
  {
    var first := Init(a, b);
    Safety.InitInv(a, b);
    CarriedNothing(first.up, first.up);
    assert C.PlayFrom(first.c, [], 0) == C.Trip(first.c, [], []);
    RunExplained(first, first, NOTHING, steps);
    var p := RunProgress(first, NOTHING, steps);
    UnfinishedRound(first, sys, p);
    var t := C.PlayFrom(first.c, RoundsOf(p), 0);
    assert [] + t.written == t.written;
    forall id | id in sys.up ensures OnConn(t.sent, id) == sys.up[id].sent {
      assert Stream(sys.up, id) == Stream(first.up, id) + OnConn(t.sent, id);
    }
  }
}
