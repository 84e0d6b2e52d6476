/** What the configured replay sizes guarantee over every run: when nothing that the other side misses has been
    evicted. */
module Retention {
  import opened Bytes
  import opened ReplayLog
  import opened Packets
  import L = Lane
  import S = SessionModel
  import C = ClientModel
  import opened Reconnect
  import Safety = ReconnectSafety

  // ---- The limits never change -------------------------------------------------------------

  ghost predicate SameLimits(sys: System, sys': System) {
    sys'.s.limits == sys.s.limits && sys'.c.limits == sys.c.limits
  }

  lemma {:induction false} LoopLimits(sys: System, st: LoopStep)
    requires LoopEnabled(sys, st)
    ensures SameLimits(sys, LoopNext(sys, st))
  {
  }

  lemma {:induction false} AcceptLimits(sys: System, st: AcceptStep)
    requires AcceptEnabled(sys, st)
    ensures SameLimits(sys, AcceptNext(sys, st))
  {
  }

  lemma {:induction false} ConnectLimits(sys: System, st: ConnectStep)
    requires ConnectEnabled(sys, st)
    ensures SameLimits(sys, ConnectNext(sys, st))
  {
  }

  lemma {:induction false} IoLimits(sys: System, st: IoStep)
    requires IoEnabled(sys, st)
    ensures SameLimits(sys, IoNext(sys, st))
  {
  }

  lemma {:induction false} StepLimits(sys: System, st: Step)
    requires Enabled(sys, st)
    ensures SameLimits(sys, Next(sys, st))
  {
    match st
    case Loop(a) => LoopLimits(sys, a);
    case Accepting(b) => AcceptLimits(sys, b);
    case Reader(_) =>
    case Connect(d) => ConnectLimits(sys, d);
    case Io(i) => IoLimits(sys, i);
  }

  lemma {:induction false} RunLimits(sys: System, steps: seq<Step>)
    requires Exec(sys, steps).Some?
    ensures SameLimits(sys, Exec(sys, steps).value)
    decreases |steps|
  {
    if steps != [] {
      StepLimits(sys, steps[0]);
      RunLimits(Next(sys, steps[0]), steps[1..]);
    }
  }

  // ---- One lane ----------------------------------------------------------------------------

  /** Everything stored after the given number. */
  function Missed(log: seq<seq<byte>>, base: nat): seq<Entry>
    requires base <= |log|
  {
    L.Numbered(log)[base..]
  }

  /** A replay that starts where the log was missed is the whole missed part if and only if that is still retained. */
  lemma {:induction false} ReplayIsMissed(log: seq<seq<byte>>, buf: seq<Entry>, base: nat)
    requires |Since(buf, base)| <= |log| && base <= |log|
    requires L.RunOfLog(Since(buf, base), |log| - |Since(buf, base)|, log)
    ensures Since(buf, base) == Missed(log, base) <==> |Since(buf, base)| == |log| - base
  {
  }

  lemma {:induction false} LaneMissed(lane: L.Lane, base: nat)
    requires L.Retained(lane) && base < |lane.log|
    ensures Since(lane.buf, base) == Missed(lane.log, base) <==> Fits(Missed(lane.log, base), lane.limits)
  {
    var h := L.Numbered(lane.log);
    L.ReplayIsRun(lane.log, lane.buf, base);
    ReplayIsMissed(lane.log, lane.buf, base);
    SuffixKept(lane.buf, h, lane.limits, base);
    OldestOfSuffix(lane.log, lane.buf);
  }

  lemma {:induction false} OldestOfSuffix(log: seq<seq<byte>>, buf: seq<Entry>)
    requires EndsWith(L.Numbered(log), buf) && buf != []
    ensures OldestOf(buf) == |log| - |buf| + 1
  {
  }

  // ---- Every run ---------------------------------------------------------------------------

  /** In every reachable state the session would resend everything that the client has not received if and only if that
      fits the configured replay size: its bytes and its number of flushes, or it is a single flush. */
  lemma {:induction false} ClientMisses(a: int, b: int, steps: seq<Step>, sys: System)
    requires Exec(Init(a, b), steps) == Some(sys) && sys.c.recvSeq < sys.s.sendSeq
    ensures |sys.h.sessionLog| == sys.s.sendSeq
    ensures Since(sys.s.buf, sys.c.recvSeq) == Missed(sys.h.sessionLog, sys.c.recvSeq) <==>
            FitsConfigured(Missed(sys.h.sessionLog, sys.c.recvSeq), a)
  {
    Safety.ReachableInv(a, b, steps);
    RunLimits(Init(a, b), steps);
    LimitsExact(a);
    LaneMissed(Down(sys), sys.c.recvSeq);
  }

  /** The same for the client and what the session has not received. */
  lemma {:induction false} SessionMisses(a: int, b: int, steps: seq<Step>, sys: System)
    requires Exec(Init(a, b), steps) == Some(sys) && sys.s.recvSeq < sys.c.sendSeq
    ensures |sys.h.clientLog| == sys.c.sendSeq
    ensures Since(sys.c.buf, sys.s.recvSeq) == Missed(sys.h.clientLog, sys.s.recvSeq) <==>
            FitsConfigured(Missed(sys.h.clientLog, sys.s.recvSeq), b)
  {
    Safety.ReachableInv(a, b, steps);
    RunLimits(Init(a, b), steps);
    LimitsExact(b);
    LaneMissed(Up(sys), sys.s.recvSeq);
  }

  lemma {:induction false} LaneBound(lane: L.Lane, bytes: int)
    requires L.Retained(lane) && lane.limits == LimitsFor(bytes)
    requires forall i :: 0 <= i < |lane.log| ==> |lane.log[i]| <= 65536
    ensures SizeOf(lane.buf) <= Max(ConfiguredSize(bytes), 65536) && |lane.buf| <= ConfiguredSlots(bytes)
  {
    LimitsExact(bytes);
    if |lane.buf| == 1 {
      L.SuffixIsRun(lane.log, lane.buf);
      assert lane.buf == [lane.buf[0]];
      SizeOne(lane.buf[0]);
    }
  }
}
