/** The delivery guarantees of the reconnect protocol, for every run from the initial state. */
module Delivery {
  import opened Bytes
  import opened ReplayLog
  import opened Packets
  import L = Lane
  import opened Reconnect
  import Safety = ReconnectSafety
  import Retention
  import P = Protocol
  import Mux = TcpMux
  import Escape

  ghost predicate Reaches(a: int, b: int, steps: seq<Step>, sys: System) {
    Exec(Init(a, b), steps) == Some(sys)
  }

  /** The client's stdout is the payloads of strictly increasing session sequence numbers, each at most once,
      and recvSeq is the last of them, although the client never compares sequence numbers. */
  lemma {:induction false} DownstreamSafety(a: int, b: int, steps: seq<Step>, sys: System)
    requires Reaches(a, b, steps, sys)
    ensures L.Increasing(sys.h.stdout)
    ensures L.FromLog(sys.h.stdout, sys.h.sessionLog)
    ensures sys.c.recvSeq == NewestOf(sys.h.stdout) <= sys.s.sendSeq == |sys.h.sessionLog|
  {
    Safety.ReachableInv(a, b, steps);
    assert L.OutputOk(Down(sys));
  }

  /** The session's PTY writes are likewise in order and at most once, and recvSeq acknowledges exactly the
      last successful write. */
  lemma {:induction false} UpstreamSafety(a: int, b: int, steps: seq<Step>, sys: System)
    requires Reaches(a, b, steps, sys)
    ensures L.Increasing(sys.h.ptyOut)
    ensures L.FromLog(sys.h.ptyOut, sys.h.clientLog)
    ensures sys.s.recvSeq == NewestOf(sys.h.ptyOut) <= sys.c.sendSeq == |sys.h.clientLog|
  {
    Safety.ReachableInv(a, b, steps);
    assert L.OutputOk(Up(sys));
  }

  /** Between the number declared on a connection and the first Data taken from it recvSeq cannot move, in either
      direction. */
  lemma {:induction false} DeclaredNumberHolds(a: int, b: int, steps: seq<Step>, sys: System)
    requires Reaches(a, b, steps, sys)
    ensures sys.s.conn.Some? ==>
              var id := sys.s.conn.value;
              id in sys.up && (sys.up[id].outcomes == [] ==> sys.s.recvSeq == sys.up[id].base)
    ensures sys.c.conn.Some? ==>
              var id := sys.c.conn.value;
              id in sys.down && (sys.down[id].outcomes == [] ==> sys.c.recvSeq == sys.down[id].base)
  {
    Safety.ReachableInv(a, b, steps);
    assert L.ReceiverOk(Down(sys)) && L.ReceiverOk(Up(sys));
  }

  /** Every connection carries one contiguous block of numbers; on the client's own connections it starts at
      max(LastClientSeq + 1, oldest retained) downstream and max(header + 1, oldest retained) upstream. */
  lemma {:induction false} ConnectionBlocks(a: int, b: int, steps: seq<Step>, sys: System, id: ConnId)
    requires Reaches(a, b, steps, sys)
    ensures id in sys.down ==>
              var link := sys.down[id];
              && L.FromLog(link.sent, sys.h.sessionLog)
              && L.ContiguousFrom(link.sent, link.start + 1)
              && (link.own && link.begun ==> L.ContiguousFrom(link.sent, Max(link.base + 1, link.oldest)))
    ensures id in sys.up ==>
              var link := sys.up[id];
              && L.FromLog(link.sent, sys.h.clientLog)
              && (link.own && link.begun ==> L.ContiguousFrom(link.sent, Max(link.base + 1, link.oldest)))
  {
    Safety.ReachableInv(a, b, steps);
    if id in sys.down { L.BlockContiguous(Down(sys), id); }
    if id in sys.up { L.BlockContiguous(Up(sys), id); }
  }

  /** Downstream delivery is exactly 1..recvSeq if and only if every connection of the client that delivered
      anything began with the missed suffix still fully retained. */
  lemma {:induction false} DownstreamGapCriterion(a: int, b: int, steps: seq<Step>, sys: System)
    requires Reaches(a, b, steps, sys)
    ensures L.Gapless(sys.h.stdout) <==>
            forall id :: id in sys.down && sys.down[id].own && sys.down[id].outcomes != [] ==>
              sys.down[id].oldest <= sys.down[id].base + 1
  {
    Safety.ReachableInv(a, b, steps);
    assert forall id :: id in sys.down ==> false !in sys.down[id].outcomes;
    forall id | id in sys.down
      ensures L.Clean(sys.down[id]) <==> (sys.down[id].outcomes != [] ==> sys.down[id].oldest <= sys.down[id].base + 1)
    {
      AllTrue(sys.down[id].outcomes);
    }
    assert Down(sys).links == sys.down;
  }

  lemma {:induction false} AllTrue(o: seq<bool>)
    requires false !in o
    ensures L.Tidy(o) && (true in o <==> o != [])
  {
    assert forall i :: 0 <= i < |o| ==> o[i] == true || o[i] == false;
    if o != [] { assert o[0] in o; }
  }

  /** Upstream, a gap also arises when a failed PTY write is followed by a successful one on the same
      connection; nothing else makes one. */
  lemma {:induction false} UpstreamGapCriterion(a: int, b: int, steps: seq<Step>, sys: System)
    requires Reaches(a, b, steps, sys)
    ensures L.Gapless(sys.h.ptyOut) <==>
            forall id :: id in sys.up && true in sys.up[id].outcomes ==>
              sys.up[id].oldest <= sys.up[id].base + 1 && L.Tidy(sys.up[id].outcomes)
  {
    Safety.ReachableInv(a, b, steps);
    assert Up(sys).links == sys.up;
    assert L.AllClean(Up(sys)) <==> forall id :: id in sys.up ==> L.Clean(sys.up[id]);
  }

  /** When delivery is gapless, the bytes on stdout are a prefix of the bytes the PTY produced; the same holds
      for what reached the PTY and what the client sent. */
  lemma {:induction false} GaplessBytes(a: int, b: int, steps: seq<Step>, sys: System)
    requires Reaches(a, b, steps, sys)
    ensures L.Gapless(sys.h.stdout) ==> Concat(L.Payloads(sys.h.stdout)) <= sys.h.ptyIn
    ensures L.Gapless(sys.h.ptyOut) ==> Concat(L.Payloads(sys.h.ptyOut)) <= Concat(sys.h.clientLog)
  {
    Safety.ReachableInv(a, b, steps);
    if L.Gapless(sys.h.stdout) {
      L.GaplessIsPrefix(Down(sys));
      ConcatPrefix(sys.h.sessionLog, sys.c.recvSeq);
    }
    if L.Gapless(sys.h.ptyOut) {
      L.GaplessIsPrefix(Up(sys));
      ConcatPrefix(sys.h.clientLog, sys.s.recvSeq);
    }
  }

  lemma {:induction false} ConcatPrefix(chunks: seq<seq<byte>>, n: nat)
    requires n <= |chunks|
    ensures Concat(chunks[..n]) <= Concat(chunks)
    decreases |chunks|
  {
    if n < |chunks| {
      ConcatPrefix(chunks[..|chunks| - 1], n);
      assert chunks[..|chunks| - 1][..n] == chunks[..n];
    } else {
      assert chunks[..n] == chunks;
    }
  }

  /** Once the client has taken everything on the session's current connection it is level with the session;
      if delivery was gapless too and nothing waits in the coalescer, stdout is all the PTY ever produced. */
  lemma {:induction false} CaughtUpClient(a: int, b: int, steps: seq<Step>, sys: System, id: ConnId)
    requires Reaches(a, b, steps, sys)
    requires sys.s.phase.Looping? && sys.s.conn == Some(id) && sys.c.conn == Some(id)
    requires id in sys.down && |sys.down[id].outcomes| == |sys.down[id].sent|
    ensures sys.c.recvSeq == sys.s.sendSeq
    ensures L.Gapless(sys.h.stdout) && sys.s.pending == [] ==> Concat(L.Payloads(sys.h.stdout)) == sys.h.ptyIn
  {
    Safety.ReachableInv(a, b, steps);
    AllTrue(sys.down[id].outcomes);
    L.CaughtUp(Down(sys), id);
    if L.Gapless(sys.h.stdout) { LevelBytes(Down(sys)); }
  }

  /** The same upstream, when the last message taken was written to the PTY. */
  lemma {:induction false} CaughtUpSession(a: int, b: int, steps: seq<Step>, sys: System, id: ConnId)
    requires Reaches(a, b, steps, sys)
    requires sys.c.phase.Running? && sys.s.conn == Some(id) && sys.c.conn == Some(id)
    requires id in sys.up && |sys.up[id].outcomes| == |sys.up[id].sent|
    requires sys.up[id].outcomes != [] ==> sys.up[id].outcomes[|sys.up[id].outcomes| - 1]
    ensures sys.s.recvSeq == sys.c.sendSeq
    ensures L.Gapless(sys.h.ptyOut) ==> Concat(L.Payloads(sys.h.ptyOut)) == Concat(sys.h.clientLog)
  {
    Safety.ReachableInv(a, b, steps);
    assert sys.up[id].pending == [] by { assert Safety.ClientControl(sys); }
    LaneCaughtUp(Up(sys), id);
  }

  lemma {:induction false} LaneCaughtUp(lane: L.Lane, id: ConnId)
    requires L.Inv(lane) && lane.sender == Some(id) && lane.receiver == Some(id) && id in lane.links
    requires lane.links[id].pending == [] && |lane.links[id].outcomes| == |lane.links[id].sent|
    requires lane.links[id].outcomes != [] ==> lane.links[id].outcomes[|lane.links[id].outcomes| - 1]
    ensures lane.recvSeq == lane.sendSeq
    ensures L.Gapless(lane.out) ==> Concat(L.Payloads(lane.out)) == Concat(lane.log)
  {
    L.CaughtUp(lane, id);
    if L.Gapless(lane.out) { LevelBytes(lane); }
  }

  lemma {:induction false} LevelBytes(lane: L.Lane)
    requires L.Inv(lane) && L.Gapless(lane.out) && lane.recvSeq == lane.sendSeq
    ensures Concat(L.Payloads(lane.out)) == Concat(lane.log)
  {
    L.GaplessIsPrefix(lane);
  }

  /** At every head of the session's loop a current connection has a spawned PTY and started readers; the PTY
      is spawned at most once in any run, failed attempts included. */
  lemma {:induction false} LoopHead(a: int, b: int, steps: seq<Step>, sys: System)
    requires Reaches(a, b, steps, sys)
    ensures sys.s.phase.Looping? && sys.s.conn.Some? ==> sys.s.spawned && sys.s.conn.value in sys.fetched
    ensures sys.h.spawns <= 1 && (sys.s.spawned ==> sys.h.spawns == 1)
  {
    Safety.ReachableInv(a, b, steps);
  }

  /** No byte is lost or invented between the PTY channel and the numbered log, connected or not; and what one
      ioLoop stored is a prefix of that loop's escape-filtered stdin. */
  lemma {:induction false} ByteConservation(a: int, b: int, steps: seq<Step>, sys: System)
    requires Reaches(a, b, steps, sys)
    ensures Concat(sys.h.sessionLog) + sys.s.pending == sys.h.ptyIn
    ensures sys.h.loopStart <= |sys.h.clientLog|
    ensures Concat(sys.h.clientLog[sys.h.loopStart..]) <= Escape.FeedAll(Escape.Start(), sys.h.typed).out
    ensures sys.c.phase.Running? && sys.c.pending == [] ==>
              Concat(sys.h.clientLog[sys.h.loopStart..]) == Escape.Kept(sys.h.typed, |sys.h.typed|)
  {
    Safety.ReachableInv(a, b, steps);
    Escape.MachineMeaning(sys.h.typed);
  }

  predicate FlushFits(p: seq<byte>) { 0 < |p| <= 65536 && P.Encodable(P.Data(0, p)) }

  /** Every flush is between 1 and 65536 bytes, so its Data message is within the encoder's limits. Retained bytes never
      exceed the larger of the configured size and one maximal flush, retained entries never the configured slots. */
  lemma {:induction false} RetainedBound(a: int, b: int, steps: seq<Step>, sys: System)
    requires Reaches(a, b, steps, sys)
    ensures forall i :: 0 <= i < |sys.h.sessionLog| ==> FlushFits(sys.h.sessionLog[i])
    ensures forall i :: 0 <= i < |sys.h.clientLog| ==> FlushFits(sys.h.clientLog[i])
    ensures SizeOf(sys.s.buf) <= Max(ConfiguredSize(a), 65536) && |sys.s.buf| <= ConfiguredSlots(a)
    ensures SizeOf(sys.c.buf) <= Max(ConfiguredSize(b), 65536) && |sys.c.buf| <= ConfiguredSlots(b)
  {
    Safety.ReachableInv(a, b, steps);
    Retention.RunLimits(Init(a, b), steps);
    Retention.LaneBound(Down(sys), a);
    Retention.LaneBound(Up(sys), b);
  }

  // ---- Down to the bytes on the wire -------------------------------------------------------

  /** The entries as the Data messages that carry them. */
  function AsData(es: seq<Entry>): seq<P.Message>
    requires forall i :: 0 <= i < |es| ==> es[i].seqNo < 0x1_0000_0000_0000_0000
  {
    seq(|es|, i requires 0 <= i < |es| => P.Data(es[i].seqNo, es[i].payload))
  }

  lemma {:induction false} DataStreamCut(es: seq<Entry>, log: seq<seq<byte>>, cut: nat)
    requires |log| < 0x1_0000_0000_0000_0000 && L.FromLog(es, log)
    requires forall i :: 0 <= i < |log| ==> |log[i]| <= Safety.MAX_FLUSH
    ensures
      var ms := AsData(es);
      && P.AllSendable(ms)
      && (cut <= |P.EncodeAll(ms)| ==>
            P.DecodesAsPrefix(ms, cut, P.ReadAll(P.EncodeAll(ms)[..cut]).0, P.ReadAll(P.EncodeAll(ms)[..cut]).1))
  {
    var ms := AsData(es);
    assert P.AllSendable(ms);
    if cut <= |P.EncodeAll(ms)| { P.StreamDecode(ms, cut); }
  }

  /** In any run that has not used up the 64-bit numbers, every Data message is encodable, and cutting a
      connection's byte stream anywhere yields a prefix of its messages followed by an end-of-stream error,
      which is what the Receive and Fetch steps may take. */
  lemma {:induction false} CutAtAnyByte(a: int, b: int, steps: seq<Step>, sys: System, id: ConnId, cut: nat)
    requires Reaches(a, b, steps, sys)
    requires sys.s.sendSeq < 0x1_0000_0000_0000_0000 && sys.c.sendSeq < 0x1_0000_0000_0000_0000
    ensures id in sys.down ==> CutsToPrefix(sys.down[id].sent, cut)
    ensures id in sys.up ==> CutsToPrefix(sys.up[id].sent, cut)
  {
    Safety.ReachableInv(a, b, steps);
    if id in sys.down {
      L.BlockContiguous(Down(sys), id);
      DataStreamCut(sys.down[id].sent, sys.h.sessionLog, cut);
    }
    if id in sys.up {
      L.BlockContiguous(Up(sys), id);
      DataStreamCut(sys.up[id].sent, sys.h.clientLog, cut);
    }
  }

  ghost predicate CutsToPrefix(es: seq<Entry>, cut: nat) {
    && (forall i :: 0 <= i < |es| ==> es[i].seqNo < 0x1_0000_0000_0000_0000)
    && var ms := AsData(es);
       && P.AllSendable(ms)
       && (cut <= |P.EncodeAll(ms)| ==>
             P.DecodesAsPrefix(ms, cut, P.ReadAll(P.EncodeAll(ms)[..cut]).0, P.ReadAll(P.EncodeAll(ms)[..cut]).1))
  }

  /** Over TCP the shared stream also carries control messages. Whatever else was interleaved with a connection's Data,
      what the demultiplexer hands out as Data is a prefix of it, which is what the Receive and Fetch steps may
      take, and all of it once nothing is left to read. */
  lemma {:induction false} DemuxedData(a: int, b: int, steps: seq<Step>, sys: System, id: ConnId, mux: seq<Mux.Step>,
                                       s: Mux.State)
    requires Reaches(a, b, steps, sys) && Mux.Exec(Mux.INITIAL, mux) == Some(s) && Mux.Only(s.r.serial, true) == []
    requires sys.s.sendSeq < 0x1_0000_0000_0000_0000 && sys.c.sendSeq < 0x1_0000_0000_0000_0000
    ensures id in sys.down ==> DemuxesTo(s, sys.down[id].sent)
    ensures id in sys.up ==> DemuxesTo(s, sys.up[id].sent)
  {
    CutAtAnyByte(a, b, steps, sys, id, 0);
    Mux.DataChannel(mux, s);
  }

  /** If these entries are the Data written so far, the data channel delivers a prefix of them, in the end all. */
  ghost predicate DemuxesTo(s: Mux.State, es: seq<Entry>) {
    && (forall i :: 0 <= i < |es| ==> es[i].seqNo < 0x1_0000_0000_0000_0000)
    && (Mux.Only(s.w.Sending(), true) == AsData(es) ==>
          && s.ch.gotData + s.ch.dataCh <= AsData(es)
          && (s.w.holder.None? && s.r.arrived == |s.w.wire| && !Mux.Parse(s.w.wire, s.r).out.Ok? ==>
                s.ch.gotData + s.ch.dataCh == AsData(es)))
  }
}
