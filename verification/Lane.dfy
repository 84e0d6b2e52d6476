/**
 One direction of the reconnect protocol: a sender with a catchup buffer, a receiver that writes out every
 Data message it takes without ever comparing sequence numbers, and any number of connections that come
 and go between them. The session's output and the client's input are two instances of it.
 */
module Lane {
  import opened Bytes
  import opened ReplayLog
  import opened Packets

  /** One connection, as this direction sees it. */
  datatype Link = Link(
    own: bool,            // opened by this lane's receiver, not by a displacing stranger
    base: nat,            // the SequenceHeader value carried on this connection
    begun: bool,          // the sender has taken its replay list
    oldest: nat,          // oldest retained number at that moment (0 when nothing was stored yet)
    replayed: nat,        // length of that replay list
    start: nat,           // how many payloads had been stored before the first one replayed
    pending: seq<Entry>,  // replay entries still to be written
    sent: seq<Entry>,     // Data messages written, in order
    outcomes: seq<bool>   // for each one the receiver took, whether writing it out succeeded
  ) {
    function Block(): seq<Entry> { sent + pending }
  }

  datatype Lane = Lane(
    limits: Limits,
    log: seq<seq<byte>>,          // every payload ever stored; number n holds log[n-1]
    sendSeq: nat,
    buf: seq<Entry>,
    recvSeq: nat,
    out: seq<Entry>,              // what the receiver wrote out, in order
    links: map<ConnId, Link>,
    sender: Option<ConnId>,
    receiver: Option<ConnId>
  )

  datatype Act =
    | Open(c: ConnId)                         // the receiver declares recvSeq on a new connection
    | Foreign(c: ConnId, base: nat)           // a stranger's connection with any declared number
    | Begin(c: ConnId)                        // the sender learns the declared number and takes its replay
    | WriteReplay
    | Store(payload: seq<byte>, sent: bool)   // a flush; unsent when there is no connection or its write fails
    | DropSender
    | Take(ok: bool)                          // the receiver takes the next message and tries to write it out
    | DropReceiver

  function Fresh(own: bool, base: nat): Link { Link(own, base, false, 0, 0, 0, [], [], []) }

  predicate Attached(lane: Lane, end: Option<ConnId>) { end.Some? && end.value in lane.links }

  predicate Enabled(lane: Lane, a: Act) {
    match a
    case Open(c) => c !in lane.links
    case Foreign(c, _) => c !in lane.links
    case Begin(c) => c in lane.links && !lane.links[c].begun
    case WriteReplay => Attached(lane, lane.sender) && lane.links[lane.sender.value].pending != []
    case Store(_, sent) => sent ==> Attached(lane, lane.sender) && lane.links[lane.sender.value].pending == []
    case DropSender => true
    case Take(_) =>
      && Attached(lane, lane.receiver)
      && |lane.links[lane.receiver.value].outcomes| < |lane.links[lane.receiver.value].sent|
    case DropReceiver => true
  }

  function BeginLink(buf: seq<Entry>, sendSeq: nat, link: Link): Link {
    var replay := Since(buf, link.base);
    link.(begun := true, oldest := OldestOf(buf), replayed := |replay|, start := Max(0, sendSeq - |replay|),
          pending := replay)
  }

  function Apply(lane: Lane, a: Act): Lane
    requires Enabled(lane, a)
  {
    match a
    case Open(c) => lane.(links := lane.links[c := Fresh(true, lane.recvSeq)], receiver := Some(c))
    case Foreign(c, base) => lane.(links := lane.links[c := Fresh(false, base)])
    case Begin(c) =>
      lane.(links := lane.links[c := BeginLink(lane.buf, lane.sendSeq, lane.links[c])], sender := Some(c))
    case WriteReplay =>
      var link := lane.links[lane.sender.value];
      var link' := link.(sent := link.sent + [link.pending[0]], pending := link.pending[1..]);
      lane.(links := lane.links[lane.sender.value := link'])
    case Store(payload, sent) =>
      var e := Entry(lane.sendSeq + 1, payload);
      var lane' := lane.(log := lane.log + [payload], sendSeq := lane.sendSeq + 1,
                         buf := Stored(lane.buf, e, lane.limits));
      if sent then
        var link := lane.links[lane.sender.value];
        lane'.(links := lane.links[lane.sender.value := link.(sent := link.sent + [e])])
      else lane'.(sender := None)
    case DropSender => lane.(sender := None)
    case Take(ok) =>
      var link := lane.links[lane.receiver.value];
      var e := link.sent[|link.outcomes|];
      var lane' := lane.(links := lane.links[lane.receiver.value := link.(outcomes := link.outcomes + [ok])]);
      if ok then lane'.(recvSeq := e.seqNo, out := lane.out + [e]) else lane'
    case DropReceiver => lane.(receiver := None)
  }

  // ---- Invariant ---------------------------------------------------------------------------

  /** The log as numbered entries: everything ever stored. */
  function Numbered(log: seq<seq<byte>>): (h: seq<Entry>)
    ensures |h| == |log|
  {
    seq(|log|, i requires 0 <= i < |log| => Entry(i + 1, log[i]))
  }

  lemma NumberedSnoc(log: seq<seq<byte>>, p: seq<byte>)
    ensures Numbered(log + [p]) == Numbered(log) + [Entry(|log| + 1, p)]
  {
  }

  ghost predicate Retained(lane: Lane) {
    && lane.limits.slots >= 1
    && lane.sendSeq == |lane.log|
    && LongestFittingSuffix(lane.buf, Numbered(lane.log), lane.limits)
    && (lane.log != [] ==> lane.buf != [])
  }

  /** s holds the stored entries numbered start+1, start+2, ... */
  ghost predicate RunOfLog(s: seq<Entry>, start: nat, log: seq<seq<byte>>) {
    && start + |s| <= |log|
    && forall i :: 0 <= i < |s| ==> s[i] == Entry(start + i + 1, log[start + i])
  }

  /** The messages of a connection are one contiguous block of everything stored; on a connection of the
      receiver's own it starts at max(base + 1, oldest retained); while the sender is attached it reaches
      the newest number. */
  ghost predicate LinkOk(link: Link, log: seq<seq<byte>>, attached: bool) {
    && |link.outcomes| <= |link.sent|
    && (!link.begun ==> link.Block() == [] && !attached)
    && RunOfLog(link.Block(), link.start, log)
    && (link.own ==> link.base <= |log|)
    && link.oldest <= |log|
    && (link.own && link.begun ==> link.start + 1 == Max(link.base + 1, link.oldest))
    && (attached ==> link.start + |link.Block()| == |log|)
  }

  ghost predicate LinksOk(lane: Lane) {
    && (lane.sender.Some? ==> lane.sender.value in lane.links)
    && forall c :: c in lane.links ==> LinkOk(lane.links[c], lane.log, lane.sender == Some(c))
  }

  /** Where recvSeq stands on the receiver's current connection. */
  ghost predicate PositionOk(link: Link, recvSeq: nat) {
    var t := |link.outcomes|;
    && link.own
    && (t == 0 ==> recvSeq == link.base)
    && (t > 0 && link.outcomes[t - 1] ==> recvSeq == link.start + t)
    && (t > 0 && !link.outcomes[t - 1] ==> recvSeq < link.start + t)
  }

  ghost predicate ReceiverOk(lane: Lane) {
    lane.receiver.Some? ==>
      lane.receiver.value in lane.links && PositionOk(lane.links[lane.receiver.value], lane.recvSeq)
  }

  ghost predicate Increasing(out: seq<Entry>) {
    forall i, j :: 0 <= i < j < |out| ==> out[i].seqNo < out[j].seqNo
  }

  ghost predicate FromLog(out: seq<Entry>, log: seq<seq<byte>>) {
    forall i :: 0 <= i < |out| ==> 1 <= out[i].seqNo <= |log| && out[i].payload == log[out[i].seqNo - 1]
  }

  ghost predicate OutputOk(lane: Lane) {
    Increasing(lane.out) && FromLog(lane.out, lane.log) && lane.recvSeq == NewestOf(lane.out)
  }

  ghost predicate Gapless(out: seq<Entry>) {
    forall i :: 0 <= i < |out| ==> out[i].seqNo == i + 1
  }

  /** No success after a failure. */
  ghost predicate Tidy(outcomes: seq<bool>) {
    forall i, j :: 0 <= i < j < |outcomes| && outcomes[j] ==> outcomes[i]
  }

  /** The connection delivered nothing, or it began with the whole missed suffix still retained and no
      message was skipped by a failed write before a later success. */
  ghost predicate Clean(link: Link) {
    true in link.outcomes ==> link.oldest <= link.base + 1 && Tidy(link.outcomes)
  }

  ghost predicate AllClean(lane: Lane) { forall c :: c in lane.links && lane.links[c].own ==> Clean(lane.links[c]) }

  ghost predicate Inv(lane: Lane) {
    && Retained(lane)
    && LinksOk(lane)
    && ReceiverOk(lane)
    && OutputOk(lane)
    && (Gapless(lane.out) <==> AllClean(lane))
  }

  // ---- Each act keeps it -------------------------------------------------------------------

  lemma {:induction false} SinceRun(q: seq<Entry>, o: nat, n: nat, base: nat)
    requires n <= |q|
    requires forall i :: 0 <= i < |q| ==> q[i].seqNo == o + i + 1
    ensures SinceUpTo(q, n, base) == q[Min(n, Max(0, base - o))..n]
  {
    if n > 0 {
      SinceRun(q, o, n - 1, base);
      SliceSnoc(q, Min(n - 1, Max(0, base - o)), n);
    }
  }

  /** The replay list is the part of the log after max(base, what was evicted). */
  lemma {:induction false} ReplayIsRun(log: seq<seq<byte>>, buf: seq<Entry>, base: nat)
    requires EndsWith(Numbered(log), buf)
    requires log != [] ==> buf != []
    ensures
      var replay := Since(buf, base);
      && |replay| <= |log|
      && RunOfLog(replay, |log| - |replay|, log)
      && OldestOf(buf) <= |log|
      && (base <= |log| ==> |log| - |replay| + 1 == Max(base + 1, OldestOf(buf)))
  {
    var o := |log| - |buf|;
    SuffixIsRun(log, buf);
    SinceRun(buf, o, |buf|, base);
    DropOfRun(buf, o, log, Min(|buf|, Max(0, base - o)));
  }

  lemma {:induction false} SuffixIsRun(log: seq<seq<byte>>, q: seq<Entry>)
    requires EndsWith(Numbered(log), q)
    ensures RunOfLog(q, |log| - |q|, log)
  {
  }

  lemma {:induction false} DropOfRun(q: seq<Entry>, o: nat, log: seq<seq<byte>>, m: nat)
    requires RunOfLog(q, o, log) && m <= |q|
    ensures RunOfLog(q[m..|q|], o + m, log)
  {
  }

  lemma {:induction false} BeginOk(lane: Lane, c: ConnId)
    requires Retained(lane) && LinksOk(lane) && Enabled(lane, Begin(c))
    ensures LinkOk(BeginLink(lane.buf, lane.sendSeq, lane.links[c]), lane.log, true)
  {
    var link := lane.links[c];
    assert LinkOk(link, lane.log, lane.sender == Some(c));
    ReplayIsRun(lane.log, lane.buf, link.base);
    assert BeginLink(lane.buf, lane.sendSeq, link).Block() == Since(lane.buf, link.base);
  }

  lemma {:induction false} StoreKeepsRetained(lane: Lane, payload: seq<byte>, sent: bool)
    requires Retained(lane) && Enabled(lane, Store(payload, sent))
    ensures Retained(Apply(lane, Store(payload, sent)))
  {
    NumberedSnoc(lane.log, payload);
    StoredIsLongest(lane.buf, Numbered(lane.log), Entry(lane.sendSeq + 1, payload), lane.limits);
  }

  lemma {:induction false} LinkLeftBehind(link: Link, log: seq<seq<byte>>, p: seq<byte>, attached: bool)
    requires LinkOk(link, log, attached)
    ensures LinkOk(link, log + [p], false)
  {
  }

  lemma {:induction false} LinkExtended(link: Link, log: seq<seq<byte>>, p: seq<byte>)
    requires LinkOk(link, log, true) && link.pending == []
    ensures LinkOk(link.(sent := link.sent + [Entry(|log| + 1, p)]), log + [p], true)
  {
    assert link.Block() == link.sent;
    assert link.(sent := link.sent + [Entry(|log| + 1, p)]).Block() == link.sent + [Entry(|log| + 1, p)];
  }

  lemma {:induction false} StoreKeepsLinks(lane: Lane, payload: seq<byte>, sent: bool)
    requires LinksOk(lane) && lane.sendSeq == |lane.log| && Enabled(lane, Store(payload, sent))
    ensures LinksOk(Apply(lane, Store(payload, sent)))
  {
    var lane' := Apply(lane, Store(payload, sent));
    forall c | c in lane.links
      ensures LinkOk(lane'.links[c], lane'.log, lane'.sender == Some(c))
    {
      if sent && lane.sender == Some(c) {
        LinkExtended(lane.links[c], lane.log, payload);
      } else {
        LinkLeftBehind(lane.links[c], lane.log, payload, lane.sender == Some(c));
      }
    }
  }

  /** A flush touches neither the receiver's position nor anything it wrote out. */
  lemma {:induction false} StoreKeepsReceiver(lane: Lane, payload: seq<byte>, sent: bool)
    requires ReceiverOk(lane) && OutputOk(lane) && Enabled(lane, Store(payload, sent))
    ensures
      var lane' := Apply(lane, Store(payload, sent));
      ReceiverOk(lane') && OutputOk(lane') && lane'.out == lane.out && AllClean(lane') == AllClean(lane)
  {
    var lane' := Apply(lane, Store(payload, sent));
    assert forall c :: c in lane.links ==>
             lane'.links[c].own == lane.links[c].own && Clean(lane'.links[c]) == Clean(lane.links[c]);
  }

  lemma {:induction false} StoreKeeps(lane: Lane, payload: seq<byte>, sent: bool)
    requires Inv(lane) && Enabled(lane, Store(payload, sent))
    ensures Inv(Apply(lane, Store(payload, sent)))
  {
    StoreKeepsRetained(lane, payload, sent);
    StoreKeepsLinks(lane, payload, sent);
    StoreKeepsReceiver(lane, payload, sent);
  }

  lemma {:induction false} BeginKeeps(lane: Lane, c: ConnId)
    requires Inv(lane) && Enabled(lane, Begin(c))
    ensures Inv(Apply(lane, Begin(c)))
  {
    var lane' := Apply(lane, Begin(c));
    BeginOk(lane, c);
    assert LinkOk(lane.links[c], lane.log, lane.sender == Some(c));
    forall d | d in lane'.links
      ensures LinkOk(lane'.links[d], lane'.log, lane'.sender == Some(d))
      ensures Clean(lane'.links[d]) == Clean(lane.links[d])
    {
      assert LinkOk(lane.links[d], lane.log, lane.sender == Some(d));
    }
  }

  lemma {:induction false} WriteReplayKeeps(lane: Lane)
    requires Inv(lane) && Enabled(lane, WriteReplay)
    ensures Inv(Apply(lane, WriteReplay))
  {
    var lane' := Apply(lane, WriteReplay);
    var link, link' := lane.links[lane.sender.value], lane'.links[lane.sender.value];
    assert link'.Block() == link.Block();
    forall d | d in lane'.links
      ensures LinkOk(lane'.links[d], lane'.log, lane'.sender == Some(d))
      ensures Clean(lane'.links[d]) == Clean(lane.links[d])
    {
      assert LinkOk(lane.links[d], lane.log, lane.sender == Some(d));
    }
  }

  lemma {:induction false} NewLinkKeeps(lane: Lane, a: Act)
    requires Inv(lane) && Enabled(lane, a) && (a.Open? || a.Foreign?)
    ensures Inv(Apply(lane, a))
  {
    var lane' := Apply(lane, a);
    forall d | d in lane'.links && d != a.c
      ensures LinkOk(lane'.links[d], lane'.log, lane'.sender == Some(d))
    {
      assert LinkOk(lane.links[d], lane.log, lane.sender == Some(d));
    }
    assert LinkOk(lane'.links[a.c], lane'.log, false);
    assert Clean(lane'.links[a.c]);
    assert AllClean(lane') == AllClean(lane) by {
      assert forall d :: d in lane.links ==> lane'.links[d] == lane.links[d];
    }
  }

  /** The message taken next carries a number above recvSeq, exactly the next one unless the connection
      started late or just skipped one. */
  lemma {:induction false} NextAbove(lane: Lane)
    requires LinksOk(lane) && ReceiverOk(lane) && Enabled(lane, Take(true))
    ensures
      var link := lane.links[lane.receiver.value];
      var t := |link.outcomes|;
      && link.begun && link.own && link.start + t < |lane.log|
      && link.sent[t] == Entry(link.start + t + 1, lane.log[link.start + t])
      && link.sent[t].seqNo > lane.recvSeq
  {
    var link := lane.links[lane.receiver.value];
    var t := |link.outcomes|;
    assert LinkOk(link, lane.log, lane.sender == lane.receiver);
    assert link.sent[t] == link.Block()[t];
  }

  lemma {:induction false} OutputSnoc(out: seq<Entry>, e: Entry, log: seq<seq<byte>>)
    requires Increasing(out) && FromLog(out, log) && e.seqNo > NewestOf(out)
    requires 1 <= e.seqNo <= |log| && e.payload == log[e.seqNo - 1]
    ensures Increasing(out + [e]) && FromLog(out + [e], log) && NewestOf(out + [e]) == e.seqNo
  {
    assert forall i :: 0 <= i < |out| ==> out[i].seqNo <= NewestOf(out);
  }

  lemma {:induction false} TakeKeepsOutput(lane: Lane, ok: bool)
    requires LinksOk(lane) && ReceiverOk(lane) && OutputOk(lane) && Enabled(lane, Take(ok))
    ensures OutputOk(Apply(lane, Take(ok)))
  {
    NextAbove(lane);
    var link := lane.links[lane.receiver.value];
    if ok { OutputSnoc(lane.out, link.sent[|link.outcomes|], lane.log); }
  }

  lemma {:induction false} TakeKeepsReceiver(lane: Lane, ok: bool)
    requires LinksOk(lane) && ReceiverOk(lane) && Enabled(lane, Take(ok))
    ensures ReceiverOk(Apply(lane, Take(ok)))
  {
    NextAbove(lane);
  }

  lemma {:induction false} TakeKeepsLinks(lane: Lane, ok: bool)
    requires LinksOk(lane) && Enabled(lane, Take(ok))
    ensures LinksOk(Apply(lane, Take(ok)))
  {
    var lane' := Apply(lane, Take(ok));
    forall d | d in lane'.links
      ensures LinkOk(lane'.links[d], lane'.log, lane'.sender == Some(d))
    {
      assert LinkOk(lane.links[d], lane.log, lane.sender == Some(d));
      assert lane'.links[d].Block() == lane.links[d].Block();
    }
  }

  /** Extending a gapless output keeps it gapless exactly when the next number is recvSeq + 1. */
  lemma {:induction false} GaplessSnoc(out: seq<Entry>, e: Entry)
    requires Increasing(out) && e.seqNo > NewestOf(out)
    ensures Gapless(out + [e]) <==> Gapless(out) && e.seqNo == NewestOf(out) + 1
  {
    var out' := out + [e];
    if Gapless(out') {
      assert forall i :: 0 <= i < |out| ==> out'[i] == out[i];
      assert out'[|out|] == e;
    }
  }

  lemma {:induction false} CleanSnoc(link: Link, ok: bool)
    ensures
      var link' := link.(outcomes := link.outcomes + [ok]);
      && (!ok ==> Clean(link') == Clean(link))
      && (ok ==> (Clean(link') <==> link.oldest <= link.base + 1 && false !in link.outcomes))
  {
    var o, o' := link.outcomes, link.outcomes + [ok];
    assert forall i :: 0 <= i < |o| ==> o'[i] == o[i];
    assert true in o' <==> (true in o || ok);
    if ok {
      assert o'[|o|];
      if false in o {
        var i :| 0 <= i < |o| && !o[i];
        assert !o'[i] && o'[|o|];
        assert !Tidy(o');
      }
    } else {
      assert !o'[|o|];
      assert Tidy(o') == Tidy(o);
    }
  }

  /** Whether a connection stays clean depends on whether the next number follows recvSeq. */
  lemma {:induction false} CleanFollows(link: Link, recvSeq: nat)
    requires PositionOk(link, recvSeq) && |link.outcomes| < |link.sent|
    requires link.start + 1 == Max(link.base + 1, link.oldest)
    requires link.sent[|link.outcomes|].seqNo == link.start + |link.outcomes| + 1
    ensures
      var link' := link.(outcomes := link.outcomes + [true]);
      Clean(link') <==> Clean(link) && link.sent[|link.outcomes|].seqNo == recvSeq + 1
  {
    var o, t := link.outcomes, |link.outcomes|;
    CleanSnoc(link, true);
    if Clean(link) {
      assert t > 0 && o[t - 1] ==> true in o && Tidy(o);
    } else {
      assert !Tidy(o) ==> false in o;
    }
  }

  lemma {:induction false} AllCleanFollows(lane: Lane, lane': Lane, c: ConnId, same: bool)
    requires c in lane.links && lane.links[c].own && lane'.links.Keys == lane.links.Keys && lane'.links[c].own
    requires forall d :: d in lane.links && d != c ==> lane'.links[d] == lane.links[d]
    requires Clean(lane'.links[c]) <==> Clean(lane.links[c]) && same
    ensures AllClean(lane') <==> AllClean(lane) && same
  {
    if AllClean(lane') { assert Clean(lane'.links[c]); }
  }

  /** Both sides of the gap criterion move together when a message is written out. */
  lemma {:induction false} TakeKeepsCriterion(lane: Lane, ok: bool)
    requires LinksOk(lane) && ReceiverOk(lane) && OutputOk(lane) && Enabled(lane, Take(ok))
    requires Gapless(lane.out) <==> AllClean(lane)
    ensures
      var lane' := Apply(lane, Take(ok));
      Gapless(lane'.out) <==> AllClean(lane')
  {
    NextAbove(lane);
    var c := lane.receiver.value;
    var link, lane' := lane.links[c], Apply(lane, Take(ok));
    var e := link.sent[|link.outcomes|];
    assert LinkOk(link, lane.log, lane.sender == Some(c));
    if ok {
      GaplessSnoc(lane.out, e);
      CleanFollows(link, lane.recvSeq);
      AllCleanFollows(lane, lane', c, e.seqNo == lane.recvSeq + 1);
    } else {
      CleanSnoc(link, false);
      AllCleanFollows(lane, lane', c, true);
    }
  }

  lemma {:induction false} TakeKeeps(lane: Lane, ok: bool)
    requires Inv(lane) && Enabled(lane, Take(ok))
    ensures Inv(Apply(lane, Take(ok)))
  {
    TakeKeepsOutput(lane, ok);
    TakeKeepsReceiver(lane, ok);
    TakeKeepsLinks(lane, ok);
    TakeKeepsCriterion(lane, ok);
  }

  lemma {:induction false} DropKeeps(lane: Lane, a: Act)
    requires Inv(lane) && (a.DropSender? || a.DropReceiver?)
    ensures Inv(Apply(lane, a))
  {
    var lane' := Apply(lane, a);
    forall d | d in lane'.links
      ensures LinkOk(lane'.links[d], lane'.log, lane'.sender == Some(d))
    {
      assert LinkOk(lane.links[d], lane.log, lane.sender == Some(d));
    }
    assert AllClean(lane') == AllClean(lane);
  }

  /** Every act of either side keeps the invariant. */
  lemma {:induction false} ActKeepsInv(lane: Lane, a: Act)
    requires Inv(lane) && Enabled(lane, a)
    ensures Inv(Apply(lane, a))
  {
    match a
    case Open(_) => NewLinkKeeps(lane, a);
    case Foreign(_, _) => NewLinkKeeps(lane, a);
    case Begin(c) => BeginKeeps(lane, c);
    case WriteReplay => WriteReplayKeeps(lane);
    case Store(p, sent) => StoreKeeps(lane, p, sent);
    case DropSender => DropKeeps(lane, a);
    case Take(ok) => TakeKeeps(lane, ok);
    case DropReceiver => DropKeeps(lane, a);
  }

  // ---- What the invariant means ------------------------------------------------------------

  ghost predicate ContiguousFrom(s: seq<Entry>, first: nat) {
    forall i :: 0 <= i < |s| ==> s[i].seqNo == first + i
  }

  /** What a connection carried is one contiguous block, so a gap can only sit at its start. */
  lemma {:induction false} BlockContiguous(lane: Lane, c: ConnId)
    requires Inv(lane) && c in lane.links
    ensures FromLog(lane.links[c].sent, lane.log)
    ensures ContiguousFrom(lane.links[c].sent, lane.links[c].start + 1)
    ensures lane.links[c].own && lane.links[c].begun ==>
              ContiguousFrom(lane.links[c].sent, Max(lane.links[c].base + 1, lane.links[c].oldest))
  {
    var link := lane.links[c];
    assert LinkOk(link, lane.log, lane.sender == Some(c));
    assert forall i :: 0 <= i < |link.sent| ==> link.sent[i] == link.Block()[i];
  }

  /** A receiver that has taken everything on a live connection is level with the sender: nothing stored is
      still owed, whatever was lost on earlier connections. */
  lemma {:induction false} CaughtUp(lane: Lane, c: ConnId)
    requires Inv(lane) && lane.sender == Some(c) && lane.receiver == Some(c)
    requires
      var link := lane.links[c];
      && link.pending == [] && |link.outcomes| == |link.sent|
      && (link.outcomes != [] ==> link.outcomes[|link.outcomes| - 1])
    ensures lane.recvSeq == lane.sendSeq
  {
    assert LinkOk(lane.links[c], lane.log, true);
    assert lane.links[c].Block() == lane.links[c].sent;
  }

  function Payloads(out: seq<Entry>): (ps: seq<seq<byte>>)
    ensures |ps| == |out|
  {
    seq(|out|, i requires 0 <= i < |out| => out[i].payload)
  }

  /** A gapless output is the log's first recvSeq payloads. */
  lemma {:induction false} GaplessIsPrefix(lane: Lane)
    requires Inv(lane) && Gapless(lane.out)
    ensures lane.recvSeq == |lane.out| <= |lane.log|
    ensures Payloads(lane.out) == lane.log[..lane.recvSeq]
    ensures lane.recvSeq == lane.sendSeq ==> Payloads(lane.out) == lane.log
  {
  }

  function Initial(limits: Limits): Lane { Lane(limits, [], 0, [], 0, [], map[], None, None) }

  lemma {:induction false} InitialInv(limits: Limits)
    requires limits.slots >= 1
    ensures Inv(Initial(limits))
  {
    var lane := Initial(limits);
    assert LongestFittingSuffix(lane.buf, Numbered(lane.log), limits) by {
      assert Numbered(lane.log) == [];
      assert SizeOf([]) == 0;
    }
    assert LinksOk(lane) && ReceiverOk(lane) && OutputOk(lane) && Gapless(lane.out) && AllClean(lane);
  }
}
