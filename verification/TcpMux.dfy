/**
 The TCP transport (internal/transport/tcp.go): two kinds of callers share one byte stream under a lock, and at
 the other end a serial phase is followed by a demultiplexer that routes frames into two bounded channels.
 One direction of one connection, stepped in any order.
 */
module TcpMux {
  import opened Bytes
  import opened Protocol

  const CHANNEL_SIZE: nat := 16

  datatype Mode = Serial | Demuxing | Ended

  /** The sending end. */
  datatype Writer = Writer(
    written: seq<Message>,      // messages whose write completed, in lock order
    holder: Option<Message>,    // the message of the caller that holds writeMu
    progress: nat,              // bytes of its frame written so far
    broken: bool,               // a write failed; no later write reaches the stream
    wire: seq<byte>             // every byte written
  ) {
    /** Everything any caller got the lock for, in lock order. */
    function Sending(): seq<Message> { if holder.Some? then written + [holder.value] else written }
  }

  /** The receiving end of the stream. */
  datatype Reader = Reader(
    arrived: nat,               // how many bytes of the wire reached the reader
    consumed: nat,              // how many it has used up
    mode: Mode,
    serial: seq<Message>,       // messages returned by reads before StartDemux
    routed: seq<Message>        // messages the demultiplexer has read since
  )

  datatype Channels = Channels(
    controlCh: seq<Message>,
    dataCh: seq<Message>,
    gotControl: seq<Message>,   // what ReadControl returned since StartDemux
    gotData: seq<Message>
  )

  datatype State = State(w: Writer, r: Reader, ch: Channels)

  const INITIAL := State(Writer([], None, 0, false, []), Reader(0, 0, Serial, [], []), Channels([], [], [], []))

  datatype WriterStep =
    | Lock(m: Message)      // WriteControl or WriteData gets the mutex
    | WriteBytes(n: nat)    // any part of the header or the payload
    | Unlock
    | WriteFails

  datatype Step =
    | Write(a: WriterStep)
    | Arrive(n: nat)
    | SerialRead
    | StartDemux
    | Route                 // one turn of demuxLoop, if the channel has room
    | EndDemux              // read error or Close
    | TakeControl
    | TakeData

  predicate CanWrite(w: Writer, st: WriterStep) {
    match st
    case Lock(m) => w.holder.None? && !w.broken && Sendable(m)
    case WriteBytes(n) => w.holder.Some? && !w.broken && w.progress + n <= |Frame(w.holder.value)|
    case Unlock => w.holder.Some? && !w.broken && w.progress == |Frame(w.holder.value)|
    case WriteFails => w.holder.Some?
  }

  function AfterWrite(w: Writer, st: WriterStep): Writer
    requires CanWrite(w, st)
  {
    match st
    case Lock(m) => w.(holder := Some(m), progress := 0)
    case WriteBytes(n) =>
      w.(wire := w.wire + Frame(w.holder.value)[w.progress..w.progress + n], progress := w.progress + n)
    case Unlock => w.(written := w.written + [w.holder.value], holder := None, progress := 0)
    case WriteFails => w.(broken := true)
  }

  /** What a ReadMessage call finds in the bytes that have arrived. */
  function Parse(wire: seq<byte>, r: Reader): Parsed {
    if r.consumed <= r.arrived <= |wire| then ParseFrame(wire[r.consumed..r.arrived]) else Parsed(Fail(EOF), [])
  }

  function AfterRead(wire: seq<byte>, r: Reader): Reader
    requires Parse(wire, r).out.Ok?
  {
    var p := Parse(wire, r);
    var r' := r.(consumed := Max(0, r.arrived - |p.rest|));
    if r.mode.Serial? then r'.(serial := r.serial + [p.out.msg]) else r'.(routed := r.routed + [p.out.msg])
  }

  predicate HasRoom(ch: Channels, m: Message) {
    if m.Data? then |ch.dataCh| < CHANNEL_SIZE else |ch.controlCh| < CHANNEL_SIZE
  }

  function Enqueue(ch: Channels, m: Message): Channels {
    if m.Data? then ch.(dataCh := ch.dataCh + [m]) else ch.(controlCh := ch.controlCh + [m])
  }

  predicate Enabled(s: State, st: Step) {
    match st
    case Write(a) => CanWrite(s.w, a)
    case Arrive(n) => s.r.arrived + n <= |s.w.wire|
    case SerialRead => s.r.mode.Serial? && Parse(s.w.wire, s.r).out.Ok?
    case StartDemux => s.r.mode.Serial?
    case Route =>
      s.r.mode.Demuxing? && Parse(s.w.wire, s.r).out.Ok? && HasRoom(s.ch, Parse(s.w.wire, s.r).out.msg)
    case EndDemux => s.r.mode.Demuxing?
    case TakeControl => s.ch.controlCh != []
    case TakeData => s.ch.dataCh != []
  }

  function Next(s: State, st: Step): State
    requires Enabled(s, st)
  {
    match st
    case Write(a) => s.(w := AfterWrite(s.w, a))
    case Arrive(n) => s.(r := s.r.(arrived := s.r.arrived + n))
    case SerialRead => s.(r := AfterRead(s.w.wire, s.r))
    case StartDemux => s.(r := s.r.(mode := Demuxing))
    case Route => s.(r := AfterRead(s.w.wire, s.r), ch := Enqueue(s.ch, Parse(s.w.wire, s.r).out.msg))
    case EndDemux => s.(r := s.r.(mode := Ended))
    case TakeControl =>
      s.(ch := s.ch.(controlCh := s.ch.controlCh[1..], gotControl := s.ch.gotControl + [s.ch.controlCh[0]]))
    case TakeData => s.(ch := s.ch.(dataCh := s.ch.dataCh[1..], gotData := s.ch.gotData + [s.ch.dataCh[0]]))
  }

  function Exec(s: State, steps: seq<Step>): Option<State>
    decreases |steps|
  {
    if steps == [] then Some(s)
    else if Enabled(s, steps[0]) then Exec(Next(s, steps[0]), steps[1..])
    else None
  }

  /** The messages of one class, in order. */
  function Only(ms: seq<Message>, data: bool): seq<Message> {
    if ms == [] then []
    else Only(ms[..|ms| - 1], data) + (if ms[|ms| - 1].Data? == data then [ms[|ms| - 1]] else [])
  }

  // ---- Invariant ---------------------------------------------------------------------------

  ghost predicate WriterOk(w: Writer) {
    && AllSendable(w.Sending())
    && (w.holder.Some? ==> w.progress <= |Frame(w.holder.value)|)
    && w.wire == EncodeAll(w.written) + (if w.holder.Some? then Frame(w.holder.value)[..w.progress] else [])
  }

  /** The reader stands between two frames of the stream. */
  ghost predicate ReaderOk(sending: seq<Message>, size: nat, r: Reader) {
    && r.consumed <= r.arrived <= size
    && r.serial + r.routed <= sending
    && r.consumed == |EncodeAll(r.serial + r.routed)|
    && (r.mode.Serial? ==> r.routed == [])
  }

  ghost predicate ChannelsOk(routed: seq<Message>, ch: Channels) {
    && ch.gotData + ch.dataCh == Only(routed, true)
    && ch.gotControl + ch.controlCh == Only(routed, false)
    && |ch.dataCh| <= CHANNEL_SIZE && |ch.controlCh| <= CHANNEL_SIZE
  }

  ghost predicate Inv(s: State) {
    WriterOk(s.w) && ReaderOk(s.w.Sending(), |s.w.wire|, s.r) && ChannelsOk(s.r.routed, s.ch)
  }

  // ---- Reading from a prefix of a stream of frames -----------------------------------------

  lemma {:induction false} EncodeAllConcat(a: seq<Message>, b: seq<Message>)
    ensures EncodeAll(a + b) == EncodeAll(a) + EncodeAll(b)
  {
    if a == [] {
      assert a + b == b;
    } else {
      assert (a + b)[0] == a[0] && (a + b)[1..] == a[1..] + b;
      EncodeAllConcat(a[1..], b);
      Assoc(Frame(a[0]), EncodeAll(a[1..]), EncodeAll(b));
    }
  }

  lemma {:induction false} SliceOfPrefix(w: seq<byte>, a: seq<byte>, b: seq<byte>, to: nat)
    requires w <= a + b && |a| <= to <= |w|
    ensures w[|a|..to] == b[..to - |a|]
  {
  }

  /** What one frame read makes of any prefix of a stream of whole frames: the first message once all of its
      bytes are there, and no message before. */
  lemma {:induction false} ParsePrefix(ms: seq<Message>, n: nat)
    requires AllSendable(ms) && n <= |EncodeAll(ms)|
    ensures
      var p := ParseFrame(EncodeAll(ms)[..n]);
      && (p.out.Ok? <==> ms != [] && n >= |Frame(ms[0])|)
      && (p.out.Ok? ==> p.out.msg == ms[0] && n - |p.rest| == |Frame(ms[0])|)
  {
    if ms == [] {
      assert ParseFrame([]).out.Fail?;
    } else {
      var f, tail := Frame(ms[0]), EncodeAll(ms[1..]);
      PrefixOfConcat(f, tail, n);
      if n < |f| {
        ParseCut(ms[0], n);
      } else {
        ParseWhole(ms[0], tail[..n - |f|]);
      }
    }
  }

  /** The wire is a prefix of the encoding of everything being sent. */
  lemma {:induction false} WireIsPrefix(w: Writer)
    requires WriterOk(w)
    ensures w.wire <= EncodeAll(w.Sending())
  {
    if w.holder.Some? {
      EncodeAllSnoc(w.written, w.holder.value);
    }
  }

  /** The same behind bytes that were read before. */
  lemma {:induction false} ReadsAfter(wire: seq<byte>, front: seq<byte>, rest: seq<Message>, to: nat)
    requires AllSendable(rest) && wire <= front + EncodeAll(rest) && |front| <= to <= |wire|
    requires ParseFrame(wire[|front|..to]).out.Ok?
    ensures
      var p := ParseFrame(wire[|front|..to]);
      rest != [] && p.out.msg == rest[0] && to - |p.rest| == |front| + |Frame(rest[0])|
  {
    var n := to - |front|;
    assert wire[|front|..to] == EncodeAll(rest)[..n] by { SliceOfPrefix(wire, front, EncodeAll(rest), to); }
    ParsePrefix(rest, n);
  }

  /** A read after the frames of `done` returns exactly the next message and uses up exactly its frame. */
  lemma {:induction false} ReadsNext(wire: seq<byte>, done: seq<Message>, rest: seq<Message>, to: nat)
    requires AllSendable(rest) && wire <= EncodeAll(done + rest)
    requires |EncodeAll(done)| <= to <= |wire|
    requires ParseFrame(wire[|EncodeAll(done)|..to]).out.Ok?
    ensures
      var p := ParseFrame(wire[|EncodeAll(done)|..to]);
      && rest != []
      && p.out.msg == rest[0]
      && to - |p.rest| == |EncodeAll(done + [rest[0]])|
  {
    EncodeAllConcat(done, rest);
    ReadsAfter(wire, EncodeAll(done), rest, to);
    EncodeAllSnoc(done, rest[0]);
  }

  lemma {:induction false} PrefixSplit(done: seq<Message>, ms: seq<Message>)
    requires done <= ms && AllSendable(ms)
    ensures ms == done + ms[|done|..] && AllSendable(ms[|done|..])
    ensures ms[|done|..] != [] ==> done + [ms[|done|..][0]] <= ms
  {
  }

  /** The same for a reader in its invariant. */
  lemma {:induction false} ReadKeeps(w: Writer, r: Reader)
    requires WriterOk(w) && ReaderOk(w.Sending(), |w.wire|, r) && Parse(w.wire, r).out.Ok? && !r.mode.Ended?
    ensures ReaderOk(w.Sending(), |w.wire|, AfterRead(w.wire, r))
  {
    var done, ms := r.serial + r.routed, w.Sending();
    WireIsPrefix(w);
    PrefixSplit(done, ms);
    ReadsNext(w.wire, done, ms[|done|..], r.arrived);
    var r' := AfterRead(w.wire, r);
    assert r'.serial + r'.routed == done + [ms[|done|..][0]];
  }

  // ---- Each step keeps it ------------------------------------------------------------------

  lemma {:induction false} WriterKeeps(w: Writer, st: WriterStep)
    requires WriterOk(w) && CanWrite(w, st)
    ensures WriterOk(AfterWrite(w, st))
    ensures w.Sending() <= AfterWrite(w, st).Sending() && |w.wire| <= |AfterWrite(w, st).wire|
  {
    match st
    case WriteBytes(n) =>
      var f := Frame(w.holder.value);
      assert f[..w.progress + n] == f[..w.progress] + f[w.progress..w.progress + n];
      Assoc(EncodeAll(w.written), f[..w.progress], f[w.progress..w.progress + n]);
    case Unlock =>
      EncodeAllSnoc(w.written, w.holder.value);
      assert Frame(w.holder.value)[..w.progress] == Frame(w.holder.value);
    case _ =>
  }

  lemma {:induction false} OnlySnoc(ms: seq<Message>, m: Message, data: bool)
    ensures Only(ms + [m], data) == Only(ms, data) + (if m.Data? == data then [m] else [])
  {
    assert (ms + [m])[..|ms|] == ms;
  }

  lemma {:induction false} EnqueueKeeps(routed: seq<Message>, ch: Channels, m: Message)
    requires ChannelsOk(routed, ch) && HasRoom(ch, m)
    ensures ChannelsOk(routed + [m], Enqueue(ch, m))
  {
    OnlySnoc(routed, m, true);
    OnlySnoc(routed, m, false);
    if m.Data? {
      Assoc(ch.gotData, ch.dataCh, [m]);
      assert Only(routed, false) + [] == Only(routed, false);
    } else {
      Assoc(ch.gotControl, ch.controlCh, [m]);
      assert Only(routed, true) + [] == Only(routed, true);
    }
  }

  /** Taking a message moves it from a channel to its caller. */
  lemma {:induction false} TakeKeeps(s: State, st: Step)
    requires ChannelsOk(s.r.routed, s.ch) && Enabled(s, st) && (st.TakeControl? || st.TakeData?)
    ensures ChannelsOk(s.r.routed, Next(s, st).ch)
  {
    if st.TakeControl? {
      assert s.ch.controlCh == [s.ch.controlCh[0]] + s.ch.controlCh[1..];
    } else {
      assert s.ch.dataCh == [s.ch.dataCh[0]] + s.ch.dataCh[1..];
    }
  }

  lemma {:induction false} StepKeeps(s: State, st: Step)
    requires Inv(s) && Enabled(s, st)
    ensures Inv(Next(s, st))
  {
    match st
    case Write(a) => WriterKeeps(s.w, a);
    case SerialRead => ReadKeeps(s.w, s.r);
    case Route =>
      ReadKeeps(s.w, s.r);
      EnqueueKeeps(s.r.routed, s.ch, Parse(s.w.wire, s.r).out.msg);
    case TakeControl => TakeKeeps(s, st);
    case TakeData => TakeKeeps(s, st);
    case _ =>
  }

  lemma {:induction false} RunKeeps(s: State, steps: seq<Step>)
    requires Inv(s) && Exec(s, steps).Some?
    ensures Inv(Exec(s, steps).value)
    decreases |steps|
  {
    if steps != [] {
      StepKeeps(s, steps[0]);
      RunKeeps(Next(s, steps[0]), steps[1..]);
    }
  }

  lemma {:induction false} ReachableInv(steps: seq<Step>)
    requires Exec(INITIAL, steps).Some?
    ensures Inv(Exec(INITIAL, steps).value)
  {
    assert Only([], true) == [] && Only([], false) == [];
    assert Inv(INITIAL);
    RunKeeps(INITIAL, steps);
  }

  lemma {:induction false} OnlyConcat(one: seq<Message>, two: seq<Message>, data: bool)
    ensures Only(one + two, data) == Only(one, data) + Only(two, data)
  {
    if two == [] {
      assert one + two == one;
    } else {
      assert (one + two)[..|one + two| - 1] == one + two[..|two| - 1];
      OnlyConcat(one, two[..|two| - 1], data);
    }
  }

  lemma {:induction false} OnlyPrefix(ms: seq<Message>, n: nat, data: bool)
    requires n <= |ms|
    ensures Only(ms[..n], data) <= Only(ms, data)
    decreases |ms|
  {
    if n < |ms| {
      OnlyPrefix(ms[..|ms| - 1], n, data);
      assert ms[..|ms| - 1][..n] == ms[..n];
    } else {
      assert ms[..n] == ms;
    }
  }

  // ---- Theorems ----------------------------------------------------------------------------

  /** For every interleaving of writers the wire is whole frames in lock order, followed by at most a prefix of
      the lock holder's frame. */
  lemma {:induction false} WholeFramesOnWire(steps: seq<Step>, s: State)
    requires Exec(INITIAL, steps) == Some(s)
    ensures s.w.holder.None? ==> s.w.wire == EncodeAll(s.w.written)
    ensures s.w.holder.Some? ==>
              s.w.progress <= |Frame(s.w.holder.value)| &&
              s.w.wire == EncodeAll(s.w.written) + Frame(s.w.holder.value)[..s.w.progress]
  {
    ReachableInv(steps);
  }

  lemma {:induction false} RoutedPrefix(ms: seq<Message>, serial: seq<Message>, routed: seq<Message>, data: bool)
    requires serial + routed <= ms
    ensures Only(routed, data) <= Only(ms[|serial|..], data)
  {
    var rest := ms[|serial|..];
    assert routed == rest[..|routed|];
    OnlyPrefix(rest, |routed|, data);
  }

  /** The reader sees two FIFO streams: what each channel delivered after StartDemux is an order-preserving
      prefix of that class among the messages after the serial ones, and no message falls between the serial
      reads and the demultiplexed ones. */
  lemma {:induction false} TwoFifoStreams(steps: seq<Step>, s: State)
    requires Exec(INITIAL, steps) == Some(s)
    ensures s.r.serial + s.r.routed <= s.w.Sending()
    ensures s.ch.gotData + s.ch.dataCh == Only(s.r.routed, true) <= Only(s.w.Sending()[|s.r.serial|..], true)
    ensures s.ch.gotControl + s.ch.controlCh == Only(s.r.routed, false) <=
            Only(s.w.Sending()[|s.r.serial|..], false)
    ensures |s.ch.dataCh| <= 16 && |s.ch.controlCh| <= 16
  {
    ReachableInv(steps);
    RoutedPrefix(s.w.Sending(), s.r.serial, s.r.routed, true);
    RoutedPrefix(s.w.Sending(), s.r.serial, s.r.routed, false);
  }

  /** A stream of whole frames from which no message can be read is at its end. */
  lemma {:induction false} NothingLeft(wire: seq<byte>, front: seq<byte>, rest: seq<Message>)
    requires AllSendable(rest) && wire == front + EncodeAll(rest) && !ParseFrame(wire[|front|..|wire|]).out.Ok?
    ensures rest == []
  {
    var n := |EncodeAll(rest)|;
    assert wire[|front|..|wire|] == EncodeAll(rest)[..n];
    ParsePrefix(rest, n);
  }

  /** Once every write has completed, every byte has arrived and no further frame can be read, nothing was lost:
      each channel's messages are exactly that class of everything after the serial reads. */
  lemma {:induction false} NothingLost(steps: seq<Step>, s: State)
    requires Exec(INITIAL, steps) == Some(s)
    requires s.w.holder.None? && s.r.arrived == |s.w.wire| && !Parse(s.w.wire, s.r).out.Ok?
    ensures s.r.serial + s.r.routed == s.w.written
    ensures s.ch.gotData + s.ch.dataCh == Only(s.w.written[|s.r.serial|..], true)
    ensures s.ch.gotControl + s.ch.controlCh == Only(s.w.written[|s.r.serial|..], false)
  {
    ReachableInv(steps);
    var done, ms := s.r.serial + s.r.routed, s.w.written;
    PrefixSplit(done, ms);
    EncodeAllConcat(done, ms[|done|..]);
    NothingLeft(s.w.wire, EncodeAll(done), ms[|done|..]);
    assert done == ms && s.r.routed == ms[|s.r.serial|..];
  }

  /** If no Data is read before StartDemux, what the data channel delivers is a prefix of all the Data sent, and all of
      it once nothing is left to read. */
  lemma {:induction false} DataChannel(steps: seq<Step>, s: State)
    requires Exec(INITIAL, steps) == Some(s) && Only(s.r.serial, true) == []
    ensures s.ch.gotData + s.ch.dataCh <= Only(s.w.Sending(), true)
    ensures s.w.holder.None? && s.r.arrived == |s.w.wire| && !Parse(s.w.wire, s.r).out.Ok? ==>
              s.ch.gotData + s.ch.dataCh == Only(s.w.Sending(), true)
  {
    var ms, k := s.w.Sending(), |s.r.serial|;
    TwoFifoStreams(steps, s);
    assert ms == s.r.serial + ms[k..];
    OnlyConcat(s.r.serial, ms[k..], true);
    if s.w.holder.None? && s.r.arrived == |s.w.wire| && !Parse(s.w.wire, s.r).out.Ok? {
      NothingLost(steps, s);
    }
  }
}
