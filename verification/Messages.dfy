/** The framed wire format of internal/protocol: encoder, decoder and their two-part stream I/O. */
module Protocol {
  import opened Bytes

  const HEADER_SIZE := 5
  const MAX_PAYLOAD_SIZE := 4 * 1024 * 1024
  const DATA_HEADER_SIZE := 8

  type uint16 = n: int | 0 <= n < 0x1_0000
  type uint64 = n: int | 0 <= n < 0x1_0000_0000_0000_0000
  type int64 = n: int | -0x8000_0000_0000_0000 <= n < 0x8000_0000_0000_0000
  type Token = t: seq<byte> | |t| == 32 witness seq(32, _ => 0)

  datatype Message =
    | AuthRequest(token: Token)
    | AuthResponse(status: byte)
    | SequenceHeader(lastReceivedSeq: uint64)
    | Heartbeat(timestampMs: int64)
    | Resize(rows: uint16, cols: uint16)
    | Shutdown
    | TerminalInfo(term: seq<byte>)
    | Data(seqNo: uint64, payload: seq<byte>)

  /** SlicePanic is the run-time panic of a slice expression whose high bound is below its low bound. */
  datatype Error = EOF | UnexpectedEOF | PayloadTooLarge | ShortPayload | UnknownMessage(tag: byte) | SlicePanic

  datatype Decoded = Ok(msg: Message) | Fail(err: Error)

  function TypeOf(m: Message): byte {
    match m
    case AuthRequest(_) => 0x01
    case AuthResponse(_) => 0x02
    case SequenceHeader(_) => 0x03
    case Heartbeat(_) => 0x10
    case Resize(_, _) => 0x11
    case Shutdown => 0x12
    case TerminalInfo(_) => 0x13
    case Data(_, _) => 0x20
  }

  /** Go's conversions between int64 and uint64 keep the bit pattern. */
  function AsUint64(t: int64): uint64 { if t < 0 then t + 0x1_0000_0000_0000_0000 else t }

  function AsInt64(u: uint64): int64 {
    if u >= 0x8000_0000_0000_0000 then u - 0x1_0000_0000_0000_0000 else u
  }

  function PayloadOf(m: Message): seq<byte> {
    match m
    case AuthRequest(token) => token
    case AuthResponse(status) => [status]
    case SequenceHeader(last) => PutUint(last, W64)
    case Heartbeat(t) => PutUint(AsUint64(t), W64)
    case Resize(rows, cols) => PutUint(rows, W16) + PutUint(cols, W16)
    case Shutdown => []
    case TerminalInfo(term) => PutUint(|term|, W16) + term
    case Data(seqNo, payload) => PutUint(seqNo, W64) + payload
  }

  /** The encoder's own limits: a longer TERM or a larger Data payload is an error and nothing is written. */
  predicate Encodable(m: Message) {
    && (m.TerminalInfo? ==> |m.term| <= 65535)
    && (m.Data? ==> DATA_HEADER_SIZE + |m.payload| <= MAX_PAYLOAD_SIZE)
  }

  /** The TERM lengths for which the decoder's 16-bit slice bound does not wrap. */
  predicate SliceBoundFits(m: Message) { m.TerminalInfo? ==> |m.term| <= 65533 }

  predicate Sendable(m: Message) { Encodable(m) && SliceBoundFits(m) }

  /** Payload length and type. */
  function Header(n: nat, tag: byte): (h: seq<byte>)
    ensures |h| == HEADER_SIZE
  {
    PutUint(n, W32) + [tag]
  }

  function Frame(m: Message): (f: seq<byte>)
    ensures |f| == HEADER_SIZE + |PayloadOf(m)|
  {
    Header(|PayloadOf(m)|, TypeOf(m)) + PayloadOf(m)
  }

  /** The slice p[2 : 2+termLen], whose high bound Go computes in uint16. */
  function DecodeTerm(termLen: nat, p: seq<byte>): Decoded {
    if |p| < 2 + termLen then Fail(ShortPayload)
    else
      var high := (2 + termLen) % 0x1_0000;
      if high < 2 then Fail(SlicePanic) else Ok(TerminalInfo(p[2..high]))
  }

  function DecodePayload(tag: byte, p: seq<byte>): Decoded {
    Pow256Values();
    if tag == 0x01 then
      if |p| < 32 then Fail(ShortPayload) else Ok(AuthRequest(p[..32]))
    else if tag == 0x02 then
      if |p| < 1 then Fail(ShortPayload) else Ok(AuthResponse(p[0]))
    else if tag == 0x03 then
      if |p| < 8 then Fail(ShortPayload) else PutGet(p[..8]); Ok(SequenceHeader(GetUint(p[..8])))
    else if tag == 0x10 then
      if |p| < 8 then Fail(ShortPayload) else PutGet(p[..8]); Ok(Heartbeat(AsInt64(GetUint(p[..8]))))
    else if tag == 0x11 then
      if |p| < 4 then Fail(ShortPayload)
      else PutGet(p[..2]); PutGet(p[2..4]); Ok(Resize(GetUint(p[..2]), GetUint(p[2..4])))
    else if tag == 0x12 then
      Ok(Shutdown)
    else if tag == 0x13 then
      if |p| < 2 then Fail(ShortPayload) else DecodeTerm(GetUint(p[..2]), p)
    else if tag == 0x20 then
      if |p| < 8 then Fail(ShortPayload) else PutGet(p[..8]); Ok(Data(GetUint(p[..8]), p[8..]))
    else
      Fail(UnknownMessage(tag))
  }

  datatype Parsed = Parsed(out: Decoded, rest: seq<byte>)

  /** What one ReadMessage call makes of a stream that ends after s. */
  function ParseFrame(s: seq<byte>): (r: Parsed)
    ensures r.out.Ok? ==> |r.rest| < |s|
  {
    if |s| < HEADER_SIZE then
      Parsed(Fail(if s == [] then EOF else UnexpectedEOF), [])
    else
      ParseBody(GetUint(s[..4]), s[4], s[HEADER_SIZE..])
  }

  /** The payload of a frame whose header gave its length and type. */
  function ParseBody(n: nat, tag: byte, s: seq<byte>): (r: Parsed)
    ensures |r.rest| <= |s|
  {
    if n > MAX_PAYLOAD_SIZE then
      Parsed(Fail(PayloadTooLarge), s)
    else if |s| < n then
      Parsed(Fail(if s == [] then EOF else UnexpectedEOF), [])
    else
      Parsed(DecodePayload(tag, s[..n]), s[n..])
  }

  // ---- Round trips -------------------------------------------------------------------------

  lemma {:induction false} Int64RoundTrip(t: int64, u: uint64)
    ensures AsInt64(AsUint64(t)) == t
    ensures AsUint64(AsInt64(u)) == u
  {
  }

  /** Every message the encoder accepts decodes to itself, except exactly the two TERM lengths whose
      slice bound wraps; those make the decoder panic. */
  lemma {:induction false} RoundTrip(m: Message)
    requires Encodable(m)
    ensures SliceBoundFits(m) <==> DecodePayload(TypeOf(m), PayloadOf(m)) == Ok(m)
    ensures !SliceBoundFits(m) ==> DecodePayload(TypeOf(m), PayloadOf(m)) == Fail(SlicePanic)
  {
    if m.TerminalInfo? {
      RoundTripTerm(m.term);
    } else {
      RoundTripFixed(m);
    }
  }

  lemma {:induction false} RoundTripTerm(term: seq<byte>)
    requires |term| <= 65535
    ensures DecodePayload(0x13, PutUint(|term|, W16) + term) ==
            if |term| <= 65533 then Ok(TerminalInfo(term)) else Fail(SlicePanic)
  {
    Pow256Values();
    var p := PutUint(|term|, W16) + term;
    assert p[..2] == PutUint(|term|, W16);
    GetPut(|term|, W16);
    assert p[2..] == term;
    if |term| <= 65533 { assert p[2..2 + |term|] == term; }
  }

  lemma {:induction false} RoundTripFixed(m: Message)
    requires Encodable(m) && !m.TerminalInfo?
    ensures DecodePayload(TypeOf(m), PayloadOf(m)) == Ok(m)
  {
    Pow256Values();
    var p := PayloadOf(m);
    match m
    case AuthRequest(token) => assert p[..32] == token;
    case AuthResponse(_) =>
    case SequenceHeader(last) => assert p[..8] == p; GetPut(last, W64);
    case Heartbeat(t) => assert p[..8] == p; GetPut(AsUint64(t), W64); Int64RoundTrip(t, 0);
    case Resize(rows, cols) =>
      assert p[..2] == PutUint(rows, W16) && p[2..4] == PutUint(cols, W16);
      GetPut(rows, W16); GetPut(cols, W16);
    case Shutdown =>
    case Data(seqNo, payload) =>
      assert p[..8] == PutUint(seqNo, W64) && p[8..] == payload;
      GetPut(seqNo, W64);
  }

  /** The failing inputs exist: a 65534-byte TERM is encoded without error and then panics the decoder. */
  lemma {:induction false} LongTermPanics()
    ensures
      var m := TerminalInfo(seq(65534, _ => 0));
      Encodable(m) && DecodePayload(TypeOf(m), PayloadOf(m)) == Fail(SlicePanic)
  {
    RoundTrip(TerminalInfo(seq(65534, _ => 0)));
  }

  ghost predicate ReencodesToPrefix(tag: byte, p: seq<byte>) {
    DecodePayload(tag, p).Ok? ==>
      var m := DecodePayload(tag, p).msg;
      TypeOf(m) == tag && Sendable(m) && PayloadOf(m) <= p
  }

  lemma {:induction false} PrefixOf64BitField(tag: byte, p: seq<byte>)
    requires |p| <= MAX_PAYLOAD_SIZE
    requires tag == 0x03 || tag == 0x10 || tag == 0x20
    ensures ReencodesToPrefix(tag, p)
  {
    Pow256Values();
    if |p| >= 8 {
      PutGet(p[..8]);
      Int64RoundTrip(0, GetUint(p[..8]));
      assert p[..8] + p[8..] == p;
    }
  }

  lemma {:induction false} PrefixOfResize(p: seq<byte>)
    ensures ReencodesToPrefix(0x11, p)
  {
    Pow256Values();
    if |p| >= 4 {
      PutGet(p[..2]);
      PutGet(p[2..4]);
      assert p[..2] + p[2..4] == p[..4];
    }
  }

  lemma {:induction false} PrefixOfTerminalInfo(p: seq<byte>)
    ensures ReencodesToPrefix(0x13, p)
  {
    Pow256Values();
    if |p| >= 2 {
      PutGet(p[..2]);
      var termLen := GetUint(p[..2]);
      assert termLen < 0x1_0000;
      if DecodeTerm(termLen, p).Ok? {
        assert DecodeTerm(termLen, p) == Ok(TerminalInfo(p[2..2 + termLen]));
        assert p[..2] + p[2..2 + termLen] == p[..2 + termLen];
      }
    }
  }

  /** Re-encoding an accepted payload gives a message of the same type whose payload is a prefix of the
      accepted one (the ignored trailing bytes are dropped) and which decodes to the same message. */
  lemma {:induction false} ReencodeAccepted(tag: byte, p: seq<byte>)
    requires |p| <= MAX_PAYLOAD_SIZE
    requires DecodePayload(tag, p).Ok?
    ensures
      var m := DecodePayload(tag, p).msg;
      && TypeOf(m) == tag
      && Sendable(m)
      && PayloadOf(m) <= p
      && DecodePayload(tag, PayloadOf(m)) == Ok(m)
  {
    if tag == 0x11 {
      PrefixOfResize(p);
    } else if tag == 0x13 {
      PrefixOfTerminalInfo(p);
    } else if tag == 0x03 || tag == 0x10 || tag == 0x20 {
      PrefixOf64BitField(tag, p);
    }
    assert ReencodesToPrefix(tag, p);
    RoundTrip(DecodePayload(tag, p).msg);
  }

  // ---- One frame at the head of a stream ---------------------------------------------------

  lemma {:induction false} ParseHeader(n: nat, tag: byte, body: seq<byte>)
    requires n <= MAX_PAYLOAD_SIZE
    ensures ParseFrame(Header(n, tag) + body) == ParseBody(n, tag, body)
  {
    Pow256Values();
    var s := Header(n, tag) + body;
    assert s[..4] == PutUint(n, W32);
    GetPut(n, W32);
    assert s[4] == tag && s[HEADER_SIZE..] == body;
  }

  lemma {:induction false} ParseBodyOf(tag: byte, p: seq<byte>, tail: seq<byte>)
    requires |p| <= MAX_PAYLOAD_SIZE
    ensures ParseFrame(Header(|p|, tag) + p + tail) == Parsed(DecodePayload(tag, p), tail)
  {
    assert Header(|p|, tag) + p + tail == Header(|p|, tag) + (p + tail);
    ParseHeader(|p|, tag, p + tail);
    assert (p + tail)[..|p|] == p && (p + tail)[|p|..] == tail;
  }

  lemma {:induction false} ParseBodyCut(tag: byte, p: seq<byte>, k: nat)
    requires |p| <= MAX_PAYLOAD_SIZE
    requires k < HEADER_SIZE + |p|
    ensures ParseFrame((Header(|p|, tag) + p)[..k]) ==
            Parsed(Fail(if k == 0 || k == HEADER_SIZE then EOF else UnexpectedEOF), [])
  {
    PrefixOfConcat(Header(|p|, tag), p, k);
    if k >= HEADER_SIZE {
      ParseHeader(|p|, tag, p[..k - HEADER_SIZE]);
    }
  }

  lemma {:induction false} PayloadBound(m: Message)
    requires Encodable(m)
    ensures |PayloadOf(m)| <= MAX_PAYLOAD_SIZE
  {
  }

  lemma {:induction false} ParseWhole(m: Message, tail: seq<byte>)
    requires Sendable(m)
    ensures ParseFrame(Frame(m) + tail) == Parsed(Ok(m), tail)
  {
    PayloadBound(m);
    ParseBodyOf(TypeOf(m), PayloadOf(m), tail);
    RoundTrip(m);
  }

  /** A frame cut short never decodes; the error is a plain EOF exactly at the two points where the
      reader had asked for bytes and got none. */
  lemma {:induction false} ParseCut(m: Message, k: nat)
    requires Encodable(m)
    requires k < |Frame(m)|
    ensures ParseFrame(Frame(m)[..k]) == Parsed(Fail(if k == 0 || k == HEADER_SIZE then EOF else UnexpectedEOF), [])
  {
    PayloadBound(m);
    ParseBodyCut(TypeOf(m), PayloadOf(m), k);
  }

  // ---- Whole streams -----------------------------------------------------------------------

  function EncodeAll(ms: seq<Message>): seq<byte> {
    if ms == [] then [] else Frame(ms[0]) + EncodeAll(ms[1..])
  }

  predicate AllSendable(ms: seq<Message>) { forall i :: 0 <= i < |ms| ==> Sendable(ms[i]) }

  /** ReadMessage repeated until it reports an error. */
  function ReadAll(s: seq<byte>): (seq<Message>, Error)
    decreases |s|
  {
    var p := ParseFrame(s);
    match p.out
    case Fail(e) => ([], e)
    case Ok(m) => var (ms, e) := ReadAll(p.rest); ([m] + ms, e)
  }

  /** How many of the frames lie entirely within the first k bytes. */
  function WholeFrames(ms: seq<Message>, k: nat): (j: nat)
    ensures j <= |ms|
  {
    if ms == [] || k < |Frame(ms[0])| then 0 else 1 + WholeFrames(ms[1..], k - |Frame(ms[0])|)
  }

  lemma {:induction false} EncodeAllSnoc(ms: seq<Message>, m: Message)
    ensures EncodeAll(ms + [m]) == EncodeAll(ms) + Frame(m)
  {
    if ms == [] {
      assert ms + [m] == [m];
      assert EncodeAll([m]) == Frame(m) + EncodeAll([]);
    } else {
      assert (ms + [m])[1..] == ms[1..] + [m];
      EncodeAllSnoc(ms[1..], m);
    }
  }

  lemma {:induction false} EncodeAllTake(ms: seq<Message>, j: nat)
    requires j < |ms|
    ensures EncodeAll(ms[..j + 1]) == Frame(ms[0]) + EncodeAll(ms[1..][..j])
  {
    assert ms[..j + 1][1..] == ms[1..][..j];
  }

  /** n frames fit into k bytes and no more do. */
  ghost predicate FitsExactly(ms: seq<Message>, k: nat, n: nat) {
    && n <= |ms|
    && |EncodeAll(ms[..n])| <= k
    && (n < |ms| ==> k < |EncodeAll(ms[..n + 1])|)
  }

  lemma {:induction false} MoreFramesAreLonger(ms: seq<Message>, i: nat, j: nat)
    requires i <= j <= |ms|
    ensures |EncodeAll(ms[..i])| <= |EncodeAll(ms[..j])|
    decreases j - i
  {
    if i < j {
      MoreFramesAreLonger(ms, i, j - 1);
      SliceSnoc(ms, 0, j);
      EncodeAllSnoc(ms[..j - 1], ms[j - 1]);
    }
  }

  lemma {:induction false} FitsCons(ms: seq<Message>, k: nat, j: nat)
    requires ms != [] && |Frame(ms[0])| <= k && FitsExactly(ms[1..], k - |Frame(ms[0])|, j)
    ensures FitsExactly(ms, k, j + 1)
  {
    EncodeAllTake(ms, j);
    if j + 1 < |ms| { EncodeAllTake(ms, j + 1); }
  }

  lemma {:induction false} WholeFramesFit(ms: seq<Message>, k: nat)
    requires k <= |EncodeAll(ms)|
    ensures FitsExactly(ms, k, WholeFrames(ms, k))
  {
    if ms != [] {
      if k < |Frame(ms[0])| {
        EncodeAllTake(ms, 0);
      } else {
        WholeFramesFit(ms[1..], k - |Frame(ms[0])|);
        FitsCons(ms, k, WholeFrames(ms[1..], k - |Frame(ms[0])|));
      }
    }
  }

  /** The number of whole frames before a cut is the only number of frames that fits while one more does not. */
  lemma {:induction false} WholeFramesExact(ms: seq<Message>, k: nat, n: nat)
    requires k <= |EncodeAll(ms)|
    ensures FitsExactly(ms, k, n) <==> n == WholeFrames(ms, k)
  {
    var w := WholeFrames(ms, k);
    WholeFramesFit(ms, k);
    if FitsExactly(ms, k, n) {
      if n < w { MoreFramesAreLonger(ms, n + 1, w); }
      if w < n { MoreFramesAreLonger(ms, w + 1, n); }
    }
  }

  /** Reading past one whole frame. */
  lemma {:induction false} ReadAllCons(m: Message, tail: seq<byte>)
    requires Sendable(m)
    ensures ReadAll(Frame(m) + tail) == ([m] + ReadAll(tail).0, ReadAll(tail).1)
  {
    ParseWhole(m, tail);
  }

  lemma {:induction false} ReadAllCut(m: Message, k: nat)
    requires Encodable(m)
    requires k < |Frame(m)|
    ensures ReadAll(Frame(m)[..k]) == ([], if k == 0 || k == HEADER_SIZE then EOF else UnexpectedEOF)
  {
    ParseCut(m, k);
  }

  ghost predicate DecodesAsPrefix(ms: seq<Message>, k: nat, got: seq<Message>, e: Error) {
    && got == ms[..WholeFrames(ms, k)]
    && (e == EOF || e == UnexpectedEOF)
    && (k == |EncodeAll(ms)| ==> got == ms && e == EOF)
  }

  lemma {:induction false} DecodesAsPrefixCons(ms: seq<Message>, k: nat, got: seq<Message>, e: Error)
    requires ms != [] && |Frame(ms[0])| <= k <= |EncodeAll(ms)|
    requires DecodesAsPrefix(ms[1..], k - |Frame(ms[0])|, got, e)
    ensures DecodesAsPrefix(ms, k, [ms[0]] + got, e)
  {
    var j := WholeFrames(ms[1..], k - |Frame(ms[0])|);
    TakeCons(ms, j);
  }

  lemma {:induction false} DecodeCut(ms: seq<Message>, k: nat)
    requires ms != [] && Sendable(ms[0]) && k < |Frame(ms[0])|
    ensures DecodesAsPrefix(ms, k, ReadAll(Frame(ms[0])[..k]).0, ReadAll(Frame(ms[0])[..k]).1)
  {
    ReadAllCut(ms[0], k);
  }

  lemma {:induction false} DecodeCons(ms: seq<Message>, k: nat, tail: seq<byte>)
    requires ms != [] && Sendable(ms[0]) && |Frame(ms[0])| <= k <= |EncodeAll(ms)|
    requires DecodesAsPrefix(ms[1..], k - |Frame(ms[0])|, ReadAll(tail).0, ReadAll(tail).1)
    ensures DecodesAsPrefix(ms, k, ReadAll(Frame(ms[0]) + tail).0, ReadAll(Frame(ms[0]) + tail).1)
  {
    ReadAllCons(ms[0], tail);
    DecodesAsPrefixCons(ms, k, ReadAll(tail).0, ReadAll(tail).1);
  }

  /** Cutting the encoding of any list of messages at any byte gives exactly the whole frames before the
      cut and then an end-of-stream error; uncut, it gives the list back and ends cleanly. */
  lemma {:induction false} StreamDecode(ms: seq<Message>, k: nat)
    requires AllSendable(ms)
    requires k <= |EncodeAll(ms)|
    ensures DecodesAsPrefix(ms, k, ReadAll(EncodeAll(ms)[..k]).0, ReadAll(EncodeAll(ms)[..k]).1)
  {
    if ms == [] {
      assert ReadAll([]) == ([], EOF);
    } else {
      var f, tail := Frame(ms[0]), EncodeAll(ms[1..]);
      if k < |f| {
        assert EncodeAll(ms)[..k] == f[..k] by { PrefixOfConcat(f, tail, k); }
        DecodeCut(ms, k);
      } else {
        assert EncodeAll(ms)[..k] == f + tail[..k - |f|] by { PrefixOfConcat(f, tail, k); }
        StreamDecode(ms[1..], k - |f|);
        DecodeCons(ms, k, tail[..k - |f|]);
      }
    }
  }

  // ---- Step-by-step I/O --------------------------------------------------------------------

  /** An io.Writer that accepts `room` more bytes and then fails. */
  class Writer {
    var out: seq<byte>
    var room: nat

    method Write(p: seq<byte>) returns (ok: bool)
      modifies this
      ensures ok == (|p| <= old(room))
      ensures out == old(out) + p[..Min(|p|, old(room))]
      ensures room == old(room) - Min(|p|, old(room))
    {
      ok := |p| <= room;
      out := out + p[..Min(|p|, room)];
      room := room - Min(|p|, room);
    }
  }

  datatype WriteResult = Written | TooLarge | WriteError

  /** The two writes of one message: the second is skipped when the first fails or there is nothing to add. */
  method WriteParts(w: Writer, first: seq<byte>, second: seq<byte>) returns (ok: bool)
    modifies w
    ensures ok == (|first + second| <= old(w.room))
    ensures w.out == old(w.out) + (first + second)[..Min(|first + second|, old(w.room))]
  {
    PrefixOfConcat(first, second, Min(|first + second|, w.room));
    ok := w.Write(first);
    if ok && |second| > 0 {
      ok := w.Write(second);
    }
  }

  /** Header first, then payload: whatever the writer accepts is a prefix of the frame, and the call
      succeeds exactly when all of it was accepted. */
  method WriteMessage(w: Writer, m: Message) returns (r: WriteResult)
    modifies w
    ensures r == TooLarge <==> !Encodable(m)
    ensures r == TooLarge ==> w.out == old(w.out) && w.room == old(w.room)
    ensures r != TooLarge ==>
              && w.out == old(w.out) + Frame(m)[..Min(|Frame(m)|, old(w.room))]
              && (r == Written <==> |Frame(m)| <= old(w.room))
  {
    if m.Data? {
      r := WriteDataMessage(w, m);
      return;
    }
    if m.TerminalInfo? && |m.term| > 65535 {
      return TooLarge;
    }
    var ok := WriteParts(w, Header(|PayloadOf(m)|, TypeOf(m)), PayloadOf(m));
    r := if ok then Written else WriteError;
  }

  /** Data messages put the sequence number into the first write and never copy the payload. */
  method WriteDataMessage(w: Writer, m: Message) returns (r: WriteResult)
    requires m.Data?
    modifies w
    ensures r == TooLarge <==> !Encodable(m)
    ensures r == TooLarge ==> w.out == old(w.out) && w.room == old(w.room)
    ensures r != TooLarge ==>
              && w.out == old(w.out) + Frame(m)[..Min(|Frame(m)|, old(w.room))]
              && (r == Written <==> |Frame(m)| <= old(w.room))
  {
    if DATA_HEADER_SIZE + |m.payload| > MAX_PAYLOAD_SIZE {
      return TooLarge;
    }
    var hdr := Header(DATA_HEADER_SIZE + |m.payload|, TypeOf(m)) + PutUint(m.seqNo, W64);
    assert Frame(m) == hdr + m.payload;
    var ok := WriteParts(w, hdr, m.payload);
    r := if ok then Written else WriteError;
  }

  /** An io.Reader over the bytes that will ever arrive. */
  class Reader {
    var input: seq<byte>

    /** io.ReadFull: all n bytes, or an error that says whether any byte was read. */
    method ReadFull(n: nat) returns (got: seq<byte>, err: Option<Error>)
      modifies this
      ensures err.None? <==> n <= |old(input)|
      ensures err.None? ==> got == old(input)[..n] && input == old(input)[n..]
      ensures err.Some? ==> input == [] && err.value == if old(input) == [] then EOF else UnexpectedEOF
    {
      if n <= |input| {
        got, err := input[..n], None;
        input := input[n..];
      } else {
        got, err := [], Some(if input == [] then EOF else UnexpectedEOF);
        input := [];
      }
    }
  }

  method ReadMessage(r: Reader) returns (d: Decoded)
    modifies r
    ensures d == ParseFrame(old(r.input)).out
    ensures r.input == ParseFrame(old(r.input)).rest
  {
    ghost var s := r.input;
    var header, err := r.ReadFull(HEADER_SIZE);
    if err.Some? {
      return Fail(err.value);
    }
    assert header[..4] == s[..4];
    var payloadLen := GetUint(header[..4]);
    if payloadLen > MAX_PAYLOAD_SIZE {
      return Fail(PayloadTooLarge);
    }
    var payload := [];
    if payloadLen > 0 {
      payload, err := r.ReadFull(payloadLen);
      if err.Some? {
        return Fail(err.value);
      }
    }
    assert payload == s[HEADER_SIZE..][..payloadLen];
    d := DecodePayload(header[4], payload);
  }
}
