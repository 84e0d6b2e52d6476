/** The wire format in plain bytes: what each message looks like on the stream, and which payloads are accepted. */
module WireFormat {
  import opened Bytes
  import opened Protocol

  /** Fixed-width integers, most significant byte first. */
  function Be16(n: nat): seq<byte> { [n / 0x100 % 256, n % 256] }

  function Be32(n: nat): seq<byte> { [n / 0x100_0000 % 256, n / 0x1_0000 % 256, n / 0x100 % 256, n % 256] }

  function Be64(n: nat): seq<byte> {
    [n / 0x100_0000_0000_0000 % 256, n / 0x1_0000_0000_0000 % 256, n / 0x100_0000_0000 % 256, n / 0x1_0000_0000 % 256,
     n / 0x100_0000 % 256, n / 0x1_0000 % 256, n / 0x100 % 256, n % 256]
  }

  lemma {:induction false} MulMonotone(d: nat, a: int, b: int)
    requires a < b
    ensures d * a + d <= d * b
  {
    var gap := b - a - 1;
    assert d * gap >= 0;
    assert d * b == d * a + d + d * gap;
  }

  lemma {:induction false} QuotientIs(n: nat, d: nat, q: nat)
    requires d > 0 && d * q <= n < d * q + d
    ensures n / d == q
  {
    var r := n / d;
    assert n == d * r + n % d;
    if r < q {
      MulMonotone(d, r, q);
    } else if q < r {
      MulMonotone(d, q, r);
    }
  }

  lemma {:induction false} DivDiv(n: nat, d: nat)
    requires d > 0
    ensures n / 256 / d == n / (256 * d)
  {
    var high := n / 256;
    var q, m := high / d, high % d;
    assert high == d * q + m;
    assert 256 * d * q == 256 * (d * q);
    QuotientIs(n, 256 * d, q);
  }

  /** Byte k of a big-endian integer is its digit of that weight. */
  lemma {:induction false} PutUintAt(n: nat, width: nat, k: nat)
    requires k < width
    ensures PutUint(n, width)[k] == n / Pow256(width - 1 - k) % 256
    decreases width
  {
    if k < width - 1 {
      PutUintAt(n / 256, width - 1, k);
      DivDiv(n, Pow256(width - 2 - k));
    }
  }

  lemma {:induction false} Widths(n: nat)
    ensures PutUint(n, W16) == Be16(n)
    ensures PutUint(n, W32) == Be32(n)
    ensures PutUint(n, W64) == Be64(n)
  {
    Weights();
    forall k: nat | k < W16 ensures PutUint(n, W16)[k] == Be16(n)[k] { PutUintAt(n, W16, k); }
    forall k: nat | k < W32 ensures PutUint(n, W32)[k] == Be32(n)[k] { PutUintAt(n, W32, k); }
    forall k: nat | k < W64 ensures PutUint(n, W64)[k] == Be64(n)[k] { PutUintAt(n, W64, k); }
  }

  lemma {:induction false} Weights()
    ensures Pow256(0) == 1 && Pow256(1) == 0x100 && Pow256(2) == 0x1_0000 && Pow256(3) == 0x100_0000
    ensures Pow256(4) == 0x1_0000_0000 && Pow256(5) == 0x100_0000_0000 && Pow256(6) == 0x1_0000_0000_0000
    ensures Pow256(7) == 0x100_0000_0000_0000
  {
    assert Pow256(4) == 256 * Pow256(3);
    assert Pow256(6) == 256 * Pow256(5);
  }

  /** The bytes of every message that the encoder accepts: four bytes of payload length, the type, the fields. */
  ghost predicate HasBytes(m: Message, f: seq<byte>) {
    match m
    case AuthRequest(token) => f == [0, 0, 0, 32, 0x01] + token
    case AuthResponse(status) => f == [0, 0, 0, 1, 0x02, status]
    case SequenceHeader(last) => f == [0, 0, 0, 8, 0x03] + Be64(last)
    case Heartbeat(t) => f == [0, 0, 0, 8, 0x10] + Be64(if t < 0 then 0x1_0000_0000_0000_0000 + t else t)
    case Resize(rows, cols) => f == [0, 0, 0, 4, 0x11, rows / 256, rows % 256, cols / 256, cols % 256]
    case Shutdown => f == [0, 0, 0, 0, 0x12]
    case TerminalInfo(term) => f == Be32(2 + |term|) + [0x13] + Be16(|term|) + term
    case Data(seqNo, payload) => f == Be32(8 + |payload|) + [0x20] + Be64(seqNo) + payload
  }

  lemma {:induction false} HeaderBytes(n: nat, tag: byte)
    ensures Header(n, tag) == Be32(n) + [tag]
  {
    Widths(n);
  }

  lemma {:induction false} SmallHeader(n: byte, tag: byte)
    ensures Header(n, tag) == [0, 0, 0, n, tag]
  {
    HeaderBytes(n, tag);
    assert Be32(n) == [0, 0, 0, n];
  }

  lemma {:induction false} FixedBytes(m: Message)
    requires m.AuthRequest? || m.AuthResponse? || m.SequenceHeader? || m.Heartbeat? || m.Shutdown?
    ensures HasBytes(m, Frame(m))
  {
    SmallHeader(|PayloadOf(m)|, TypeOf(m));
    match m
    case SequenceHeader(last) => assert PayloadOf(m) == Be64(last) by { Widths(last); }
    case Heartbeat(t) => assert PayloadOf(m) == Be64(AsUint64(t)) by { Widths(AsUint64(t)); }
    case AuthResponse(status) => assert [0, 0, 0, 1, 0x02] + [status] == [0, 0, 0, 1, 0x02, status];
    case _ =>
  }

  lemma {:induction false} Two(n: uint16)
    ensures PutUint(n, W16) == [n / 256, n % 256]
  {
    Widths(n);
  }

  lemma {:induction false} NineBytes(n: byte, tag: byte, a: byte, b: byte, c: byte, d: byte)
    ensures [0, 0, 0, n, tag] + ([a, b] + [c, d]) == [0, 0, 0, n, tag, a, b, c, d]
  {
  }

  lemma {:induction false} ResizeBytes(rows: uint16, cols: uint16)
    ensures HasBytes(Resize(rows, cols), Frame(Resize(rows, cols)))
  {
    SmallHeader(4, 0x11);
    Two(rows);
    Two(cols);
    NineBytes(4, 0x11, rows / 256, rows % 256, cols / 256, cols % 256);
  }

  lemma {:induction false} TermBytes(term: seq<byte>)
    ensures Frame(TerminalInfo(term)) == Be32(2 + |term|) + [0x13] + Be16(|term|) + term
  {
    Widths(|term|);
    HeaderBytes(2 + |term|, 0x13);
    Assoc(Be32(2 + |term|) + [0x13], Be16(|term|), term);
  }

  lemma {:induction false} DataBytes(seqNo: uint64, payload: seq<byte>)
    ensures Frame(Data(seqNo, payload)) == Be32(8 + |payload|) + [0x20] + Be64(seqNo) + payload
  {
    Widths(seqNo);
    HeaderBytes(8 + |payload|, 0x20);
    Assoc(Be32(8 + |payload|) + [0x20], Be64(seqNo), payload);
  }

  /** Every accepted message has exactly these bytes on the stream. */
  lemma {:induction false} FrameBytes(m: Message)
    requires Encodable(m)
    ensures HasBytes(m, Frame(m))
  {
    match m
    case Resize(rows, cols) => ResizeBytes(rows, cols);
    case TerminalInfo(term) => TermBytes(term);
    case Data(seqNo, payload) => DataBytes(seqNo, payload);
    case _ => FixedBytes(m);
  }

  /** The encoder's limits: a TERM of at most 65535 bytes, Data of at most 4 MB with its number. */
  lemma {:induction false} EncoderLimits(m: Message)
    ensures Encodable(m) <==> (m.TerminalInfo? ==> |m.term| <= 65535) && (m.Data? ==> |m.payload| <= 4194296)
  {
  }

  /** The number that two or four bytes stand for. */
  function Number16(a: int, b: int): int { 0x100 * a + b }

  function Number32(a: int, b: int, c: int, d: int): int { 0x100_0000 * a + 0x1_0000 * b + 0x100 * c + d }

  /** The length field of a TerminalInfo payload. */
  function Field16(p: seq<byte>): int { if |p| < 2 then 0 else Number16(p[0], p[1]) }

  lemma {:induction false} Field16Is(p: seq<byte>)
    requires |p| == 2
    ensures GetUint(p) == Number16(p[0], p[1])
  {
    assert GetUint(p[..1]) == 256 * GetUint(p[..1][..0]) + p[..1][0];
  }

  lemma {:induction false} Field32Is(p: seq<byte>)
    requires |p| == 4
    ensures GetUint(p) == Number32(p[0], p[1], p[2], p[3])
  {
    assert p[..3][..2] == p[..2];
    Field16Is(p[..2]);
    assert GetUint(p[..3]) == 256 * GetUint(p[..2]) + p[2];
  }

  /** Exactly which payloads the decoder accepts: a known type, all of its fields there, and a TERM whose slice bound
      does not wrap; anything after the fields is ignored. */
  lemma {:induction false} AcceptedExactly(tag: byte, p: seq<byte>)
    ensures DecodePayload(tag, p).Ok? <==>
            || (tag == 0x01 && |p| >= 32)
            || (tag == 0x02 && |p| >= 1)
            || ((tag == 0x03 || tag == 0x10 || tag == 0x20) && |p| >= 8)
            || (tag == 0x11 && |p| >= 4)
            || tag == 0x12
            || (tag == 0x13 && |p| >= 2 && |p| >= 2 + Field16(p) && Field16(p) <= 65533)
  {
    if |p| >= 2 { Field16Is(p[..2]); }
  }

  /** The errors: an unknown type is reported with its tag, a missing field as a short payload, and a TERM of 65534 or
      65535 bytes that is all there as a panic. */
  lemma {:induction false} RejectedHow(tag: byte, p: seq<byte>)
    requires DecodePayload(tag, p).Fail?
    ensures DecodePayload(tag, p).err ==
            if tag !in {0x01, 0x02, 0x03, 0x10, 0x11, 0x12, 0x13, 0x20} then UnknownMessage(tag)
            else if tag == 0x13 && |p| >= 2 && |p| >= 2 + Field16(p) then SlicePanic
            else ShortPayload
  {
    if |p| >= 2 { Field16Is(p[..2]); }
  }

  /** A declared length above 4 MB is refused before anything more is read, whatever follows. */
  lemma {:induction false} OversizeRefused(s: seq<byte>)
    requires |s| >= 5
    ensures
      var n := Number32(s[0], s[1], s[2], s[3]);
      && (n > 4194304 ==> ParseFrame(s) == Parsed(Fail(PayloadTooLarge), s[5..]))
      && (0 <= n <= 4194304 && |s| >= 5 + n ==> ParseFrame(s) == Parsed(DecodePayload(s[4], s[5..5 + n]), s[5 + n..]))
  {
    Field32Is(s[..4]);
    var n := GetUint(s[..4]);
    if n <= 4194304 && |s| >= 5 + n {
      assert s[5..][..n] == s[5..5 + n] && s[5..][n..] == s[5 + n..];
    }
  }
}
