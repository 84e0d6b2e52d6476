/** The ~. escape machine of internal/client/escape.go. */
module Escape {
  import opened Bytes

  const CR: byte := 13
  const LF: byte := 10
  const TILDE: byte := 126
  const DOT: byte := 46

  datatype State = Mid | AfterNewline | AfterTilde

  predicate IsNewline(b: byte) { b == CR || b == LF }

  /** Where the machine is after some input: `gone` means ~. was seen and the rest is discarded. */
  datatype Run = Run(state: State, out: seq<byte>, gone: bool)

  function Feed(r: Run, b: byte): Run {
    if r.gone then r
    else match r.state
      case Mid => Run(if IsNewline(b) then AfterNewline else Mid, r.out + [b], false)
      case AfterNewline =>
        if b == TILDE then Run(AfterTilde, r.out, false)
        else Run(if IsNewline(b) then AfterNewline else Mid, r.out + [b], false)
      case AfterTilde =>
        if b == DOT then Run(AfterTilde, r.out, true)
        else if b == TILDE then Run(Mid, r.out + [TILDE], false)
        else Run(if IsNewline(b) then AfterNewline else Mid, r.out + [TILDE, b], false)
  }

  function FeedAll(r: Run, input: seq<byte>): Run {
    if input == [] then r else Feed(FeedAll(r, input[..|input| - 1]), input[|input| - 1])
  }

  function Start(): Run { Run(AfterNewline, [], false) }

  /** Feeding two chunks one after the other is feeding their concatenation. */
  lemma {:induction false} ChunkingIgnored(r: Run, a: seq<byte>, b: seq<byte>)
    ensures FeedAll(FeedAll(r, a), b) == FeedAll(r, a + b)
  {
    if b == [] {
      assert a + b == a;
    } else {
      assert (a + b)[..|a + b| - 1] == a + b[..|b| - 1];
      ChunkingIgnored(r, a, b[..|b| - 1]);
    }
  }

  /** What the machine appends does not depend on what it already emitted. */
  lemma {:induction false} OutputFrames(s: State, prior: seq<byte>, input: seq<byte>)
    ensures
      var tail := FeedAll(Run(s, [], false), input);
      FeedAll(Run(s, prior, false), input) == Run(tail.state, prior + tail.out, tail.gone)
  {
    if input != [] {
      OutputFrames(s, prior, input[..|input| - 1]);
    }
  }

  /** At most one byte more than the input, and only when a held ~ is released. */
  lemma {:induction false} OutputBound(s: State, input: seq<byte>)
    ensures
      var r := FeedAll(Run(s, [], false), input);
      |r.out| + (if r.state.AfterTilde? then 1 else 0) <= |input| + (if s.AfterTilde? then 1 else 0)
  {
    if input != [] {
      OutputBound(s, input[..|input| - 1]);
    }
  }

  lemma {:induction false} FeedNext(r: Run, input: seq<byte>, i: nat)
    requires i < |input|
    ensures FeedAll(r, input[..i + 1]) == Feed(FeedAll(r, input[..i]), input[i])
  {
    assert input[..i + 1][..i] == input[..i];
  }

  lemma {:induction false} GoneStays(r: Run, input: seq<byte>)
    requires r.gone
    ensures FeedAll(r, input) == r
  {
    if input != [] {
      GoneStays(r, input[..|input| - 1]);
    }
  }

  /** Once ~. was seen the rest of the input makes no difference. */
  lemma {:induction false} RestIgnored(r: Run, input: seq<byte>, i: nat)
    requires i <= |input| && FeedAll(r, input[..i]).gone
    ensures FeedAll(r, input) == FeedAll(r, input[..i])
  {
    GoneStays(FeedAll(r, input[..i]), input[i..]);
    ChunkingIgnored(r, input[..i], input[i..]);
    assert input[..i] + input[i..] == input;
  }

  class Processor {
    var state: State

    constructor ()
      ensures state == AfterNewline
    {
      state := AfterNewline;
    }

    /** One turn of the loop: the switch on the state. */
    method ProcessByte(b: byte, dst: array<byte>, n: nat) returns (m: nat, disconnect: bool)
      requires n + (if state.AfterTilde? then 2 else 1) <= dst.Length
      modifies this, dst
      ensures m <= dst.Length
      ensures m + (if state.AfterTilde? then 1 else 0) <= n + 1 + (if old(state).AfterTilde? then 1 else 0)
      ensures Run(state, dst[..m], disconnect) == Feed(Run(old(state), old(dst[..n]), false), b)
    {
      m, disconnect := n, false;
      match state {
        case Mid =>
          if IsNewline(b) {
            state := AfterNewline;
          }
          dst[m] := b;
          m := m + 1;
        case AfterNewline =>
          if b == TILDE {
            state := AfterTilde;
          } else {
            if !IsNewline(b) {
              state := Mid;
            }
            dst[m] := b;
            m := m + 1;
          }
        case AfterTilde =>
          if b == DOT {
            return m, true;
          } else if b == TILDE {
            state := Mid;
            dst[m] := TILDE;
            m := m + 1;
          } else {
            state := if IsNewline(b) then AfterNewline else Mid;
            dst[m] := TILDE;
            dst[m + 1] := b;
            m := m + 2;
          }
      }
    }

    /** Filters one chunk into dst and returns how many bytes were written and whether ~. was seen. The
        index never leaves a buffer one byte longer than the input. */
    method Process(input: seq<byte>, dst: array<byte>) returns (n: nat, disconnect: bool)
      requires dst.Length >= |input| + 1
      modifies this, dst
      ensures n <= |input| + 1
      ensures FeedAll(Run(old(state), [], false), input) == Run(state, dst[..n], disconnect)
    {
      n, disconnect := 0, false;
      ghost var start := Run(state, [], false);
      var i := 0;
      while i < |input|
        invariant 0 <= i <= |input|
        invariant n + (if state.AfterTilde? then 1 else 0) <= i + (if start.state.AfterTilde? then 1 else 0)
        invariant FeedAll(start, input[..i]) == Run(state, dst[..n], false)
      {
        FeedNext(start, input, i);
        n, disconnect := ProcessByte(input[i], dst, n);
        if disconnect {
          RestIgnored(start, input, i + 1);
          return;
        }
        i := i + 1;
      }
      assert input[..i] == input;
    }

    method Reset()
      modifies this
      ensures state == AfterNewline
    {
      state := AfterNewline;
    }
  }

  // ---- Declarative meaning, in plain bytes -------------------------------------------------

  /** At the start of the input or right after CR or LF. */
  predicate LineStart(input: seq<byte>, i: nat)
    requires i <= |input|
  {
    i == 0 || input[i - 1] == 13 || input[i - 1] == 10
  }

  /** A ~. at the start of a line ends at position i. */
  predicate EscapeEndsAt(input: seq<byte>, i: nat)
    requires i < |input|
  {
    i >= 1 && input[i - 1] == 126 && input[i] == 46 && LineStart(input, i - 1)
  }

  ghost predicate HasEscape(input: seq<byte>) {
    exists i :: 0 <= i < |input| && EscapeEndsAt(input, i)
  }

  /** A line-initial ~ that is last so far (held back) or followed by another ~ (doubled). */
  predicate Dropped(input: seq<byte>, i: nat)
    requires i < |input|
  {
    input[i] == 126 && LineStart(input, i) && (i + 1 == |input| || input[i + 1] == 126)
  }

  /** The input without its dropped positions, up to position n. */
  function Kept(input: seq<byte>, n: nat): seq<byte>
    requires n <= |input|
  {
    if n == 0 then []
    else Kept(input, n - 1) + (if Dropped(input, n - 1) then [] else [input[n - 1]])
  }

  /** The state is determined by the last two bytes. */
  function StateAfter(input: seq<byte>): State {
    if LineStart(input, |input|) then AfterNewline
    else if input[|input| - 1] == 126 && LineStart(input, |input| - 1) then AfterTilde
    else Mid
  }

  /** One more byte changes the verdict on no position but the last. */
  lemma {:induction false} KeptExtend(p: seq<byte>, b: byte, n: nat)
    requires n < |p|
    ensures Kept(p + [b], n) == Kept(p, n)
  {
    if n > 0 {
      KeptExtend(p, b, n - 1);
      assert Dropped(p + [b], n - 1) == Dropped(p, n - 1);
    }
  }

  lemma {:induction false} HasEscapeSnoc(p: seq<byte>, b: byte)
    ensures HasEscape(p + [b]) <==> HasEscape(p) || EscapeEndsAt(p + [b], |p|)
  {
    if HasEscape(p) {
      var i :| 0 <= i < |p| && EscapeEndsAt(p, i);
      assert EscapeEndsAt(p + [b], i);
    }
    if HasEscape(p + [b]) {
      var i :| 0 <= i < |p + [b]| && EscapeEndsAt(p + [b], i);
      assert i < |p| ==> EscapeEndsAt(p, i);
    }
  }

  /** What the machine emits on reading b after p, when it does not disconnect. */
  function Emitted(p: seq<byte>, b: byte): seq<byte> {
    match StateAfter(p)
    case AfterTilde => if b == TILDE then [TILDE] else [TILDE, b]
    case AfterNewline => if b == TILDE then [] else [b]
    case Mid => [b]
  }

  lemma {:induction false} KeptSnoc(p: seq<byte>, b: byte)
    ensures Kept(p + [b], |p| + 1) == Kept(p, |p|) + Emitted(p, b)
  {
    var q := p + [b];
    assert q[|p|] == b;
    assert Dropped(q, |p|) == (b == TILDE && LineStart(p, |p|));
    if p != [] {
      var n := |p| - 1;
      KeptExtend(p, b, n);
      assert q[n] == p[n];
      var initial := p[n] == TILDE && LineStart(p, n);
      assert Dropped(p, n) == initial;
      assert Dropped(q, n) == (initial && b == TILDE);
      assert initial == (StateAfter(p) == AfterTilde);
    }
  }

  /** The machine is its declarative definition: it disconnects exactly when some ~. starts a line, and
      otherwise emits the input without the doubled and the held ~. */
  lemma {:induction false} MachineMeaning(input: seq<byte>)
    ensures FeedAll(Start(), input).gone <==> HasEscape(input)
    ensures !HasEscape(input) ==>
              FeedAll(Start(), input) == Run(StateAfter(input), Kept(input, |input|), false)
  {
    if input != [] {
      var p, b := input[..|input| - 1], input[|input| - 1];
      assert input == p + [b];
      MachineMeaning(p);
      HasEscapeSnoc(p, b);
      KeptSnoc(p, b);
    }
  }

  /** ~. ends at position i, right after CR, LF or the start. */
  predicate TildeDot(input: seq<byte>, i: nat) {
    && 1 <= i < |input| && input[i - 1] == 126 && input[i] == 46
    && (i == 1 || input[i - 2] == 10 || input[i - 2] == 13)
  }

  /** The verdict spelled out: ~. disconnects at the start and after CR or LF, and nowhere else. */
  lemma {:induction false} DisconnectsExactly(input: seq<byte>)
    ensures FeedAll(Start(), input).gone <==> exists i: nat :: TildeDot(input, i)
  {
    MachineMeaning(input);
    if HasEscape(input) {
      var i :| 0 <= i < |input| && EscapeEndsAt(input, i);
      assert TildeDot(input, i);
    }
    if i: nat :| TildeDot(input, i) {
      assert EscapeEndsAt(input, i);
    }
  }

  /** Which bytes are missing from what is sent: the first of two tildes, or a last one, at the start of a line. */
  lemma {:induction false} DropsExactly(input: seq<byte>, i: nat)
    requires i < |input| && !FeedAll(Start(), input).gone
    ensures FeedAll(Start(), input).out == Kept(input, |input|)
    ensures Kept(input, i + 1) == Kept(input, i) +
            if input[i] == 126 && (i == 0 || input[i - 1] == 10 || input[i - 1] == 13)
               && (i + 1 == |input| || input[i + 1] == 126)
            then [] else [input[i]]
  {
    MachineMeaning(input);
  }

  // ---- Every byte string can be typed ------------------------------------------------------

  /** The input a user types to send `text`: every line-initial ~ doubled. */
  function Quote(text: seq<byte>): seq<byte> {
    if text == [] then []
    else
      var last, i := text[|text| - 1], |text| - 1;
      Quote(text[..i]) + (if last == TILDE && LineStart(text, i) then [TILDE, TILDE] else [last])
  }

  lemma {:induction false} FeedTwo(r: Run, input: seq<byte>, a: byte, b: byte)
    ensures FeedAll(r, input + [a, b]) == Feed(Feed(FeedAll(r, input), a), b)
  {
    assert (input + [a, b])[..|input| + 1] == input + [a];
    assert (input + [a])[..|input|] == input;
  }

  /** Every byte string is the output of some input, and nothing of it is held back. */
  lemma {:induction false} EveryTextTypeable(text: seq<byte>)
    ensures
      FeedAll(Start(), Quote(text)) ==
      Run(if LineStart(text, |text|) then AfterNewline else Mid, text, false)
  {
    if text != [] {
      var i := |text| - 1;
      var p, last := text[..i], text[i];
      EveryTextTypeable(p);
      assert text == p + [last];
      assert LineStart(p, |p|) == LineStart(text, i);
      if last == TILDE && LineStart(text, i) {
        FeedTwo(Start(), Quote(p), TILDE, TILDE);
      } else {
        assert (Quote(p) + [last])[..|Quote(p)|] == Quote(p);
      }
    }
  }
}
