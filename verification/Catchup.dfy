/** What a catchup buffer holds, as a function of everything ever stored in it. */
module ReplayLog {
  import opened Bytes

  const DEFAULT_BUFFER_SIZE: nat := 4 * 1024

  datatype Entry = Entry(seqNo: nat, payload: seq<byte>)

  function SizeOf(q: seq<Entry>): nat {
    if q == [] then 0 else SizeOf(q[..|q| - 1]) + |q[|q| - 1].payload|
  }

  lemma {:induction false} SizeAppend(a: seq<Entry>, b: seq<Entry>)
    ensures SizeOf(a + b) == SizeOf(a) + SizeOf(b)
  {
    if b == [] {
      assert a + b == a;
    } else {
      assert (a + b)[..|a + b| - 1] == a + b[..|b| - 1];
      SizeAppend(a, b[..|b| - 1]);
    }
  }

  lemma {:induction false} SizeOne(e: Entry)
    ensures SizeOf([e]) == |e.payload|
  {
    assert [e][..0] == [];
  }

  lemma {:induction false} SizeDrop(q: seq<Entry>, i: nat)
    requires i <= |q|
    ensures SizeOf(q) == SizeOf(q[..i]) + SizeOf(q[i..])
  {
    SizeAppend(q[..i], q[i..]);
    assert q == q[..i] + q[i..];
  }

  /** The limits a buffer is built with. */
  datatype Limits = Limits(maxSize: nat, slots: nat)

  function LimitsFor(maxBytes: int): (limits: Limits)
    ensures limits.slots >= 1
  {
    var size := if maxBytes <= 0 then DEFAULT_BUFFER_SIZE else maxBytes;
    Limits(size, Max(256, Min(size / 1024, 0x10_0000)))
  }

  /** The eviction loop: drop from the front while a payload of n bytes does not fit. */
  function EvictForBytes(q: seq<Entry>, n: nat, maxSize: nat): seq<Entry> {
    if q != [] && SizeOf(q) + n > maxSize then EvictForBytes(q[1..], n, maxSize) else q
  }

  function EvictForSlot(q: seq<Entry>, slots: nat): seq<Entry> {
    if q != [] && |q| >= slots then q[1..] else q
  }

  function Stored(q: seq<Entry>, e: Entry, limits: Limits): seq<Entry> {
    EvictForSlot(EvictForBytes(q, |e.payload|, limits.maxSize), limits.slots) + [e]
  }

  /** Contents after a whole history of Store calls. */
  function Contents(h: seq<Entry>, limits: Limits): seq<Entry> { ContentsAfter(h, |h|, limits) }

  /** Contents after the first n of them. */
  function ContentsAfter(h: seq<Entry>, n: nat, limits: Limits): seq<Entry>
    requires n <= |h|
  {
    if n == 0 then [] else Stored(ContentsAfter(h, n - 1, limits), h[n - 1], limits)
  }

  /** In-order filter: the entries above `after`. */
  function Since(q: seq<Entry>, after: nat): seq<Entry> { SinceUpTo(q, |q|, after) }

  function SinceUpTo(q: seq<Entry>, n: nat, after: nat): seq<Entry>
    requires n <= |q|
  {
    if n == 0 then []
    else SinceUpTo(q, n - 1, after) + (if q[n - 1].seqNo > after then [q[n - 1]] else [])
  }

  function OldestOf(q: seq<Entry>): nat { if q == [] then 0 else q[0].seqNo }

  function NewestOf(q: seq<Entry>): nat { if q == [] then 0 else q[|q| - 1].seqNo }

  // ---- Greedy eviction is optimal ----------------------------------------------------------

  ghost predicate EndsWith<T>(longer: seq<T>, shorter: seq<T>) {
    |shorter| <= |longer| && shorter == longer[|longer| - |shorter|..]
  }

  /** Within both limits, or a single entry that is too large on its own. */
  predicate Fits(q: seq<Entry>, limits: Limits) {
    |q| <= limits.slots && (SizeOf(q) <= limits.maxSize || |q| == 1)
  }

  predicate SuffixFits(h: seq<Entry>, i: nat, limits: Limits)
    requires i <= |h|
  {
    Fits(h[i..], limits)
  }

  predicate SuffixOverflows(q: seq<Entry>, i: nat, n: nat, maxSize: nat)
    requires i <= |q|
  {
    SizeOf(q[i..]) + n > maxSize
  }

  /** q is the longest suffix of h that fits. */
  ghost predicate LongestFittingSuffix(q: seq<Entry>, h: seq<Entry>, limits: Limits) {
    && EndsWith(h, q)
    && Fits(q, limits)
    && forall i :: 0 <= i < |h| - |q| ==> !SuffixFits(h, i, limits)
  }

  lemma {:induction false} EvictForBytesExact(q: seq<Entry>, n: nat, maxSize: nat)
    ensures
      var r := EvictForBytes(q, n, maxSize);
      && EndsWith(q, r)
      && (r == [] || SizeOf(r) + n <= maxSize)
      && forall i :: 0 <= i < |q| - |r| ==> SuffixOverflows(q, i, n, maxSize)
  {
    if q != [] && SizeOf(q) + n > maxSize {
      EvictForBytesExact(q[1..], n, maxSize);
      forall i | 0 <= i < |q| - |EvictForBytes(q, n, maxSize)|
        ensures SuffixOverflows(q, i, n, maxSize)
      {
        if i == 0 {
          assert q[0..] == q;
        } else {
          assert q[i..] == q[1..][i - 1..];
          assert SuffixOverflows(q[1..], i - 1, n, maxSize);
        }
      }
    }
  }

  /** Every suffix of the extended history that is longer than what Store keeps breaks a limit. */
  lemma {:induction false} LongerSuffixUnfit(q: seq<Entry>, h: seq<Entry>, e: Entry, limits: Limits, i: nat)
    requires LongestFittingSuffix(q, h, limits)
    requires i <= |h| - |Stored(q, e, limits)|
    ensures !SuffixFits(h + [e], i, limits)
  {
    var t := h[i..];
    assert (h + [e])[i..] == t + [e];
    SizeAppend(t, [e]);
    SizeOne(e);
    if i < |h| - |q| {
      assert !SuffixFits(h, i, limits);
    } else {
      EvictForBytesExact(q, |e.payload|, limits.maxSize);
      var j := i - (|h| - |q|);
      assert t == q[j..];
      if j < |q| - |EvictForBytes(q, |e.payload|, limits.maxSize)| {
        assert SuffixOverflows(q, j, |e.payload|, limits.maxSize);
      }
    }
  }

  lemma {:induction false} StoredFits(q: seq<Entry>, e: Entry, limits: Limits)
    requires limits.slots >= 1 && |q| <= limits.slots
    ensures EndsWith(q + [e], Stored(q, e, limits))
    ensures Fits(Stored(q, e, limits), limits)
  {
    EvictForBytesExact(q, |e.payload|, limits.maxSize);
    var r := EvictForBytes(q, |e.payload|, limits.maxSize);
    var s := EvictForSlot(r, limits.slots);
    SizeAppend(s, [e]);
    SizeOne(e);
    if r != [] { SizeDrop(r, 1); }
  }

  /** One Store keeps "longest fitting suffix". */
  lemma {:induction false} StoredIsLongest(q: seq<Entry>, h: seq<Entry>, e: Entry, limits: Limits)
    requires limits.slots >= 1
    requires LongestFittingSuffix(q, h, limits)
    ensures LongestFittingSuffix(Stored(q, e, limits), h + [e], limits)
  {
    StoredFits(q, e, limits);
    forall i | 0 <= i < |h + [e]| - |Stored(q, e, limits)|
      ensures !SuffixFits(h + [e], i, limits)
    {
      LongerSuffixUnfit(q, h, e, limits, i);
    }
  }

  /** After any history the buffer holds exactly the longest suffix of everything ever stored that fits
      both limits (or the newest entry alone when nothing else can). */
  lemma {:induction false} ContentsIsLongestSuffix(h: seq<Entry>, limits: Limits)
    requires limits.slots >= 1
    ensures LongestFittingSuffix(Contents(h, limits), h, limits)
  {
    ContentsAfterIsLongest(h, |h|, limits);
    assert h[..|h|] == h;
  }

  lemma {:induction false} ContentsAfterIsLongest(h: seq<Entry>, n: nat, limits: Limits)
    requires limits.slots >= 1 && n <= |h|
    ensures LongestFittingSuffix(ContentsAfter(h, n, limits), h[..n], limits)
  {
    if n > 0 {
      ContentsAfterIsLongest(h, n - 1, limits);
      StoredIsLongest(ContentsAfter(h, n - 1, limits), h[..n - 1], h[n - 1], limits);
      SliceSnoc(h, 0, n);
    }
  }

  lemma {:induction false} FitsMonotone(q: seq<Entry>, a: Limits, b: Limits)
    requires a.maxSize <= b.maxSize && a.slots <= b.slots
    requires Fits(q, a)
    ensures Fits(q, b)
  {
  }

  /** Exactly the entries above the given number, and in their order. */
  lemma {:induction false} SinceExact(q: seq<Entry>, after: nat)
    ensures forall e :: e in Since(q, after) <==> e in q && e.seqNo > after
  {
    SinceUpToExact(q, |q|, after);
    assert q[..|q|] == q;
  }

  lemma {:induction false} SinceUpToExact(q: seq<Entry>, n: nat, after: nat)
    requires n <= |q|
    ensures forall e :: e in SinceUpTo(q, n, after) <==> e in q[..n] && e.seqNo > after
  {
    if n > 0 {
      SinceUpToExact(q, n - 1, after);
      SliceSnoc(q, 0, n);
    }
  }

  lemma {:induction false} SinceAppend(a: seq<Entry>, b: seq<Entry>, n: nat, after: nat)
    requires n <= |a| + |b|
    ensures n <= |a| ==> SinceUpTo(a + b, n, after) == SinceUpTo(a, n, after)
    ensures n >= |a| ==> SinceUpTo(a + b, n, after) == Since(a, after) + SinceUpTo(b, n - |a|, after)
  {
    if n > 0 {
      SinceAppend(a, b, n - 1, after);
    }
  }

  // ---- What the configured size guarantees -------------------------------------------------

  /** The configured size in bytes, 4 KB if none was given. */
  function ConfiguredSize(bytes: int): nat { if bytes <= 0 then 4096 else bytes }

  /** One entry for each KB, but at least 256 and at most 2^20. */
  function ConfiguredSlots(bytes: int): nat {
    if bytes < 0x4_0000 then 256 else if bytes >= 0x4000_0000 then 0x10_0000 else bytes / 1024
  }

  lemma {:induction false} LimitsExact(bytes: int)
    ensures LimitsFor(bytes) == Limits(ConfiguredSize(bytes), ConfiguredSlots(bytes))
  {
  }

  /** Whether a list fits a buffer of the configured size; one entry alone always does. */
  predicate FitsConfigured(q: seq<Entry>, bytes: int) {
    |q| <= ConfiguredSlots(bytes) && (SizeOf(q) <= ConfiguredSize(bytes) || |q| == 1)
  }

  lemma {:induction false} SuffixKept(q: seq<Entry>, h: seq<Entry>, limits: Limits, i: nat)
    requires LongestFittingSuffix(q, h, limits) && i <= |h|
    ensures |h| - |q| <= i <==> Fits(h[i..], limits) || i == |h|
  {
    if |h| - |q| <= i {
      var j := i - (|h| - |q|);
      SizeDrop(q, j);
      assert q[j..] == h[i..];
    } else {
      assert !SuffixFits(h, i, limits);
    }
  }

  /** The buffer still holds the last entries of a history, from any position on, exactly when these fit the configured
      size by themselves. */
  lemma {:induction false} KeepsWhatFits(bytes: int, h: seq<Entry>, i: nat)
    requires i < |h|
    ensures EndsWith(Contents(h, LimitsFor(bytes)), h[i..]) <==> FitsConfigured(h[i..], bytes)
  {
    var limits := LimitsFor(bytes);
    var q := Contents(h, limits);
    LimitsExact(bytes);
    ContentsIsLongestSuffix(h, limits);
    SuffixKept(q, h, limits, i);
    if |h| - |q| <= i { assert q[|q| - (|h| - i)..] == h[i..]; }
  }

  lemma {:induction false} SinceOfSuffix(longer: seq<Entry>, shorter: seq<Entry>, after: nat)
    requires EndsWith(longer, shorter)
    ensures EndsWith(Since(longer, after), Since(shorter, after))
  {
    var cut := |longer| - |shorter|;
    assert longer == longer[..cut] + shorter;
    SinceAppend(longer[..cut], shorter, |longer|, after);
  }

  /** A larger buffer fed the same history retains at least as much, and every replay it gives ends with
      the smaller buffer's replay. */
  lemma {:induction false} LargerBufferReplaysMore(small: int, large: int, h: seq<Entry>, after: nat)
    requires 0 < small <= large
    ensures EndsWith(Contents(h, LimitsFor(large)), Contents(h, LimitsFor(small)))
    ensures EndsWith(Since(Contents(h, LimitsFor(large)), after), Since(Contents(h, LimitsFor(small)), after))
  {
    var a, b := LimitsFor(small), LimitsFor(large);
    var qa, qb := Contents(h, a), Contents(h, b);
    ContentsIsLongestSuffix(h, a);
    ContentsIsLongestSuffix(h, b);
    FitsMonotone(qa, a, b);
    assert SuffixFits(h, |h| - |qa|, b);
    assert EndsWith(qb, qa);
    SinceOfSuffix(qb, qa, after);
  }
}

/** The circular array of internal/catchup, refining the queue of ReplayLog. */
module Catchup {
  import opened Bytes
  import opened ReplayLog

  const CLEARED := Entry(0, [])

  lemma {:induction false} ModWrap(x: int, n: int)
    requires 0 <= x < 2 * n
    ensures x % n == if x < n then x else x - n
  {
    if x >= n {
      assert x % n == (x - n) % n;
    }
  }

  /** The ring as a value: cells, the next write position and the number of live cells. */
  datatype Ring = Ring(cells: seq<Entry>, head: int, count: int) {
    ghost predicate Shape() { |cells| >= 1 && 0 <= head < |cells| && 0 <= count <= |cells| }

    /** Cell of the i-th oldest entry. */
    ghost function Slot(i: int): int {
      if head - count + i < 0 then head - count + i + |cells| else head - count + i
    }

    ghost function Queue(): (q: seq<Entry>)
      requires Shape()
      ensures |q| == count
    {
      seq(count, i requires 0 <= i < count => cells[Slot(i)])
    }

    /** The live cells are the `count` positions ending just before head, modulo the capacity. */
    ghost predicate Live(j: int) { head - count <= j < head || head - count + |cells| <= j }

    ghost predicate OthersCleared()
      requires Shape()
    {
      forall j :: 0 <= j < |cells| && !Live(j) ==> cells[j] == CLEARED
    }
  }

  lemma {:induction false} RingEvict(r: Ring, r': Ring)
    requires r.Shape() && r.count > 0 && r.OthersCleared()
    requires r' == Ring(r.cells[r.Slot(0) := CLEARED], r.head, r.count - 1)
    ensures r'.OthersCleared()
    ensures r'.Queue() == r.Queue()[1..]
    ensures SizeOf(r'.Queue()) == SizeOf(r.Queue()) - |r.Queue()[0].payload|
  {
    var q := r.Queue();
    assert r'.Queue() == q[1..];
    SizeDrop(q, 1);
    SizeOne(q[0]);
    assert q[..1] == [q[0]];
  }

  lemma {:induction false} RingAppend(r: Ring, e: Entry, r': Ring)
    requires r.Shape() && r.count < |r.cells| && r.OthersCleared()
    requires r' == Ring(r.cells[r.head := e], if r.head + 1 < |r.cells| then r.head + 1 else 0, r.count + 1)
    ensures r'.OthersCleared()
    ensures r'.Queue() == r.Queue() + [e]
    ensures SizeOf(r'.Queue()) == SizeOf(r.Queue()) + |e.payload|
  {
    assert r'.Queue() == r.Queue() + [e];
    SizeAppend(r.Queue(), [e]);
    SizeOne(e);
  }

  class Buffer {
    const entries: array<Entry>
    const maxSize: nat
    const capacity: nat
    var size: int
    var head: int
    var count: int

    ghost function AsRing(): Ring
      reads this, entries
    {
      Ring(entries[..], head, count)
    }

    /** size is the sum of the live payloads and every other slot is cleared. */
    ghost predicate Valid()
      reads this, entries
    {
      && capacity == entries.Length
      && AsRing().Shape()
      && AsRing().OthersCleared()
      && size == SizeOf(AsRing().Queue())
    }

    ghost function Queue(): seq<Entry>
      requires Valid()
      reads this, entries
    {
      AsRing().Queue()
    }

    ghost function Bounds(): Limits
      reads this
    {
      Limits(maxSize, capacity)
    }

    constructor (maxBytes: int)
      ensures Valid() && fresh(entries)
      ensures Queue() == []
      ensures Bounds() == LimitsFor(maxBytes)
      ensures maxSize == ConfiguredSize(maxBytes) && capacity == ConfiguredSlots(maxBytes)
    {
      var max := if maxBytes <= 0 then DEFAULT_BUFFER_SIZE else maxBytes;
      var slots := Max(256, Min(max / 1024, 0x10_0000));
      entries := new Entry[slots](_ => CLEARED);
      maxSize := max;
      capacity := slots;
      size, head, count := 0, 0, 0;
    }

    method Tail() returns (t: int)
      requires Valid() && count > 0
      ensures 0 <= t < capacity
      ensures t == AsRing().Slot(0)
    {
      ModWrap(head - count + capacity, capacity);
      t := (head - count + capacity) % capacity;
    }

    method Newest() returns (t: int)
      requires Valid() && count > 0
      ensures 0 <= t < capacity
      ensures t == AsRing().Slot(count - 1)
    {
      ModWrap(head - 1 + capacity, capacity);
      t := (head - 1 + capacity) % capacity;
    }

    method EvictOldest()
      requires Valid() && count > 0
      modifies this, entries
      ensures Valid()
      ensures Queue() == old(Queue())[1..]
    {
      ghost var r := AsRing();
      var t := Tail();
      size := size - |entries[t].payload|;
      entries[t] := CLEARED;
      count := count - 1;
      RingEvict(r, AsRing());
    }

    method Store(seqNo: nat, payload: seq<byte>)
      requires Valid()
      modifies this, entries
      ensures Valid()
      ensures Queue() == Stored(old(Queue()), Entry(seqNo, payload), Bounds())
    {
      while count > 0 && size + |payload| > maxSize
        invariant Valid()
        invariant EvictForBytes(Queue(), |payload|, maxSize) == EvictForBytes(old(Queue()), |payload|, maxSize)
        decreases count
      {
        EvictOldest();
      }
      if count >= capacity {
        EvictOldest();
      }
      Append(Entry(seqNo, payload));
    }

    /** The write at head that ends Store. */
    method Append(e: Entry)
      requires Valid() && count < capacity
      modifies this, entries
      ensures Valid()
      ensures Queue() == old(Queue()) + [e]
    {
      ghost var r := AsRing();
      ModWrap(head + 1, capacity);
      entries[head] := e;
      head := (head + 1) % capacity;
      count := count + 1;
      size := size + |e.payload|;
      RingAppend(r, e, AsRing());
    }

    /** All retained entries above afterSeq, oldest first. */
    method ReplaySince(afterSeq: nat) returns (result: seq<Entry>)
      requires Valid()
      ensures result == Since(Queue(), afterSeq)
    {
      result := [];
      if count == 0 {
        return;
      }
      var t := Tail();
      var i := 0;
      ghost var q := Queue();
      while i < count
        invariant 0 <= i <= count
        invariant result == SinceUpTo(q, i, afterSeq)
      {
        ModWrap(t + i, capacity);
        var idx := (t + i) % capacity;
        assert idx == AsRing().Slot(i);
        var e := entries[idx];
        assert e == q[i];
        if e.seqNo > afterSeq {
          result := result + [e];
        }
        i := i + 1;
      }
    }

    method OldestSeq() returns (s: nat)
      requires Valid()
      ensures s == OldestOf(Queue())
      ensures s == if Queue() == [] then 0 else Queue()[0].seqNo
    {
      if count == 0 {
        return 0;
      }
      var t := Tail();
      s := entries[t].seqNo;
    }

    method NewestSeq() returns (s: nat)
      requires Valid()
      ensures s == NewestOf(Queue())
      ensures s == if Queue() == [] then 0 else Queue()[|Queue()| - 1].seqNo
    {
      if count == 0 {
        return 0;
      }
      var t := Newest();
      s := entries[t].seqNo;
    }
  }
}
