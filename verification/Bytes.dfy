/** Bytes, optional values and the big-endian integers of Go's encoding/binary package. */
module Bytes {
  type byte = n: int | 0 <= n < 256

  datatype Option<+T> = None | Some(value: T)

  function Min(a: int, b: int): int { if a <= b then a else b }

  function Max(a: int, b: int): int { if a >= b then a else b }

  /** All payloads of a list, glued together. */
  function Concat(chunks: seq<seq<byte>>): seq<byte> {
    if chunks == [] then [] else Concat(chunks[..|chunks| - 1]) + chunks[|chunks| - 1]
  }

  lemma {:induction false} ConcatSnoc(chunks: seq<seq<byte>>, last: seq<byte>)
    ensures Concat(chunks + [last]) == Concat(chunks) + last
  {
    assert (chunks + [last])[..|chunks|] == chunks;
  }

  lemma {:induction false} Assoc<T>(a: seq<T>, b: seq<T>, c: seq<T>)
    ensures a + (b + c) == a + b + c
  {
  }

  /** Where a prefix of a concatenation falls. */
  lemma {:induction false} PrefixOfConcat<T>(a: seq<T>, b: seq<T>, k: nat)
    requires k <= |a| + |b|
    ensures k <= |a| ==> (a + b)[..k] == a[..k]
    ensures k >= |a| ==> (a + b)[..k] == a + b[..k - |a|]
  {
  }

  lemma {:induction false} SliceSnoc<T>(s: seq<T>, m: nat, n: nat)
    requires m < n <= |s|
    ensures s[m..n] == s[m..n - 1] + [s[n - 1]]
  {
  }

  /** Moving one element from the rest to the part done. */
  lemma {:induction false} MoveOne<T>(s: seq<T>, n: nat)
    requires n < |s|
    ensures s[n..][0] == s[n] && s[n..][1..] == s[n + 1..]
    ensures s[..n] + [s[n]] == s[..n + 1]
  {
  }

  lemma {:induction false} TakeCons<T>(s: seq<T>, j: nat)
    requires j < |s|
    ensures s[..j + 1] == [s[0]] + s[1..][..j]
    ensures s == [s[0]] + s[1..]
  {
  }

  function Pow256(width: nat): (p: nat)
    ensures p > 0
  {
    if width == 0 then 1 else 256 * Pow256(width - 1)
  }

  /** Widths of the fixed-size integers, in bytes. */
  const W16: nat := 2
  const W32: nat := 4
  const W64: nat := 8

  lemma {:induction false} Pow256Values()
    ensures Pow256(W16) == 0x1_0000
    ensures Pow256(W32) == 0x1_0000_0000
    ensures Pow256(W64) == 0x1_0000_0000_0000_0000
  {
    assert Pow256(3) == 256 * Pow256(2);
    assert Pow256(5) == 256 * Pow256(4);
    assert Pow256(6) == 256 * Pow256(5);
    assert Pow256(7) == 256 * Pow256(6);
  }

  /** The low `width` bytes of n, most significant first. */
  function PutUint(n: nat, width: nat): (s: seq<byte>)
    ensures |s| == width
    decreases width
  {
    if width == 0 then [] else PutUint(n / 256, width - 1) + [n % 256]
  }

  function GetUint(s: seq<byte>): nat {
    if s == [] then 0 else 256 * GetUint(s[..|s| - 1]) + s[|s| - 1]
  }

  lemma {:induction false} GetPut(n: nat, width: nat)
    requires n < Pow256(width)
    ensures GetUint(PutUint(n, width)) == n
    decreases width
  {
    if width > 0 {
      GetPut(n / 256, width - 1);
      assert PutUint(n, width)[..width - 1] == PutUint(n / 256, width - 1);
    }
  }

  lemma {:induction false} PutGet(s: seq<byte>)
    ensures GetUint(s) < Pow256(|s|)
    ensures PutUint(GetUint(s), |s|) == s
  {
    if s != [] {
      PutGet(s[..|s| - 1]);
    }
  }
}
