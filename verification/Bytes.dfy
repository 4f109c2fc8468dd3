/** Byte strings, big-endian integers and the SHA-256 digest as the repository uses them. */
module Bytes {

  type Byte = x: int | 0 <= x < 256
  type Bytes = seq<Byte>

  type Digest = d: Bytes | |d| == 32 witness seq(32, _ => 0)

  /** SHA-256 is left uninterpreted: every result holds for any function of this type. */
  const Sha256: Bytes -> Digest

  /** The block payloads that occur in one repository over its lifetime. */
  ghost const InPlay: iset<Bytes>

  /** The only cryptographic assumption: no two payloads in play share a digest. */
  ghost predicate CollisionFree() {
    forall x, y :: x in InPlay && y in InPlay && Sha256(x) == Sha256(y) ==> x == y
  }

  /** The concatenation of a list of byte strings. */
  function Concat(parts: seq<Bytes>): Bytes {
    if parts == [] then [] else Concat(parts[..|parts| - 1]) + parts[|parts| - 1]
  }

  lemma ConcatAssociative<T>(a: seq<T>, b: seq<T>, c: seq<T>)
    ensures (a + b) + c == a + (b + c)
  {
  }

  lemma SuffixOf<T>(a: seq<T>, b: seq<T>)
    ensures (a + b)[|a|..] == b && (a + b)[..|a|] == a
  {
  }

  lemma MiddleOf<T>(a: seq<T>, b: seq<T>, c: seq<T>)
    ensures (a + b + c)[|a|..|a| + |b|] == b
  {
  }

  lemma SplitAt<T>(s: seq<T>, i: nat)
    requires i < |s|
    ensures s == s[..i] + [s[i]] + s[i + 1..]
  {
  }

  lemma SameSnoc<T>(a: seq<T>, b: seq<T>, k: nat)
    requires k < |a| && k < |b| && a[..k] == b[..k] && a[k] == b[k]
    ensures a[..k + 1] == b[..k + 1]
  {
    assert a[..k + 1] == a[..k] + [a[k]] && b[..k + 1] == b[..k] + [b[k]];
  }

  lemma SplitSlice<T>(s: seq<T>, i: nat, j: nat)
    requires i <= j <= |s|
    ensures s[..j] == s[..i] + s[i..j]
  {
  }

  lemma SubSlice<T>(s: seq<T>, lo: nat, hi: nat, i: nat, j: nat)
    requires lo <= hi <= |s| && i <= j <= hi - lo
    ensures s[lo..hi][i..j] == s[lo + i..lo + j]
  {
    forall k | 0 <= k < j - i
      ensures s[lo..hi][i..j][k] == s[lo + i..lo + j][k]
    {
    }
  }

  lemma TailSlice<T>(s: seq<T>, lo: nat, i: nat, j: nat)
    requires lo + j <= |s| && i <= j
    ensures s[lo..][i..j] == s[lo + i..lo + j]
  {
  }

  lemma Regroup<T>(a: seq<T>, b: seq<T>, c: seq<T>, d: seq<T>, e: seq<T>)
    ensures a + (b + c + d) + e == (a + b) + c + (d + e)
  {
  }

  lemma SubsetSize<T>(a: set<T>, b: set<T>)
    requires a <= b
    ensures |a| <= |b|
  {
    assert b == a + (b - a);
  }

  lemma {:induction false} Above(ids: set<nat>) returns (bound: nat)
    ensures forall x :: x in ids ==> x < bound
    decreases |ids|
  {
    bound := 0;
    if ids != {} {
      var y :| y in ids;
      var m := Above(ids - {y});
      bound := if m <= y then y + 1 else m;
      forall x | x in ids
        ensures x < bound
      {
        assert x == y || x in ids - {y};
      }
    }
  }

  ghost predicate Ascends(xs: seq<int>) {
    forall i, j :: 0 <= i < j < |xs| ==> xs[i] < xs[j]
  }

  lemma {:induction false} AscendsAtLeast(xs: seq<int>, k: nat)
    requires Ascends(xs) && k < |xs| && xs[0] >= 0
    ensures xs[k] >= k
  {
    if k > 0 {
      AscendsAtLeast(xs, k - 1);
    }
  }

  /** As many ascending positions as there are positions: all of them. */
  lemma {:induction false} AscendsExactly(xs: seq<int>, k: nat)
    requires Ascends(xs) && k < |xs| && xs[0] >= 0 && xs[|xs| - 1] < |xs|
    ensures xs[k] == k
    decreases |xs| - k
  {
    AscendsAtLeast(xs, k);
    if k + 1 < |xs| {
      AscendsExactly(xs, k + 1);
    }
  }

  /** Fewer ascending positions than there are positions: one is skipped. */
  lemma {:induction false} AscendsSkips(xs: seq<nat>, n: nat) returns (j: nat)
    requires Ascends(xs) && |xs| < n && forall i :: 0 <= i < |xs| ==> xs[i] < n
    ensures j < n && j !in xs
  {
    if n - 1 !in xs {
      j := n - 1;
    } else {
      var last := |xs| - 1;
      assert xs[last] == n - 1;
      j := AscendsSkips(xs[..last], n - 1);
      assert xs == xs[..last] + [n - 1];
    }
  }

  /** The big-endian representation of `value` modulo 256^width, as binary.BigEndian.PutUint writes it. */
  function BigEndian(value: nat, width: nat): (r: Bytes)
    ensures |r| == width
  {
    if width == 0 then [] else BigEndian(value / 256, width - 1) + [value % 256]
  }

  function FromBigEndian(b: Bytes): nat {
    if b == [] then 0 else 256 * FromBigEndian(b[..|b| - 1]) + b[|b| - 1]
  }

  function Pow256(width: nat): nat {
    if width == 0 then 1 else 256 * Pow256(width - 1)
  }

  lemma {:induction false} BigEndianRoundTrip(value: nat, width: nat)
    requires value < Pow256(width)
    ensures FromBigEndian(BigEndian(value, width)) == value
  {
    if width > 0 {
      BigEndianRoundTrip(value / 256, width - 1);
      var b := BigEndian(value, width);
      assert b[..|b| - 1] == BigEndian(value / 256, width - 1);
    }
  }

  lemma {:induction false} FromBigEndianInverse(b: Bytes)
    ensures BigEndian(FromBigEndian(b), |b|) == b
  {
    if b != [] {
      FromBigEndianInverse(b[..|b| - 1]);
      assert FromBigEndian(b) / 256 == FromBigEndian(b[..|b| - 1]);
      assert b == b[..|b| - 1] + [b[|b| - 1]];
    }
  }
}
