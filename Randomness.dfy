/**
 * The games draw their randomness from `Math.random()`. The model never
 * produces randomness: every draw is a real in [0, 1) supplied by the caller,
 * and every shuffle is an index permutation supplied by the caller. Nothing is
 * claimed about distributions.
 */
module Randomness {
  import opened Common

  /** A value `Math.random()` can return. */
  predicate IsDraw(r: real) {
    0.0 <= r < 1.0
  }

  /** Every value in `rs` is a value `Math.random()` can return. */
  predicate AllDraws(rs: seq<real>) {
    forall i :: 0 <= i < |rs| ==> IsDraw(rs[i])
  }

  /** Multiplying by a positive factor keeps a strict order. */
  lemma MulStrictlyMonotonic(a: real, b: real, c: real)
    requires a < b && c > 0.0
    ensures a * c < b * c
  {
  }

  /** `Math.floor(r * n)`: the index that a draw `r` picks out of `n` slots. */
  function RandomIndex(r: real, n: nat): (k: nat)
    requires IsDraw(r) && n > 0
    ensures k < n
    ensures k as real <= r * n as real < k as real + 1.0
  {
    var x := r * n as real;
    MulStrictlyMonotonic(r, 1.0, n as real);
    x.Floor
  }

  /**
   * `p` lists every index of a sequence of length `n` exactly once: the
   * order in which a shuffle places the original elements.
   */
  ghost predicate IsPermutation(p: seq<nat>, n: nat) {
    && |p| == n
    && (forall i :: 0 <= i < n ==> p[i] < n)
    && (forall i, j :: 0 <= i < j < n ==> p[i] != p[j])
  }

  /** The rearrangement of `s` whose position `i` holds `s[p[i]]`. */
  function Permute<T>(s: seq<T>, p: seq<nat>): (r: seq<T>)
    requires IsPermutation(p, |s|)
    ensures |r| == |s|
    ensures Distinct(s) ==> Distinct(r)
  {
    seq(|s|, i requires 0 <= i < |s| => s[p[i]])
  }

  /**
   * The shuffle of `s` minus its last position: the element it placed last
   * is removed from `s`, and the indices above it are renumbered.
   */
  function DropLast(p: seq<nat>, k: nat): (p': seq<nat>)
    requires |p| > 0
    requires forall i :: 0 <= i < |p| - 1 ==> p[i] != k
    ensures |p'| == |p| - 1
  {
    seq(|p| - 1, i requires 0 <= i < |p| - 1 => if p[i] > k then p[i] - 1 else p[i])
  }

  lemma DropLastIsPermutation(p: seq<nat>, n: nat)
    requires IsPermutation(p, n) && n > 0
    ensures forall i :: 0 <= i < n - 1 ==> p[i] != p[n - 1]
    ensures IsPermutation(DropLast(p, p[n - 1]), n - 1)
  {
    var k := p[n - 1];
    var p' := DropLast(p, k);
    forall i, j | 0 <= i < j < n - 1 ensures p'[i] != p'[j] {
      assert p[i] != p[j];
    }
  }

  lemma PermuteDropLast<T>(s: seq<T>, p: seq<nat>)
    requires IsPermutation(p, |s|) && |s| > 0
    ensures forall i :: 0 <= i < |s| - 1 ==> p[i] != p[|s| - 1]
    ensures IsPermutation(DropLast(p, p[|s| - 1]), |s| - 1)
    ensures var k := p[|s| - 1];
      Permute(s, p) == Permute(s[..k] + s[k + 1..], DropLast(p, k)) + [s[k]]
  {
    var n := |s|;
    var k := p[n - 1];
    DropLastIsPermutation(p, n);
    var s' := s[..k] + s[k + 1..];
    var p' := DropLast(p, k);
    var r := Permute(s, p);
    var r' := Permute(s', p');
    forall i | 0 <= i < n - 1 ensures r[i] == r'[i] {
      assert r'[i] == s'[p'[i]];
    }
    assert r == r' + [s[k]];
  }

  /** A shuffle neither loses nor duplicates an element. */
  lemma {:induction false} PermuteKeepsMultiset<T>(s: seq<T>, p: seq<nat>)
    requires IsPermutation(p, |s|)
    ensures multiset(Permute(s, p)) == multiset(s)
  {
    if |s| > 0 {
      var k := p[|s| - 1];
      var s' := s[..k] + s[k + 1..];
      PermuteDropLast(s, p);
      PermuteKeepsMultiset(s', DropLast(p, k));
      assert s == s[..k] + [s[k]] + s[k + 1..];
    }
  }
}
