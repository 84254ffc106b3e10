/**
 * The state discretizer: each state component is mapped to the index of its
 * right-open bin among a strictly increasing sequence of boundaries, and the
 * index is clamped into `[0, |boundaries| - 1]`.
 */
module Discretizer {
  import opened CartPole

  /** One boundary sequence per state component. */
  datatype Bins = Bins(x: seq<real>, xDot: seq<real>, theta: seq<real>, thetaDot: seq<real>)

  /** A discretized state: one bin index per state component. */
  datatype Key = Key(x: nat, xDot: nat, theta: nat, thetaDot: nat)

  predicate StrictlyIncreasing(b: seq<real>)
  {
    forall i, j :: 0 <= i < j < |b| ==> b[i] < b[j]
  }

  predicate NonEmpty(bins: Bins)
  {
    |bins.x| > 0 && |bins.xDot| > 0 && |bins.theta| > 0 && |bins.thetaDot| > 0
  }

  /** `np.digitize(v, b)` for increasing `b` (right-open bins): the number of
      boundaries at or below `v`. */
  function Digitize(v: real, b: seq<real>): (n: nat)
    ensures n <= |b|
  {
    if b == [] then 0 else (if b[0] <= v then 1 else 0) + Digitize(v, b[1..])
  }

  /** `np.clip(i, lo, hi)`: the larger of `i` and `lo`, then the smaller of
      that and `hi`. */
  function Clip(i: int, lo: int, hi: int): int
  {
    var up := if i < lo then lo else i;
    if hi < up then hi else up
  }

  /** The bin index of one component: `Digitize - 1`, clamped. The bound is the
      number of boundaries, not the number of intervals between them. */
  function BinIndex(v: real, b: seq<real>): (i: nat)
    requires |b| > 0
    ensures i < |b|
  {
    Clip(Digitize(v, b) - 1, 0, |b| - 1)
  }

  /** The discretized state, used as the lookup key into the value table. */
  function Discretize(s: State, bins: Bins): (k: Key)
    requires NonEmpty(bins)
    ensures k.x < |bins.x| && k.xDot < |bins.xDot|
    ensures k.theta < |bins.theta| && k.thetaDot < |bins.thetaDot|
  {
    Key(BinIndex(s.x, bins.x), BinIndex(s.xDot, bins.xDot), BinIndex(s.theta, bins.theta), BinIndex(s.thetaDot, bins.thetaDot))
  }

  /** Reference definition of bin `k`: the two end bins are open-ended, every
      other bin is `[b[k], b[k+1])`. */
  predicate InBin(v: real, b: seq<real>, k: nat)
    requires k < |b|
  {
    (k == 0 || b[k] <= v) && (k == |b| - 1 || v < b[k + 1])
  }

  /** For increasing boundaries, `Digitize` splits them into those at or below
      `v` (a prefix) and those above it (the rest). */
  lemma {:induction false} DigitizeSplits(v: real, b: seq<real>)
    requires StrictlyIncreasing(b)
    ensures forall i :: 0 <= i < Digitize(v, b) ==> b[i] <= v
    ensures forall i :: Digitize(v, b) <= i < |b| ==> v < b[i]
  {
    if b != [] {
      var rest := b[1..];
      assert forall i :: 0 < i < |b| ==> b[i] == rest[i - 1];
      DigitizeSplits(v, rest);
      assert v < b[0] ==> rest == [] || v < rest[0];
    }
  }

  /** Bins do not overlap: `v` is in at most one bin. */
  lemma InBinUnique(v: real, b: seq<real>, j: nat, k: nat)
    requires StrictlyIncreasing(b) && j < |b| && k < |b|
    requires InBin(v, b, j) && InBin(v, b, k)
    ensures j == k
  {
  }

  /** The index `BinIndex` returns is exactly the bin that holds `v`. */
  lemma BinIndexIsBin(v: real, b: seq<real>, k: nat)
    requires StrictlyIncreasing(b) && k < |b|
    ensures BinIndex(v, b) == k <==> InBin(v, b, k)
  {
    var n := Digitize(v, b);
    DigitizeSplits(v, b);
    var i := BinIndex(v, b);
    if n == 0 {
      assert i == 0;
      assert v < b[0];
      assert |b| > 1 ==> b[0] < b[1];
    } else {
      assert i == n - 1;
      assert b[n - 1] <= v;
      assert n < |b| ==> v < b[n];
    }
    assert InBin(v, b, i);
    if InBin(v, b, k) {
      InBinUnique(v, b, i, k);
    }
  }

  /** A value equal to boundary `b[k]` lands in bin `k` (right-open bins). */
  lemma BinIndexAtBoundary(b: seq<real>, k: nat)
    requires StrictlyIncreasing(b) && k < |b|
    ensures BinIndex(b[k], b) == k
  {
    BinIndexIsBin(b[k], b, k);
  }

  /** A value below the first boundary lands in bin 0. */
  lemma BinIndexBelowFirst(v: real, b: seq<real>)
    requires StrictlyIncreasing(b) && |b| > 0 && v < b[0]
    ensures BinIndex(v, b) == 0
  {
    BinIndexIsBin(v, b, 0);
  }

  /** A value at or above the last boundary lands in the last bin, `|b| - 1`. */
  lemma BinIndexFromLast(v: real, b: seq<real>)
    requires StrictlyIncreasing(b) && |b| > 0 && b[|b| - 1] <= v
    ensures BinIndex(v, b) == |b| - 1
  {
    BinIndexIsBin(v, b, |b| - 1);
  }

  lemma {:induction false} DigitizeMonotone(v: real, w: real, b: seq<real>)
    requires v <= w
    ensures Digitize(v, b) <= Digitize(w, b)
  {
    if b != [] {
      DigitizeMonotone(v, w, b[1..]);
    }
  }

  /** A larger value never yields a smaller bin index. */
  lemma BinIndexMonotone(v: real, w: real, b: seq<real>)
    requires |b| > 0 && v <= w
    ensures BinIndex(v, b) <= BinIndex(w, b)
  {
    DigitizeMonotone(v, w, b);
  }

  /** Discretization is monotone in every component. */
  lemma DiscretizeMonotone(s: State, t: State, bins: Bins)
    requires NonEmpty(bins)
    requires s.x <= t.x && s.xDot <= t.xDot && s.theta <= t.theta && s.thetaDot <= t.thetaDot
    ensures Discretize(s, bins).x <= Discretize(t, bins).x
    ensures Discretize(s, bins).xDot <= Discretize(t, bins).xDot
    ensures Discretize(s, bins).theta <= Discretize(t, bins).theta
    ensures Discretize(s, bins).thetaDot <= Discretize(t, bins).thetaDot
  {
    BinIndexMonotone(s.x, t.x, bins.x);
    BinIndexMonotone(s.xDot, t.xDot, bins.xDot);
    BinIndexMonotone(s.theta, t.theta, bins.theta);
    BinIndexMonotone(s.thetaDot, t.thetaDot, bins.thetaDot);
  }
}
