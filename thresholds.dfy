/** The threshold if-chains used by every classifier of the dashboard
    (`if (v >= t0) return …; if (v >= t1) return …; … return …`), as one search
    over the thresholds listed from highest to lowest. */
module Thresholds {

  /** Index of the first threshold that `v` reaches, which is the branch an
      if-chain of `v >= t` tests returns from; `|ts|` (the final fallback
      branch) when none is reached. */
  function FirstMet(ts: seq<real>, v: real): (k: nat)
    ensures k <= |ts|
    ensures forall j :: 0 <= j < k ==> v < ts[j]
    ensures k < |ts| ==> ts[k] <= v
  {
    if ts == [] then 0
    else if v >= ts[0] then 0
    else 1 + FirstMet(ts[1..], v)
  }

  predicate Descending(ts: seq<real>) {
    forall i, j :: 0 <= i < j < |ts| ==> ts[j] < ts[i]
  }

  /** A larger value never lands in a later (lower) branch. */
  lemma FirstMetMonotone(ts: seq<real>, v: real, w: real)
    requires v <= w
    ensures FirstMet(ts, w) <= FirstMet(ts, v)
  {
  }

  /** With descending thresholds, branch `k` is taken exactly on the
      half-open interval [ts[k], ts[k-1]), the top branch on [ts[0], ∞) and
      the fallback on (-∞, ts[|ts|-1]). */
  lemma FirstMetInterval(ts: seq<real>, v: real, k: nat)
    requires Descending(ts) && k <= |ts|
    ensures FirstMet(ts, v) == k <==>
              (k == |ts| || ts[k] <= v) && (k == 0 || v < ts[k - 1])
  {
  }

  /** A chain of three tests is the search over its three thresholds. */
  lemma FirstMetThree(t0: real, t1: real, t2: real, v: real)
    ensures FirstMet([t0, t1, t2], v) ==
              if v >= t0 then 0 else if v >= t1 then 1 else if v >= t2 then 2 else 3
  {
    assert [t2][1..] == [];
    assert FirstMet([t2], v) == if v >= t2 then 0 else 1;
    assert [t1, t2][1..] == [t2];
    assert FirstMet([t1, t2], v) == if v >= t1 then 0 else 1 + FirstMet([t2], v);
    assert [t0, t1, t2][1..] == [t1, t2];
  }

  /** A chain of four tests, the shape of every zone classifier, is the
      search over its four thresholds. */
  lemma FirstMetFour(t0: real, t1: real, t2: real, t3: real, v: real)
    ensures FirstMet([t0, t1, t2, t3], v) ==
              if v >= t0 then 0 else if v >= t1 then 1 else if v >= t2 then 2 else if v >= t3 then 3 else 4
  {
    assert [t0, t1, t2, t3][1..] == [t1, t2, t3];
    FirstMetThree(t1, t2, t3, v);
  }
}
