/**
 * The primary/redundant rule shared by the plot tab and the two dataset
 * scripts: a primary sample that is NaN or exactly zero is taken to have
 * failed, and the redundant sample is used in its place.
 * (tabs/plottab.py `is_redundant`, models/fetch_weather_data.py and
 * models/train_rocket_weather_model.py `where(prim != 0 & ~isna, red)`.)
 */
module Redundancy {
  import opened Values

  /** A primary sample that falls back: NaN, or exactly 0. */
  predicate Failed(v: Float) {
    v.NaN? || v == Fin(0.0)
  }

  /** One repaired sample. */
  function Pick(prim: Float, red: Float): Float {
    if Failed(prim) then red else prim
  }

  /** A repaired column: the primary where it is healthy, the redundant column elsewhere. */
  function Repair(prim: seq<Float>, red: seq<Float>): (r: seq<Float>)
    requires |prim| == |red|
    ensures |r| == |prim|
  {
    seq(|prim|, i requires 0 <= i < |prim| => Pick(prim[i], red[i]))
  }

  /** `col` with its last `k` samples (all of them when it is shorter) set to 0. */
  function ZeroTail(col: seq<Float>, k: nat): (r: seq<Float>)
    ensures |r| == |col|
    ensures var m := if |col| > k then |col| - k else 0;
            r[..m] == col[..m] && forall i :: m <= i < |col| ==> r[i] == Fin(0.0)
  {
    seq(|col|, i requires 0 <= i < |col| => if i >= |col| - k then Fin(0.0) else col[i])
  }

  /** The repair rule sample by sample: a healthy primary is kept, a failed one is replaced. */
  lemma RepairRule(prim: seq<Float>, red: seq<Float>, i: nat)
    requires |prim| == |red| && i < |prim|
    ensures !Failed(prim[i]) ==> Repair(prim, red)[i] == prim[i]
    ensures Failed(prim[i]) ==> Repair(prim, red)[i] == red[i]
    ensures Repair(prim, red)[i] == prim[i] || Repair(prim, red)[i] == red[i]
  {
  }

  /** Repairing a repaired column with the same redundant column changes nothing. */
  lemma RepairIdempotent(prim: seq<Float>, red: seq<Float>)
    requires |prim| == |red|
    ensures Repair(Repair(prim, red), red) == Repair(prim, red)
  {
    var once := Repair(prim, red);
    forall i | 0 <= i < |prim|
      ensures Repair(once, red)[i] == once[i]
    {
      if Failed(prim[i]) {
        assert once[i] == red[i];
      }
    }
  }

  /**
   * A copy of the original taken as the redundant column restores the
   * original from any primary that differs from it only by zeroed samples.
   */
  lemma RepairRestores(orig: seq<Float>, prim: seq<Float>)
    requires |prim| == |orig|
    requires forall i :: 0 <= i < |orig| ==> prim[i] == orig[i] || prim[i] == Fin(0.0)
    ensures Repair(prim, orig) == orig
  {
    forall i | 0 <= i < |orig|
      ensures Repair(prim, orig)[i] == orig[i]
    {
    }
  }

  /** Injection followed by repair against the copied column gives the original column back. */
  lemma ZeroTailRepaired(col: seq<Float>, k: nat)
    ensures Repair(ZeroTail(col, k), col) == col
  {
    RepairRestores(col, ZeroTail(col, k));
  }

  /** Repair works sample by sample, so it commutes with stacking frames. */
  lemma RepairConcat(p1: seq<Float>, r1: seq<Float>, p2: seq<Float>, r2: seq<Float>)
    requires |p1| == |r1| && |p2| == |r2|
    ensures Repair(p1 + p2, r1 + r2) == Repair(p1, r1) + Repair(p2, r2)
  {
    var lhs, rhs := Repair(p1 + p2, r1 + r2), Repair(p1, r1) + Repair(p2, r2);
    forall i | 0 <= i < |lhs|
      ensures lhs[i] == rhs[i]
    {
      if i < |p1| {
        assert (p1 + p2)[i] == p1[i] && (r1 + r2)[i] == r1[i];
      } else {
        assert (p1 + p2)[i] == p2[i - |p1|] && (r1 + r2)[i] == r2[i - |p1|];
      }
    }
  }
}
