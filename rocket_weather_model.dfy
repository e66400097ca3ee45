/**
 * The data preparation of the training script
 * (models/train_rocket_weather_model.py, lines 11-27): a second redundancy
 * repair over the dataset read back from disk, then `Times` rebased to
 * seconds since the earliest timestamp. The model fitting that follows is
 * not part of this model.
 *
 * A timestamp is modelled as a number of seconds; NaN stands for NaT, the
 * value `to_datetime(..., errors="coerce")` gives for an unconvertible entry.
 */
module RocketWeatherModel {
  import opened Wrappers
  import opened Values
  import opened FlightTable

  /** The earliest non-NaT timestamp, if there is one (`Series.min()` skips NaT). */
  function Earliest(ts: seq<Float>): (m: Option<real>)
    ensures m.None? <==> forall i :: 0 <= i < |ts| ==> ts[i].NaN?
    ensures m.Some? ==> (exists i :: 0 <= i < |ts| && ts[i] == Fin(m.value)) &&
                        forall i :: 0 <= i < |ts| && ts[i].Fin? ==> m.value <= ts[i].r
    decreases |ts|
  {
    if ts == [] then None
    else
      var rest := Earliest(ts[1..]);
      assert forall i :: 1 <= i < |ts| ==> ts[i] == ts[1..][i - 1];
      if ts[0].NaN? then rest
      else if rest.None? || ts[0].r <= rest.value then Some(ts[0].r)
      else rest
  }

  /** `(t - t.min()).dt.total_seconds()`, reading the column as seconds. */
  function Rebase(ts: seq<Float>): (r: seq<Float>)
    ensures |r| == |ts|
  {
    match Earliest(ts)
    case None => ts
    case Some(m) => seq(|ts|, i requires 0 <= i < |ts| => if ts[i].NaN? then NaN else Fin(ts[i].r - m))
  }

  /**
   * The same expression as written: the column read back from the CSV holds
   * plain numbers, and `pd.to_datetime` reads plain numbers as nanoseconds
   * since the epoch, so `total_seconds()` yields the offsets divided by 10^9.
   */
  function RebaseAsWritten(ts: seq<Float>): (r: seq<Float>)
    ensures |r| == |ts|
  {
    var s := Rebase(ts);
    seq(|s|, i requires 0 <= i < |s| => if s[i].NaN? then NaN else Fin(s[i].r / 1000000000.0))
  }

  /** Section 2 and 3 of the script: repair again, then rebase `Times`. */
  method PrepareFeatures(df: Table)
    requires df.Valid() && "Times" in df.columns
    modifies df
    ensures df.Valid() && df.rows == old(df.rows)
    ensures df.columns == RepairAll(old(df.columns), Bases, old(df.rows))["Times" := Rebase(old(df.columns)["Times"])]
  {
    df.RepairRedundant(Bases);
    BasesIndependent();
    assert "Times" !in Bases;
    RepairAllColumns(old(df.columns), Bases, old(df.rows), "Times");
    var timeSeries := df.columns["Times"];
    df.columns := df.columns["Times" := Rebase(timeSeries)];
  }

  /**
   * After rebasing, NaT stays NaT, every other offset is at least 0, the
   * earliest timestamp becomes 0, and the differences between timestamps,
   * hence their order, are kept.
   */
  lemma RebaseProperties(ts: seq<Float>)
    ensures var r := Rebase(ts);
            (forall i :: 0 <= i < |ts| ==> (r[i].NaN? <==> ts[i].NaN?)) &&
            (forall i :: 0 <= i < |ts| && r[i].Fin? ==> r[i].r >= 0.0) &&
            ((exists i :: 0 <= i < |ts| && ts[i].Fin?) ==> exists i :: 0 <= i < |ts| && r[i] == Fin(0.0)) &&
            (forall i, j :: 0 <= i < |ts| && 0 <= j < |ts| && ts[i].Fin? && ts[j].Fin? ==>
                              r[j].r - r[i].r == ts[j].r - ts[i].r)
  {
    var r := Rebase(ts);
    var m := Earliest(ts);
    if m.Some? {
      var k :| 0 <= k < |ts| && ts[k] == Fin(m.value);
      assert r[k] == Fin(0.0);
    }
  }

  /** Rebasing keeps the order of timestamps. */
  lemma RebaseKeepsOrder(ts: seq<Float>, i: nat, j: nat)
    requires i < |ts| && j < |ts| && ts[i].Fin? && ts[j].Fin?
    ensures Rebase(ts)[i].Fin? && Rebase(ts)[j].Fin?
    ensures ts[i].r <= ts[j].r <==> Rebase(ts)[i].r <= Rebase(ts)[j].r
  {
    RebaseProperties(ts);
  }

  /**
   * As written, a flight sampled at 0 s and 160 s comes out as 0 s and
   * 1.6e-7 s instead of 0 s and 160 s.
   */
  lemma RebaseAsWrittenShrinks()
    ensures RebaseAsWritten([Fin(0.0), Fin(160.0)]) == [Fin(0.0), Fin(0.00000016)]
    ensures Rebase([Fin(0.0), Fin(160.0)]) == [Fin(0.0), Fin(160.0)]
  {
    var ts := [Fin(0.0), Fin(160.0)];
    assert Earliest(ts[1..]) == Some(160.0);
    assert Earliest(ts) == Some(0.0);
  }

  /**
   * The dataset on disk is a row sample of a repaired frame, so the
   * training script's second repair ("again, just in case") changes nothing.
   */
  lemma RepairAgainNoOp(cols: Columns, n: nat, idx: seq<nat>)
    requires Rect(cols, n) && forall k :: 0 <= k < |idx| ==> idx[k] < n
    ensures var onDisk := TakeRows(RepairAll(cols, Bases, n), idx, n);
            RepairAll(onDisk, Bases, |idx|) == onDisk
  {
    BasesIndependent();
    var repaired := RepairAll(cols, Bases, n);
    RepairAllTakeRows(repaired, idx, n, Bases);
    RepairAllIdempotent(cols, Bases, n);
  }
}
