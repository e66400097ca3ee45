/**
 * The flight data frame the two dataset scripts work on, and their two
 * column passes over it: failure injection (models/fetch_weather_data.py,
 * lines 91-95) and redundancy repair (models/fetch_weather_data.py, lines
 * 101-108; models/train_rocket_weather_model.py, lines 12-19). A frame is a
 * map from column names to equally long columns.
 */
module FlightTable {
  import opened Values
  import opened Redundancy

  /** The sensor columns that carry a redundant copy, in the order the scripts visit them. */
  const Bases: seq<string> := ["Altitudem", "Velocityms", "Accelms2", "PressurePa", "TempC", "Humiditypct", "WindSpeedms"]

  /** How many trailing samples of each primary column injection zeroes. */
  const FailedTail: nat := 10

  /** The name of a base column's redundant copy. */
  function RedName(b: string): string {
    b + "REDUNDANT"
  }

  /** The redundant names of a list of bases. */
  function Reds(bases: seq<string>): set<string> {
    set b | b in bases :: RedName(b)
  }

  /** The bases are distinct, and no base is the redundant copy of a base. */
  predicate Independent(bases: seq<string>) {
    (forall i, j :: 0 <= i < j < |bases| ==> bases[i] != bases[j]) &&
    (forall i, j :: 0 <= i < |bases| && 0 <= j < |bases| ==> RedName(bases[i]) != bases[j])
  }

  lemma BasesIndependent()
    ensures Independent(Bases)
  {
    forall i, j | 0 <= i < |Bases| && 0 <= j < |Bases|
      ensures RedName(Bases[i]) != Bases[j]
    {
      assert |RedName(Bases[i])| > 11 >= |Bases[j]|;
    }
  }

  /** One iteration of the repair loop: repair base `b` when it and its copy are both present. */
  function RepairStep(cols: Columns, b: string, n: nat): (r: Columns)
    requires Rect(cols, n)
    ensures Rect(r, n) && r.Keys == cols.Keys
  {
    if b in cols && RedName(b) in cols then cols[b := Repair(cols[b], cols[RedName(b)])] else cols
  }

  /** The repair loop over `bases`, one iteration after another. */
  function RepairAll(cols: Columns, bases: seq<string>, n: nat): (r: Columns)
    requires Rect(cols, n)
    ensures Rect(r, n) && r.Keys == cols.Keys
    decreases |bases|
  {
    if bases == [] then cols
    else RepairStep(RepairAll(cols, bases[..|bases| - 1], n), bases[|bases| - 1], n)
  }

  /** Every listed base is a column. */
  predicate HasAll(cols: Columns, bases: seq<string>) {
    forall j :: 0 <= j < |bases| ==> bases[j] in cols
  }

  /** One iteration of the injection loop: copy base `b` to its redundant column, then zero its tail. */
  function InjectStep(cols: Columns, b: string, n: nat): (r: Columns)
    requires Rect(cols, n) && b in cols
    ensures Rect(r, n) && r.Keys == cols.Keys + {RedName(b)}
  {
    cols[RedName(b) := cols[b]][b := ZeroTail(cols[b], FailedTail)]
  }

  /** The injection loop over `bases`, one iteration after another. */
  function InjectAll(cols: Columns, bases: seq<string>, n: nat): (r: Columns)
    requires Rect(cols, n) && HasAll(cols, bases)
    ensures Rect(r, n) && r.Keys == cols.Keys + Reds(bases)
    decreases |bases|
  {
    if bases == [] then cols
    else
      var init := bases[..|bases| - 1];
      var prev := InjectAll(cols, init, n);
      assert Reds(bases) == Reds(init) + {RedName(bases[|bases| - 1])} by {
        assert bases == init + [bases[|bases| - 1]];
      }
      InjectStep(prev, bases[|bases| - 1], n)
  }

  /** A data frame held by a script. */
  class Table {
    var columns: Columns
    var rows: nat

    predicate Valid()
      reads this
    {
      Rect(columns, rows)
    }

    constructor (cols: Columns, n: nat)
      requires Rect(cols, n)
      ensures Valid() && columns == cols && rows == n
    {
      columns := cols;
      rows := n;
    }

    /**
     * The repair loop over the listed bases: each base with both columns
     * present gets `prim.where(healthy, red)`.
     */
    method RepairRedundant(bases: seq<string>)
      requires Valid()
      modifies this
      ensures Valid() && rows == old(rows)
      ensures columns == RepairAll(old(columns), bases, old(rows))
    {
      var cols0, n := columns, rows;
      var cols := cols0;
      var i := 0;
      while i < |bases|
        invariant 0 <= i <= |bases| && rows == n
        invariant Rect(cols, n) && cols == RepairAll(cols0, bases[..i], n)
      {
        assert bases[..i + 1][..i] == bases[..i];
        var prim, red := bases[i], RedName(bases[i]);
        if prim in cols && red in cols {
          cols := cols[prim := Repair(cols[prim], cols[red])];
        }
        i := i + 1;
      }
      assert bases[..i] == bases;
      columns := cols;
    }

    /**
     * The injection loop over the listed bases: copy each base to its
     * redundant column, then zero its last samples.
     */
    method InjectFailures(bases: seq<string>)
      requires Valid() && HasAll(columns, bases)
      modifies this
      ensures Valid() && rows == old(rows)
      ensures columns == InjectAll(old(columns), bases, old(rows))
    {
      var cols0, n := columns, rows;
      var cols := cols0;
      var i := 0;
      while i < |bases|
        invariant 0 <= i <= |bases| && rows == n
        invariant cols == InjectAll(cols0, bases[..i], n)
      {
        var col := bases[i];
        InjectAllSnoc(cols0, bases, i, n);
        cols := cols[RedName(col) := cols[col]];
        cols := cols[col := ZeroTail(cols[col], FailedTail)];
        i := i + 1;
      }
      assert bases[..i] == bases;
      columns := cols;
    }
  }

  /** A listed base is still a column after the injection loop has run over the bases before it. */
  lemma InjectAllSnoc(cols: Columns, bases: seq<string>, i: nat, n: nat)
    requires Rect(cols, n) && HasAll(cols, bases) && i < |bases|
    ensures HasAll(cols, bases[..i]) && HasAll(cols, bases[..i + 1])
    ensures bases[i] in InjectAll(cols, bases[..i], n)
    ensures InjectAll(cols, bases[..i + 1], n) == InjectStep(InjectAll(cols, bases[..i], n), bases[i], n)
  {
    assert bases[..i + 1][..i] == bases[..i];
  }

  // ---------------------------------------------------------------------
  // What the loops compute
  // ---------------------------------------------------------------------

  /**
   * The repair loop in closed form: a listed base whose redundant column is
   * present is repaired against it; every other column is left as it was.
   */
  lemma {:induction false} RepairAllColumns(cols: Columns, bases: seq<string>, n: nat, c: string)
    requires Rect(cols, n) && Independent(bases) && c in cols
    ensures c in bases && RedName(c) in cols ==> RepairAll(cols, bases, n)[c] == Repair(cols[c], cols[RedName(c)])
    ensures !(c in bases && RedName(c) in cols) ==> RepairAll(cols, bases, n)[c] == cols[c]
    decreases |bases|
  {
    if bases != [] {
      var init, b := bases[..|bases| - 1], bases[|bases| - 1];
      assert bases == init + [b];
      assert Independent(init);
      var prev := RepairAll(cols, init, n);
      RepairAllColumns(cols, init, n, c);
      if b in cols && RedName(b) in cols {
        assert b !in init;
        RepairAllColumns(cols, init, n, b);
        assert RedName(b) !in bases;
        RepairAllColumns(cols, init, n, RedName(b));
      }
    }
  }

  /** Repairing twice is repairing once: the second pass of the training script changes nothing. */
  lemma RepairAllIdempotent(cols: Columns, bases: seq<string>, n: nat)
    requires Rect(cols, n) && Independent(bases)
    ensures RepairAll(RepairAll(cols, bases, n), bases, n) == RepairAll(cols, bases, n)
  {
    var once := RepairAll(cols, bases, n);
    var twice := RepairAll(once, bases, n);
    forall c | c in cols
      ensures twice[c] == once[c]
    {
      RepairAllColumns(cols, bases, n, c);
      RepairAllColumns(once, bases, n, c);
      if c in bases && RedName(c) in cols {
        assert RedName(c) !in bases;
        RepairAllColumns(cols, bases, n, RedName(c));
        RepairIdempotent(cols[c], cols[RedName(c)]);
      }
    }
  }

  /** Distinct bases have distinct redundant names. */
  lemma RedNameInjective(x: string, b: string)
    ensures RedName(x) == RedName(b) ==> x == b
  {
    if RedName(x) == RedName(b) {
      assert RedName(x)[..|x|] == x;
      assert RedName(b)[..|b|] == b;
    }
  }

  /** The last base of a list is not among the bases, nor the redundant names, of the ones before it. */
  lemma LastBaseFresh(bases: seq<string>)
    requires Independent(bases) && bases != []
    ensures var init, b := bases[..|bases| - 1], bases[|bases| - 1];
            Independent(init) && b !in init && RedName(b) !in Reds(init) && RedName(b) != b
  {
    var init, b := bases[..|bases| - 1], bases[|bases| - 1];
    assert bases == init + [b];
    forall x | x in init
      ensures RedName(x) != RedName(b)
    {
      RedNameInjective(x, b);
    }
  }

  /** Injection leaves a column that is neither a listed base nor a redundant copy as it was. */
  lemma {:induction false} InjectAllOther(cols: Columns, bases: seq<string>, n: nat, c: string)
    requires Rect(cols, n) && Independent(bases) && HasAll(cols, bases)
    requires c in cols && c !in bases && c !in Reds(bases)
    ensures InjectAll(cols, bases, n)[c] == cols[c]
    decreases |bases|
  {
    if bases != [] {
      var init, b := bases[..|bases| - 1], bases[|bases| - 1];
      assert bases == init + [b];
      LastBaseFresh(bases);
      assert c !in Reds(init) && c != RedName(b);
      InjectAllOther(cols, init, n, c);
    }
  }

  /** Injection zeroes the tail of each listed base. */
  lemma {:induction false} InjectAllBase(cols: Columns, bases: seq<string>, n: nat, c: string)
    requires Rect(cols, n) && Independent(bases) && HasAll(cols, bases) && c in bases
    ensures InjectAll(cols, bases, n)[c] == ZeroTail(cols[c], FailedTail)
    decreases |bases|
  {
    var init, b := bases[..|bases| - 1], bases[|bases| - 1];
    assert bases == init + [b];
    LastBaseFresh(bases);
    if c == b {
      InjectAllOther(cols, init, n, b);
    } else {
      assert c in init;
      assert RedName(b) != c;
      InjectAllBase(cols, init, n, c);
    }
  }

  /** Injection copies each listed base's original column to its redundant column. */
  lemma {:induction false} InjectAllRed(cols: Columns, bases: seq<string>, n: nat, c: string)
    requires Rect(cols, n) && Independent(bases) && HasAll(cols, bases) && c in bases
    ensures InjectAll(cols, bases, n)[RedName(c)] == cols[c]
    decreases |bases|
  {
    var init, b := bases[..|bases| - 1], bases[|bases| - 1];
    assert bases == init + [b];
    LastBaseFresh(bases);
    if c == b {
      InjectAllOther(cols, init, n, b);
    } else {
      assert c in init;
      RedNameInjective(c, b);
      assert RedName(c) != b;
      InjectAllRed(cols, init, n, c);
    }
  }

  /** Injection in closed form: each base is zeroed at its tail and its old value is copied to its redundant column. */
  lemma InjectAllColumns(cols: Columns, bases: seq<string>, n: nat, c: string)
    requires Rect(cols, n) && Independent(bases) && HasAll(cols, bases)
    ensures c in bases ==> InjectAll(cols, bases, n)[c] == ZeroTail(cols[c], FailedTail)
    ensures c in bases ==> InjectAll(cols, bases, n)[RedName(c)] == cols[c]
    ensures c in cols && c !in bases && c !in Reds(bases) ==> InjectAll(cols, bases, n)[c] == cols[c]
  {
    if c in bases {
      InjectAllBase(cols, bases, n, c);
      InjectAllRed(cols, bases, n, c);
    } else if c in cols && c !in Reds(bases) {
      InjectAllOther(cols, bases, n, c);
    }
  }

  /**
   * Round trip: repairing an injected frame restores every listed primary
   * column, leaves the redundant copies equal to the originals, and leaves
   * every other column as it was.
   */
  lemma RepairUndoesInjection(cols: Columns, n: nat)
    requires Rect(cols, n) && HasAll(cols, Bases)
    ensures var r := RepairAll(InjectAll(cols, Bases, n), Bases, n);
            r.Keys == cols.Keys + Reds(Bases) &&
            (forall b :: b in Bases ==> r[b] == cols[b] && r[RedName(b)] == cols[b]) &&
            (forall c :: c in cols && c !in Bases && c !in Reds(Bases) ==> r[c] == cols[c])
  {
    BasesIndependent();
    var inj := InjectAll(cols, Bases, n);
    var r := RepairAll(inj, Bases, n);
    forall b | b in Bases
      ensures r[b] == cols[b] && r[RedName(b)] == cols[b]
    {
      InjectAllColumns(cols, Bases, n, b);
      assert RedName(b) in inj;
      RepairAllColumns(inj, Bases, n, b);
      assert RedName(b) !in Bases;
      RepairAllColumns(inj, Bases, n, RedName(b));
      ZeroTailRepaired(cols[b], FailedTail);
    }
    forall c | c in cols && c !in Bases && c !in Reds(Bases)
      ensures r[c] == cols[c]
    {
      InjectAllColumns(cols, Bases, n, c);
      RepairAllColumns(inj, Bases, n, c);
    }
  }

  /** The rows at positions `idx` of a frame, in that order (`df.iloc[idx]`, as `sample` picks them). */
  function TakeRows(cols: Columns, idx: seq<nat>, n: nat): (r: Columns)
    requires Rect(cols, n) && forall k :: 0 <= k < |idx| ==> idx[k] < n
    ensures r.Keys == cols.Keys && Rect(r, |idx|)
  {
    map c | c in cols :: seq(|idx|, k requires 0 <= k < |idx| => cols[c][idx[k]])
  }

  /** Repair works row by row, so it commutes with picking rows. */
  lemma RepairAllTakeRows(cols: Columns, idx: seq<nat>, n: nat, bases: seq<string>)
    requires Rect(cols, n) && forall k :: 0 <= k < |idx| ==> idx[k] < n
    requires Independent(bases)
    ensures RepairAll(TakeRows(cols, idx, n), bases, |idx|) == TakeRows(RepairAll(cols, bases, n), idx, n)
  {
    var lhs := RepairAll(TakeRows(cols, idx, n), bases, |idx|);
    var rhs := TakeRows(RepairAll(cols, bases, n), idx, n);
    var picked := TakeRows(cols, idx, n);
    forall c | c in cols
      ensures lhs[c] == rhs[c]
    {
      RepairAllColumns(picked, bases, |idx|, c);
      RepairAllColumns(cols, bases, n, c);
      if c in bases && RedName(c) in cols {
        assert forall k :: 0 <= k < |idx| ==> lhs[c][k] == Pick(cols[c][idx[k]], cols[RedName(c)][idx[k]]);
      }
    }
  }
}
