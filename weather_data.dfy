/**
 * The dataset builder (models/fetch_weather_data.py) without its file I/O
 * and its flight simulator: the event-window filter over the weather
 * records, the stride that picks the records to simulate, the failure
 * injection into each simulated flight, the stacking of the flights into
 * one frame, and the final repair. The simulated flights are inputs.
 */
module WeatherData {
  import opened Wrappers
  import opened Values
  import opened Redundancy
  import opened FlightTable

  const EventStartDay: int := 26
  const EventEndDay: int := 30
  const HourStart: int := 7
  const HourEnd: int := 19

  /** The calendar fields of a weather record's timestamp that the filter reads. */
  datatype Stamp = Stamp(month: int, day: int, hour: int)

  /** One weather record: its time and the four values handed to the simulator. */
  datatype Weather = Weather(time: Stamp, temp: Float, pressure: Float, humidity: Float, wind: Float)

  /** The event-window mask: October, days 26 to 30, hours 7 to 19, bounds included. */
  predicate InEvent(s: Stamp) {
    s.month == 10 && EventStartDay <= s.day <= EventEndDay && HourStart <= s.hour <= HourEnd
  }

  /** `weather_df.loc[mask].reset_index(drop=True)`: the records inside the window, in order. */
  function Selected(ws: seq<Weather>): (r: seq<Weather>)
    ensures |r| <= |ws|
    ensures forall i :: 0 <= i < |r| ==> r[i] in ws && InEvent(r[i].time)
    ensures forall i :: 0 <= i < |ws| && InEvent(ws[i].time) ==> ws[i] in r
    decreases |ws|
  {
    if ws == [] then []
    else
      var init := Selected(ws[..|ws| - 1]);
      assert forall i :: 0 <= i < |ws| - 1 ==> ws[..|ws| - 1][i] == ws[i];
      if InEvent(ws[|ws| - 1].time) then init + [ws[|ws| - 1]] else init
  }

  /** The filter keeps the order of the records: selecting from a concatenation concatenates the selections. */
  lemma {:induction false} SelectedConcat(a: seq<Weather>, b: seq<Weather>)
    ensures Selected(a + b) == Selected(a) + Selected(b)
    decreases |b|
  {
    if b == [] {
      assert a + b == a;
    } else {
      var b0 := b[..|b| - 1];
      assert (a + b)[..|a + b| - 1] == a + b0;
      SelectedConcat(a, b0);
    }
  }

  /** The stride of the simulation loop: `max(1, n // 40)`. */
  function Stride(n: nat): (s: nat)
    ensures s >= 1 && (n >= 40 ==> s == n / 40)
  {
    if n / 40 > 1 then n / 40 else 1
  }

  /** `range(start, n, step)`. */
  function Positions(start: nat, n: nat, step: nat): seq<nat>
    requires step >= 1
    decreases n - start
  {
    if start >= n then [] else [start] + Positions(start + step, n, step)
  }

  /** `range(start, n, step)` starts at `start`, steps by `step`, stays below `n` and stops within a step of it. */
  lemma {:induction false} PositionsShape(start: nat, n: nat, step: nat)
    requires step >= 1
    ensures var r := Positions(start, n, step);
            (r == [] <==> start >= n) &&
            (r != [] ==> r[0] == start && r[|r| - 1] < n <= r[|r| - 1] + step) &&
            (forall k :: 0 <= k < |r| ==> start <= r[k] < n) &&
            (forall k :: 0 <= k < |r| - 1 ==> r[k + 1] == r[k] + step)
    decreases n - start
  {
    if start < n {
      PositionsShape(start + step, n, step);
      var rest := Positions(start + step, n, step);
      assert Positions(start, n, step) == [start] + rest;
      if rest != [] {
        assert rest[0] == start + step;
      }
    }
  }

  /** The simulation loop's index sequence: `range(0, n, Stride(n))`. */
  method PickRecords(n: nat) returns (picked: seq<nat>)
    ensures picked == Positions(0, n, Stride(n))
  {
    var step := Stride(n);
    picked := [];
    var i := 0;
    while i < n
      invariant picked + Positions(i, n, step) == Positions(0, n, step)
      decreases n - i
    {
      assert Positions(i, n, step) == [i] + Positions(i + step, n, step);
      assert picked + [i] + Positions(i + step, n, step) == picked + ([i] + Positions(i + step, n, step));
      picked := picked + [i];
      i := i + step;
    }
  }

  /**
   * The records simulated: the first one, then every `Stride(n)`-th after
   * it, with the last one within a stride of the end.
   */
  lemma PickedRecords(n: nat)
    ensures var p := Positions(0, n, Stride(n));
            (n > 0 ==> p[0] == 0 && n <= p[|p| - 1] + Stride(n)) &&
            (forall k :: 0 <= k < |p| - 1 ==> p[k + 1] == p[k] + Stride(n)) &&
            (forall k :: 0 <= k < |p| ==> p[k] < n)
  {
    PositionsShape(0, n, Stride(n));
  }

  /** The row count of `k` stacked frames of `n` rows each. */
  function Total(k: nat, n: nat): nat {
    if k == 0 then 0 else Total(k - 1, n) + n
  }

  lemma {:induction false} TotalIsProduct(k: nat, n: nat)
    ensures Total(k, n) == k * n
  {
    if k > 0 {
      TotalIsProduct(k - 1, n);
      assert k * n == (k - 1) * n + n;
    }
  }

  /** Every flight has the columns `keys` (at least) and `n` rows. */
  predicate Uniform(flights: seq<Columns>, keys: set<string>, n: nat) {
    forall i :: 0 <= i < |flights| ==> keys <= flights[i].Keys && Rect(flights[i], n)
  }

  /** Every base of `bases` is one of `keys`. */
  predicate Listed(keys: set<string>, bases: seq<string>) {
    forall j :: 0 <= j < |bases| ==> bases[j] in keys
  }

  /** Each flight after injection, in order. */
  function Injected(flights: seq<Columns>, keys: set<string>, n: nat, bases: seq<string>): (r: seq<Columns>)
    requires Uniform(flights, keys, n) && Listed(keys, bases)
    ensures |r| == |flights| && Uniform(r, keys + Reds(bases), n)
    decreases |flights|
  {
    if flights == [] then []
    else
      var last := flights[|flights| - 1];
      assert keys <= last.Keys && HasAll(last, bases);
      Injected(flights[..|flights| - 1], keys, n, bases) + [InjectAll(last, bases, n)]
  }

  /** Column `c` of the stacked frames: the frames' columns one after another. */
  function Column(frames: seq<Columns>, keys: set<string>, n: nat, c: string): (r: seq<Float>)
    requires Uniform(frames, keys, n) && c in keys
    ensures |r| == Total(|frames|, n)
    decreases |frames|
  {
    if frames == [] then []
    else
      var init := frames[..|frames| - 1];
      Column(init, keys, n, c) + frames[|frames| - 1][c]
  }

  /** `pd.concat(frames, ignore_index=True)` for frames with the same columns. */
  function Stack(frames: seq<Columns>, keys: set<string>, n: nat): (r: Columns)
    requires Uniform(frames, keys, n)
    ensures r.Keys == keys && Rect(r, Total(|frames|, n))
  {
    map c | c in keys :: Column(frames, keys, n, c)
  }

  /** The simulation loop's bookkeeping: each flight gets its failures injected and is collected. */
  method InjectEach(flights: seq<Columns>, keys: set<string>, n: nat, bases: seq<string>) returns (datasets: seq<Columns>)
    requires Uniform(flights, keys, n) && Listed(keys, bases)
    ensures datasets == Injected(flights, keys, n, bases)
  {
    datasets := [];
    for i := 0 to |flights|
      invariant datasets == Injected(flights[..i], keys, n, bases)
    {
      InjectedSnoc(flights, keys, n, bases, i);
      var t := new Table(flights[i], n);
      t.InjectFailures(bases);
      datasets := datasets + [t.columns];
    }
    assert flights[..|flights|] == flights;
  }

  /** One more flight through the loop adds its injected frame to the collection. */
  lemma InjectedSnoc(flights: seq<Columns>, keys: set<string>, n: nat, bases: seq<string>, i: nat)
    requires Uniform(flights, keys, n) && Listed(keys, bases) && i < |flights|
    ensures Uniform(flights[..i], keys, n) && Uniform(flights[..i + 1], keys, n)
    ensures Rect(flights[i], n) && HasAll(flights[i], bases)
    ensures Injected(flights[..i + 1], keys, n, bases) == Injected(flights[..i], keys, n, bases) + [InjectAll(flights[i], bases, n)]
  {
    assert flights[..i + 1][..i] == flights[..i];
    assert keys <= flights[i].Keys;
  }

  /**
   * Sections 3 and 4 of the script: inject into each flight, stack them,
   * repair the stack. With no flight picked, `pd.concat` of the empty list
   * raises and the script stops: no dataset.
   */
  method AssembleDataset(flights: seq<Columns>, keys: set<string>, n: nat) returns (rocket: Option<Table>)
    requires Uniform(flights, keys, n) && Listed(keys, Bases)
    ensures rocket.None? <==> flights == []
    ensures rocket.Some? ==> rocket.value.Valid() && rocket.value.rows == Total(|flights|, n)
    ensures rocket.Some? ==>
              rocket.value.columns == RepairAll(Stack(Injected(flights, keys, n, Bases), keys + Reds(Bases), n), Bases, Total(|flights|, n))
  {
    if flights == [] {
      return None;
    }
    var datasets := InjectEach(flights, keys, n, Bases);
    var stacked := new Table(Stack(datasets, keys + Reds(Bases), n), Total(|flights|, n));
    stacked.RepairRedundant(Bases);
    rocket := Some(stacked);
  }

  /** Stacking one more frame extends every column by that frame's column. */
  lemma ColumnSnoc(frames: seq<Columns>, keys: set<string>, n: nat, c: string)
    requires Uniform(frames, keys, n) && c in keys && frames != []
    ensures Uniform(frames[..|frames| - 1], keys, n)
    ensures Column(frames, keys, n, c) == Column(frames[..|frames| - 1], keys, n, c) + frames[|frames| - 1][c]
  {
  }

  /** The injected flights end with the last flight injected. */
  lemma InjectedLast(flights: seq<Columns>, keys: set<string>, n: nat, bases: seq<string>)
    requires Uniform(flights, keys, n) && Listed(keys, bases) && flights != []
    ensures Uniform(flights[..|flights| - 1], keys, n) && HasAll(flights[|flights| - 1], bases)
    ensures Injected(flights, keys, n, bases) ==
              Injected(flights[..|flights| - 1], keys, n, bases) + [InjectAll(flights[|flights| - 1], bases, n)]
  {
  }

  /** Column `b` of a stack of injected flights, repaired against the stacked originals, is the stacked originals. */
  lemma {:induction false} ColumnRepaired(flights: seq<Columns>, keys: set<string>, n: nat, bases: seq<string>, b: string)
    requires Uniform(flights, keys, n) && Listed(keys, bases) && Independent(bases) && b in bases
    ensures var inj := Injected(flights, keys, n, bases);
            Repair(Column(inj, keys + Reds(bases), n, b), Column(flights, keys, n, b)) == Column(flights, keys, n, b)
    decreases |flights|
  {
    if flights != [] {
      var allKeys := keys + Reds(bases);
      var init, last := flights[..|flights| - 1], flights[|flights| - 1];
      var inj := Injected(flights, keys, n, bases);
      InjectedLast(flights, keys, n, bases);
      var injInit := Injected(init, keys, n, bases);
      ColumnSnoc(flights, keys, n, b);
      ColumnSnoc(inj, allKeys, n, b);
      ColumnRepaired(init, keys, n, bases, b);
      InjectAllColumns(last, bases, n, b);
      var pre, orig := Column(injInit, allKeys, n, b), Column(init, keys, n, b);
      RepairConcat(pre, orig, inj[|inj| - 1][b], last[b]);
      ZeroTailRepaired(last[b], FailedTail);
    }
  }

  /** The redundant column of a stack of injected flights is the stacked original primary. */
  lemma {:induction false} ColumnCopied(flights: seq<Columns>, keys: set<string>, n: nat, bases: seq<string>, b: string)
    requires Uniform(flights, keys, n) && Listed(keys, bases) && Independent(bases) && b in bases
    ensures RedName(b) in keys + Reds(bases)
    ensures Column(Injected(flights, keys, n, bases), keys + Reds(bases), n, RedName(b)) == Column(flights, keys, n, b)
    decreases |flights|
  {
    assert RedName(b) in Reds(bases);
    if flights != [] {
      var allKeys := keys + Reds(bases);
      var init, last := flights[..|flights| - 1], flights[|flights| - 1];
      var inj := Injected(flights, keys, n, bases);
      InjectedLast(flights, keys, n, bases);
      ColumnSnoc(flights, keys, n, b);
      ColumnSnoc(inj, allKeys, n, RedName(b));
      ColumnCopied(init, keys, n, bases, b);
      InjectAllColumns(last, bases, n, b);
    }
  }

  /**
   * The dataset round trip: after injection, stacking and repair, every
   * listed primary column and its redundant copy equal the stacked
   * simulated primary, i.e. the injected failures leave no trace.
   */
  lemma DatasetRestored(flights: seq<Columns>, keys: set<string>, n: nat, b: string)
    requires Uniform(flights, keys, n) && Listed(keys, Bases) && b in Bases
    ensures var stacked := Stack(Injected(flights, keys, n, Bases), keys + Reds(Bases), n);
            var rocket := RepairAll(stacked, Bases, Total(|flights|, n));
            rocket[b] == Column(flights, keys, n, b) && rocket[RedName(b)] == Column(flights, keys, n, b)
  {
    BasesIndependent();
    var inj := Injected(flights, keys, n, Bases);
    var allKeys := keys + Reds(Bases);
    var stacked := Stack(inj, allKeys, n);
    ColumnCopied(flights, keys, n, Bases, b);
    ColumnRepaired(flights, keys, n, Bases, b);
    RepairAllColumns(stacked, Bases, Total(|flights|, n), b);
    assert RedName(b) !in Bases;
    RepairAllColumns(stacked, Bases, Total(|flights|, n), RedName(b));
  }
}
