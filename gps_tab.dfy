/**
 * The GPS tab's track buffer and render throttle (tabs/gpstab.py).
 *
 * The tab keeps three parallel lists `lat`, `lon`, `alt`, fed one telemetry
 * row at a time (`append_live_data`, capped at the most recent 1000 points)
 * or replaced wholesale from the telemetry CSV (`_periodic_update`). Each
 * update asks `_schedule` for a map refresh; a refresh is a landing
 * prediction followed by a map render, run on worker threads, and at most
 * one is in flight (`_pending_render`), no sooner than 2 s after the last
 * (`_last_render`).
 *
 * The clock is a parameter (`now`), the workers are recorded as the inputs
 * they are started with, and their completion is a call of the matching
 * callback method.
 */
module GpsTab {
  import opened Wrappers
  import opened Text
  import opened Values

  const MaxPoints: nat := 1000
  const ThrottleSeconds: real := 2.0

  /** A telemetry row as delivered to `append_live_data`. */
  type Row = map<string, PyValue>

  /** A (latitude, longitude) pair. */
  type Point = (Float, Float)

  /**
   * `_to_float`: None for None and for anything `float()` refuses,
   * the number otherwise.
   */
  function ToFloat(x: PyValue): (r: Option<Float>)
    ensures x.PyNone? ==> r == None
    ensures x.PyFloat? ==> r == Some(x.f)
    ensures x.PyStr? && Strip(x.s) == [] ==> r == None
  {
    match x
    case PyNone => None
    case PyFloat(f) => Some(f)
    case PyStr(s) => ParseFloatText(s)
  }

  /** A string of decimal digits converts to the number it spells. */
  lemma ToFloatDigits(ds: string)
    requires ds != [] && AllDigits(ds)
    ensures ToFloat(PyStr(ds)) == Some(Fin(DigitsValue(ds) as real))
  {
    StripNoSpace(ds);
    assert !IsSign(ds[0]);
    assert Lower(ds) != "nan" by {
      assert Lower(ds)[0] == LowerChar(ds[0]) != 'n';
    }
    DigitsDecimal(ds);
  }

  lemma DigitsDecimal(ds: string)
    requires ds != [] && AllDigits(ds)
    ensures UnsignedDecimal(ds) == Some(DigitsValue(ds) as real)
  {
    assert IndexOf(ds, '.') == |ds|;
  }

  /** The latitude of a row: `gps_lat`, or `gps_lat_R` when that is falsy. */
  function LatOf(row: Row): Option<Float> {
    ToFloat(Or(Get(row, "gps_lat"), Get(row, "gps_lat_R")))
  }

  /** The longitude of a row: `gps_lon`, or `gps_lon_R` when that is falsy. */
  function LonOf(row: Row): Option<Float> {
    ToFloat(Or(Get(row, "gps_lon"), Get(row, "gps_lon_R")))
  }

  /** The altitude of a row: the first truthy of `gps_alt`, `bmp_alt`, else `Altitude_m`. */
  function AltOf(row: Row): Option<Float> {
    ToFloat(Or(Or(Get(row, "gps_alt"), Get(row, "bmp_alt")), Get(row, "Altitude_m")))
  }

  /**
   * The choice of source key: the primary key unless its value is falsy
   * (missing, None, "" or 0.0), then the redundant one; altitude tries
   * `gps_alt`, `bmp_alt` and `Altitude_m` in that order.
   */
  lemma CoordinateFallback(row: Row)
    ensures Truthy(Get(row, "gps_lat")) ==> LatOf(row) == ToFloat(row["gps_lat"])
    ensures !Truthy(Get(row, "gps_lat")) ==> LatOf(row) == ToFloat(Get(row, "gps_lat_R"))
    ensures Truthy(Get(row, "gps_lon")) ==> LonOf(row) == ToFloat(row["gps_lon"])
    ensures !Truthy(Get(row, "gps_lon")) ==> LonOf(row) == ToFloat(Get(row, "gps_lon_R"))
    ensures Truthy(Get(row, "gps_alt")) ==> AltOf(row) == ToFloat(row["gps_alt"])
    ensures !Truthy(Get(row, "gps_alt")) && Truthy(Get(row, "bmp_alt")) ==> AltOf(row) == ToFloat(row["bmp_alt"])
    ensures !Truthy(Get(row, "gps_alt")) && !Truthy(Get(row, "bmp_alt")) ==> AltOf(row) == ToFloat(Get(row, "Altitude_m"))
  {
  }

  /** A primary latitude of exactly 0.0 is falsy, so the redundant latitude is used. */
  lemma ZeroLatitudeFallsBack(row: Row, red: real)
    requires "gps_lat" in row && row["gps_lat"] == PyFloat(Fin(0.0))
    requires "gps_lat_R" in row && row["gps_lat_R"] == PyFloat(Fin(red))
    ensures LatOf(row) == Some(Fin(red))
  {
  }

  /** The last `k` elements of `s`, or all of `s` when it is shorter (`s[-k:]`). */
  function Recent(s: seq<Float>, k: nat): (r: seq<Float>)
    ensures |r| == (if |s| > k then k else |s|)
    ensures r == s[|s| - |r|..]
  {
    if |s| > k then s[|s| - k..] else s
  }

  /** One live point added to a list, which is then cut back to its last 1000 entries. */
  function Appended(s: seq<Float>, v: Float): seq<Float> {
    Recent(s + [v], MaxPoints)
  }

  /**
   * An append keeps at most 1000 points, ends with the new point, and keeps
   * the most recent earlier points in order; below the cap nothing is dropped.
   */
  lemma AppendedKeepsRecent(s: seq<Float>, v: Float)
    ensures var r := Appended(s, v);
            |r| <= MaxPoints && r != [] && r[|r| - 1] == v &&
            (forall i :: 0 <= i < |r| - 1 ==> r[i] == s[|s| + 1 - |r| + i]) &&
            (|s| < MaxPoints ==> r == s + [v])
  {
    var sv := s + [v];
    var r := Recent(sv, MaxPoints);
    var d := |sv| - |r|;
    assert r == sv[d..];
    assert r[|r| - 1] == sv[|sv| - 1] == v;
    forall i | 0 <= i < |r| - 1
      ensures r[i] == s[|s| + 1 - |r| + i]
    {
      assert r[i] == sv[d + i];
      assert d + i < |s|;
    }
  }

  /** A run of live points appended one at a time. */
  function AppendAll(s: seq<Float>, vs: seq<Float>): seq<Float>
    decreases |vs|
  {
    if vs == [] then s else AppendAll(Appended(s, vs[0]), vs[1..])
  }

  /** Cutting to the last `k` before appending more and cutting again loses nothing extra. */
  lemma RecentTwice(a: seq<Float>, b: seq<Float>, k: nat)
    ensures Recent(Recent(a, k) + b, k) == Recent(a + b, k)
  {
    if |a| > k {
      var x, d := a + b, |a| - k;
      assert Recent(a, k) + b == x[d..];
      if b != [] {
        assert x[d..][|b|..] == x[d + |b|..];
        assert Recent(x[d..], k) == Recent(x, k);
      }
    }
  }

  /**
   * However many live points arrive, the track holds exactly the most recent
   * 1000 of all its points, in arrival order.
   */
  lemma {:induction false} AppendAllKeepsLatest(s: seq<Float>, vs: seq<Float>)
    requires |s| <= MaxPoints
    ensures AppendAll(s, vs) == Recent(s + vs, MaxPoints)
    decreases |vs|
  {
    if vs == [] {
      assert s + vs == s;
    } else {
      var s' := Appended(s, vs[0]);
      AppendAllKeepsLatest(s', vs[1..]);
      RecentTwice(s + [vs[0]], vs[1..], MaxPoints);
      assert (s + [vs[0]]) + vs[1..] == s + vs;
    }
  }

  /** The track read back from the CSV. */
  datatype Track = Track(lat: seq<Float>, lon: seq<Float>, alt: seq<Float>)

  /** Three lists of one non-zero length holding no NaN. */
  predicate Parallel(t: Track) {
    |t.lat| == |t.lon| == |t.alt| > 0 && NoNaN(t.lat) && NoNaN(t.lon) && NoNaN(t.alt)
  }

  predicate NoNaN(s: seq<Float>) {
    forall i :: 0 <= i < |s| ==> s[i].Fin?
  }

  lemma RecentNoNaN(s: seq<Float>, k: nat)
    requires NoNaN(s)
    ensures NoNaN(Recent(s, k))
  {
    var r := Recent(s, k);
    forall i | 0 <= i < |r|
      ensures r[i].Fin?
    {
      assert r[i] == s[|s| - |r| + i];
    }
  }

  /** `a` is the last `|a|` entries of `b`. */
  predicate IsSuffix(a: seq<Float>, b: seq<Float>) {
    |a| <= |b| && a == b[|b| - |a|..]
  }

  /** The altitude column of the CSV before `fillna(0)`: `gps_alt`, else `bmp_alt`, else zeros. */
  function AltColumn(df: Frame): seq<Float> {
    if "gps_alt" in df.cols then df.cols["gps_alt"]
    else if "bmp_alt" in df.cols then df.cols["bmp_alt"]
    else seq(df.rows, _ => Fin(0.0))
  }

  function Min3(a: nat, b: nat, c: nat): nat {
    if a <= b && a <= c then a else if b <= c then b else c
  }

  /**
   * The body of `_periodic_update` once the CSV is read: the non-NaN
   * latitudes and longitudes and the NaN-filled altitudes, each cut to the
   * last `n` entries where `n` is the shortest of the three; None when a
   * coordinate column is missing or `n` is 0.
   */
  function Reloaded(df: Frame): Option<Track> {
    if "gps_lat" in df.cols && "gps_lon" in df.cols then
      var la, lo := DropNa(df.cols["gps_lat"]), DropNa(df.cols["gps_lon"]);
      var al := FillNa(AltColumn(df), 0.0);
      var n := Min3(|la|, |lo|, |al|);
      if n > 0 then Some(Track(Recent(la, n), Recent(lo, n), Recent(al, n))) else None
    else None
  }

  /**
   * A CSV with both coordinate columns, some non-NaN latitude and longitude
   * and at least one row becomes a track of equal-length lists without NaN,
   * made of the most recent non-NaN latitudes and longitudes; any other CSV
   * leaves the track alone.
   */
  lemma ReloadedShape(df: Frame)
    ensures Reloaded(df).Some? <==>
            ("gps_lat" in df.cols && "gps_lon" in df.cols &&
             DropNa(df.cols["gps_lat"]) != [] && DropNa(df.cols["gps_lon"]) != [] && AltColumn(df) != [])
    ensures Reloaded(df).Some? ==> Parallel(Reloaded(df).value)
    ensures Reloaded(df).Some? ==>
            IsSuffix(Reloaded(df).value.lat, DropNa(df.cols["gps_lat"])) &&
            IsSuffix(Reloaded(df).value.lon, DropNa(df.cols["gps_lon"]))
  {
    if "gps_lat" in df.cols && "gps_lon" in df.cols {
      var la, lo := DropNa(df.cols["gps_lat"]), DropNa(df.cols["gps_lon"]);
      var al := FillNa(AltColumn(df), 0.0);
      var n := Min3(|la|, |lo|, |al|);
      assert n <= |la| && n <= |lo| && n <= |al|;
      assert n > 0 <==> (la != [] && lo != [] && al != []);
      if n > 0 {
        assert NoNaN(la) && NoNaN(lo) && NoNaN(al);
        RecentNoNaN(la, n);
        RecentNoNaN(lo, n);
        RecentNoNaN(al, n);
      }
    }
  }

  /** The throttle state: `_pending_render` and `_last_render`. */
  datatype Render = Render(pending: bool, lastRender: real)

  /** `_schedule` gets past its guards: a webview exists, 2 s have passed, nothing is pending. */
  predicate Opens(st: Render, now: real, webview: bool) {
    webview && !(now - st.lastRender < ThrottleSeconds) && !st.pending
  }

  /** `_schedule` starts a prediction: it gets past its guards and the track is not empty. */
  predicate Starts(st: Render, now: real, webview: bool, hasTrack: bool) {
    Opens(st, now, webview) && hasTrack
  }

  /** The throttle state after `_schedule`. */
  function AfterSchedule(st: Render, now: real, webview: bool, hasTrack: bool): Render {
    if Opens(st, now, webview) then Render(hasTrack, now) else st
  }

  /** The throttle state after a callback that ends a refresh cycle. */
  function Settle(st: Render): Render {
    Render(false, st.lastRender)
  }

  /**
   * `_schedule`: it starts work exactly when a webview exists, at least 2 s
   * have passed since the last render and nothing is pending, and the track
   * is not empty; past the guards `_last_render` becomes `now`, and
   * `_pending_render` is set, or cleared again for an empty track.
   * Otherwise it changes nothing.
   */
  lemma ScheduleRule(st: Render, now: real, webview: bool, hasTrack: bool)
    ensures Starts(st, now, webview, hasTrack) <==>
            (webview && now - st.lastRender >= 2.0 && !st.pending && hasTrack)
    ensures Opens(st, now, webview) ==>
            AfterSchedule(st, now, webview, hasTrack).lastRender == now &&
            (AfterSchedule(st, now, webview, hasTrack).pending <==> hasTrack)
    ensures !Opens(st, now, webview) ==> AfterSchedule(st, now, webview, hasTrack) == st
  {
  }

  /** What can happen to the throttle state: a `_schedule` call, a completed prediction, a callback that ends the cycle. */
  datatype Signal = Request(now: real, hasTrack: bool) | Predicted | Settled

  function Step(st: Render, webview: bool, s: Signal): Render {
    match s
    case Request(now, hasTrack) => AfterSchedule(st, now, webview, hasTrack)
    case Predicted => st
    case Settled => Settle(st)
  }

  /** The times at which predictions start over a run of signals. */
  function StartTimes(st: Render, webview: bool, sigs: seq<Signal>): seq<real>
    decreases |sigs|
  {
    if sigs == [] then []
    else
      var s := sigs[0];
      var here := if s.Request? && Starts(st, s.now, webview, s.hasTrack) then [s.now] else [];
      here + StartTimes(Step(st, webview, s), webview, sigs[1..])
  }

  /**
   * Whatever the order of calls and callbacks, every prediction starts at
   * least 2 s after the last render before the run, and any two successive
   * predictions start at least 2 s apart.
   */
  lemma {:induction false} StartsSpaced(st: Render, webview: bool, sigs: seq<Signal>)
    ensures forall k :: 0 <= k < |StartTimes(st, webview, sigs)| ==>
              StartTimes(st, webview, sigs)[k] - st.lastRender >= ThrottleSeconds
    ensures forall k :: 0 < k < |StartTimes(st, webview, sigs)| ==>
              StartTimes(st, webview, sigs)[k] - StartTimes(st, webview, sigs)[k - 1] >= ThrottleSeconds
    decreases |sigs|
  {
    if sigs != [] {
      var s := sigs[0];
      var st' := Step(st, webview, s);
      StartsSpaced(st', webview, sigs[1..]);
      assert st'.lastRender >= st.lastRender;
      var rest := StartTimes(st', webview, sigs[1..]);
      var ts := StartTimes(st, webview, sigs);
      if s.Request? && Starts(st, s.now, webview, s.hasTrack) {
        assert st'.lastRender == s.now;
        assert ts == [s.now] + rest;
        forall k | 0 <= k < |ts|
          ensures ts[k] - st.lastRender >= ThrottleSeconds
        {
          if k > 0 {
            assert ts[k] == rest[k - 1];
          }
        }
        forall k | 0 < k < |ts|
          ensures ts[k] - ts[k - 1] >= ThrottleSeconds
        {
          assert ts[k] == rest[k - 1];
          if k > 1 {
            assert ts[k - 1] == rest[k - 2];
          }
        }
      } else {
        assert ts == rest;
      }
    }
  }

  /** While a refresh is pending, no other prediction starts until a callback ends it. */
  lemma {:induction false} PendingBlocks(st: Render, webview: bool, sigs: seq<Signal>)
    requires st.pending
    requires forall i :: 0 <= i < |sigs| ==> !sigs[i].Settled?
    ensures StartTimes(st, webview, sigs) == []
    decreases |sigs|
  {
    if sigs != [] {
      assert !sigs[0].Settled?;
      assert Step(st, webview, sigs[0]) == st;
      PendingBlocks(st, webview, sigs[1..]);
    }
  }

  /** The inputs a landing-prediction worker is started with: the newest point. */
  datatype Snapshot = Snapshot(lat: Float, lon: Float, alt: Float)

  /** The inputs a map-render worker is started with. */
  datatype RenderJob = RenderJob(lat: seq<Float>, lon: seq<Float>, center: Point, current: Point,
                                 sender: Option<Point>, receiver: Option<Point>)

  function Last(s: seq<Float>): Float
    requires s != []
  {
    s[|s| - 1]
  }

  class GpsTabView {
    const webview: bool
    var lat: seq<Float>
    var lon: seq<Float>
    var alt: seq<Float>
    var pending: bool
    var lastRender: real
    var predictions: seq<Snapshot>
    var renders: seq<RenderJob>
    var url: Option<string>
    var sender: Option<Point>
    var receiver: Option<Point>

    /** The three lists stay parallel. */
    predicate Valid()
      reads this
    {
      |lat| == |lon| == |alt|
    }

    function State(): Render
      reads this
    {
      Render(pending, lastRender)
    }

    constructor(webview: bool, sender: Option<Point>, receiver: Option<Point>)
      ensures Valid() && this.webview == webview
      ensures lat == [] && lon == [] && alt == []
      ensures State() == Render(false, 0.0)
      ensures predictions == [] && renders == [] && url == None
      ensures this.sender == sender && this.receiver == receiver
    {
      this.webview := webview;
      lat, lon, alt := [], [], [];
      pending, lastRender := false, 0.0;
      predictions, renders, url := [], [], None;
      this.sender, this.receiver := sender, receiver;
    }

    /** `set_references`: a given reference replaces the stored one, a missing one keeps it. */
    method SetReferences(sender: Option<Point>, receiver: Option<Point>)
      modifies this
      ensures this.sender == (if sender.Some? then sender else old(this.sender))
      ensures this.receiver == (if receiver.Some? then receiver else old(this.receiver))
      ensures lat == old(lat) && lon == old(lon) && alt == old(alt) && State() == old(State())
      ensures predictions == old(predictions) && renders == old(renders) && url == old(url)
    {
      if sender.Some? {
        this.sender := sender;
      }
      if receiver.Some? {
        this.receiver := receiver;
      }
    }

    /** `_schedule`, at time `now`. */
    method Schedule(now: real)
      modifies this
      ensures State() == AfterSchedule(old(State()), now, webview, lat != [] && lon != [])
      ensures predictions == old(predictions) +
                (if Starts(old(State()), now, webview, lat != [] && lon != [])
                 then [Snapshot(Last(lat), Last(lon), if alt != [] then Last(alt) else Fin(0.0))]
                 else [])
      ensures lat == old(lat) && lon == old(lon) && alt == old(alt)
      ensures renders == old(renders) && url == old(url) && sender == old(sender) && receiver == old(receiver)
    {
      if !webview {
        return;
      }
      if now - lastRender < ThrottleSeconds || pending {
        return;
      }
      pending := true;
      lastRender := now;
      if lat == [] || lon == [] {
        pending := false;
        return;
      }
      var alt0 := if alt != [] then alt[|alt| - 1] else Fin(0.0);
      predictions := predictions + [Snapshot(lat[|lat| - 1], lon[|lon| - 1], alt0)];
    }

    /**
     * `append_live_data`: a row without a usable latitude or longitude
     * changes nothing; otherwise the point is appended (a missing altitude
     * as 0.0), the lists are cut back to their last 1000 entries, and a
     * refresh of the newest point is requested.
     */
    method AppendLiveData(row: Row, now: real)
      requires Valid()
      modifies this
      ensures Valid() && |lat| <= old(|lat|) + 1
      ensures (LatOf(row).None? || LonOf(row).None?) ==>
                lat == old(lat) && lon == old(lon) && alt == old(alt) &&
                State() == old(State()) && predictions == old(predictions)
      ensures LatOf(row).Some? && LonOf(row).Some? ==>
                var p := Snapshot(LatOf(row).value, LonOf(row).value, AltOf(row).GetOr(Fin(0.0)));
                lat == Appended(old(lat), p.lat) && lon == Appended(old(lon), p.lon) &&
                alt == Appended(old(alt), p.alt) &&
                State() == AfterSchedule(old(State()), now, webview, true) &&
                predictions == old(predictions) + (if Starts(old(State()), now, webview, true) then [p] else [])
      ensures renders == old(renders) && url == old(url) && sender == old(sender) && receiver == old(receiver)
    {
      var la, lo, altv := LatOf(row), LonOf(row), AltOf(row);
      if la.None? || lo.None? {
        return;
      }
      Push(Snapshot(la.value, lo.value, altv.GetOr(Fin(0.0))), now);
    }

    /**
     * The tail of `append_live_data`: the point is appended, the lists are
     * cut back to their last 1000 entries, and a refresh is requested.
     */
    method Push(p: Snapshot, now: real)
      requires Valid()
      modifies this
      ensures Valid() && |lat| <= old(|lat|) + 1
      ensures lat == Appended(old(lat), p.lat) && lon == Appended(old(lon), p.lon) && alt == Appended(old(alt), p.alt)
      ensures State() == AfterSchedule(old(State()), now, webview, true)
      ensures predictions == old(predictions) + (if Starts(old(State()), now, webview, true) then [p] else [])
      ensures renders == old(renders) && url == old(url) && sender == old(sender) && receiver == old(receiver)
    {
      lat, lon, alt := lat + [p.lat], lon + [p.lon], alt + [p.alt];
      if |lat| > MaxPoints {
        lat, lon, alt := lat[|lat| - MaxPoints..], lon[|lon| - MaxPoints..], alt[|alt| - MaxPoints..];
      }
      Schedule(now);
    }

    /**
     * `_periodic_update`, given the CSV as read (None when there is no
     * path, no file, or the read fails): a usable CSV replaces the track
     * and requests a refresh; anything else changes nothing.
     */
    method PeriodicUpdate(read: Option<Frame>, now: real)
      requires Valid()
      modifies this
      ensures Valid()
      ensures (read.None? || Reloaded(read.value).None?) ==>
                lat == old(lat) && lon == old(lon) && alt == old(alt) &&
                State() == old(State()) && predictions == old(predictions)
      ensures read.Some? && Reloaded(read.value).Some? ==>
                var t := Reloaded(read.value).value;
                lat == t.lat && lon == t.lon && alt == t.alt &&
                State() == AfterSchedule(old(State()), now, webview, true) &&
                predictions == old(predictions) +
                  (if Starts(old(State()), now, webview, true) then [Snapshot(Last(t.lat), Last(t.lon), Last(t.alt))] else [])
      ensures renders == old(renders) && url == old(url) && sender == old(sender) && receiver == old(receiver)
    {
      if read.None? {
        return;
      }
      var t := Reloaded(read.value);
      if t.Some? {
        lat, lon, alt := t.value.lat, t.value.lon, t.value.alt;
        Schedule(now);
      }
    }

    /**
     * `_on_predicted`: a prediction with a centre starts a render of the
     * whole track; a failure inside the handler (no usable centre or radius,
     * or no point to mark as current) ends the cycle.
     */
    method OnPredicted(center: Option<Point>)
      modifies this
      ensures center.Some? && lat != [] && lon != [] ==>
                State() == old(State()) &&
                renders == old(renders) + [RenderJob(lat, lon, center.value, (Last(lat), Last(lon)), sender, receiver)]
      ensures !(center.Some? && lat != [] && lon != []) ==>
                State() == Settle(old(State())) && renders == old(renders)
      ensures lat == old(lat) && lon == old(lon) && alt == old(alt)
      ensures predictions == old(predictions) && url == old(url) && sender == old(sender) && receiver == old(receiver)
    {
      if center.None? || lat == [] || lon == [] {
        pending := false;
        return;
      }
      var job := RenderJob(lat, lon, center.value, (lat[|lat| - 1], lon[|lon| - 1]), sender, receiver);
      renders := renders + [job];
    }

    /** `_on_rendered`: a non-empty page is shown when there is a webview; the cycle ends either way. */
    method OnRendered(htmlPath: string)
      modifies this
      ensures State() == Settle(old(State()))
      ensures url == (if htmlPath != "" && webview then Some(htmlPath) else old(url))
      ensures lat == old(lat) && lon == old(lon) && alt == old(alt)
      ensures predictions == old(predictions) && renders == old(renders) && sender == old(sender) && receiver == old(receiver)
    {
      if htmlPath != "" && webview {
        url := Some(htmlPath);
      }
      pending := false;
    }

    /** `_on_predict_error`: the cycle ends. */
    method OnPredictError()
      modifies this
      ensures State() == Settle(old(State()))
      ensures lat == old(lat) && lon == old(lon) && alt == old(alt)
      ensures predictions == old(predictions) && renders == old(renders) && url == old(url)
      ensures sender == old(sender) && receiver == old(receiver)
    {
      pending := false;
    }

    /** `_on_render_error`: the cycle ends. */
    method OnRenderError()
      modifies this
      ensures State() == Settle(old(State()))
      ensures lat == old(lat) && lon == old(lon) && alt == old(alt)
      ensures predictions == old(predictions) && renders == old(renders) && url == old(url)
      ensures sender == old(sender) && receiver == old(receiver)
    {
      pending := false;
    }
  }
}
