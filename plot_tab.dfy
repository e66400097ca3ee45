/**
 * The plot tab's data step (tabs/plottab.py, `update_data`): from the
 * telemetry CSV, the last 100 rows become one measured series and one
 * redundant overlay per sensor, plus the GPS track for the map. The CSV is
 * an input (None when it cannot be read); curves are modelled by the data
 * last given to them.
 */
module PlotTab {
  import opened Wrappers
  import opened Values
  import opened Redundancy

  /** The number of trailing rows plotted (`df.tail(100)`). */
  const Window: nat := 100

  /** `PRIMARY_REDUNDANT`: the primary and, when there is one, the redundant column of each sensor. */
  const PrimaryRedundant: map<string, (string, Option<string>)> := map[
    "Temp_C" := ("Temp_C", None),
    "Altitude_m" := ("Altitude_m", Some("Altitude_R_m")),
    "Pressure_Pa" := ("Pressure_Pa", None),
    "Velocity_m_s" := ("Velocity_m_s", Some("Velocity_R_m_s")),
    "Accel_m_s2" := ("Accel_m_s2", Some("Accel_R_m_s2")),
    "Battery_pct" := ("Battery_pct", Some("Battery_R_pct"))
  ]

  /** The sensors of `PLOT_CONFIGS`, one plot each, in layout order. */
  const PlotSensors: seq<string> := ["Altitude_m", "Temp_C", "Pressure_Pa", "Velocity_m_s", "Accel_m_s2", "Battery_pct"]

  predicate WellFormed(df: Frame) {
    Rect(df.cols, df.rows)
  }

  /** What a curve displays: nothing, or the points given to `setData`. */
  datatype Curve = Blank | Plotted(x: seq<Float>, y: seq<Float>)

  /** The GPS track handed to the map. */
  datatype Track = Track(lat: seq<Float>, lon: seq<Float>)

  /** The length of the plotted window. */
  function WindowLen(df: Frame): nat {
    if df.rows < Window then df.rows else Window
  }

  /** `col.tail(k)`: the last `k` samples, or all of them when there are fewer. */
  function Tail(col: seq<Float>, k: nat): (r: seq<Float>)
    ensures |r| == if |col| < k then |col| else k
  {
    if |col| < k then col else col[|col| - k..]
  }

  /** The x axis: the window of `Time_s` when that column exists, else 0, 1, ..., n - 1. */
  function XValues(df: Frame): (x: seq<Float>)
    requires WellFormed(df)
    ensures |x| == WindowLen(df)
  {
    if "Time_s" in df.cols then Tail(df.cols["Time_s"], Window)
    else seq(WindowLen(df), i => Fin(i as real))
  }

  /** The window of a primary column, or all NaN when the column is missing. */
  function PrimarySeries(df: Frame, col: string): (y: seq<Float>)
    requires WellFormed(df)
    ensures |y| == WindowLen(df)
  {
    if col in df.cols then Tail(df.cols[col], Window) else seq(WindowLen(df), i => NaN)
  }

  /** Whether a sensor is plotted against a redundant column that the CSV has. */
  predicate HasRedundant(df: Frame, sensor: string)
    requires sensor in PrimaryRedundant
  {
    var red := PrimaryRedundant[sensor].1;
    red.Some? && red.value in df.cols
  }

  /** `y_display.where(is_redundant, nan)`: the displayed value where the primary failed, NaN elsewhere. */
  function Overlay(prim: seq<Float>, display: seq<Float>): (r: seq<Float>)
    requires |prim| == |display|
    ensures |r| == |prim|
  {
    seq(|prim|, i requires 0 <= i < |prim| => if Failed(prim[i]) then display[i] else NaN)
  }

  /** The measured curve of a sensor. */
  function MainCurve(df: Frame, sensor: string): Curve
    requires WellFormed(df) && sensor in PrimaryRedundant
  {
    var (primCol, redCol) := PrimaryRedundant[sensor];
    var prim := PrimarySeries(df, primCol);
    if HasRedundant(df, sensor) then Plotted(XValues(df), Repair(prim, Tail(df.cols[redCol.value], Window)))
    else Plotted(XValues(df), prim)
  }

  /** The redundant overlay of a sensor: blank unless a redundant column is used. */
  function RedundantCurve(df: Frame, sensor: string): Curve
    requires WellFormed(df) && sensor in PrimaryRedundant
  {
    var (primCol, redCol) := PrimaryRedundant[sensor];
    var prim := PrimarySeries(df, primCol);
    if HasRedundant(df, sensor) then Plotted(XValues(df), Overlay(prim, Repair(prim, Tail(df.cols[redCol.value], Window))))
    else Blank
  }

  /** The map update: the non-missing latitudes and longitudes of the window, when both columns exist and both lists are non-empty. */
  function GpsTrack(df: Frame): Option<Track>
    requires WellFormed(df)
  {
    if "Latitude_deg" in df.cols && "Longitude_deg" in df.cols then
      var lat := DropNa(Tail(df.cols["Latitude_deg"], Window));
      var lon := DropNa(Tail(df.cols["Longitude_deg"], Window));
      if lat != [] && lon != [] then Some(Track(lat, lon)) else None
    else None
  }

  /** One sensor's pass of the plotting loop: its main curve and its redundant overlay. */
  method PlotSensor(df: Frame, xValues: seq<Float>, sensor: string) returns (main: Curve, overlay: Curve)
    requires WellFormed(df) && sensor in PrimaryRedundant && xValues == XValues(df)
    ensures main == MainCurve(df, sensor) && overlay == RedundantCurve(df, sensor)
  {
    var (primCol, redCol) := PrimaryRedundant[sensor];
    var yPrim := if primCol in df.cols then Tail(df.cols[primCol], Window) else seq(WindowLen(df), k => NaN);
    if redCol.Some? && redCol.value in df.cols {
      var yRed := Tail(df.cols[redCol.value], Window);
      var yDisplay := Repair(yPrim, yRed);
      main := Plotted(xValues, yDisplay);
      overlay := Plotted(xValues, Overlay(yPrim, yDisplay));
    } else {
      main := Plotted(xValues, yPrim);
      overlay := Blank;
    }
  }

  /** The plotting loop over the sensors, in order: each one's main curve and redundant overlay. */
  method PlotAll(df: Frame, sensors: seq<string>) returns (main: seq<Curve>, overlay: seq<Curve>)
    requires WellFormed(df) && forall i :: 0 <= i < |sensors| ==> sensors[i] in PrimaryRedundant
    ensures |main| == |sensors| && |overlay| == |sensors|
    ensures forall i :: 0 <= i < |sensors| ==> main[i] == MainCurve(df, sensors[i])
    ensures forall i :: 0 <= i < |sensors| ==> overlay[i] == RedundantCurve(df, sensors[i])
  {
    var xValues := XValues(df);
    main, overlay := [], [];
    var i := 0;
    while i < |sensors|
      invariant 0 <= i <= |sensors| && |main| == i && |overlay| == i
      invariant forall j :: 0 <= j < i ==> main[j] == MainCurve(df, sensors[j])
      invariant forall j :: 0 <= j < i ==> overlay[j] == RedundantCurve(df, sensors[j])
    {
      var m, o := PlotSensor(df, xValues, sensors[i]);
      main, overlay := main + [m], overlay + [o];
      i := i + 1;
    }
  }

  class PlotTabView {
    var curves: seq<Curve>
    var redundantCurves: seq<Curve>
    /** The track the map last rendered, if any. */
    var track: Option<Track>

    constructor ()
      ensures curves == seq(|PlotSensors|, i => Blank) && redundantCurves == seq(|PlotSensors|, i => Blank)
      ensures track == None
    {
      curves := seq(|PlotSensors|, i => Blank);
      redundantCurves := seq(|PlotSensors|, i => Blank);
      track := None;
    }

    /** `update_data` on the CSV as read (None: the read failed, which is only reported). */
    method UpdateData(read: Option<Frame>)
      requires read.Some? ==> WellFormed(read.value)
      modifies this
      ensures read.None? || read.value.rows < 2 ==>
                curves == old(curves) && redundantCurves == old(redundantCurves) && track == old(track)
      ensures read.Some? && read.value.rows >= 2 ==>
                |curves| == |PlotSensors| && |redundantCurves| == |PlotSensors| &&
                (forall i :: 0 <= i < |PlotSensors| ==> curves[i] == MainCurve(read.value, PlotSensors[i])) &&
                (forall i :: 0 <= i < |PlotSensors| ==> redundantCurves[i] == RedundantCurve(read.value, PlotSensors[i])) &&
                track == (if GpsTrack(read.value).Some? then GpsTrack(read.value) else old(track))
    {
      if read.None? || read.value.rows < 2 {
        return;
      }
      var df := read.value;
      var main, overlay := PlotAll(df, PlotSensors);
      curves, redundantCurves := main, overlay;
      if "Latitude_deg" in df.cols && "Longitude_deg" in df.cols {
        var lat := DropNa(Tail(df.cols["Latitude_deg"], Window));
        var lon := DropNa(Tail(df.cols["Longitude_deg"], Window));
        if lat != [] && lon != [] {
          track := Some(Track(lat, lon));
        }
      }
    }
  }

  // ---------------------------------------------------------------------
  // Properties of the series
  // ---------------------------------------------------------------------

  /** The window is the last `min(n, 100)` samples of a column, in order. */
  lemma WindowIsTail(df: Frame, col: string, i: nat)
    requires WellFormed(df) && col in df.cols && i < WindowLen(df)
    ensures Tail(df.cols[col], Window)[i] == df.cols[col][df.rows - WindowLen(df) + i]
  {
  }

  /** The x axis is the `Time_s` window when there is one, and the row positions 0..n-1 otherwise. */
  lemma XAxis(df: Frame, i: nat)
    requires WellFormed(df) && i < WindowLen(df)
    ensures "Time_s" in df.cols ==> XValues(df)[i] == df.cols["Time_s"][df.rows - WindowLen(df) + i]
    ensures "Time_s" !in df.cols ==> XValues(df)[i] == Fin(i as real)
  {
  }

  /** Every series of a plot has as many points as the x axis. */
  lemma SeriesLengths(df: Frame, sensor: string)
    requires WellFormed(df) && sensor in PrimaryRedundant
    ensures MainCurve(df, sensor).Plotted? && |MainCurve(df, sensor).y| == |MainCurve(df, sensor).x| == WindowLen(df)
    ensures RedundantCurve(df, sensor).Plotted? ==>
              |RedundantCurve(df, sensor).y| == |RedundantCurve(df, sensor).x| == WindowLen(df)
  {
  }

  /** A missing primary column is plotted as NaN throughout. */
  lemma MissingPrimaryIsNaN(df: Frame, col: string, i: nat)
    requires WellFormed(df) && col !in df.cols && i < WindowLen(df)
    ensures PrimarySeries(df, col)[i] == NaN
  {
  }

  /**
   * With a redundant column, the measured curve shows the redundant sample
   * exactly where the primary is NaN or 0, and the overlay shows that
   * replaced value there and NaN everywhere else.
   */
  lemma DisplayRule(df: Frame, sensor: string, i: nat)
    requires WellFormed(df) && sensor in PrimaryRedundant && HasRedundant(df, sensor) && i < WindowLen(df)
    ensures var prim := PrimarySeries(df, PrimaryRedundant[sensor].0);
            var red := Tail(df.cols[PrimaryRedundant[sensor].1.value], Window);
            var shown := MainCurve(df, sensor).y;
            var over := RedundantCurve(df, sensor).y;
            (Failed(prim[i]) ==> shown[i] == red[i] && over[i] == red[i]) &&
            (!Failed(prim[i]) ==> shown[i] == prim[i] && over[i] == NaN)
  {
  }

  /** Without a redundant column (Temp_C, Pressure_Pa, or an absent one), the primary is shown unchanged and the overlay is cleared. */
  lemma NoRedundantShowsPrimary(df: Frame, sensor: string)
    requires WellFormed(df) && sensor in PrimaryRedundant && !HasRedundant(df, sensor)
    ensures MainCurve(df, sensor) == Plotted(XValues(df), PrimarySeries(df, PrimaryRedundant[sensor].0))
    ensures RedundantCurve(df, sensor) == Blank
  {
  }

  /** Temp_C and Pressure_Pa never use a redundant column; the other four always have one configured. */
  lemma RedundantConfiguration(df: Frame)
    ensures !HasRedundant(df, "Temp_C") && !HasRedundant(df, "Pressure_Pa")
    ensures forall s :: s in PlotSensors ==> s in PrimaryRedundant && PrimaryRedundant[s].0 == s
  {
  }

  /** The map receives the non-missing window values of both GPS columns, and only when both lists are non-empty. */
  lemma GpsTrackRule(df: Frame)
    requires WellFormed(df)
    ensures GpsTrack(df).Some? <==>
              ("Latitude_deg" in df.cols && "Longitude_deg" in df.cols &&
               DropNa(Tail(df.cols["Latitude_deg"], Window)) != [] &&
               DropNa(Tail(df.cols["Longitude_deg"], Window)) != [])
    ensures GpsTrack(df).Some? ==>
              (forall i :: 0 <= i < |GpsTrack(df).value.lat| ==> GpsTrack(df).value.lat[i].Fin?) &&
              (forall i :: 0 <= i < |GpsTrack(df).value.lon| ==> GpsTrack(df).value.lon[i].Fin?)
  {
  }

  // ---------------------------------------------------------------------
  // Index alignment when the primary column is missing
  // ---------------------------------------------------------------------

  /**
   * `y_prim.mask(is_redundant, y_red)` as pandas evaluates it when the
   * primary column is missing: the all-NaN stand-in is indexed 0..k-1 while
   * the redundant window keeps the frame's labels n-k..n-1, and `mask`
   * aligns `y_red` by label, so position `i` receives the redundant sample
   * labelled `i`, or NaN when there is none.
   */
  function MissingPrimaryDisplayAsWritten(df: Frame, redCol: string): (y: seq<Float>)
    requires WellFormed(df) && redCol in df.cols
    ensures |y| == WindowLen(df)
  {
    var k := WindowLen(df);
    var start := df.rows - k;
    var red := Tail(df.cols[redCol], Window);
    seq(k, i requires 0 <= i < k => if start <= i then red[i - start] else NaN)
  }

  /** As written, 101 rows with an absent primary show NaN where the first redundant sample of the window is 1. */
  lemma MissingPrimaryMisaligned()
    ensures var df := Frame(map["Altitude_R_m" := seq(101, i => Fin(1.0))], 101);
            WellFormed(df) &&
            MissingPrimaryDisplayAsWritten(df, "Altitude_R_m")[0] == NaN &&
            Tail(df.cols["Altitude_R_m"], Window)[0] == Fin(1.0)
  {
  }

  /** The positional combination the rest of the model uses: an absent primary shows the redundant window unchanged. */
  lemma MissingPrimaryShowsRedundant(df: Frame, sensor: string)
    requires WellFormed(df) && sensor in PrimaryRedundant && HasRedundant(df, sensor)
    requires PrimaryRedundant[sensor].0 !in df.cols
    ensures MainCurve(df, sensor).y == Tail(df.cols[PrimaryRedundant[sensor].1.value], Window)
  {
    var prim := PrimarySeries(df, PrimaryRedundant[sensor].0);
    var red := Tail(df.cols[PrimaryRedundant[sensor].1.value], Window);
    assert forall i :: 0 <= i < |prim| ==> Failed(prim[i]);
  }
}
