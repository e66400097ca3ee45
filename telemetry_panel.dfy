/**
 * `TelemetryPanel` (telemetry1.py): the side panel that shows the packet
 * count, the connection state, one label per flight and GPS field and the
 * row of navigation buttons. Label widgets are modelled by the value they
 * display: a label shows `str(v)` of the value stored for it.
 */
module TelemetryPanel {
  import opened Wrappers
  import opened Text
  import opened Values

  /** A telemetry row as the panel receives it. */
  type Row = map<string, PyValue>

  /** `flight_keys`: (caption, column) in display order. */
  const FlightKeys: seq<(string, string)> := [
    ("Altitude", "bmp_alt"), ("Acceleration", "accel"), ("Temperature", "bme_temp"),
    ("Pressure", "bme_p"), ("Battery", "batt_v"), ("Comm", "comm_q")
  ]

  /** `gps_keys`: (caption, column) in display order. */
  const GpsKeys: seq<(string, string)> := [
    ("GPS Alt", "gps_alt"), ("Latitude", "gps_lat"), ("Longitude", "gps_lon"),
    ("Velocity", "gps_vel"), ("Comm Redundant", "comm_q_R")
  ]

  /** The captions of the navigation buttons, one per tab. */
  const TabNames: seq<string> := ["CONTROL", "LIVE-3D", "SYS_INFO", "GPS", "CSV", "MISSION LOGS"]

  /** A primary value the panel treats as missing: `None`, or one of the strings "", "-" and "nan". */
  predicate Missing(v: PyValue) {
    v.PyNone? || (v.PyStr? && (v.s == "" || v.s == "-" || v.s == "nan"))
  }

  /** The value chosen for column `col`: the primary, or the `_R` value when the primary is missing and the `_R` value is not `None`. */
  function Resolve(row: Row, col: string): PyValue {
    var primary, redundant := Get(row, col), Get(row, col + "_R");
    if Missing(primary) && redundant != PyNone then redundant else primary
  }

  /** What the label for `col` shows: the resolved value, or "-" when it is `None`. */
  function Shown(row: Row, col: string): (v: PyValue)
    ensures v != PyNone
  {
    var r := Resolve(row, col);
    if r == PyNone then PyStr("-") else r
  }

  /** `str(n)` for a count: its decimal digits. */
  function NatText(n: nat): (s: string)
    ensures s != [] && AllDigits(s) && DigitsValue(s) == n
    decreases n
  {
    var d := ['0' + (n % 10) as char];
    if n < 10 then d
    else
      var s := NatText(n / 10) + d;
      assert s[..|s| - 1] == NatText(n / 10);
      s
  }

  /** The connection caption: the given text when it is a non-empty string, otherwise the default for the state. */
  function ConnectionText(connected: bool, text: Option<string>): string {
    if text.Some? && text.value != "" then text.value
    else if connected then "CONNECTED" else "DISCONNECTED"
  }

  /** The connection colour for the state. */
  function ConnectionColor(connected: bool): string {
    if connected then "#006400" else "#d63031"
  }

  class Panel {
    var packets: nat
    var packLabel: string
    var connLabel: string
    var connColor: string
    var flightLabels: seq<PyValue>
    var gpsLabels: seq<PyValue>
    var checked: seq<bool>
    /** The indices emitted on `tab_select`, in order. */
    var tabSignals: seq<int>

    /** The panel as built: no packets yet, disconnected, every field label "-", no button checked. */
    constructor ()
      ensures packets == 0 && packLabel == "0"
      ensures connLabel == "DISCONNECTED" && connColor == "#d63031"
      ensures flightLabels == seq(|FlightKeys|, i => PyStr("-"))
      ensures gpsLabels == seq(|GpsKeys|, i => PyStr("-"))
      ensures checked == seq(|TabNames|, i => false) && tabSignals == []
    {
      packets := 0;
      packLabel := "0";
      connLabel := "DISCONNECTED";
      connColor := "#d63031";
      flightLabels := seq(|FlightKeys|, i => PyStr("-"));
      gpsLabels := seq(|GpsKeys|, i => PyStr("-"));
      checked := seq(|TabNames|, i => false);
      tabSignals := [];
    }

    /** `_tab_clicked(ix)`: exactly button `ix` is checked, and `ix` is emitted. */
    method TabClicked(ix: int)
      modifies this
      ensures |checked| == |old(checked)|
      ensures forall i :: 0 <= i < |checked| ==> checked[i] == (i == ix)
      ensures tabSignals == old(tabSignals) + [ix]
      ensures packets == old(packets) && flightLabels == old(flightLabels) && gpsLabels == old(gpsLabels)
      ensures connLabel == old(connLabel) && packLabel == old(packLabel) && connColor == old(connColor)
    {
      var buttons := checked;
      var i := 0;
      while i < |buttons|
        invariant 0 <= i <= |buttons| && |buttons| == |checked|
        invariant forall j :: 0 <= j < i ==> buttons[j] == (j == ix)
      {
        buttons := buttons[i := i == ix];
        i := i + 1;
      }
      checked := buttons;
      tabSignals := tabSignals + [ix];
    }

    /** `set_connection_state(connected, text)`. */
    method SetConnectionState(connected: bool, text: Option<string>)
      modifies this
      ensures connLabel == ConnectionText(connected, text) && connColor == ConnectionColor(connected)
      ensures packets == old(packets) && packLabel == old(packLabel)
      ensures flightLabels == old(flightLabels) && gpsLabels == old(gpsLabels)
      ensures checked == old(checked) && tabSignals == old(tabSignals)
    {
      if connected {
        connLabel := if text.Some? && text.value != "" then text.value else "CONNECTED";
        connColor := "#006400";
      } else {
        connLabel := if text.Some? && text.value != "" then text.value else "DISCONNECTED";
        connColor := "#d63031";
      }
    }

    /** `update_telemetry(row)`: count the packet and refresh every field label from the row. */
    method UpdateTelemetry(row: Row)
      modifies this
      ensures packets == old(packets) + 1 && packLabel == NatText(packets)
      ensures |flightLabels| == |FlightKeys| && forall i :: 0 <= i < |FlightKeys| ==> flightLabels[i] == Shown(row, FlightKeys[i].1)
      ensures |gpsLabels| == |GpsKeys| && forall i :: 0 <= i < |GpsKeys| ==> gpsLabels[i] == Shown(row, GpsKeys[i].1)
      ensures connLabel == old(connLabel) && connColor == old(connColor)
      ensures checked == old(checked) && tabSignals == old(tabSignals)
    {
      packets := packets + 1;
      packLabel := NatText(packets);
      var fl := seq(|FlightKeys|, i => PyStr("-"));
      var i := 0;
      while i < |FlightKeys|
        invariant 0 <= i <= |FlightKeys| && |fl| == |FlightKeys|
        invariant forall j :: 0 <= j < i ==> fl[j] == Shown(row, FlightKeys[j].1)
      {
        var col := FlightKeys[i].1;
        var value := Get(row, col);
        if Missing(value) && Get(row, col + "_R") != PyNone {
          value := Get(row, col + "_R");
        }
        fl := fl[i := if value != PyNone then value else PyStr("-")];
        i := i + 1;
      }
      flightLabels := fl;
      var gl := seq(|GpsKeys|, i => PyStr("-"));
      i := 0;
      while i < |GpsKeys|
        invariant 0 <= i <= |GpsKeys| && |gl| == |GpsKeys|
        invariant forall j :: 0 <= j < i ==> gl[j] == Shown(row, GpsKeys[j].1)
      {
        var col := GpsKeys[i].1;
        var value := Get(row, col);
        if Missing(value) && Get(row, col + "_R") != PyNone {
          value := Get(row, col + "_R");
        }
        gl := gl[i := if value != PyNone then value else PyStr("-")];
        i := i + 1;
      }
      gpsLabels := gl;
    }
  }

  // ---------------------------------------------------------------------
  // The fallback rule
  // ---------------------------------------------------------------------

  /**
   * The fallback rule in full: the `_R` value is shown exactly when the
   * primary is missing and the `_R` value exists; otherwise the primary is.
   */
  lemma ResolveRule(row: Row, col: string)
    ensures var p, r := Get(row, col), Get(row, col + "_R");
            (Resolve(row, col) == p || Resolve(row, col) == r) &&
            (!Missing(p) ==> Resolve(row, col) == p) &&
            (Missing(p) && r != PyNone ==> Resolve(row, col) == r) &&
            (Missing(p) && r == PyNone ==> Resolve(row, col) == p)
  {
  }

  /** A numeric primary is never replaced, zero and NaN included. */
  lemma NumberNeverFallsBack(row: Row, col: string, f: Float)
    requires Get(row, col) == PyFloat(f)
    ensures Resolve(row, col) == PyFloat(f) && Shown(row, col) == PyFloat(f)
  {
  }

  /** A label shows "-" for a column with neither a primary nor an `_R` value, and a present primary otherwise keeps its slot. */
  lemma ShownDash(row: Row, col: string)
    ensures col !in row && col + "_R" !in row ==> Shown(row, col) == PyStr("-")
    ensures Resolve(row, col) == PyNone <==> Get(row, col) == PyNone && Get(row, col + "_R") == PyNone
  {
  }

  /** The connection caption defaults by state only when no non-empty text is given. */
  lemma ConnectionTextRule(connected: bool, text: Option<string>)
    ensures text.Some? && text.value != "" ==> ConnectionText(connected, text) == text.value
    ensures text == None || text == Some("") ==>
              ConnectionText(connected, text) == (if connected then "CONNECTED" else "DISCONNECTED")
  {
  }

  /** The counter label reads back as the count. */
  lemma PacketLabelRoundTrip(n: nat)
    ensures DigitsValue(NatText(n)) == n && AllDigits(NatText(n))
  {
  }
}
