/**
 * `XBeeTelemetryWorker._parse_frame`: the lines of one frame folded into a
 * flat record from field name to the numeric literal matched for it.
 * Values stay the matched literal text; `float(...)` is not applied.
 */
module FrameParser {
  import opened Wrappers
  import opened Text
  import opened NumericTokens

  /** A parsed frame: field name to the literal written for it. */
  type Record = map<string, string>

  /** The sensor family a (stripped) line belongs to, chosen by its prefix. */
  datatype Family = Gyro | Bme | Bmp | Gps | GyroR | BmeR | BmpR | GpsR

  /** The prefix test chain of `_parse_frame`, in its order. */
  function FamilyOf(line: string): Option<Family> {
    if StartsWith(line, "Gyro:") then Some(Gyro)
    else if StartsWith(line, "BME:") then Some(Bme)
    else if StartsWith(line, "BMP:") then Some(Bmp)
    else if StartsWith(line, "GPS:") then Some(Gps)
    else if StartsWith(line, "Gyro(R):") then Some(GyroR)
    else if StartsWith(line, "BME(R):") then Some(BmeR)
    else if StartsWith(line, "BMP(R):") then Some(BmpR)
    else if StartsWith(line, "GPS(R):") then Some(GpsR)
    else None
  }

  /** The first three tokens of the line as three axes, or nothing when there are fewer. */
  function Axes(line: string, kx: string, ky: string, kz: string): Record {
    var ts := Tokens(line);
    if |ts| >= 3 then map[kx := ts[0], ky := ts[1], kz := ts[2]] else map[]
  }

  /** Three named fields written together, or none of them. */
  function Group(line: string, f1: string, f2: string, f3: string, k1: string, k2: string, k3: string): Record {
    var a, b, c := Search(line, f1), Search(line, f2), Search(line, f3);
    if a.Some? && b.Some? && c.Some? then map[k1 := a.value, k2 := b.value, k3 := c.value] else map[]
  }

  /** One optional named field. */
  function Field(line: string, f: string, k: string): Record {
    var a := Search(line, f);
    if a.Some? then map[k := a.value] else map[]
  }

  /** What the family's branch writes for a stripped line. */
  function FamilyWrites(fam: Family, line: string): Record {
    match fam
    case Gyro => Axes(line, "gyro_x", "gyro_y", "gyro_z")
    case Bme => Group(line, "T=", "H=", "P=", "bme_temp", "bme_h", "bme_p")
    case Bmp => Group(line, "T=", "P=", "Alt=", "bmp_temp", "bmp_p", "bmp_alt")
    case Gps => Group(line, "Lat=", "Lon=", "Alt=", "gps_lat", "gps_lon", "gps_alt") + Field(line, "Vel=", "gps_vel")
    case GyroR => Axes(line, "gyro_x_R", "gyro_y_R", "gyro_z_R")
    case BmeR => Group(line, "T=", "H=", "P=", "bme_temp_R", "bme_h_R", "bme_p_R")
    case BmpR => Group(line, "T=", "P=", "Alt=", "bmp_temp_R", "bmp_p_R", "bmp_alt_R")
    case GpsR => Group(line, "Lat=", "Lon=", "Alt=", "gps_lat_R", "gps_lon_R", "gps_alt_R")
  }

  /** The keys a family can write. */
  function FamilyKeys(fam: Family): set<string> {
    match fam
    case Gyro => {"gyro_x", "gyro_y", "gyro_z"}
    case Bme => {"bme_temp", "bme_h", "bme_p"}
    case Bmp => {"bmp_temp", "bmp_p", "bmp_alt"}
    case Gps => {"gps_lat", "gps_lon", "gps_alt", "gps_vel"}
    case GyroR => {"gyro_x_R", "gyro_y_R", "gyro_z_R"}
    case BmeR => {"bme_temp_R", "bme_h_R", "bme_p_R"}
    case BmpR => {"bmp_temp_R", "bmp_p_R", "bmp_alt_R"}
    case GpsR => {"gps_lat_R", "gps_lon_R", "gps_alt_R"}
  }

  /** The groups of keys that are written together or not at all. */
  const Groups: seq<set<string>> := [
    {"gyro_x", "gyro_y", "gyro_z"}, {"bme_temp", "bme_h", "bme_p"},
    {"bmp_temp", "bmp_p", "bmp_alt"}, {"gps_lat", "gps_lon", "gps_alt"},
    {"gyro_x_R", "gyro_y_R", "gyro_z_R"}, {"bme_temp_R", "bme_h_R", "bme_p_R"},
    {"bmp_temp_R", "bmp_p_R", "bmp_alt_R"}, {"gps_lat_R", "gps_lon_R", "gps_alt_R"}
  ]

  /**
   * The keys one raw line writes into the record. Blank lines and lines
   * with an unrecognised prefix write nothing; a recognised line writes only
   * keys of its own family.
   */
  function LineWrites(raw: string): (w: Record)
    ensures Strip(raw) == [] || FamilyOf(Strip(raw)).None? ==> w == map[]
    ensures FamilyOf(Strip(raw)).Some? ==> w.Keys <= FamilyKeys(FamilyOf(Strip(raw)).value)
  {
    var line := Strip(raw);
    if line == [] then map[]
    else match FamilyOf(line)
      case None => map[]
      case Some(fam) => FamilyWritesKeys(fam, line); FamilyWrites(fam, line)
  }

  /** A family's branch writes only that family's keys. */
  lemma FamilyWritesKeys(fam: Family, line: string)
    ensures FamilyWrites(fam, line).Keys <= FamilyKeys(fam)
  {
    match fam
    case Gps =>
      assert Group(line, "Lat=", "Lon=", "Alt=", "gps_lat", "gps_lon", "gps_alt").Keys <= FamilyKeys(Gps);
    case _ =>
  }

  /** Records laid over one another in order: a later record's value for a key wins. */
  function Overlay(ws: seq<Record>): Record
    decreases |ws|
  {
    if ws == [] then map[] else Overlay(ws[..|ws| - 1]) + ws[|ws| - 1]
  }

  /** What each line of a frame writes, line by line. */
  function Writes(lines: seq<string>): (ws: seq<Record>)
    ensures |ws| == |lines|
  {
    seq(|lines|, j requires 0 <= j < |lines| => LineWrites(lines[j]))
  }

  /**
   * The record of a whole frame: each line's writes applied in order over
   * an empty dictionary, so a later line overwrites an earlier one.
   */
  function FrameRecord(lines: seq<string>): Record {
    Overlay(Writes(lines))
  }

  lemma OverlaySnoc(ws: seq<Record>, w: Record)
    ensures Overlay(ws + [w]) == Overlay(ws) + w
  {
    assert (ws + [w])[..|ws|] == ws;
  }

  /** Processing one more line adds that line's writes over the record so far. */
  lemma FrameSnoc(lines: seq<string>, l: string)
    ensures FrameRecord(lines + [l]) == FrameRecord(lines) + LineWrites(l)
  {
    WritesSnoc(lines, l);
    OverlaySnoc(Writes(lines), LineWrites(l));
  }

  lemma WritesSnoc(lines: seq<string>, l: string)
    ensures Writes(lines + [l]) == Writes(lines) + [LineWrites(l)]
  {
    var ls := lines + [l];
    assert forall j :: 0 <= j < |lines| ==> ls[j] == lines[j];
  }

  lemma UnionAssoc<K, V>(a: map<K, V>, b: map<K, V>, c: map<K, V>)
    ensures (a + b) + c == a + (b + c)
  {
  }

  /** `row["x"], row["y"], row["z"] = map(float, matches[:3])` when there are three matches. */
  method ApplyAxes(row0: Record, line: string, kx: string, ky: string, kz: string) returns (row: Record)
    ensures row == row0 + Axes(line, kx, ky, kz)
  {
    row := row0;
    var matches := Tokens(line);
    if |matches| >= 3 {
      row := row[kx := matches[0]];
      row := row[ky := matches[1]];
      row := row[kz := matches[2]];
    }
  }

  /** Three `re.search` results written only when all three matched. */
  method ApplyGroup(row0: Record, line: string, f1: string, f2: string, f3: string,
                    k1: string, k2: string, k3: string) returns (row: Record)
    ensures row == row0 + Group(line, f1, f2, f3, k1, k2, k3)
  {
    row := row0;
    var a, b, c := Search(line, f1), Search(line, f2), Search(line, f3);
    if a.Some? && b.Some? && c.Some? {
      row := row[k1 := a.value];
      row := row[k2 := b.value];
      row := row[k3 := c.value];
    }
  }

  /** One optional `re.search` result. */
  method ApplyField(row0: Record, line: string, f: string, k: string) returns (row: Record)
    ensures row == row0 + Field(line, f, k)
  {
    row := row0;
    var a := Search(line, f);
    if a.Some? {
      row := row[k := a.value];
    }
  }

  /** One iteration of the loop of `_parse_frame`: the branch for the line's prefix. */
  method ApplyLine(row0: Record, raw: string) returns (row: Record)
    ensures row == row0 + LineWrites(raw)
  {
    row := row0;
    var line := Strip(raw);
    if line == [] {
    } else if StartsWith(line, "Gyro:") {
      row := ApplyAxes(row, line, "gyro_x", "gyro_y", "gyro_z");
    } else if StartsWith(line, "BME:") {
      row := ApplyGroup(row, line, "T=", "H=", "P=", "bme_temp", "bme_h", "bme_p");
    } else if StartsWith(line, "BMP:") {
      row := ApplyGroup(row, line, "T=", "P=", "Alt=", "bmp_temp", "bmp_p", "bmp_alt");
    } else if StartsWith(line, "GPS:") {
      row := ApplyGroup(row, line, "Lat=", "Lon=", "Alt=", "gps_lat", "gps_lon", "gps_alt");
      row := ApplyField(row, line, "Vel=", "gps_vel");
      UnionAssoc(row0, Group(line, "Lat=", "Lon=", "Alt=", "gps_lat", "gps_lon", "gps_alt"), Field(line, "Vel=", "gps_vel"));
    } else if StartsWith(line, "Gyro(R):") {
      row := ApplyAxes(row, line, "gyro_x_R", "gyro_y_R", "gyro_z_R");
    } else if StartsWith(line, "BME(R):") {
      row := ApplyGroup(row, line, "T=", "H=", "P=", "bme_temp_R", "bme_h_R", "bme_p_R");
    } else if StartsWith(line, "BMP(R):") {
      row := ApplyGroup(row, line, "T=", "P=", "Alt=", "bmp_temp_R", "bmp_p_R", "bmp_alt_R");
    } else if StartsWith(line, "GPS(R):") {
      row := ApplyGroup(row, line, "Lat=", "Lon=", "Alt=", "gps_lat_R", "gps_lon_R", "gps_alt_R");
    }
  }

  /** `_parse_frame`: the loop over the lines, assigning into `row` as the source does. */
  method ParseFrame(rawLines: seq<string>) returns (row: Record)
    ensures row == FrameRecord(rawLines)
  {
    row := map[];
    var i := 0;
    while i < |rawLines|
      invariant 0 <= i <= |rawLines|
      invariant row == FrameRecord(rawLines[..i])
    {
      assert rawLines[..i + 1] == rawLines[..i] + [rawLines[i]];
      FrameSnoc(rawLines[..i], rawLines[i]);
      row := ApplyLine(row, rawLines[i]);
      i := i + 1;
    }
    assert rawLines[..i] == rawLines;
  }

  // ---------------------------------------------------------------------
  // Overlays of records in general
  // ---------------------------------------------------------------------

  lemma {:induction false} OverlayKeys(ws: seq<Record>, k: string)
    ensures k in Overlay(ws) <==> exists j :: 0 <= j < |ws| && k in ws[j]
    decreases |ws|
  {
    if ws != [] {
      var init := ws[..|ws| - 1];
      OverlayKeys(init, k);
      assert forall j :: 0 <= j < |init| ==> init[j] == ws[j];
      if k in ws[|ws| - 1] {
        assert k in Overlay(ws);
      }
    }
  }

  lemma {:induction false} OverlayLast(ws: seq<Record>, j: nat, k: string)
    requires j < |ws| && k in ws[j]
    requires forall j' :: j < j' < |ws| ==> k !in ws[j']
    ensures k in Overlay(ws) && Overlay(ws)[k] == ws[j][k]
    decreases |ws|
  {
    var init := ws[..|ws| - 1];
    if j < |ws| - 1 {
      assert forall j' :: j < j' < |init| ==> init[j'] == ws[j'];
      OverlayLast(init, j, k);
    }
  }

  lemma {:induction false} OverlayEmpty(pre: seq<Record>, post: seq<Record>)
    ensures Overlay(pre + [map[]] + post) == Overlay(pre + post)
    decreases |post|
  {
    if post == [] {
      assert pre + [map[]] + post == pre + [map[]];
      OverlaySnoc(pre, map[]);
      assert pre + post == pre;
    } else {
      var pinit, plast := post[..|post| - 1], post[|post| - 1];
      OverlayEmpty(pre, pinit);
      assert pre + [map[]] + post == (pre + [map[]] + pinit) + [plast];
      assert pre + post == (pre + pinit) + [plast];
      OverlaySnoc(pre + [map[]] + pinit, plast);
      OverlaySnoc(pre + pinit, plast);
    }
  }

  lemma {:induction false} OverlayAllOrNothing(ws: seq<Record>, g: set<string>)
    requires forall j :: 0 <= j < |ws| ==> g * ws[j].Keys == {} || g <= ws[j].Keys
    ensures g * Overlay(ws).Keys == {} || g <= Overlay(ws).Keys
    decreases |ws|
  {
    if ws != [] {
      var init := ws[..|ws| - 1];
      assert forall j :: 0 <= j < |init| ==> init[j] == ws[j];
      OverlayAllOrNothing(init, g);
      assert Overlay(ws).Keys == Overlay(init).Keys + ws[|ws| - 1].Keys;
    }
  }

  // ---------------------------------------------------------------------
  // Properties of the parsed record
  // ---------------------------------------------------------------------

  /** A key is in the record exactly when some line of the frame writes it. */
  lemma KeyPresence(lines: seq<string>, k: string)
    ensures k in FrameRecord(lines) <==> exists j :: 0 <= j < |lines| && k in LineWrites(lines[j])
  {
    OverlayKeys(Writes(lines), k);
    assert forall j :: 0 <= j < |lines| ==> Writes(lines)[j] == LineWrites(lines[j]);
  }

  /**
   * Last write wins: the value of a key is the one written by the last line
   * of the frame that writes that key.
   */
  lemma LastWriteWins(lines: seq<string>, j: nat, k: string)
    requires j < |lines| && k in LineWrites(lines[j])
    requires forall j' :: j < j' < |lines| ==> k !in LineWrites(lines[j'])
    ensures k in FrameRecord(lines) && FrameRecord(lines)[k] == LineWrites(lines[j])[k]
  {
    var ws := Writes(lines);
    assert forall j' :: 0 <= j' < |lines| ==> ws[j'] == LineWrites(lines[j']);
    OverlayLast(ws, j, k);
  }

  /** The record is empty exactly when no line of the frame writes anything. */
  lemma EmptyRecordIff(lines: seq<string>)
    ensures FrameRecord(lines) == map[] <==> forall j :: 0 <= j < |lines| ==> LineWrites(lines[j]) == map[]
  {
    if FrameRecord(lines) != map[] {
      var k :| k in FrameRecord(lines);
      KeyPresence(lines, k);
    } else {
      forall j | 0 <= j < |lines| ensures LineWrites(lines[j]) == map[] {
        if LineWrites(lines[j]) != map[] {
          var k :| k in LineWrites(lines[j]);
          KeyPresence(lines, k);
        }
      }
    }
  }

  lemma WritesConcat(a: seq<string>, b: seq<string>)
    ensures Writes(a + b) == Writes(a) + Writes(b)
  {
    var l, r := Writes(a + b), Writes(a) + Writes(b);
    forall i | 0 <= i < |l| ensures l[i] == r[i] {
      if i < |a| {
        assert (a + b)[i] == a[i];
      } else {
        assert (a + b)[i] == b[i - |a|];
      }
    }
  }

  /** A line that writes nothing (blank, unrecognised, or matching no field) can be dropped from a frame. */
  lemma SilentLineIgnored(pre: seq<string>, l: string, post: seq<string>)
    requires LineWrites(l) == map[]
    ensures FrameRecord(pre + [l] + post) == FrameRecord(pre + post)
  {
    var wp, wl, wq := Writes(pre), Writes([l]), Writes(post);
    assert wl[0] == LineWrites([l][0]);
    assert wl == [map[]];
    WritesConcat(pre + [l], post);
    WritesConcat(pre, [l]);
    WritesConcat(pre, post);
    assert Writes(pre + [l] + post) == wp + [map[]] + wq;
    OverlayEmpty(Writes(pre), Writes(post));
  }

  lemma VelocityRNotWritten(fam: Family)
    ensures "gps_vel_R" !in FamilyKeys(fam)
  {
  }

  /** `GPS(R):` lines have no velocity branch, so no frame ever holds `gps_vel_R`. */
  lemma NoRedundantVelocity(lines: seq<string>)
    ensures "gps_vel_R" !in FrameRecord(lines)
  {
    KeyPresence(lines, "gps_vel_R");
    forall j | 0 <= j < |lines| ensures "gps_vel_R" !in LineWrites(lines[j]) {
      var line := Strip(lines[j]);
      if line != [] && FamilyOf(line).Some? {
        VelocityRNotWritten(FamilyOf(line).value);
      }
    }
  }

  /** The position in `Groups` of the group a family writes. */
  function GroupIndex(fam: Family): (j: nat)
    ensures j < |Groups|
  {
    match fam
    case Gyro => 0
    case Bme => 1
    case Bmp => 2
    case Gps => 3
    case GyroR => 4
    case BmeR => 5
    case BmpR => 6
    case GpsR => 7
  }

  lemma AxesKeys(line: string, kx: string, ky: string, kz: string)
    ensures Axes(line, kx, ky, kz).Keys == {} || Axes(line, kx, ky, kz).Keys == {kx, ky, kz}
  {
  }

  lemma GroupKeys(line: string, f1: string, f2: string, f3: string, k1: string, k2: string, k3: string)
    ensures var ks := Group(line, f1, f2, f3, k1, k2, k3).Keys; ks == {} || ks == {k1, k2, k3}
  {
  }

  /** An axes branch writes group `j` whole or not at all, and never the velocity. */
  lemma AxesWhole(line: string, kx: string, ky: string, kz: string, j: nat)
    requires j < |Groups| && Groups[j] == {kx, ky, kz} && "gps_vel" !in Groups[j]
    ensures var ks := Axes(line, kx, ky, kz).Keys;
            (ks - {"gps_vel"} == {} || ks - {"gps_vel"} == Groups[j]) && "gps_vel" !in ks
  {
    AxesKeys(line, kx, ky, kz);
  }

  /** A named-field branch writes group `j` whole or not at all, and never the velocity. */
  lemma GroupWhole(line: string, f1: string, f2: string, f3: string, k1: string, k2: string, k3: string, j: nat)
    requires j < |Groups| && Groups[j] == {k1, k2, k3} && "gps_vel" !in Groups[j]
    ensures var ks := Group(line, f1, f2, f3, k1, k2, k3).Keys;
            (ks - {"gps_vel"} == {} || ks - {"gps_vel"} == Groups[j]) && "gps_vel" !in ks
  {
    GroupKeys(line, f1, f2, f3, k1, k2, k3);
  }

  /** The `GPS:` branch writes the position group whole or not at all, besides the velocity. */
  lemma GpsWhole(line: string)
    ensures var ks := FamilyWrites(Gps, line).Keys;
            ks - {"gps_vel"} == {} || ks - {"gps_vel"} == Groups[3]
  {
    var g := Group(line, "Lat=", "Lon=", "Alt=", "gps_lat", "gps_lon", "gps_alt");
    var v := Field(line, "Vel=", "gps_vel");
    assert FamilyWrites(Gps, line).Keys == g.Keys + v.Keys;
    assert v.Keys <= {"gps_vel"};
    GroupWhole(line, "Lat=", "Lon=", "Alt=", "gps_lat", "gps_lon", "gps_alt", 3);
  }

  /** A family's branch writes its whole group or none of it, plus (GPS only) the velocity. */
  lemma FamilyWritesWhole(fam: Family, line: string)
    ensures var ks := FamilyWrites(fam, line).Keys;
            (ks - {"gps_vel"} == {} || ks - {"gps_vel"} == Groups[GroupIndex(fam)]) &&
            (fam != Gps ==> "gps_vel" !in ks)
  {
    match fam
    case Gyro => AxesWhole(line, "gyro_x", "gyro_y", "gyro_z", 0);
    case Bme => GroupWhole(line, "T=", "H=", "P=", "bme_temp", "bme_h", "bme_p", 1);
    case Bmp => GroupWhole(line, "T=", "P=", "Alt=", "bmp_temp", "bmp_p", "bmp_alt", 2);
    case Gps => GpsWhole(line);
    case GyroR => AxesWhole(line, "gyro_x_R", "gyro_y_R", "gyro_z_R", 4);
    case BmeR => GroupWhole(line, "T=", "H=", "P=", "bme_temp_R", "bme_h_R", "bme_p_R", 5);
    case BmpR => GroupWhole(line, "T=", "P=", "Alt=", "bmp_temp_R", "bmp_p_R", "bmp_alt_R", 6);
    case GpsR => GroupWhole(line, "Lat=", "Lon=", "Alt=", "gps_lat_R", "gps_lon_R", "gps_alt_R", 7);
  }

  lemma GroupsDisjoint(i: nat, j: nat)
    requires i < |Groups| && j < |Groups| && i != j
    ensures Groups[i] * Groups[j] == {}
  {
  }

  lemma VelocityInNoGroup(i: nat)
    requires i < |Groups|
    ensures "gps_vel" !in Groups[i]
  {
  }

  /** Each group of keys is written by one line completely or not at all. */
  lemma LineGroupAllOrNothing(raw: string, j: nat)
    requires j < |Groups|
    ensures Groups[j] * LineWrites(raw).Keys == {} || Groups[j] <= LineWrites(raw).Keys
  {
    var line := Strip(raw);
    if line != [] && FamilyOf(line).Some? {
      var fam := FamilyOf(line).value;
      var ks := FamilyWrites(fam, line).Keys;
      assert LineWrites(raw).Keys == ks;
      FamilyWritesWhole(fam, line);
      VelocityInNoGroup(j);
      if j != GroupIndex(fam) {
        GroupsDisjoint(j, GroupIndex(fam));
      }
    }
  }

  /**
   * A frame never holds part of a group: the gyro axes, the BME and BMP
   * readings and the GPS position of each family are all present or all absent.
   */
  lemma FrameGroupAllOrNothing(lines: seq<string>, j: nat)
    requires j < |Groups|
    ensures Groups[j] * FrameRecord(lines).Keys == {} || Groups[j] <= FrameRecord(lines).Keys
  {
    var ws := Writes(lines);
    forall i | 0 <= i < |ws| ensures Groups[j] * ws[i].Keys == {} || Groups[j] <= ws[i].Keys {
      LineGroupAllOrNothing(lines[i], j);
    }
    OverlayAllOrNothing(ws, Groups[j]);
  }

  /**
   * On a `GPS:` line the velocity is independent of the position group: it is
   * written exactly when `Vel=` is followed by a literal, while latitude,
   * longitude and altitude are written exactly when all three are found.
   */
  lemma GpsVelocityIndependent(raw: string)
    requires FamilyOf(Strip(raw)) == Some(Gps)
    ensures var line, w := Strip(raw), LineWrites(raw);
            ("gps_vel" in w <==> Search(line, "Vel=").Some?) &&
            ("gps_vel" in w ==> w["gps_vel"] == Search(line, "Vel=").value) &&
            ("gps_lat" in w <==> Search(line, "Lat=").Some? && Search(line, "Lon=").Some? && Search(line, "Alt=").Some?)
  {
    var line := Strip(raw);
    assert line != [];
    var g := Group(line, "Lat=", "Lon=", "Alt=", "gps_lat", "gps_lon", "gps_alt");
    var v := Field(line, "Vel=", "gps_vel");
    assert LineWrites(raw) == g + v;
    GroupKeys(line, "Lat=", "Lon=", "Alt=", "gps_lat", "gps_lon", "gps_alt");
  }

  /** A `Gyro:` line with fewer than three literals writes nothing; otherwise the first three are x, y, z. */
  lemma GyroRule(raw: string)
    requires FamilyOf(Strip(raw)) == Some(Gyro)
    ensures var ts, w := Tokens(Strip(raw)), LineWrites(raw);
            (|ts| < 3 ==> w == map[]) &&
            (|ts| >= 3 ==> w == map["gyro_x" := ts[0], "gyro_y" := ts[1], "gyro_z" := ts[2]])
  {
    assert Strip(raw) != [];
  }

  /** A character that can occur in a numeric literal. */
  predicate LiteralChar(c: char) {
    IsDigit(c) || IsSign(c) || c == '.'
  }

  lemma UnsignedShape(body: string)
    requires NumeralBody(body)
    ensures forall i :: 0 <= i < |body| ==> LiteralChar(body[i])
    ensures IsDigit(body[|body| - 1])
  {
    if AllDigits(body) {
      DigitsShape(body);
    } else {
      var d := IndexOf(body, '.');
      assert d + 1 < |body| && body[d] == '.';
      DottedShape(body, d);
    }
  }

  lemma DigitsShape(body: string)
    requires body != [] && AllDigits(body)
    ensures forall i :: 0 <= i < |body| ==> LiteralChar(body[i])
    ensures IsDigit(body[|body| - 1])
  {
  }

  lemma DottedShape(body: string, d: nat)
    requires d + 1 < |body| && body[d] == '.'
    requires AllDigits(body[..d]) && AllDigits(body[d + 1..])
    ensures forall i :: 0 <= i < |body| ==> LiteralChar(body[i])
    ensures IsDigit(body[|body| - 1])
  {
    var w, f := body[..d], body[d + 1..];
    forall i | 0 <= i < |body| ensures LiteralChar(body[i]) {
      if i < d {
        assert body[i] == w[i];
      } else if i > d {
        assert body[i] == f[i - d - 1];
      }
    }
    assert body[|body| - 1] == f[|f| - 1];
  }

  /** Every character of a literal is a digit, a sign or a dot, and it ends in a digit. */
  lemma NumeralShape(t: string)
    requires IsNumeral(t)
    ensures forall i :: 0 <= i < |t| ==> LiteralChar(t[i])
    ensures IsDigit(t[|t| - 1])
  {
    var body := Unsigned(t);
    UnsignedShape(body);
    if t != [] && IsSign(t[0]) {
      assert forall i :: 1 <= i < |t| ==> t[i] == body[i - 1];
    }
  }

  /** A frame of one line records that line's writes. */
  lemma OneLineFrame(line: string)
    ensures FrameRecord([line]) == LineWrites(line)
  {
    WritesSingle(line);
    OverlaySingle(LineWrites(line));
  }

  lemma WritesSingle(line: string)
    ensures Writes([line]) == [LineWrites(line)]
  {
  }

  lemma OverlaySingle(w: Record)
    ensures Overlay([w]) == w
  {
    assert [w][..0] == [];
    assert map[] + w == w;
  }

  /** `x` holds no occurrence of `c`. */
  predicate Avoids(x: string, c: char) {
    forall i :: 0 <= i < |x| ==> x[i] != c
  }

  lemma AvoidsConcat(x: string, y: string, c: char)
    requires Avoids(x, c) && Avoids(y, c)
    ensures Avoids(x + y, c)
  {
    forall i | 0 <= i < |x + y| ensures (x + y)[i] != c {
      if i >= |x| {
        assert (x + y)[i] == y[i - |x|];
      }
    }
  }

  /** The line the firmware sends for the environmental sensor. */
  function BmeText(a: string, b: string, c: string): string {
    "BME: T=" + a + " H=" + b + " P=" + c
  }

  lemma PrefixStarts(p: string, r: string)
    ensures StartsWith(p + r, p)
  {
    assert (p + r)[..|p|] == p;
  }

  lemma FirstCharDiffers(s: string, p: string)
    requires s != [] && p != [] && s[0] != p[0]
    ensures !StartsWith(s, p)
  {
    if |p| <= |s| {
      assert s[..|p|][0] == s[0];
    }
  }

  lemma BmeTextStripped(a: string, b: string, c: string)
    requires c != [] && IsDigit(c[|c| - 1])
    ensures Strip(BmeText(a, b, c)) == BmeText(a, b, c)
  {
    var line := BmeText(a, b, c);
    var x := " T=" + a + " H=" + b + " P=" + c;
    assert line == "BME:" + x;
    assert x[|x| - 1] == c[|c| - 1];
    StripNoSpace(line);
  }

  lemma BmeTextFamily(a: string, b: string, c: string)
    ensures FamilyOf(BmeText(a, b, c)) == Some(Bme)
  {
    var line := BmeText(a, b, c);
    var x := " T=" + a + " H=" + b + " P=" + c;
    assert line == "BME:" + x;
    FirstCharDiffers(line, "Gyro:");
    PrefixStarts("BME:", x);
  }

  lemma NumeralAvoids(t: string, c: char)
    requires IsNumeral(t) && !LiteralChar(c)
    ensures Avoids(t, c)
  {
    NumeralShape(t);
  }

  lemma BmeTextT(a: string, b: string, c: string)
    requires IsNumeral(a)
    ensures Search(BmeText(a, b, c), "T=") == Some(a)
  {
    var rest := " H=" + b + " P=" + c;
    assert BmeText(a, b, c) == "BME: " + ("T=" + a + rest);
    SearchSkip("BME: ", "T=" + a + rest, "T=");
    SearchHit("T=", a, rest);
  }

  lemma BmeTextH(a: string, b: string, c: string)
    requires Avoids(a, 'H') && IsNumeral(b)
    ensures Search(BmeText(a, b, c), "H=") == Some(b)
  {
    var x, rest := "BME: T=" + a + " ", " P=" + c;
    AvoidsConcat("BME: T=", a, 'H');
    AvoidsConcat("BME: T=" + a, " ", 'H');
    assert BmeText(a, b, c) == x + ("H=" + b + rest);
    SearchSkip(x, "H=" + b + rest, "H=");
    SearchHit("H=", b, rest);
  }

  lemma BmeTextP(a: string, b: string, c: string)
    requires Avoids(a, 'P') && Avoids(b, 'P') && IsNumeral(c)
    ensures Search(BmeText(a, b, c), "P=") == Some(c)
  {
    var x := "BME: T=" + a + " H=" + b + " ";
    AvoidsConcat("BME: T=", a, 'P');
    AvoidsConcat("BME: T=" + a, " H=", 'P');
    AvoidsConcat("BME: T=" + a + " H=", b, 'P');
    AvoidsConcat("BME: T=" + a + " H=" + b, " ", 'P');
    assert BmeText(a, b, c) == x + ("P=" + c + "");
    SearchSkip(x, "P=" + c + "", "P=");
    SearchHit("P=", c, "");
  }

  /**
   * Round trip for the environmental sensor: a frame holding the line
   * `BME: T=a H=b P=c` built from three literals records exactly those literals.
   */
  lemma BmeRoundTrip(a: string, b: string, c: string)
    requires IsNumeral(a) && IsNumeral(b) && IsNumeral(c)
    ensures FrameRecord([BmeText(a, b, c)]) == map["bme_temp" := a, "bme_h" := b, "bme_p" := c]
  {
    BmeLineWrites(a, b, c);
    OneLineFrame(BmeText(a, b, c));
  }

  lemma BmeLineWrites(a: string, b: string, c: string)
    requires IsNumeral(a) && IsNumeral(b) && IsNumeral(c)
    ensures LineWrites(BmeText(a, b, c)) == map["bme_temp" := a, "bme_h" := b, "bme_p" := c]
  {
    var line := BmeText(a, b, c);
    NumeralShape(c);
    BmeTextStripped(a, b, c);
    BmeTextFamily(a, b, c);
    NumeralAvoids(a, 'H');
    NumeralAvoids(a, 'P');
    NumeralAvoids(b, 'P');
    BmeTextT(a, b, c);
    BmeTextH(a, b, c);
    BmeTextP(a, b, c);
    StrippedWrites(line, Bme);
  }

  /** The line the firmware sends for the gyroscope. */
  function GyroText(a: string, b: string, c: string): string {
    "Gyro:" + (" " + (a + (" " + (b + (" " + c)))))
  }

  lemma GyroTextFamily(a: string, b: string, c: string)
    requires c != [] && IsDigit(c[|c| - 1])
    ensures Strip(GyroText(a, b, c)) == GyroText(a, b, c) && FamilyOf(GyroText(a, b, c)) == Some(Gyro)
  {
    var line := GyroText(a, b, c);
    var x := " " + (a + (" " + (b + (" " + c))));
    assert line == "Gyro:" + x;
    assert x[|x| - 1] == c[|c| - 1];
    StripNoSpace(line);
    PrefixStarts("Gyro:", x);
  }

  lemma SpacedTokens(t: string, rest: string)
    requires IsNumeral(t)
    ensures Tokens(" " + (t + rest)) == [t] + Tokens(rest) || !Boundary(rest)
  {
    TokensSkip(" ", t + rest);
    if Boundary(rest) {
      TokensNumeral(t, rest);
    }
  }

  lemma SpacedLast(t: string)
    requires IsNumeral(t)
    ensures Tokens(" " + t) == [t]
  {
    TokensSkip(" ", t);
    TokensNumeral(t, "");
    assert t + "" == t;
  }

  lemma SpacedPair(b: string, c: string)
    requires IsNumeral(b) && IsNumeral(c)
    ensures Tokens(" " + (b + (" " + c))) == [b, c]
  {
    SpacedLast(c);
    SpacedTokens(b, " " + c);
  }

  lemma SpacedTriple(a: string, b: string, c: string)
    requires IsNumeral(a) && IsNumeral(b) && IsNumeral(c)
    ensures Tokens(" " + (a + (" " + (b + (" " + c))))) == [a, b, c]
  {
    SpacedPair(b, c);
    SpacedTokens(a, " " + (b + (" " + c)));
  }

  lemma GyroTextTokens(a: string, b: string, c: string)
    requires IsNumeral(a) && IsNumeral(b) && IsNumeral(c)
    ensures Tokens(GyroText(a, b, c)) == [a, b, c]
  {
    var x := " " + (a + (" " + (b + (" " + c))));
    SpacedTriple(a, b, c);
    GyroPrefixSkipped(x);
  }

  /** The family prefix of a gyroscope line contributes no token. */
  lemma GyroPrefixSkipped(x: string)
    ensures Tokens("Gyro:" + x) == Tokens(x)
  {
    assert NoTokenStart("Gyro:");
    TokensSkip("Gyro:", x);
  }

  /**
   * Round trip for the gyroscope: a frame holding `Gyro: a b c` built from
   * three literals records x = a, y = b, z = c.
   */
  lemma GyroRoundTrip(a: string, b: string, c: string)
    requires IsNumeral(a) && IsNumeral(b) && IsNumeral(c)
    ensures FrameRecord([GyroText(a, b, c)]) == map["gyro_x" := a, "gyro_y" := b, "gyro_z" := c]
  {
    GyroLineWrites(a, b, c);
    OneLineFrame(GyroText(a, b, c));
  }

  lemma GyroLineWrites(a: string, b: string, c: string)
    requires IsNumeral(a) && IsNumeral(b) && IsNumeral(c)
    ensures LineWrites(GyroText(a, b, c)) == map["gyro_x" := a, "gyro_y" := b, "gyro_z" := c]
  {
    var line := GyroText(a, b, c);
    NumeralShape(c);
    GyroTextFamily(a, b, c);
    StrippedWrites(line, Gyro);
    GyroTextTokens(a, b, c);
  }

  /** A line already stripped and of a known family writes what that family's branch writes. */
  lemma StrippedWrites(line: string, fam: Family)
    requires Strip(line) == line && FamilyOf(line) == Some(fam)
    ensures LineWrites(line) == FamilyWrites(fam, line)
  {
  }
}