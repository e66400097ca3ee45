/**
 * The mission log tab (tabs/logtab.py): the keyword/severity classifier
 * `ml_check`, and the log store, an in-memory list of entries mirrored by
 * the rows of the log CSV file, with a filtered view.
 * The CSV file is modelled as its sequence of rows (`None` while it does
 * not exist); the clock is an input.
 */
module LogTab {
  import opened Wrappers
  import opened Text

  /** The keywords that flag a log entry, in the order they are tried. */
  const Keywords: seq<string> := ["anomaly", "unexpected", "fail", "overflow", "exception", "nan", "reset"]

  /** The header row of the log file. */
  const Header: seq<string> := ["Time", "Type", "Location", "Message", "Details", "ML_Flag", "ML_Details"]

  /** The choices of the filter box. */
  const FilterModes: seq<string> := ["ALL", "INFO", "WARNING", "ERROR", "CRITICAL", "ML"]

  /** One row of the CSV file. */
  type Row = seq<string>

  /** One log entry, as held in `log_data`. */
  datatype Entry = Entry(time: string, kind: string, location: string, message: string,
                         details: string, mlFlag: bool, mlDetails: string)

  /** Python's `s or ""` for an optional string. */
  function OrEmpty(s: Option<string>): string {
    if s.Some? then s.value else ""
  }

  /** The text the classifier searches: `(msg or "").lower() + (details or "").lower()`. */
  function SearchText(msg: Option<string>, details: Option<string>): string {
    Lower(OrEmpty(msg)) + Lower(OrEmpty(details))
  }

  /** The position of the first keyword of `kws` that occurs in `text`, if any does. */
  function FirstKeyword(kws: seq<string>, text: string): (r: Option<nat>)
    ensures r.Some? ==> r.value < |kws| && Contains(text, kws[r.value])
    ensures r.Some? ==> forall j :: 0 <= j < r.value ==> !Contains(text, kws[j])
    ensures r.None? <==> forall j :: 0 <= j < |kws| ==> !Contains(text, kws[j])
    decreases |kws|
  {
    if kws == [] then None
    else if Contains(text, kws[0]) then Some(0)
    else
      var rest := FirstKeyword(kws[1..], text);
      assert forall j :: 1 <= j < |kws| ==> kws[j] == kws[1..][j - 1];
      if rest.Some? then Some(rest.value + 1) else None
  }

  /** The verdict of `ml_check(log_type, msg, details)`: the flag and its reason. */
  function Verdict(logType: string, msg: Option<string>, details: Option<string>): (bool, string) {
    if Upper(logType) == "CRITICAL" then (true, "Critical error")
    else
      match FirstKeyword(Keywords, SearchText(msg, details))
      case Some(k) => (true, "Keyword '" + Keywords[k] + "'")
      case None => (false, "")
  }

  /** `ml_check`: severity first, then the keywords in list order. */
  method MlCheck(logType: string, msg: Option<string>, details: Option<string>) returns (flag: bool, reason: string)
    ensures (flag, reason) == Verdict(logType, msg, details)
  {
    var msgLower := SearchText(msg, details);
    if Upper(logType) == "CRITICAL" {
      return true, "Critical error";
    }
    var k := KeywordScan(Keywords, msgLower);
    if k.Some? {
      return true, "Keyword '" + Keywords[k.value] + "'";
    }
    return false, "";
  }

  /** The keyword loop of `ml_check`: the keywords are tried in order and the first one found stops it. */
  method KeywordScan(kws: seq<string>, text: string) returns (k: Option<nat>)
    ensures k == FirstKeyword(kws, text)
  {
    var i := 0;
    while i < |kws|
      invariant 0 <= i <= |kws|
      invariant forall j :: 0 <= j < i ==> !Contains(text, kws[j])
    {
      if Contains(text, kws[i]) {
        assert FirstKeyword(kws, text) == Some(i);
        return Some(i);
      }
      i := i + 1;
    }
    return None;
  }

  /** The flag as written to the file: `int(ml_flag)`. */
  function FlagText(flag: bool): string {
    if flag then "1" else "0"
  }

  /** The flag as read back: true exactly for "1", "True" and "true". */
  predicate ParseFlag(s: string) {
    s == "1" || s == "True" || s == "true"
  }

  /** The file row written for an entry. */
  function RowOf(e: Entry): (r: Row)
    ensures |r| == |Header|
  {
    [e.time, e.kind, e.location, e.message, e.details, FlagText(e.mlFlag), e.mlDetails]
  }

  /** The `i`-th field of a row, "" past its end. */
  function Field(r: Row, i: nat): string {
    if i < |r| then r[i] else ""
  }

  /** The entry `load_logs_from_file` builds from a data row of the file. */
  function EntryOf(r: Row): Entry {
    Entry(Field(r, 0), Field(r, 1), Field(r, 2), Field(r, 3), Field(r, 4), ParseFlag(Field(r, 5)), Field(r, 6))
  }

  /** The entries of a sequence of data rows. */
  function Entries(rows: seq<Row>): (es: seq<Entry>)
    ensures |es| == |rows|
  {
    seq(|rows|, i requires 0 <= i < |rows| => EntryOf(rows[i]))
  }

  /** A log file in the tab's own format: the header row, then rows of seven fields. */
  predicate WellFormed(rows: seq<Row>) {
    |rows| >= 1 && rows[0] == Header && forall i :: 1 <= i < |rows| ==> |rows[i]| == |Header|
  }

  /** The entry `add_log` creates. */
  function NewEntry(timestamp: string, logType: string, location: string, message: string, details: Option<string>): Entry {
    var det := if details.Some? && details.value != "" then details.value else message;
    var (flag, reason) := Verdict(logType, Some(message), Some(det));
    Entry(timestamp, Upper(logType), location, message, det, flag, reason)
  }

  /** Whether the filter `mode` shows an entry (the branch chain of `refresh_logs`). */
  predicate Shows(mode: string, e: Entry) {
    mode == "ALL" || (mode == "ML" && e.mlFlag) || mode == e.kind
  }

  /** The entries the view shows under `mode`, in insertion order. */
  function View(es: seq<Entry>, mode: string): (v: seq<Entry>)
    ensures |v| <= |es|
    ensures forall i :: 0 <= i < |v| ==> v[i] in es && Shows(mode, v[i])
    ensures forall i :: 0 <= i < |es| && Shows(mode, es[i]) ==> es[i] in v
    decreases |es|
  {
    if es == [] then []
    else
      var init := View(es[..|es| - 1], mode);
      assert forall i :: 0 <= i < |es| - 1 ==> es[..|es| - 1][i] == es[i];
      if Shows(mode, es[|es| - 1]) then init + [es[|es| - 1]] else init
  }

  /** The log tab: its entries, the file that mirrors them, the filter and the entries on screen. */
  class LogStore {
    var logData: seq<Entry>
    var file: Option<seq<Row>>
    var filterMode: string
    var shown: seq<Entry>

    /** The file holds the header and one row per entry, in order. */
    predicate Valid()
      reads this
    {
      file.Some? && WellFormed(file.value) && Entries(file.value[1..]) == logData
    }

    /** The tab as built: filter "ALL", then `load_logs_from_file` on the file as found. */
    constructor (initial: Option<seq<Row>>)
      requires initial.None? || WellFormed(initial.value)
      ensures Valid() && filterMode == "ALL" && shown == logData
      ensures file == (if initial.None? then Some([Header]) else initial)
    {
      file := initial;
      filterMode := "ALL";
      logData := [];
      shown := [];
      new;
      LoadLogsFromFile();
      ViewAll(logData);
    }

    /** `ensure_logfile`: create the file with its header only when it is absent. */
    method EnsureLogfile()
      modifies this
      ensures file == (if old(file).None? then Some([Header]) else old(file))
      ensures logData == old(logData) && filterMode == old(filterMode) && shown == old(shown)
    {
      if file.None? {
        file := Some([Header]);
      }
    }

    /** `save_log_to_file(row)`: ensure the file, then append the row. */
    method SaveLogToFile(r: Row)
      modifies this
      ensures file == Some((if old(file).None? then [Header] else old(file).value) + [r])
      ensures logData == old(logData) && filterMode == old(filterMode) && shown == old(shown)
    {
      EnsureLogfile();
      file := Some(file.value + [r]);
    }

    /** `refresh_logs`: rebuild the on-screen list from the entries under the current filter. */
    method RefreshLogs()
      modifies this
      ensures shown == View(logData, filterMode)
      ensures logData == old(logData) && file == old(file) && filterMode == old(filterMode)
    {
      var widgets: seq<Entry> := [];
      var i := 0;
      while i < |logData|
        invariant 0 <= i <= |logData|
        invariant widgets == View(logData[..i], filterMode)
      {
        var log := logData[i];
        assert logData[..i + 1][..i] == logData[..i];
        if filterMode == "ALL" {
          widgets := widgets + [log];
        } else if filterMode == "ML" && log.mlFlag {
          widgets := widgets + [log];
        } else if filterMode == log.kind {
          widgets := widgets + [log];
        }
        i := i + 1;
      }
      assert logData[..i] == logData;
      shown := widgets;
    }

    /** `filter_changed`: select another filter mode and refresh. */
    method SetFilter(mode: string)
      modifies this
      ensures filterMode == mode && shown == View(logData, mode)
      ensures logData == old(logData) && file == old(file)
    {
      filterMode := mode;
      RefreshLogs();
    }

    /** `add_log`: build the entry, append its row to the file and the entry to the list, then refresh. */
    method AddLog(logType: string, location: string, message: string, details: Option<string>, timestamp: string)
      requires Valid()
      modifies this
      ensures Valid()
      ensures logData == old(logData) + [NewEntry(timestamp, logType, location, message, details)]
      ensures file == Some(old(file).value + [RowOf(NewEntry(timestamp, logType, location, message, details))])
      ensures filterMode == old(filterMode) && shown == View(logData, filterMode)
    {
      var det := if details.Some? && details.value != "" then details.value else message;
      var mlFlag, mlDetails := MlCheck(logType, Some(message), Some(det));
      var entry := Entry(timestamp, Upper(logType), location, message, det, mlFlag, mlDetails);
      assert entry == NewEntry(timestamp, logType, location, message, details);
      SaveLogToFile(RowOf(entry));
      AppendRowEntries(old(file).value, entry);
      logData := logData + [entry];
      RefreshLogs();
    }

    /** `write(text)`: the stderr hook; whitespace-only text is ignored. */
    method Write(text: string, timestamp: string)
      requires Valid()
      modifies this
      ensures Valid()
      ensures Strip(text) == [] ==> logData == old(logData) && file == old(file) && shown == old(shown)
      ensures Strip(text) != [] ==>
                logData == old(logData) + [NewEntry(timestamp, "ERROR", "Terminal", Strip(text), Some(Strip(text)))] &&
                file == Some(old(file).value + [RowOf(NewEntry(timestamp, "ERROR", "Terminal", Strip(text), Some(Strip(text))))]) &&
                shown == View(logData, filterMode)
      ensures filterMode == old(filterMode)
    {
      if Strip(text) != [] {
        AddLog("ERROR", "Terminal", Strip(text), Some(Strip(text)), timestamp);
      }
    }

    /** `load_logs_from_file`: ensure the file, read every data row back into an entry, refresh. */
    method LoadLogsFromFile()
      requires file.None? || WellFormed(file.value)
      modifies this
      ensures Valid() && file == (if old(file).None? then Some([Header]) else old(file))
      ensures filterMode == old(filterMode) && shown == View(logData, filterMode)
    {
      EnsureLogfile();
      var loaded: seq<Entry> := [];
      var rows := file.value[1..];
      var i := 0;
      while i < |rows|
        invariant 0 <= i <= |rows|
        invariant loaded == Entries(rows[..i])
      {
        assert rows[..i + 1] == rows[..i] + [rows[i]];
        loaded := loaded + [EntryOf(rows[i])];
        i := i + 1;
      }
      assert rows[..i] == rows;
      logData := loaded;
      RefreshLogs();
    }

    /** `download_log`: when a destination is chosen, ensure the file and return a copy of it. */
    method DownloadLog(chosen: bool) returns (copy: Option<seq<Row>>)
      requires Valid()
      modifies this
      ensures Valid() && file == old(file) && logData == old(logData)
      ensures copy == (if chosen then file else None)
      ensures filterMode == old(filterMode) && shown == old(shown)
    {
      copy := None;
      if chosen {
        EnsureLogfile();
        copy := file;
      }
    }

    /** `clear_logs`: empty the screen and the list, and truncate the file to its header. */
    method ClearLogs()
      modifies this
      ensures Valid() && logData == [] && shown == [] && file == Some([Header])
      ensures filterMode == old(filterMode)
    {
      shown := [];
      logData := [];
      EnsureLogfile();
      file := Some([Header]);
      assert file.value[1..] == [];
    }
  }

  // ---------------------------------------------------------------------
  // Properties
  // ---------------------------------------------------------------------

  /** A `CRITICAL` type in any letter case is flagged as a critical error, whatever the text. */
  lemma CriticalAlwaysFlagged(logType: string, msg: Option<string>, details: Option<string>)
    requires Upper(logType) == "CRITICAL"
    ensures Verdict(logType, msg, details) == (true, "Critical error")
  {
  }

  /**
   * Otherwise an entry is flagged exactly when a keyword occurs in the
   * lower-cased message followed by the lower-cased details; the reason
   * names the first such keyword in list order, and is empty when unflagged.
   */
  lemma KeywordVerdict(logType: string, msg: Option<string>, details: Option<string>)
    requires Upper(logType) != "CRITICAL"
    ensures var (flag, reason) := Verdict(logType, msg, details);
            var text := SearchText(msg, details);
            (flag <==> exists k :: 0 <= k < |Keywords| && Contains(text, Keywords[k])) &&
            (!flag ==> reason == "") &&
            (flag ==> exists k :: 0 <= k < |Keywords| && Contains(text, Keywords[k]) &&
                        (forall j :: 0 <= j < k ==> !Contains(text, Keywords[j])) &&
                        reason == "Keyword '" + Keywords[k] + "'")
  {
    var text := SearchText(msg, details);
    var r := FirstKeyword(Keywords, text);
    if r.Some? {
      assert Contains(text, Keywords[r.value]);
    }
  }

  /** A persisted entry reads back unchanged, its flag included. */
  lemma EntryRoundTrip(e: Entry)
    ensures EntryOf(RowOf(e)) == e
  {
    assert ParseFlag(FlagText(e.mlFlag)) == e.mlFlag;
  }

  /** Appending an entry's row to the data rows appends exactly that entry to what they read back as. */
  lemma AppendRowEntries(rows: seq<Row>, e: Entry)
    requires rows != []
    ensures Entries((rows + [RowOf(e)])[1..]) == Entries(rows[1..]) + [e]
  {
    EntryRoundTrip(e);
    assert (rows + [RowOf(e)])[1..] == rows[1..] + [RowOf(e)];
  }

  /** `add_log` stores the type upper-cased and falls back to the message for absent or empty details. */
  lemma NewEntryFields(timestamp: string, logType: string, location: string, message: string, details: Option<string>)
    ensures var e := NewEntry(timestamp, logType, location, message, details);
            e.kind == Upper(logType) && e.message == message && e.time == timestamp && e.location == location &&
            (details == None || details == Some("") ==> e.details == message) &&
            (details.Some? && details.value != "" ==> e.details == details.value) &&
            (e.mlFlag, e.mlDetails) == Verdict(logType, Some(message), Some(e.details))
  {
  }

  /** Filter "ALL" shows every entry, in insertion order. */
  lemma {:induction false} ViewAll(es: seq<Entry>)
    ensures View(es, "ALL") == es
    decreases |es|
  {
    if es != [] {
      ViewAll(es[..|es| - 1]);
    }
  }

  /**
   * Filter "ML" shows the flagged entries and, through the last branch, the
   * entries whose type is "ML"; any other mode shows the entries of that type.
   */
  lemma ViewModes(es: seq<Entry>, mode: string, e: Entry)
    requires e in es && mode != "ALL"
    ensures mode == "ML" ==> (e in View(es, mode) <==> e.mlFlag || e.kind == "ML")
    ensures mode != "ML" ==> (e in View(es, mode) <==> e.kind == mode)
  {
  }

  /** The view grows with the list: an added entry is shown at the end exactly when the filter shows it. */
  lemma ViewAppend(es: seq<Entry>, mode: string, e: Entry)
    ensures View(es + [e], mode) == View(es, mode) + (if Shows(mode, e) then [e] else [])
  {
    assert (es + [e])[..|es|] == es;
  }
}
