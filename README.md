# Rudra ground station: telemetry data path

This project models the data path of the Rudra rocket ground-station
application in Dafny and proves properties of that model. The application is
a Python/Qt desktop program. The path follows a telemetry frame from the XBee
serial link to the screens that show it and to the scripts that build the
training dataset:

- **Serial worker** (`serial_preprocessor.py`). Lines from the radio are
  reassembled into frames at the line `Data transmitted via XBee`. Separator
  lines (`---`) are dropped. Each frame is parsed into a record of sensor
  fields, chosen by the line prefix (`Gyro:`, `BME:`, `BMP:`, `GPS:` and their
  `(R)` redundant variants), with the numeric pattern `[-+]?\d*\.?\d+`. The
  worker's signal trace is `connected`, then `rowReady`…, then `READ ERR` /
  `PORT CLOSED`, or `OPEN FAIL` alone.
- **Telemetry panel** (`telemetry1.py`). Updates its packet counter and field
  labels. A missing primary value (`None`, `""`, `"-"`, `"nan"`) falls back to
  the `_R` value.
- **Plot tab** (`tabs/plottab.py`). Plots the last 100 CSV rows per sensor. The
  measured curve is repaired from the redundant column where the primary is
  NaN or 0. A redundant overlay marks the replaced samples. The map shows the
  GPS track.
- **GPS tab** (`tabs/gpstab.py`). Keeps a live track of three parallel lists.
  Live appends keep the most recent 1000 points; a reload from the CSV
  replaces the track without that cap. A render throttle allows at most one
  prediction/render cycle at a time, no sooner than 2 s after the last one.
- **Mission log tab** (`tabs/logtab.py`). A keyword/severity classifier, an
  entry list mirrored by a CSV log file, and a filtered view.
- **Dataset scripts** (`models/fetch_weather_data.py`,
  `models/train_rocket_weather_model.py`):
  - the event-window filter over weather records;
  - the stride that picks the records to simulate;
  - the failure injection into each simulated flight;
  - stacking of the flights and the redundancy repair;
  - the rebasing of `Times`.

Modelling choices:

| Source | Model |
|---|---|
| A numeric value | `Values.Float`: `NaN` or a real number |
| A Python value in a telemetry row | `Values.PyValue` |
| A data frame | a map from column names to equally long columns |
| A parsed record | the literal text of each matched number |
| The serial device | a script: open outcome, then one outcome per `readline()` |

- Objects whose fields the source updates in place are classes:
  - the serial worker;
  - the telemetry panel;
  - the log tab with its file;
  - the plot tab's curves;
  - the GPS tab;
  - the scripts' data frame.
- Their methods are proved against specification functions. The properties
  the program relies on are lemmas about those functions.

Modules, one per file, in dependency order:

| Module | What it holds |
|---|---|
| `Wrappers` | `Option` |
| `Text` | string helpers of Python's `str` |
| `Values` | values, columns, `dropna` / `fillna` |
| `NumericTokens` | the numeric pattern, `findall` / `search` |
| `FrameParser` | `_parse_frame` |
| `SerialWorker` | `_run_worker` |
| `TelemetryPanel` | `telemetry1.py` |
| `LogTab` | `tabs/logtab.py` |
| `Redundancy` | the NaN-or-zero repair rule |
| `PlotTab` | `tabs/plottab.py` |
| `GpsTab` | `tabs/gpstab.py` |
| `FlightTable` | the scripts' frame and column passes |
| `WeatherData` | `models/fetch_weather_data.py` |
| `RocketWeatherModel` | `models/train_rocket_weather_model.py` |

The application applies three different fallback rules. The model keeps them
apart:

- `TelemetryPanel.Resolve` replaces `None`, `""`, `"-"` or `"nan"` and keeps
  0.
- `Redundancy.Repair` replaces NaN or 0.
- `GpsTab` applies Python's `or` (`Values.Or`): any falsy value is replaced,
  and NaN is kept.

Where the code and its description differ, the model follows the code. The
one exception is the two defects listed under "## Findings": each is modelled
as written beside a corrected definition, and the members that stand for the
surrounding code use the corrected one (named under "## Left out"). The
`ML` filter of the log view shows the flagged entries and also every entry whose
Type is `ML`. This is because the `elif filter_mode == t` branch of
`refresh_logs` also matches them.

## Model

| member | source | states |
|---|---|---|
| Text.Strip | serial_preprocessor.py:59 | the result is empty or starts and ends with a non-whitespace character |
| Text.StripIdempotent | serial_preprocessor.py:59 | stripping a stripped line changes nothing |
| Text.Contains | serial_preprocessor.py:160 | `pat in s` holds exactly when `pat` occurs at some position of `s` |
| Text.Lower | tabs/logtab.py:30 | lower-casing keeps the length and maps each character by ASCII case folding |
| Text.Upper | tabs/logtab.py:31 | upper-casing keeps the length and maps each character by ASCII case folding |
| Values.Or | tabs/gpstab.py:72-74 | `a or b` is `a` when `a` is truthy, otherwise `b` |
| Values.Get | telemetry1.py:150 | `row.get(key)` is the stored value for a present key and `None` otherwise |
| Values.ParseFloatText | tabs/gpstab.py:22 | an empty or whitespace-only string does not convert |
| Values.ParseFloatDecimal | tabs/gpstab.py:19-24 | an optional `+` or `-` followed by a decimal literal converts to the literal's value, negated after `-` |
| Values.ParseFloatNan | tabs/gpstab.py:19-24 | an optional sign followed by `nan` in any letter case converts to NaN |
| Values.ParseFloatStripped | tabs/gpstab.py:19-24 | conversion ignores surrounding whitespace |
| Values.DropNa | tabs/plottab.py:100-101 | the result holds no NaN, is no longer than the input, and keeps every finite value |
| Values.FillNa | tabs/gpstab.py:93 | the result has the input's length, no NaN, and the fill value exactly where the input was NaN |
| Values.DropNaConcat | tabs/gpstab.py:91-92 | dropping NaN commutes with concatenation, so finite values keep their order |
| NumericTokens.UnsignedMatchLen | serial_preprocessor.py:65 | the match of `\d*\.?\d+` at the start of a string is no longer than the string |
| NumericTokens.MatchLen | serial_preprocessor.py:65 | the match of `[-+]?\d*\.?\d+` at the start of a string is no longer than the string |
| NumericTokens.MatchIsNumeral | serial_preprocessor.py:65 | whatever the pattern matches is a whole numeric literal |
| NumericTokens.NumeralMatches | serial_preprocessor.py:65 | a literal followed by a character that cannot extend it is matched exactly |
| NumericTokens.Tokens | serial_preprocessor.py:65 | `re.findall` yields only numeric literals |
| NumericTokens.Search | serial_preprocessor.py:70 | `re.search(key + pattern)` yields a numeric literal when it matches |
| NumericTokens.TokensSkip | serial_preprocessor.py:64-65 | text with no digit, sign or dot contributes no token in front of what follows |
| NumericTokens.SearchHit | serial_preprocessor.py:70-72 | a key followed directly by a literal makes the search return that literal |
| FrameParser.LineWrites | serial_preprocessor.py:58-130 | a blank line or one with an unknown prefix writes nothing; a recognised line writes only keys of its own family |
| FrameParser.FrameSnoc | serial_preprocessor.py:58-130 | processing one more line lays that line's writes over the record so far |
| FrameParser.ApplyAxes | serial_preprocessor.py:65-67 | the row gains x, y, z from the first three tokens, or nothing with fewer than three |
| FrameParser.ApplyGroup | serial_preprocessor.py:70-76 | the row gains the three named fields, or none of them |
| FrameParser.ApplyField | serial_preprocessor.py:91-97 | the row gains the optional velocity field when it matches |
| FrameParser.ApplyLine | serial_preprocessor.py:59-130 | one loop iteration lays the line's writes over the row |
| FrameParser.ParseFrame | serial_preprocessor.py:55-132 | the loop's result is the frame record: every line's writes in order, later lines overwriting earlier ones |
| FrameParser.KeyPresence | serial_preprocessor.py:57-132 | a key is in the record exactly when some line of the frame writes it |
| FrameParser.LastWriteWins | serial_preprocessor.py:57-132 | a key holds the value of the last line that writes it |
| FrameParser.EmptyRecordIff | serial_preprocessor.py:57-132 | the record is empty exactly when no line writes anything |
| FrameParser.SilentLineIgnored | serial_preprocessor.py:58-61 | a line that writes nothing (blank, unrecognised, or no match) can be removed from a frame without changing its record |
| FrameParser.NoRedundantVelocity | serial_preprocessor.py:123-130 | no frame ever holds `gps_vel_R` |
| FrameParser.AxesKeys | serial_preprocessor.py:66-67 | a gyro branch writes none or all three of its axis keys |
| FrameParser.GroupKeys | serial_preprocessor.py:73-76 | a named-field branch writes none or all three of its keys |
| FrameParser.FamilyWritesWhole | serial_preprocessor.py:64-130 | a family's branch writes its whole group or none of it, and only GPS may add the velocity |
| FrameParser.LineGroupAllOrNothing | serial_preprocessor.py:64-130 | each sensor group is written by one line completely or not at all |
| FrameParser.FrameGroupAllOrNothing | serial_preprocessor.py:55-132 | a frame record holds each sensor group completely or not at all |
| FrameParser.GpsVelocityIndependent | serial_preprocessor.py:87-97 | `gps_vel` is written exactly when `Vel=` matches, whatever happens to latitude, longitude and altitude |
| FrameParser.GyroRule | serial_preprocessor.py:64-67 | a gyro line with fewer than three literals writes nothing; otherwise its first three literals become x, y, z |
| FrameParser.BmeLineWrites | serial_preprocessor.py:69-76 | the line `BME: T=a H=b P=c` writes exactly `bme_temp = a`, `bme_h = b`, `bme_p = c` |
| FrameParser.BmeRoundTrip | serial_preprocessor.py:69-76 | a frame holding only that BME line records exactly a, b, c |
| FrameParser.GyroLineWrites | serial_preprocessor.py:64-67 | the line `Gyro: a b c` writes exactly `gyro_x = a`, `gyro_y = b`, `gyro_z = c` |
| FrameParser.GyroRoundTrip | serial_preprocessor.py:64-67 | a frame holding only that gyro line records exactly a, b, c |
| SerialWorker.Emit | serial_preprocessor.py:161-164 | closing a frame emits at most one record, and never an empty one |
| SerialWorker.Output | serial_preprocessor.py:160-167 | one line emits at most one record, and never an empty one |
| SerialWorker.Kept | serial_preprocessor.py:166-167 | the kept lines include no separator line |
| SerialWorker.Emitted | serial_preprocessor.py:160-167 | the reassembly machine emits only non-empty records |
| SerialWorker.Rows | serial_preprocessor.py:164 | one `rowReady` per record, in order |
| SerialWorker.XBeeTelemetryWorker.constructor | serial_preprocessor.py:23-29 | a new worker holds its port, has no open handle and has emitted nothing |
| SerialWorker.XBeeTelemetryWorker.HandleLine | serial_preprocessor.py:160-167 | one loop iteration moves the buffer as the machine does and emits that line's rows |
| SerialWorker.XBeeTelemetryWorker.RunWorker | serial_preprocessor.py:137-178 | the worker emits exactly the trace of its script, and the port is closed afterwards when it was opened |
| SerialWorker.NoSentinelAppends | serial_preprocessor.py:166-167 | without a sentinel nothing is emitted, and the buffer grows by exactly the non-separator lines, in order |
| SerialWorker.EmittedConcat | serial_preprocessor.py:147-167 | the machine over two runs of lines is the machine over the first run, continued over the second from where it stopped |
| SerialWorker.SentinelClosesFrame | serial_preprocessor.py:160-165 | a sentinel emits the record of the lines buffered since the last frame, when it has any, and continues from an empty buffer |
| SerialWorker.EmitIff | serial_preprocessor.py:161-164 | a record is emitted exactly when some buffered line writes a field, and it is that buffer's frame record |
| SerialWorker.ReadLoopReassembles | serial_preprocessor.py:149-167 | with only successful reads, the loop emits one `rowReady` per record of the reassembly machine |
| SerialWorker.ReadLoopShape | serial_preprocessor.py:149-167 | the loop emits only `rowReady` with non-empty records, except that a failing read ends it with its `READ ERR` |
| SerialWorker.OpenFailTrace | serial_preprocessor.py:139-145 | an open failure yields exactly one `OPEN FAIL` signal: no `connected`, no `PORT CLOSED` |
| SerialWorker.OpenedTrace | serial_preprocessor.py:139-178 | after a successful open, `connected(port)` comes first and `PORT CLOSED` last; any `READ ERR` comes just before `PORT CLOSED` |
| TelemetryPanel.Shown | telemetry1.py:153 | a label never shows `None` |
| TelemetryPanel.NatText | telemetry1.py:145 | `str(n)` is a non-empty string of digits spelling `n` |
| TelemetryPanel.Panel.constructor | telemetry1.py:42-106 | a new panel has no packets, shows "DISCONNECTED", "-" in every field label and no checked button |
| TelemetryPanel.Panel.TabClicked | telemetry1.py:108-111 | exactly button `ix` is checked, `ix` is emitted, and nothing else changes |
| TelemetryPanel.Panel.SetConnectionState | telemetry1.py:130-136 | the caption is the given text or the state's default, with the state's colour; nothing else changes |
| TelemetryPanel.Panel.UpdateTelemetry | telemetry1.py:141-159 | the counter grows by exactly one and its label reads it; slot `i` shows the resolved value of key `i` of `flight_keys` / `gps_keys` |
| TelemetryPanel.ResolveRule | telemetry1.py:150-152 | the `_R` value is used exactly when the primary is missing and the `_R` value is not `None` |
| TelemetryPanel.NumberNeverFallsBack | telemetry1.py:151 | a numeric primary, zero and NaN included, is never replaced |
| TelemetryPanel.ShownDash | telemetry1.py:153 | with neither value present the label shows "-"; the resolution is `None` exactly when both values are |
| TelemetryPanel.ConnectionTextRule | telemetry1.py:130-136 | a non-empty text is shown as given; no or empty text shows "CONNECTED" / "DISCONNECTED" by state |
| TelemetryPanel.PacketLabelRoundTrip | telemetry1.py:144-145 | the counter label reads back as the count |
| LogTab.FirstKeyword | tabs/logtab.py:33-35 | the first keyword of the list that occurs in the text, and none exactly when none occurs |
| LogTab.KeywordScan | tabs/logtab.py:33-36 | the keyword loop returns that first occurring keyword, or none |
| LogTab.MlCheck | tabs/logtab.py:28-36 | the classifier's result is the verdict: critical first, then the first keyword |
| LogTab.CriticalAlwaysFlagged | tabs/logtab.py:31-32 | a type whose upper case is `CRITICAL` is flagged "Critical error", whatever the text |
| LogTab.KeywordVerdict | tabs/logtab.py:29-36 | otherwise an entry is flagged exactly when a keyword occurs in the lower-cased message and details (`None` read as ""); the reason names the first such keyword, and "" when unflagged |
| LogTab.RowOf | tabs/logtab.py:252 | a written row has the header's seven fields |
| LogTab.Entries | tabs/logtab.py:262-272 | one entry per data row |
| LogTab.View | tabs/logtab.py:306-315 | the view shows only entries of the list that the filter accepts, and all of them |
| LogTab.NewEntryFields | tabs/logtab.py:240-251 | `add_log` stores the type upper-cased and uses the message as details when those are absent or empty |
| LogTab.EntryRoundTrip | tabs/logtab.py:252-271 | a persisted entry reads back unchanged, flag included |
| LogTab.AppendRowEntries | tabs/logtab.py:252-272 | appending an entry's row to the file appends exactly that entry to what the file reads back as |
| LogTab.ViewAll | tabs/logtab.py:310-311 | filter "ALL" shows every entry in insertion order |
| LogTab.ViewModes | tabs/logtab.py:312-315 | "ML" shows an entry exactly when it is flagged or its type is "ML"; any other mode shows exactly the entries of that type |
| LogTab.ViewAppend | tabs/logtab.py:307-315 | an added entry appears at the end of the view exactly when the filter shows it |
| LogTab.LogStore.constructor | tabs/logtab.py:226-230 | the tab starts on filter "ALL" with the entries of the file, which is created with its header when absent |
| LogTab.LogStore.EnsureLogfile | tabs/logtab.py:39-42 | the header is written only when the file is absent; nothing else changes |
| LogTab.LogStore.SaveLogToFile | tabs/logtab.py:45-48 | the row is appended to the file, created first if needed |
| LogTab.LogStore.RefreshLogs | tabs/logtab.py:300-315 | the screen shows the view of the entries under the current filter |
| LogTab.LogStore.SetFilter | tabs/logtab.py:297-298 | the new filter is selected and the screen shows its view |
| LogTab.LogStore.AddLog | tabs/logtab.py:239-254 | exactly one entry is appended to the list and its seven-field row to the file, which stays in step with the list |
| LogTab.LogStore.Write | tabs/logtab.py:232-234 | whitespace-only text changes nothing; other text appends one ERROR entry from "Terminal" with the stripped text as message and details, appends its row to the file and refreshes the view |
| LogTab.LogStore.LoadLogsFromFile | tabs/logtab.py:256-276 | the list becomes the entries of the file's data rows, in order |
| LogTab.LogStore.DownloadLog | tabs/logtab.py:289-295 | a chosen destination receives a copy of the file; the tab is unchanged |
| LogTab.LogStore.ClearLogs | tabs/logtab.py:278-287 | the list and the screen are emptied and the file holds only the header |
| Redundancy.Repair | tabs/plottab.py:82-83 | repair keeps the column length; `RepairRule` gives the per-sample rule |
| Redundancy.ZeroTail | models/fetch_weather_data.py:95 | failure injection keeps the column length; the last `k` samples (all of them when the column is shorter) become 0 and the samples before them are kept |
| Redundancy.RepairRule | models/fetch_weather_data.py:105-108 | a primary sample that is neither NaN nor 0 is kept; a NaN or 0 primary sample is replaced by the redundant sample |
| Redundancy.RepairIdempotent | models/train_rocket_weather_model.py:16-19 | repairing a repaired column against the same copy changes nothing |
| Redundancy.RepairRestores | models/fetch_weather_data.py:105-108 | a column whose samples are each the original or 0 is restored from an intact copy |
| Redundancy.ZeroTailRepaired | models/fetch_weather_data.py:91-108 | zeroing the tail and then repairing against the copy gives the original column back |
| Redundancy.RepairConcat | models/fetch_weather_data.py:98-108 | repair commutes with stacking frames |
| PlotTab.Tail | tabs/plottab.py:75 | `tail(k)` has `min(n, k)` samples |
| PlotTab.XValues | tabs/plottab.py:76 | the x axis has one point per window row |
| PlotTab.PrimarySeries | tabs/plottab.py:79 | the primary series has one sample per window row |
| PlotTab.Overlay | tabs/plottab.py:85 | the overlay has the primary's length |
| PlotTab.PlotSensor | tabs/plottab.py:78-89 | one pass of the loop produces the sensor's main curve and redundant overlay |
| PlotTab.PlotAll | tabs/plottab.py:77-89 | curve `i` is the main curve and overlay of sensor `i` of `PLOT_CONFIGS` |
| PlotTab.PlotTabView.constructor | tabs/plottab.py:45-58 | every plot starts with blank curves and no map track |
| PlotTab.PlotTabView.UpdateData | tabs/plottab.py:70-102 | an unreadable CSV or fewer than 2 rows changes nothing; otherwise every curve is its sensor's series, and the map track is replaced only when there is a track |
| PlotTab.WindowIsTail | tabs/plottab.py:75 | the window is the last `min(n, 100)` rows, in order |
| PlotTab.XAxis | tabs/plottab.py:76 | x is the `Time_s` window when that column exists, else 0..n-1 |
| PlotTab.SeriesLengths | tabs/plottab.py:76-88 | the display and overlay series are as long as x |
| PlotTab.MissingPrimaryIsNaN | tabs/plottab.py:79 | a missing primary column is NaN throughout the window |
| PlotTab.DisplayRule | tabs/plottab.py:80-86 | with a redundant column, the display takes the redundant sample exactly where the primary is NaN or 0, and the overlay shows it there and NaN elsewhere |
| PlotTab.NoRedundantShowsPrimary | tabs/plottab.py:87-89 | without a present redundant column the primary is shown unchanged and the overlay is cleared |
| PlotTab.RedundantConfiguration | tabs/plottab.py:12-28 | Temp_C and Pressure_Pa never use a redundant column; every plotted sensor is its own primary column |
| PlotTab.GpsTrackRule | tabs/plottab.py:98-102 | the map is updated exactly when both GPS columns exist and both non-NaN lists are non-empty, and it receives no NaN |
| PlotTab.MissingPrimaryDisplayAsWritten | tabs/plottab.py:79-83 | the display as pandas aligns it when the primary is missing has one sample per window row |
| PlotTab.MissingPrimaryMisaligned | tabs/plottab.py:79-83 | with 101 rows and no primary, position 0 shows NaN although the first redundant sample is 1 |
| PlotTab.MissingPrimaryShowsRedundant | tabs/plottab.py:79-83 | in the model, an absent primary shows the redundant window unchanged |
| GpsTab.ToFloat | tabs/gpstab.py:19-24 | `None` and blank strings give None; a float gives itself |
| GpsTab.ToFloatDigits | tabs/gpstab.py:19-24 | a string of digits converts to the number it spells |
| GpsTab.CoordinateFallback | tabs/gpstab.py:72-74 | latitude and longitude use the primary key unless it is falsy, then `_R`; altitude tries `gps_alt`, `bmp_alt`, `Altitude_m` in order |
| GpsTab.ZeroLatitudeFallsBack | tabs/gpstab.py:72 | a latitude of exactly 0.0 is falsy, so the redundant latitude is used |
| GpsTab.Recent | tabs/gpstab.py:79-80 | `s[-k:]` has `min(|s|, k)` elements and is the end of `s` |
| GpsTab.AppendedKeepsRecent | tabs/gpstab.py:78-80 | an append keeps at most 1000 points, ends with the new one and keeps the most recent earlier ones in order; below the cap nothing is dropped |
| GpsTab.AppendAllKeepsLatest | tabs/gpstab.py:78-80 | however many points arrive, the track is exactly the most recent 1000 of all of them, in order |
| GpsTab.ReloadedShape | tabs/gpstab.py:89-97 | a track is reloaded exactly when both coordinate columns exist and have non-NaN values and an altitude source is non-empty; the lists are then parallel and end with the latest non-NaN coordinates |
| GpsTab.ScheduleRule | tabs/gpstab.py:102-114 | work starts exactly with a webview, 2 s elapsed, nothing pending and a non-empty track; past the guards `_last_render` becomes now and pending is set only for a non-empty track; otherwise nothing changes |
| GpsTab.StartsSpaced | tabs/gpstab.py:106-109 | over any run of calls and callbacks, each prediction starts 2 s or more after the last render, and successive ones at least 2 s apart |
| GpsTab.PendingBlocks | tabs/gpstab.py:106-107 | while a cycle is pending, no prediction starts until a callback ends it |
| GpsTab.GpsTabView.constructor | tabs/gpstab.py:27-43 | a new tab has empty, parallel lists, last render 0.0, nothing pending and the given references |
| GpsTab.GpsTabView.SetReferences | tabs/gpstab.py:65-67 | a given reference replaces the stored one and a missing one keeps it; nothing else changes |
| GpsTab.GpsTabView.Schedule | tabs/gpstab.py:102-127 | the throttle moves as `ScheduleRule` states, and the newest point (altitude 0.0 when absent) is handed to a prediction exactly when work starts |
| GpsTab.GpsTabView.AppendLiveData | tabs/gpstab.py:70-83 | without a usable latitude or longitude nothing changes; otherwise every list gains the point (missing altitude 0.0) cut to 1000, the lists stay parallel, and a refresh is scheduled |
| GpsTab.GpsTabView.Push | tabs/gpstab.py:78-83 | every list gains the point and is cut to its last 1000 entries, the lists stay parallel, and the throttle moves as `ScheduleRule` states |
| GpsTab.GpsTabView.PeriodicUpdate | tabs/gpstab.py:85-100 | a usable CSV replaces the track and schedules a refresh; anything else changes nothing |
| GpsTab.GpsTabView.OnPredicted | tabs/gpstab.py:130-162 | a prediction with a centre starts a render of the whole track around the newest point; a failing handler ends the cycle |
| GpsTab.GpsTabView.OnRendered | tabs/gpstab.py:165-171 | a non-empty page is shown when there is a webview; the cycle ends either way |
| GpsTab.GpsTabView.OnPredictError | tabs/gpstab.py:174-176 | the cycle ends; nothing else changes |
| GpsTab.GpsTabView.OnRenderError | tabs/gpstab.py:179-181 | the cycle ends; nothing else changes |
| FlightTable.RepairStep | models/fetch_weather_data.py:102-108 | one repair iteration keeps the columns and the row count |
| FlightTable.RepairAll | models/fetch_weather_data.py:101-108 | the repair loop keeps the columns and the row count |
| FlightTable.InjectStep | models/fetch_weather_data.py:92-95 | one injection iteration adds only the base's redundant column and keeps the row count |
| FlightTable.InjectAll | models/fetch_weather_data.py:91-95 | the injection loop adds exactly the redundant columns and keeps the row count |
| FlightTable.Table.RepairRedundant | models/fetch_weather_data.py:101-108 | the loop leaves the frame as the repair loop's closed form, rows unchanged |
| FlightTable.Table.InjectFailures | models/fetch_weather_data.py:91-95 | the loop leaves the frame as the injection loop's closed form, rows unchanged |
| FlightTable.RepairAllColumns | models/fetch_weather_data.py:101-108 | a listed base with both columns present is repaired against its copy; every other column is unchanged |
| FlightTable.RepairAllIdempotent | models/train_rocket_weather_model.py:11-19 | repairing twice is repairing once |
| FlightTable.InjectAllOther | models/fetch_weather_data.py:91-95 | injection leaves every unlisted column as it was |
| FlightTable.InjectAllBase | models/fetch_weather_data.py:95 | injection zeroes exactly the last 10 samples of each listed base |
| FlightTable.InjectAllRed | models/fetch_weather_data.py:92-93 | each redundant copy equals its base's column before injection |
| FlightTable.InjectAllColumns | models/fetch_weather_data.py:91-95 | injection in closed form: zeroed base tails, copied originals, other columns unchanged |
| FlightTable.RepairUndoesInjection | models/fetch_weather_data.py:91-108 | repair after injection restores every listed primary column, leaves the copies equal to the originals, and leaves other columns unchanged |
| FlightTable.TakeRows | models/fetch_weather_data.py:110 | picking rows keeps the columns, with one row per index |
| FlightTable.RepairAllTakeRows | models/fetch_weather_data.py:110 | repair commutes with picking rows |
| WeatherData.Selected | models/fetch_weather_data.py:26-33 | the selection holds only records in the event window and holds every such record |
| WeatherData.SelectedConcat | models/fetch_weather_data.py:26-33 | the filter keeps the order of the records |
| WeatherData.Stride | models/fetch_weather_data.py:82 | the step is at least 1, and `n // 40` once there are 40 records |
| WeatherData.PositionsShape | models/fetch_weather_data.py:82 | `range(start, n, step)` is empty exactly when `start >= n`; otherwise it starts at `start`, steps by `step`, stays below `n` and ends within one step of it |
| WeatherData.PickRecords | models/fetch_weather_data.py:82 | the loop visits exactly `range(0, n, max(1, n // 40))` |
| WeatherData.PickedRecords | models/fetch_weather_data.py:82 | the visited records are 0, s, 2s, … below `n`, the last within a stride of the end |
| WeatherData.Injected | models/fetch_weather_data.py:91-96 | one injected frame per flight, each with the redundant columns added |
| WeatherData.Column | models/fetch_weather_data.py:98 | a stacked column has one sample per row of every frame |
| WeatherData.Stack | models/fetch_weather_data.py:98 | the stack has the frames' columns and the total row count |
| WeatherData.InjectEach | models/fetch_weather_data.py:81-96 | the loop collects each flight after injection, in order |
| WeatherData.AssembleDataset | models/fetch_weather_data.py:81-108 | with no flight there is no dataset (`pd.concat` of an empty list raises); otherwise the dataset is the repaired stack of the injected flights, one row per flight row |
| WeatherData.ColumnRepaired | models/fetch_weather_data.py:98-108 | a stacked injected base, repaired against the stacked originals, is the stacked originals |
| WeatherData.ColumnCopied | models/fetch_weather_data.py:92-98 | the stacked redundant column is the stacked original primary |
| WeatherData.DatasetRestored | models/fetch_weather_data.py:91-108 | in the final dataset every listed primary column and its copy equal the stacked simulated primary |
| RocketWeatherModel.Earliest | models/train_rocket_weather_model.py:27 | the minimum skips NaT, is none exactly when every entry is NaT, and is an entry no greater than any other |
| RocketWeatherModel.Rebase | models/train_rocket_weather_model.py:23-27 | rebasing keeps the length |
| RocketWeatherModel.RebaseAsWritten | models/train_rocket_weather_model.py:23-27 | the code as written keeps the length |
| RocketWeatherModel.PrepareFeatures | models/train_rocket_weather_model.py:11-27 | the frame is repaired, then `Times` is rebased; rows unchanged |
| RocketWeatherModel.RebaseProperties | models/train_rocket_weather_model.py:27 | NaT stays NaT, offsets are at least 0, the earliest becomes 0, and differences are kept |
| RocketWeatherModel.RebaseKeepsOrder | models/train_rocket_weather_model.py:27 | rebasing keeps the order of timestamps, both directions |
| RocketWeatherModel.RebaseAsWrittenShrinks | models/train_rocket_weather_model.py:23-27 | as written, samples at 0 s and 160 s come out as 0 s and 1.6e-7 s |
| RocketWeatherModel.RepairAgainNoOp | models/train_rocket_weather_model.py:11-19 | when the data on disk is a row sample of a repaired frame, repairing it again changes nothing |

## Left out

- Serial I/O and threading are not modelled. This covers opening, reading and
  closing the port, the worker thread, `start`'s liveness check and `stop`'s
  cross-thread close. The device is a script of outcomes, and the script's end
  stands for `stop()` clearing the run flag.
- Byte decoding of serial lines is left out: a read outcome is already a
  decoded string.
- The `THREAD ERR` branch of `_run_worker` is not modelled. No statement of the
  modelled loop body can raise.
- `float(...)` and IEEE rounding are left out. A parsed record keeps the matched
  literal text, and a value is a real number or NaN.
- `str()` of a float in the telemetry labels is left out: a label holds the
  value it shows.
- Unicode is reduced to ASCII in two places (whitespace follows Python's
  `str.isspace` set in full):
  - `lower` / `upper` fold ASCII letters only;
  - `\d` in the numeric pattern matches `0`..`9` only, while Python 3 also
    matches every other Unicode decimal digit.
- `ToFloat` / `ParseFloatText` accept a subset of what `float()` accepts: an
  optional sign, a decimal literal, or `nan`. Exponents, `inf` and
  underscores convert to None in the model.
- The CSV layer is left out:
  - pandas `read_csv` and `to_csv`, the log file's encoding, and files written
    by other programs;
  - a read CSV is an input value, None when it cannot be read;
  - the log file is a sequence of rows that only the log tab writes.
- The clocks are parameters:
  - `current_timestamp` becomes the `timestamp` parameter;
  - `time.time()` becomes the `now` parameter.
- Qt presentation is not modelled:
  - label styles, `LogMessage` widgets and curve pens;
  - `setData(x, y)` is recorded as the data given to a curve.
- The log tab's process-wide `sys.stderr` redirection is left out; `Write` is
  the hook it installs.
- `tabs/gps_ml_workers.py` is not part of this model:
  - the landing prediction, the ellipse, the folium HTML and the worker
    threads;
  - a worker is recorded by the inputs it is started with, and its completion
    is a call of the matching callback;
  - the exceptions `_on_predicted` can raise are collapsed into a missing
    centre, and `radius_m` and `path` are not modelled.
- The error report of `_periodic_update` and `update_data` when a read fails
  (`print`, `logger.add_log`) is left out. A failed read changes nothing else.
- The plot tab's ML overlay is not modelled: `dummy_predictor` (random noise)
  and the `curves_ml` visibility. The `_update_gps_map` HTML is not modelled
  either; the map is recorded as the track it is given.
- `simulate_flight` and the weather files are not modelled:
  - the simulated flights are inputs;
  - the link from a picked weather record to its flight is not modelled;
  - `rocket_df.sample` is modelled as picking rows by index, with the random
    draw left out.
- The model training in `models/train_rocket_weather_model.py` after the
  feature preparation is not part of this model.
- RocketWeatherModel.RebaseAsWritten does not model `pd.to_datetime`'s rounding
  to whole nanoseconds: offsets are divided by 10^9 exactly.
- FlightTable.Table.RepairRedundant and FlightTable.Table.InjectFailures take
  the list of base columns as a parameter, and the scripts' code passes
  `FlightTable.Bases`.
- GpsTab.GpsTabView.PeriodicUpdate keeps the source's alignment. Altitudes are
  cut by position, not realigned with latitude rows dropped for NaN.
- PlotTab.PlotSensor shows an absent primary column as the redundant window,
  position by position (the corrected `PlotTab.MainCurve`). The code as
  written aligns by index label, which differs once there are more than 100
  rows (`PlotTab.MissingPrimaryDisplayAsWritten`, see "## Findings").
- PlotTab.PlotAll inherits that corrected display from `PlotTab.PlotSensor`.
- PlotTab.PlotTabView.UpdateData inherits that corrected display from
  `PlotTab.PlotSensor`.
- RocketWeatherModel.PrepareFeatures rebases `Times` with the corrected
  `RocketWeatherModel.Rebase` (seconds). The code as written divides the
  offsets by 10^9 (`RocketWeatherModel.RebaseAsWritten`, see "## Findings").
- WeatherData.Stack defines the stack of no frames as an empty frame, where
  `pd.concat` raises. `WeatherData.AssembleDataset`, its only user, returns no
  dataset in that case.
- GpsTab.GpsTabView.SetReferences reads a reference as present or absent
  (`Option`). The falsiness of an empty tuple is not modelled.

## Findings

| source | as written | input that shows it | evidently intended | confidence | as-written member | corrected member |
|---|---|---|---|---|---|---|
| tabs/plottab.py:79-83 | with the primary column missing, the NaN stand-in is indexed 0..k-1 while the redundant window keeps the frame's labels; `mask` aligns by label, so samples shift, and position 0 is NaN | 101 rows, no `Altitude_m` column, `Altitude_R_m` all 1.0: position 0 of the display is NaN | the display shows the redundant window position by position | medium; not executed | PlotTab.MissingPrimaryDisplayAsWritten, PlotTab.MissingPrimaryMisaligned | PlotTab.MainCurve, PlotTab.MissingPrimaryShowsRedundant |
| models/train_rocket_weather_model.py:23-27 | `Times` read back from the CSV holds plain numbers, which `pd.to_datetime` reads as nanoseconds, so `total_seconds()` yields the offsets divided by 10^9 | a flight sampled at 0 s and 160 s gives 0 s and 1.6e-7 s | seconds since the earliest sample: 0 s and 160 s | medium; not executed | RocketWeatherModel.RebaseAsWritten, RocketWeatherModel.RebaseAsWrittenShrinks | RocketWeatherModel.Rebase, RocketWeatherModel.RebaseProperties |
