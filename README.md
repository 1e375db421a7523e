# PV dashboard: a verified model of its core

The PV dashboard monitors a photovoltaic station. An STM32 controller sends measurement lines over a serial port, and a Python backend receives them. The backend also runs a rule-based diagnosis engine over each snapshot and forwards the results to a React front end over a WebSocket. The front end:

- draws the live and the historical charts;
- edits the assignment of measurement boards ("MBs") to monitoring points;
- has a demo login and a role-filtered side menu.

This project models that core in Dafny and proves the properties its code promises. It has one module per source file:

| file | module | models |
|---|---|---|
| `diagnosis.dfy` | `Diagnosis` | backend/diagnosis.py: threshold derivation, sensor categories, the NaN, voltage, current, power-discrepancy, temperature and signal checks, and the alert signature |
| `line_protocol.dfy` | `LineProtocol` | backend/server.py: how a serial line becomes a measurement, newline framing, the `CONFIG:` line sequence, the history append and the WebSocket command dispatch |
| `simulator.dfy` | `Simulator` | backend/simulate_data.py: schema loading, the field-value rules and the CSV line |
| `live_chart.dfy` | `LiveChart` | src/LiveChart.js: chart rows, metric discovery and merging, readable names, the de-duplicating append |
| `historical_chart.dfy` | `HistoricalChart` | src/HistoricalChart.js: the summary statistics and the mock-data point count and timestamps |
| `metric_selection.dfy` | `MetricSelection` | the metric toggle and series colours shared by both charts |
| `mb_config.dfy` | `MbConfig` | src/MBConfigTab.js: drag-and-drop assignment, point editing, new boards, status icons |
| `login.dfy` | `Login` | src/Login.js: the credential decision and the demo buttons |
| `sidebar.dfy` | `Sidebar` | src/Sidebar.js: the role filter, the open/closed state and the coming-soon guard |

Two modules hold the language semantics the others rely on:

- `Common`: Option, readings that are numbers or strings, and JavaScript objects as ordered key/value lists.
- `Text`: Python's `strip`, `split` and `join`, and decimal rendering.

Where the source updates state, the model is a class whose methods assign the same fields. Examples are `DiagnosisEngine`, `SerialLink` and `Backend`, and the React components' `useState` variables. Each method is proved against a specification function, and the lemmas beside that function state what the source promises.

Python dicts and JavaScript objects whose iteration order matters are sequences of pairs:

- the boards of a snapshot and their fields;
- the assignment map;
- a chart row.

Where the code and a design description disagree, the model follows the code. Three places where this matters:

- `check_currents` calls `abs()` on the inverter's `Ibat` before its `isinstance` test. A string `Ibat` therefore raises `TypeError`, and the whole analysis fails. `Diagnosis.InverterCurrentAlerts` returns `TypeError` in that case.
- `check_power_discrepancy` reads `PV1_V` and the other inverter values without a type test. A string among them fails the analysis the same way.
- The simulator posts to `/api/simulate`, which this server.py does not define. Only the line the simulator builds is modelled.

## Model

| member | source | states |
|---|---|---|
| Diagnosis.DiagnosisEngine.constructor | backend/diagnosis.py:45-51 | a new engine is disabled, has an empty configuration and no sensor categories, and uses the default threshold table |
| Diagnosis.DiagnosisEngine.AutoCalculateThresholds | backend/diagnosis.py:82-112 | the table is the defaults with PV min/max from a truthy stringVoltage (×0.5, ×1.2), the PV current limit from a truthy stringCurrent (×1.2), the battery current limit from a truthy maxDcCurrent, and the battery min/max from a present nominalVoltage (×0.875, ×1.208) |
| Diagnosis.AutoWithoutDatasheetIsDefault | backend/diagnosis.py:82-112 | without datasheet values the derived table is exactly the default table |
| Diagnosis.AutoThresholdsWellOrdered | backend/diagnosis.py:82-112 | for non-negative datasheet voltages every derived lower bound lies below its upper bound |
| Diagnosis.DiagnosisEngine.SetConfig | backend/diagnosis.py:114-126 | the configuration is stored; a non-empty `thresholds` entry is used as is, otherwise the table is derived from the datasheet |
| Diagnosis.DiagnosisEngine.SetSensorCategories | backend/diagnosis.py:128-152 | the category map is rebuilt from the assignments alone (the inventory loop does nothing) |
| Diagnosis.CategorizeAllSpec | backend/diagnosis.py:143-145 | every board of an assignment gets that assignment's category; other boards keep theirs |
| Diagnosis.CategorizedIffAssigned | backend/diagnosis.py:133-145 | a board is in the category map iff some assignment lists it |
| Diagnosis.LastAssignmentWins | backend/diagnosis.py:133-145 | a board gets the category of the sensor of the last assignment listing it |
| Diagnosis.CategoriesOfSpec | backend/diagnosis.py:133-145 | a board has a category iff some assignment lists it, and it is the category of the sensor of the LAST assignment listing it (later assignments override) |
| Diagnosis.NanCountFacts | backend/diagnosis.py:188-198 | the NaN count is positive iff some field is NaN text, and equals the field count iff all fields are |
| Diagnosis.BoardNanAlerts | backend/diagnosis.py:188-223 | at most one alert per board, present iff some field is NaN; it is critical "Measurement Board Disconnected" iff all fields are NaN, else error "Sensor Malfunction", with the NaN count as value and threshold 0 |
| Diagnosis.DiagnosisEngine.CheckNanValues | backend/diagnosis.py:184-225 | the loop returns the per-board NaN alerts of all boards in order |
| Diagnosis.NanAlertsPerBoard | backend/diagnosis.py:188-223 | the NaN check raises no more alerts than there are boards |
| Diagnosis.DisconnectedBoardReportedOnce | backend/diagnosis.py:201-212 | a board whose fields are all NaN raises exactly the disconnection alert and no voltage, current, temperature or signal alert |
| Diagnosis.AllNaNFieldsQuiet | backend/diagnosis.py:236-241 | NaN fields are skipped by the voltage and current checks |
| Diagnosis.UncategorisedLowVoltageQuiet | backend/diagnosis.py:241-265 | a board of category "other" whose readings are all at most 100 raises no voltage alert |
| Diagnosis.VoltageRoute | backend/diagnosis.py:241-265 | solar readings are checked against PV bounds, battery readings against battery bounds, "other" readings against PV bounds iff above 100, any other category not at all |
| Diagnosis.FieldVoltageAlertsSpec | backend/diagnosis.py:236-285 | a numeric V…D… field raises at most one alert: PV route iff above pv_max or below pv_min and above 10 (warning, the board's id); battery route iff above battery_max or below battery_min and above 10 (component "battery"); a low alert only for values above 10 |
| Diagnosis.DiagnosisEngine.CheckBoardVoltages | backend/diagnosis.py:232-285 | the field loop returns the per-field voltage alerts in field order |
| Diagnosis.InverterPvAlertSpec | backend/diagnosis.py:288-302 | a numeric PVn_V raises one warning for component INVD_PVn iff it exceeds pv_max |
| Diagnosis.InverterBatteryVoltageSpec | backend/diagnosis.py:304-327 | a numeric Vbat raises one voltage alert for "battery", valued at Vbat, iff it is above battery_max or below battery_min; above it is an ERROR with threshold battery_max, below a WARNING with threshold battery_min |
| Diagnosis.InverterVoltageAlertsBound | backend/diagnosis.py:287-327 | the inverter block raises at most three voltage alerts, none when it is empty |
| Diagnosis.DiagnosisEngine.CheckInverterVoltages | backend/diagnosis.py:287-327 | the method returns the inverter voltage alerts: PV1, PV2, then Vbat |
| Diagnosis.DiagnosisEngine.CheckVoltages | backend/diagnosis.py:227-329 | board alerts in board order, then inverter alerts |
| Diagnosis.FieldCurrentAlertsSpec | backend/diagnosis.py:339-367 | a numeric I…D… field raises one warning iff it exceeds the solar or battery current limit of its category; battery alerts name component "battery" |
| Diagnosis.InverterCurrentSpec | backend/diagnosis.py:369-382 | a missing Ibat raises nothing, a string Ibat is a TypeError, a numeric one raises one error iff its absolute value exceeds max_battery_current |
| Diagnosis.DiagnosisEngine.CheckBoardCurrents | backend/diagnosis.py:337-367 | the field loop returns the per-field current alerts of one board in field order |
| Diagnosis.DiagnosisEngine.CheckCurrents | backend/diagnosis.py:331-384 | board current alerts then the Ibat alert, or TypeError |
| Diagnosis.PercentDiffBounds | backend/diagnosis.py:399-400 | the percentage difference of two positive powers lies in 0..100 and is 0 iff they are equal |
| Diagnosis.MismatchSpec | backend/diagnosis.py:393-429 | a PV mismatch warning iff both powers exceed 100 and differ by more than max_percentage; a battery mismatch info alert iff both absolute powers exceed 100 and differ by more than it |
| Diagnosis.InvdGetIsLookup | backend/diagnosis.py:395 | `invd_data.get(key, 0)` is the looked-up reading (a number as a float, a string as itself) and the int 0 exactly when the key is absent |
| Diagnosis.NumericPvPower | backend/diagnosis.py:395-397 | with no string among PV1_V…PV2_I the inverter PV power is PV1_V·PV1_I + PV2_V·PV2_I, absent readings counting as 0 |
| Diagnosis.NumericPowers | backend/diagnosis.py:395-415 | with no string reading both inverter powers are numbers: PV1_V·PV1_I + PV2_V·PV2_I and Vbat·Ibat |
| Diagnosis.NumericComparisons | backend/diagnosis.py:399-429 | a numeric inverter power never raises, and each comparison gives exactly its mismatch alert (at most one) |
| Diagnosis.DiscrepancySpec | backend/diagnosis.py:386-431 | no calculations or no inverter data means no alerts; with no string reading, the outcome is the PV mismatch alert of total_pv_power against PV1_V·PV1_I + PV2_V·PV2_I, then the battery mismatch alert of battery_power against Vbat·Ibat, sensor values and readings defaulting to 0 |
| Diagnosis.DiscrepancyBound | backend/diagnosis.py:386-431 | at most one PV and one battery alert; a TypeError only when some reading among PV1_V…Ibat is a string |
| Diagnosis.StringBehindNonNumber | backend/diagnosis.py:395-415 | an inverter power that is not a number comes from a string reading |
| Diagnosis.StringTimesReadingRaises | backend/diagnosis.py:395-415 | a string reading whose partner in its product is present makes the whole check a TypeError |
| Diagnosis.LoneStringBatteryReading | backend/diagnosis.py:415-417 | a string Vbat or Ibat whose partner is absent multiplies to the empty string (`s * 0`); the check raises iff the sensor battery power's magnitude exceeds 100, and otherwise returns the PV alert alone |
| Diagnosis.NaNBatteryVoltageIsQuiet | backend/diagnosis.py:415-417 | Vbat "NaN" without Ibat, next to a sensor battery power of 50, gives no alert and no error |
| Diagnosis.DiagnosisEngine.CheckPowerDiscrepancy | backend/diagnosis.py:386-431 | the method, evaluating the products, the sum and the short-circuit comparisons step by step, returns the discrepancy outcome |
| Diagnosis.BoardTemperatureSpec | backend/diagnosis.py:433-477 | a numeric T_m raises one alert iff above panel_max; a numeric T_amb raises one info alert for "environment" iff above ambient_max or below ambient_min; at most two per board |
| Diagnosis.DiagnosisEngine.CheckBoardTemperature | backend/diagnosis.py:438-475 | the panel alert of one board, then its ambient alert |
| Diagnosis.DiagnosisEngine.CheckTemperature | backend/diagnosis.py:433-477 | temperature alerts of all boards in order |
| Diagnosis.BoardSignalSpec | backend/diagnosis.py:483-496 | no Rssi/RSSI key means no alert; Rssi wins over RSSI; a numeric reading raises one alert iff below min_rssi |
| Diagnosis.DiagnosisEngine.CheckCommunication | backend/diagnosis.py:479-498 | signal alerts of all boards in order |
| Diagnosis.DiagnosisEngine.AnalyzeMeasurement | backend/diagnosis.py:154-182 | a disabled engine returns no alerts; otherwise NaN, voltage, current, discrepancy, temperature and signal alerts concatenated in that order, or TypeError |
| Diagnosis.SignatureDeterminesAlertKind | backend/diagnosis.py:500-502 | two alerts whose titles have no underscore share a signature only if category, component and title agree |
| LineProtocol.ParsedValuesAppend | backend/server.py:150-154 | parsing two runs of parts one after the other gives the values of the first run followed by those of the second |
| LineProtocol.ParsedValueAt | backend/server.py:150-154 | a part that parses contributes its value right after the values of the parts before it |
| LineProtocol.ParsedValuesSpec | backend/server.py:150-156 | at most one value per part; none iff no part parses; every value comes from some part; every part `float()` accepts contributes its value, at the position after the values of the earlier parts, so the values keep the parts' order |
| LineProtocol.SkippingFirstPartIsHarmless | backend/server.py:133-150 | skipping a first part that does not parse gives the same values as keeping it |
| LineProtocol.CsvLineValues | backend/server.py:127-166 | a comma line that is no status echo yields the values of all its parts that parse, or nothing when none does |
| LineProtocol.MeasurementIff | backend/server.py:117-172 | a line is broadcast iff after strip it is no CONFIG:/CMD:/WAITING line, holds a comma and some part parses; the values are the parsed parts |
| LineProtocol.ReadLine | backend/server.py:117-172 | one pass of the read loop classifies the line as ClassifyLine does |
| LineProtocol.FramedSpec | backend/server.py:174-188 | a framed text ends with a newline, starts with the text, adds at most one character, is unchanged iff it already ended with one, and framing is idempotent |
| LineProtocol.FramedAllSpec | backend/server.py:174-188 | each text is framed on its own, in order |
| LineProtocol.SerialLink.SendRaw | backend/server.py:174-188 | on an open port the framed text is written and True returned; on a closed one nothing is written and False returned |
| LineProtocol.ConfigLinesShape | backend/server.py:190-228 | the sequence is CONFIG:DELAY= followed by the configured delay (8 when the key is absent), one line per inventory board, one per sensor, then CONFIG:END |
| LineProtocol.ConfigLinesArePrefixed | backend/server.py:190-228 | every configuration line starts with "CONFIG:" |
| LineProtocol.FramedEchoIsStatus | backend/server.py:117-123 | a framed line starting with "CONFIG:" is read back as a status echo |
| LineProtocol.ConfigEchoIsNeverAMeasurement | backend/server.py:117-123 | the device echoing any framed configuration line back is never taken for a measurement |
| LineProtocol.SerialLink.SendConfigLines | backend/server.py:190-228 | on an open port the framed configuration lines are written in order and True returned; on a closed port nothing |
| LineProtocol.Backend.AppendToHistory | backend/server.py:256-277 | the history becomes the stored list (or [] if missing, empty, unreadable or not a list) plus the new entry |
| LineProtocol.Backend.HandleCommand | backend/server.py:310-366 | scan/start/stop send CMD:SCAN/START/STOP and answer; a successful save stores, appends history and sends the CONFIG lines; a failed save only answers; unknown commands change nothing and get no answer |
| Simulator.EntryOfLine | backend/simulate_data.py:48-55 | an accepted line yields an id and at least one field, none holding a comma |
| Simulator.EntryOfSchemaLine | backend/simulate_data.py:48-55 | a schema line written from an entry is read back as that entry |
| Simulator.SchemaOfBound | backend/simulate_data.py:42-58 | the schema has at most one entry per line, each with at least one field |
| Simulator.LoadSchema | backend/simulate_data.py:42-58 | the loop appends each accepted line's entry in file order |
| Simulator.GenerateValue | backend/simulate_data.py:60-73 | the value is "NaN" iff the board id is non-empty and disconnected |
| Simulator.PvOneMatchesStringOne | backend/simulate_data.py:77-119 | the inverter's PV1 voltage and current equal those of string 1 |
| Simulator.PvTwoMatchesStringTwo | backend/simulate_data.py:77-119 | the inverter's PV2 voltage and current equal those of string 2 |
| Simulator.OutputPowerIsVoltageTimesCurrent | backend/simulate_data.py:124-129 | the simulated output power is output voltage times output current |
| Simulator.Render | backend/simulate_data.py:194 | a rendered value holds no comma and is "NaN" iff the value is NaN |
| Simulator.FieldValuesSpec | backend/simulate_data.py:193-194 | one value per field, the k-th being the value of the k-th field |
| Simulator.BoardValuesSpec | backend/simulate_data.py:192-194 | a board contributes one rendered simulated value per field, in field order, none holding a comma |
| Simulator.SimValuesSpec | backend/simulate_data.py:191-194 | one value per field of the schema, none holding a comma |
| Simulator.DisconnectedBoardSendsNaN | backend/simulate_data.py:71-73 | every field of a disconnected board is sent as NaN |
| Simulator.BuildCsvLine | backend/simulate_data.py:186-197 | the loop builds the timestamp and the values joined by commas |
| Simulator.SimulateBoard | backend/simulate_data.py:192-194 | the inner loop appends one rendered value per field of the board |
| Simulator.CsvLineSplits | backend/simulate_data.py:197 | splitting the line at commas gives back the timestamp and the values |
| Simulator.SimulatedLineHasOneValuePerField | backend/simulate_data.py:186-197 | a simulated line has exactly one part per schema field after the timestamp |
| Common.Assign | src/LiveChart.js:137-140 | `values[key] = val` sets the key, leaves other keys, keeps an existing key's place and appends a new one |
| Common.AssignAllLookup | src/LiveChart.js:132-134 | after `Object.assign` a key has its last value among the entries, else its old one |
| LiveChart.CopyCalculations | src/LiveChart.js:132-134 | copying the calculations one key at a time is `Object.assign` of all of them in order |
| LiveChart.CopyBoard | src/LiveChart.js:138-140 | a board's fields are written under their `mbId_field` columns in field order |
| LiveChart.ProcessMeasurement | src/LiveChart.js:128-145 | the row built by the loops is the timestamp, the calculations, then every `mbId_field` reading |
| LiveChart.RowLookup | src/LiveChart.js:128-145 | a key of the row holds its last board reading, else its last calculation, else the local time for "timestamp" |
| LiveChart.EveryFieldHasAColumn | src/LiveChart.js:137-141 | every field of every board has a column `mbId_field` in the row |
| LiveChart.AppendRow | src/LiveChart.js:39-44 | the new row is appended unless the last row has the same timestamp |
| LiveChart.AppendRowKeepsTimesApart | src/LiveChart.js:39-44 | no two consecutive rows share a timestamp |
| LiveChart.FirstAssignedPoint | src/LiveChart.js:105-117 | the first assignment (in order) whose list contains the board, or none iff no assignment does |
| LiveChart.FieldTypeSpec | src/LiveChart.js:110-113 | the type is Voltage/Current/Temp by the first letter, Irradiance for "G", else the field itself |
| LiveChart.ReadableNameSpec | src/LiveChart.js:83-122 | an INVD field found in the label table gives its label, any other INVD field "Inverter <field>"; a board assigned to a point p gives exactly p + " " + type + " (" + field + ")"; otherwise "<mbId> <field>" |
| LiveChart.FormatMetricNameSpec | src/LiveChart.js:124-126 | length is kept; at each position underscores become spaces, and a word character is upper-cased iff it starts the string or follows a non-word character; every other character is unchanged |
| LiveChart.FormatMetricNameIdempotent | src/LiveChart.js:124-126 | formatting a formatted name changes nothing |
| LiveChart.ShownFieldMetricsSpec | src/LiveChart.js:60-70 | the field loop yields exactly the entries of the fields other than BattS, Rssi and RSSI |
| LiveChart.BoardMetricsSpec | src/LiveChart.js:60-70 | a board offers one metric per field except BattS, Rssi and RSSI |
| LiveChart.DataMetricsSpec | src/LiveChart.js:60-70 | the offered metrics are those of the boards |
| LiveChart.HiddenFieldsNeverOffered | src/LiveChart.js:63-64 | every offered board metric comes from a field that is not hidden |
| LiveChart.NotYetKnown | src/LiveChart.js:74-75 | the new metrics are the found ones whose id is not yet known |
| LiveChart.NotYetKnownOne | src/LiveChart.js:74-75 | a single found metric is kept iff its id is not yet known |
| LiveChart.NotYetKnownKeepsOrder | src/LiveChart.js:74-75 | the filter works piecewise over concatenation, so the kept metrics stay in the order they were found |
| LiveChart.ExtendedByUnknown | src/LiveChart.js:73-80 | the old list followed by the unknown found metrics keeps the old list first, adds only unknown found metrics and covers every found id |
| LiveChart.MergeMetrics | src/LiveChart.js:73-80 | the old list is kept as a prefix, only unknown found metrics are appended, every found id ends up known, and nothing changes when all are known |
| LiveChart.MergeKeepsIdsDistinct | src/LiveChart.js:73-80 | merging keeps metric ids distinct |
| LiveChart.ProcessHistory | src/LiveChart.js:23-25 | the history is mapped to rows in order |
| LiveChart.LiveChartView.constructor | src/LiveChart.js:14-16 | no rows, "total_pv_power" selected, no metrics |
| LiveChart.LiveChartView.LoadHistory | src/LiveChart.js:19-32 | a fetched array replaces the rows and its last entry's metrics are merged; anything else leaves the chart as it was |
| LiveChart.LiveChartView.ReceiveMeasurement | src/LiveChart.js:35-47 | the row is appended unless its time repeats, and the message's metrics are merged |
| LiveChart.LiveChartView.ToggleMetric | src/LiveChart.js:147-156 | the selection is toggled and stays distinct and at most five long |
| MetricSelection.Without | src/LiveChart.js:150 | the filtered selection lacks the id and keeps every other |
| MetricSelection.WithoutOne | src/LiveChart.js:150 | a single id is dropped iff it is the filtered one |
| MetricSelection.WithoutKeepsOrder | src/LiveChart.js:150 | the filter works piecewise over concatenation, so the other ids keep their order |
| MetricSelection.Toggle | src/LiveChart.js:147-156 | a selected id is removed by the order-keeping filter; an unselected id is appended at the end when fewer than five are selected, and otherwise nothing changes; the id ends up selected iff it was not and fewer than five were; no other id changes; at most five stay selected |
| MetricSelection.ToggleKeepsDistinct | src/HistoricalChart.js:193-202 | the selection never holds an id twice |
| MetricSelection.ToggleTwiceRestores | src/HistoricalChart.js:193-202 | selecting then unselecting a metric restores the selection |
| MetricSelection.SeriesColor | src/LiveChart.js:158 | every series colour comes from the palette |
| MetricSelection.SeriesColorsDistinct | src/HistoricalChart.js:468-469 | series fewer than eight places apart get different colours |
| HistoricalChart.ValuesOf | src/HistoricalChart.js:180 | at most one value per row |
| HistoricalChart.SeqMin | src/HistoricalChart.js:183 | `Math.min` is a member of the values and below all of them |
| HistoricalChart.SeqMax | src/HistoricalChart.js:184 | `Math.max` is a member of the values and above all of them |
| HistoricalChart.StatsSpec | src/HistoricalChart.js:180-186 | min and max are values bounding all, the average lies between them and times the count gives the total |
| HistoricalChart.SummaryOf | src/HistoricalChart.js:172-191 | no summary iff there is no data or it is empty |
| HistoricalChart.SummaryLookup | src/HistoricalChart.js:178-190 | a metric has stats iff it is selected and has a value, and they are the stats of its values |
| HistoricalChart.PointCounts | src/HistoricalChart.js:147-149 | 24 points by hour, diffDays by day, 12 by month, 24 otherwise |
| HistoricalChart.MockTimestampsDistinct | src/HistoricalChart.js:152-156 | different points get different timestamps |
| HistoricalChart.GenerateMockTimes | src/HistoricalChart.js:151-167 | the loop yields PointCount timestamps, the i-th being the i-th timestamp |
| HistoricalChart.InverterMetricsAgreeWithLiveChart | src/HistoricalChart.js:37-46 | the nine inverter metrics have the ids and names the live chart gives the same fields |
| HistoricalChart.HistoricalChartView.constructor | src/HistoricalChart.js:16-48 | no rows, "total_pv_power" selected, the fixed metric list, no summary |
| HistoricalChart.HistoricalChartView.ShowData | src/HistoricalChart.js:72-74 | the rows are replaced and the summary recomputed for the current selection |
| HistoricalChart.HistoricalChartView.ToggleMetric | src/HistoricalChart.js:193-202 | the selection is toggled and stays distinct and at most five long |
| MbConfig.Updated | src/MBConfigTab.js:102-106 | editing a field never changes a point's id |
| MbConfig.DropOnPointsSpec | src/MBConfigTab.js:87-89 | the point with the target id takes the board's id; every other point is unchanged |
| MbConfig.AssignBoardSpec | src/MBConfigTab.js:92-94 | the dragged board takes the point's name; every other board is unchanged |
| MbConfig.UpdatePointsSpec | src/MBConfigTab.js:102-104 | only the selected point gets the edited field |
| MbConfig.DropLinksBoardAndPoint | src/MBConfigTab.js:84-98 | after a drop the point names the board, the board names the point, nothing else changes |
| MbConfig.SelectionStaysInSync | src/MBConfigTab.js:100-107 | the selection's new value equals its list entry's, and the point ids are unchanged |
| MbConfig.DropKeepsIds | src/MBConfigTab.js:87-89 | a drop keeps the point ids |
| MbConfig.AssignKeepsBoardIds | src/MBConfigTab.js:92-94 | a drop keeps the board ids |
| MbConfig.BoardId | src/MBConfigTab.js:114 | an id is "MB-" followed by at least two characters |
| MbConfig.BoardIdInjective | src/MBConfigTab.js:114 | different numbers give different ids |
| MbConfig.NumberedInOrderMeans | src/MBConfigTab.js:113-119 | an inventory is numbered in order iff the i-th board has the i-th generated id |
| MbConfig.NumberedIdsUnique | src/MBConfigTab.js:113-119 | a numbered inventory has distinct ids and the new id is not yet taken |
| MbConfig.NewBoardKeepsNumbering | src/MBConfigTab.js:113-119 | adding a board keeps the inventory numbered MB-01, MB-02, … |
| MbConfig.AssignKeepsNumbering | src/MBConfigTab.js:92-94 | assigning a board keeps the numbering |
| MbConfig.InitialBoardsNumbered | src/MBConfigTab.js:11-17 | the starting inventory is MB-01 … MB-05 |
| MbConfig.StatusIcon | src/MBConfigTab.js:456-463 | exactly online, weak and offline have an icon |
| MbConfig.StatusIconsDistinct | src/MBConfigTab.js:457-461 | the three statuses have different icons |
| MbConfig.MbConfigTab.constructor | src/MBConfigTab.js:11-56 | the initial inventory and points, no selection, no drag |
| MbConfig.MbConfigTab.HandleDragStart | src/MBConfigTab.js:80-82 | the board becomes the dragged one |
| MbConfig.MbConfigTab.SelectPoint | src/MBConfigTab.js:248 | the clicked point becomes the selection |
| MbConfig.MbConfigTab.HandleDrop | src/MBConfigTab.js:84-98 | without a dragged board nothing changes; otherwise the point takes the board, the board takes the point's name, the drag ends, and the numbering is kept |
| MbConfig.MbConfigTab.HandlePointUpdate | src/MBConfigTab.js:100-107 | without a selection nothing changes; otherwise the list entry and the selection get the same edit |
| MbConfig.MbConfigTab.AddNewMB | src/MBConfigTab.js:113-119 | one online, unassigned board with signal 100 and the next id is appended; the numbering is kept |
| Login.Authenticate | src/Login.js:10-28 | an empty field refuses before the credentials are looked at; admin@pv.com/admin123 logs in as admin, user@pv.com/user123 as user, each iff that pair is given |
| Login.ErrorText | src/Login.js:15-27 | no message iff logged in |
| Login.LoginOf | src/Login.js:21-24 | `onLogin` is called iff the outcome is a login, with that user |
| Login.DemoCredentials | src/Login.js:30-38 | "admin" fills the admin pair; any other choice fills the user pair |
| Login.LoginIffNoError | src/Login.js:12-27 | a submit logs in exactly when it leaves no error |
| Login.LoginOnlyWithDemoPair | src/Login.js:21-27 | only the two demo pairs log in, with the typed e-mail, their own role and name |
| Login.DemoLoginSucceeds | src/Login.js:30-38 | a demo button followed by a submit logs in with the chosen role |
| Login.LoginForm.constructor | src/Login.js:6-8 | both inputs and the error start empty |
| Login.LoginForm.SetEmail | src/Login.js:58 | typing sets only the e-mail |
| Login.LoginForm.SetPassword | src/Login.js:70 | typing sets only the password |
| Login.LoginForm.HandleSubmit | src/Login.js:10-28 | the error is cleared, then set to the outcome's message; the user handed to `onLogin` is returned; the inputs are kept |
| Login.LoginForm.HandleDemoLogin | src/Login.js:30-38 | the inputs hold the chosen demo pair; the error is kept |
| Sidebar.Visible | src/Sidebar.js:15-17 | an item is shown iff it has no roles or its roles include the user's role |
| Sidebar.VisibleOne | src/Sidebar.js:15-17 | a single item is kept iff it is shown to the role |
| Sidebar.VisibleKeepsOrder | src/Sidebar.js:15-17 | the filter works piecewise over concatenation, so the shown items keep the menu's order |
| Sidebar.Rendered | src/Sidebar.js:33-35 | nothing is rendered iff no item is shown |
| Sidebar.VisibleByRole | src/Sidebar.js:8-17 | an admin sees all three items; every other role sees only the stations item |
| Sidebar.AlwaysRendered | src/Sidebar.js:33-35 | the menu is always rendered: the stations item has no roles |
| Sidebar.ClickedPages | src/Sidebar.js:84 | a click changes the page iff the item is not coming soon |
| Sidebar.UserMenuOpensNothing | src/Sidebar.js:8-17 | a non-admin user can open no page from the menu |
| Sidebar.SidebarView.constructor | src/Sidebar.js:5 | the menu starts closed |
| Sidebar.SidebarView.Toggle | src/Sidebar.js:24-26 | `toggleSidebar` flips the open state |
| Sidebar.SidebarView.Close | src/Sidebar.js:28-30 | `closeSidebar` closes the menu |
| Sidebar.SidebarView.HandlePageChange | src/Sidebar.js:19-22 | the id is forwarded and the menu closes |
| Sidebar.SidebarView.ClickItem | src/Sidebar.js:84-85 | coming-soon items change nothing; other items forward their id and close the menu |

## Left out

- Serial-port I/O, the reader thread, the asyncio broadcast and the WebSocket connection manager (backend/server.py). These are I/O and concurrency. A read line, an open port, the success of a file write and the current time are parameters.
- File and JSON persistence (`save_config_to_file`, `get_config`, the file reads of `append_to_history`). The history file's state is a `HistoryFile` value, and the save's success is a parameter. A failed history write is not modelled; its boolean result is unused by the caller.
- Python's `float()` in the read loop is a parameter `parse`. Floating-point rounding, NaN and infinity are not modelled: readings are exact reals.
- The alert message texts, database ids, creation times and acknowledgement fields are not modelled. Alerts keep severity, category, title, component, value and threshold.
- `Diagnosis.AsciiUpper`: Python's `upper()` is modelled for ASCII letters only.
- `Diagnosis.DiscrepancyAlerts`: a present numeric reading is a float. A JSON integer reading would make `str * int` repeat a string where the model raises.
- `Diagnosis.EngineConfig`, `Diagnosis.DiagnosisEngine.AutoCalculateThresholds`, `Diagnosis.DiagnosisEngine.SetConfig`: datasheet values are optional reals and `thresholds` is a complete table. These shapes are not modelled: a string datasheet value, which is tested for truthiness and then passed to `float()` ("0" gives a PV maximum of 0, "abc" raises ValueError); a `nominalVoltage` of null, where `float(None)` raises TypeError; a partial `thresholds` dict, which is stored as is and raises KeyError in a later check.
- `Diagnosis.DiagnosisEngine.SetSensorCategories`: a sensor whose `category` is null is given category None in the source; the model gives a string category, so a missing key yields "other" and a null value is not modelled.
- `LineProtocol.DeviceConfig`: `delay` is an optional integer. A non-integer or null delay, which the source renders as is (`CONFIG:DELAY=None`), is not modelled.
- Configuration items that are not dicts, and `mb.get('id')` of a non-string value, are not modelled. `ConfigItem` holds optional strings and renders a missing one as "None".
- The simulator's connect/disconnect loop, its random numbers, its HTTP posting and the server search are not modelled. The disconnected set and the timestamp are parameters.
- `Simulator.Render`: values are whole numbers of tenths, rendered as Python prints such floats. Other floats do not occur.
- `LiveChart.ProcessMeasurement`: `toLocaleTimeString` is a parameter. JavaScript puts integer-like keys first in objects; that ordering is not modelled.
- `HistoricalChart.StatsSpec`: the source rounds each statistic with `toFixed(2)` and the model keeps exact values. String readings inside `calculateSummary` are not modelled.
- `getDateRange`, the date arithmetic of `generateMockData` and `toLocaleDateString` are not modelled. `diffDays` is a parameter, and the day timestamps are day indices.
- The mock data's random readings are not modelled. The point count and the timestamps are.
- The JSX rendering of all components is not modelled: layout, icons other than `StatusIcon`, and CSS classes.
