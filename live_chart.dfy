/** The live chart of the dashboard (src/LiveChart.js): each measurement
    envelope pushed by the backend becomes one chart row, the metrics it
    carries are offered in the metric picker, and up to five selected
    metrics are drawn. */
module LiveChart {
  import opened Common
  import opened Text
  import opened MetricSelection

  /** A measurement envelope as the dashboard receives it: calculations and
      per-board data are optional objects, kept in key order. */
  datatype Envelope = Envelope(
    timestamp: string,
    calculations: Option<seq<(string, Reading)>>,
    data: Option<seq<(string, seq<(string, Reading)>)>>)

  /** A chart row: a flat object of the row's time and its values. */
  type Row = seq<(string, Reading)>

  /** The column of a board's field: `${mbId}_${field}`. */
  function FieldKey(mbId: string, field: string): string
  {
    mbId + "_" + field
  }

  // ---------------------------------------------------------------------------
  // processMeasurement
  // ---------------------------------------------------------------------------

  /** The assignments a board's fields make to the row, in order. */
  function BoardEntries(mbId: string, fields: seq<(string, Reading)>): seq<(string, Reading)>
  {
    if |fields| == 0 then []
    else
      var last := fields[|fields| - 1];
      BoardEntries(mbId, fields[..|fields| - 1]) + [(FieldKey(mbId, last.0), last.1)]
  }

  /** The assignments all boards' fields make to the row, board by board. */
  function DataEntries(data: seq<(string, seq<(string, Reading)>)>): seq<(string, Reading)>
  {
    if |data| == 0 then []
    else DataEntries(data[..|data| - 1]) + BoardEntries(data[|data| - 1].0, data[|data| - 1].1)
  }

  /** The row of an envelope: its time, then the calculations copied in,
      then every board field under its column. */
  function RowOf(msg: Envelope, time: string): Row
  {
    AssignAll(AssignAll([("timestamp", Str(time))], msg.calculations.GetOr([])), DataEntries(msg.data.GetOr([])))
  }

  /** `processMeasurement`; `time` is the local time text of the envelope's timestamp. */
  method ProcessMeasurement(msg: Envelope, time: string) returns (row: Row)
    ensures row == RowOf(msg, time)
  {
    row := [("timestamp", Str(time))];
    if msg.calculations.Some? {
      row := CopyCalculations(row, msg.calculations.value);
    }
    ghost var base := row;
    if msg.data.Some? {
      var data := msg.data.value;
      var b := 0;
      while b < |data|
        invariant 0 <= b <= |data|
        invariant row == AssignAll(base, DataEntries(data[..b]))
      {
        assert data[..b + 1][..b] == data[..b];
        ghost var before := DataEntries(data[..b]);
        row := CopyBoard(row, data[b].0, data[b].1);
        AssignAllAppend(base, before, BoardEntries(data[b].0, data[b].1));
        b := b + 1;
      }
      assert data[..b] == data;
    }
  }

  /** The copy of the calculations into the row, one `row[key] = value` at a time. */
  method CopyCalculations(start: Row, calcs: seq<(string, Reading)>) returns (row: Row)
    ensures row == AssignAll(start, calcs)
  {
    row := start;
    var i := 0;
    while i < |calcs|
      invariant 0 <= i <= |calcs|
      invariant row == AssignAll(start, calcs[..i])
    {
      AssignAllPrefixSnoc(start, calcs, i);
      row := Assign(row, calcs[i].0, calcs[i].1);
      i := i + 1;
    }
    assert calcs[..i] == calcs;
  }

  /** The copy of one board's fields into the row, each under its column. */
  method CopyBoard(start: Row, mbId: string, fields: seq<(string, Reading)>) returns (row: Row)
    ensures row == AssignAll(start, BoardEntries(mbId, fields))
  {
    row := start;
    var f := 0;
    while f < |fields|
      invariant 0 <= f <= |fields|
      invariant row == AssignAll(start, BoardEntries(mbId, fields[..f]))
    {
      BoardEntriesSnoc(mbId, fields, f);
      AssignAllSnoc(start, BoardEntries(mbId, fields[..f]), FieldKey(mbId, fields[f].0), fields[f].1);
      row := Assign(row, FieldKey(mbId, fields[f].0), fields[f].1);
      f := f + 1;
    }
    assert fields[..f] == fields;
  }

  lemma BoardEntriesSnoc(mbId: string, fields: seq<(string, Reading)>, f: nat)
    requires f < |fields|
    ensures BoardEntries(mbId, fields[..f + 1]) == BoardEntries(mbId, fields[..f]) + [(FieldKey(mbId, fields[f].0), fields[f].1)]
  {
    assert fields[..f + 1][..f] == fields[..f];
  }

  /** Every field of every board is among the data assignments. */
  lemma {:induction false} DataEntriesHoldEveryField(data: seq<(string, seq<(string, Reading)>)>, b: nat, f: nat)
    requires b < |data| && f < |data[b].1|
    ensures (FieldKey(data[b].0, data[b].1[f].0), data[b].1[f].1) in DataEntries(data)
  {
    var init := data[..|data| - 1];
    if b < |data| - 1 {
      assert data[b] == init[b];
      DataEntriesHoldEveryField(init, b, f);
    } else {
      BoardEntriesHoldEveryField(data[b].0, data[b].1, f);
    }
  }

  lemma {:induction false} BoardEntriesHoldEveryField(mbId: string, fields: seq<(string, Reading)>, f: nat)
    requires f < |fields|
    ensures (FieldKey(mbId, fields[f].0), fields[f].1) in BoardEntries(mbId, fields)
  {
    if f < |fields| - 1 {
      assert fields[f] == fields[..|fields| - 1][f];
      BoardEntriesHoldEveryField(mbId, fields[..|fields| - 1], f);
    }
  }

  /** What a row column holds: the last board field written under it, else
      the calculation of that name, else (for "timestamp") the time; a
      column nothing writes is absent. Board data therefore overrides a
      calculation of the same name. */
  lemma RowLookup(msg: Envelope, time: string, key: string)
    ensures var data := DataEntries(msg.data.GetOr([]));
      var calcs := msg.calculations.GetOr([]);
      Lookup(RowOf(msg, time), key)
      == if LastValue(data, key).Some? then LastValue(data, key)
         else if LastValue(calcs, key).Some? then LastValue(calcs, key)
         else if key == "timestamp" then Some(Str(time))
         else None
  {
    var data := DataEntries(msg.data.GetOr([]));
    var calcs := msg.calculations.GetOr([]);
    var base: Row := [("timestamp", Str(time))];
    AssignAllLookup(AssignAll(base, calcs), data, key);
    AssignAllLookup(base, calcs, key);
  }

  /** Every board field of the envelope has a column in its row. */
  lemma EveryFieldHasAColumn(msg: Envelope, time: string, b: nat, f: nat)
    requires msg.data.Some? && b < |msg.data.value| && f < |msg.data.value[b].1|
    ensures Lookup(RowOf(msg, time), FieldKey(msg.data.value[b].0, msg.data.value[b].1[f].0)).Some?
  {
    var data := msg.data.value;
    var key := FieldKey(data[b].0, data[b].1[f].0);
    DataEntriesHoldEveryField(data, b, f);
    RowLookup(msg, time, key);
  }

  // ---------------------------------------------------------------------------
  // Appending rows
  // ---------------------------------------------------------------------------

  function RowTime(row: Row): Option<Reading>
  {
    Lookup(row, "timestamp")
  }

  /** The update of the chart data on a new measurement: a row whose time
      equals the last row's time is dropped. */
  function AppendRow(rows: seq<Row>, row: Row): (r: seq<Row>)
    ensures r == rows || r == rows + [row]
    ensures r == rows <==> |rows| > 0 && RowTime(rows[|rows| - 1]) == RowTime(row)
    ensures |r| > 0 && RowTime(r[|r| - 1]) == RowTime(row)
  {
    if |rows| > 0 && RowTime(rows[|rows| - 1]) == RowTime(row) then rows else rows + [row]
  }

  predicate NoRepeatedTimes(rows: seq<Row>)
  {
    forall i :: 0 < i < |rows| ==> RowTime(rows[i - 1]) != RowTime(rows[i])
  }

  /** Live updates never put two rows with the same time next to each other. */
  lemma AppendRowKeepsTimesApart(rows: seq<Row>, row: Row)
    requires NoRepeatedTimes(rows)
    ensures NoRepeatedTimes(AppendRow(rows, row))
  {
    var r := AppendRow(rows, row);
    if r != rows {
      forall i | 0 < i < |r| ensures RowTime(r[i - 1]) != RowTime(r[i]) {
        if i < |rows| {
          assert r[i - 1] == rows[i - 1] && r[i] == rows[i];
        }
      }
    }
  }

  // ---------------------------------------------------------------------------
  // Metric names
  // ---------------------------------------------------------------------------

  /** The fixed labels of the inverter's fields. */
  const InverterLabels: seq<(string, string)> := [
    ("PV1_V", "Inverter PV1 Voltage (V)"),
    ("PV1_I", "Inverter PV1 Current (A)"),
    ("PV2_V", "Inverter PV2 Voltage (V)"),
    ("PV2_I", "Inverter PV2 Current (A)"),
    ("Vbat", "Inverter Battery Voltage (V)"),
    ("Ibat", "Inverter Battery Current (A)"),
    ("Vout", "Inverter Output Voltage (V)"),
    ("Iout", "Inverter Output Current (A)"),
    ("Pout", "Inverter Output Power (W)"),
    ("BattS", "Battery Status"),
    ("Rssi", "Signal Strength")]

  /** The first monitoring point whose assignment lists the board. */
  function FirstAssignedPoint(assignments: seq<(string, seq<string>)>, mbId: string): (r: Option<string>)
    ensures r.None? <==> forall i :: 0 <= i < |assignments| ==> mbId !in assignments[i].1
    ensures r.Some? ==>
      exists i :: 0 <= i < |assignments| && assignments[i].0 == r.value && mbId in assignments[i].1
        && forall j :: 0 <= j < i ==> mbId !in assignments[j].1
  {
    if |assignments| == 0 then None
    else if mbId in assignments[0].1 then Some(assignments[0].0)
    else
      var r := FirstAssignedPoint(assignments[1..], mbId);
      assert forall i :: 1 <= i < |assignments| ==> assignments[i] == assignments[1..][i - 1];
      if r.Some? then
        ghost var i :| 0 <= i < |assignments[1..]| && assignments[1..][i].0 == r.value && mbId in assignments[1..][i].1
          && forall j :: 0 <= j < i ==> mbId !in assignments[1..][j].1;
        assert forall j :: 0 <= j < i + 1 ==> mbId !in assignments[j].1 by {
          forall j | 0 <= j < i + 1 ensures mbId !in assignments[j].1 {
            if j > 0 {
              assert assignments[j] == assignments[1..][j - 1];
            }
          }
        }
        r
      else r
  }

  /** The measured quantity a field name stands for; later rules win. */
  function FieldType(field: string): (t: string)
  {
    var t0 := field;
    var t1 := if StartsWith(field, "V") then "Voltage" else t0;
    var t2 := if StartsWith(field, "I") || StartsWith(field, "A") then "Current" else t1;
    var t3 := if StartsWith(field, "T") then "Temp" else t2;
    if field == "G" then "Irradiance" else t3
  }

  /** `getReadableName`; `assignments` is the configuration's point
      assignments, if the configuration has any. */
  function ReadableName(mbId: string, field: string, assignments: Option<seq<(string, seq<string>)>>): string
  {
    if mbId == "INVD" then Lookup(InverterLabels, field).GetOr("Inverter " + field)
    else
      var point := if assignments.Some? then FirstAssignedPoint(assignments.value, mbId) else None;
      match point
      case Some(p) => p + " " + FieldType(field) + " (" + field + ")"
      case None => mbId + " " + field
  }

  /** A field's type is one of the four known quantities or the field name
      itself, and each quantity comes from its initial letter. */
  lemma FieldTypeSpec(field: string)
    ensures FieldType(field) in {"Voltage", "Current", "Temp", "Irradiance", field}
    ensures |field| > 0 && field[0] == 'V' ==> FieldType(field) == "Voltage"
    ensures |field| > 0 && (field[0] == 'I' || field[0] == 'A') ==> FieldType(field) == "Current"
    ensures |field| > 0 && field[0] == 'T' ==> FieldType(field) == "Temp"
    ensures FieldType("G") == "Irradiance"
  {
    if |field| > 0 {
      assert StartsWith(field, "V") <==> field[0] == 'V';
      assert StartsWith(field, "I") <==> field[0] == 'I';
      assert StartsWith(field, "A") <==> field[0] == 'A';
      assert StartsWith(field, "T") <==> field[0] == 'T';
    }
  }

  /** Names of metrics: an inverter field takes its label from the table,
      or "Inverter <field>" when the table has none; a board assigned to a
      point is named "<point> <type> (<field>)" after the first point it is
      assigned to; any other board field is "<mbId> <field>". */
  lemma ReadableNameSpec(mbId: string, field: string, assignments: Option<seq<(string, seq<string>)>>)
    ensures mbId == "INVD" && Lookup(InverterLabels, field).Some? ==>
      ReadableName(mbId, field, assignments) == Lookup(InverterLabels, field).value
    ensures mbId == "INVD" && Lookup(InverterLabels, field).None? ==> ReadableName(mbId, field, assignments) == "Inverter " + field
    ensures mbId != "INVD" && assignments.Some? && FirstAssignedPoint(assignments.value, mbId).Some? ==>
      var p := FirstAssignedPoint(assignments.value, mbId).value;
      && ReadableName(mbId, field, assignments) == p + " " + FieldType(field) + " (" + field + ")"
      && StartsWith(ReadableName(mbId, field, assignments), p + " ")
      && EndsWith(ReadableName(mbId, field, assignments), "(" + field + ")")
    ensures mbId != "INVD" && (assignments.None? || FirstAssignedPoint(assignments.value, mbId).None?) ==>
      ReadableName(mbId, field, assignments) == mbId + " " + field
  {
    if mbId != "INVD" && assignments.Some? && FirstAssignedPoint(assignments.value, mbId).Some? {
      NamedAfterPoint(FirstAssignedPoint(assignments.value, mbId).value, FieldType(field), field);
    }
  }

  /** A point-based name starts with the point and ends with the field. */
  lemma NamedAfterPoint(point: string, quantity: string, field: string)
    ensures var name := point + " " + quantity + " (" + field + ")";
      StartsWith(name, point + " ") && EndsWith(name, "(" + field + ")")
  {
    var name := point + " " + quantity + " (" + field + ")";
    assert name == (point + " ") + (quantity + " ") + ("(" + field + ")");
  }

  // ---------------------------------------------------------------------------
  // formatMetricName
  // ---------------------------------------------------------------------------

  /** A character of the regular-expression class `\w`. */
  predicate IsWordChar(c: char)
  {
    ('a' <= c <= 'z') || ('A' <= c <= 'Z') || ('0' <= c <= '9') || c == '_'
  }

  function Upper(c: char): (u: char)
    ensures IsWordChar(u) <==> IsWordChar(c)
  {
    if 'a' <= c <= 'z' then (c as int - 32) as char else c
  }

  /** The first replacement: an underscore becomes a space. */
  function Unscore(c: char): char
  {
    if c == '_' then ' ' else c
  }

  /** The second replacement over the rest of the text, given whether the
      character before it is a word character. */
  function Capitalize(s: string, afterWord: bool): (r: string)
    ensures |r| == |s|
  {
    if |s| == 0 then ""
    else
      var c := Unscore(s[0]);
      [if IsWordChar(c) && !afterWord then Upper(c) else c] + Capitalize(s[1..], IsWordChar(c))
  }

  /** `formatMetricName`: underscores become spaces and the first letter of
      every word is upper-cased. */
  function FormatMetricName(key: string): string
  {
    Capitalize(key, false)
  }

  /** Whether the character before position i of the text is a word
      character, `afterWord` standing for the one before the text. */
  function AfterWordAt(s: string, i: nat, afterWord: bool): bool
    requires i < |s|
  {
    if i == 0 then afterWord else IsWordChar(Unscore(s[i - 1]))
  }

  lemma {:induction false} CapitalizeSpec(s: string, afterWord: bool)
    ensures '_' !in Capitalize(s, afterWord)
    ensures forall i :: 0 <= i < |s| ==> (Capitalize(s, afterWord)[i] == ' ' <==> s[i] == '_' || s[i] == ' ')
    ensures forall i :: 0 <= i < |s| ==>
              Capitalize(s, afterWord)[i] ==
                if IsWordChar(Unscore(s[i])) && !AfterWordAt(s, i, afterWord) then Upper(Unscore(s[i])) else Unscore(s[i])
  {
    if |s| > 0 {
      var c := Unscore(s[0]);
      var rest := Capitalize(s[1..], IsWordChar(c));
      CapitalizeSpec(s[1..], IsWordChar(c));
      var r := Capitalize(s, afterWord);
      forall i | 1 <= i < |s|
        ensures r[i] == rest[i - 1] && s[i] == s[1..][i - 1]
        ensures AfterWordAt(s, i, afterWord) == AfterWordAt(s[1..], i - 1, IsWordChar(c))
      {
      }
    }
  }

  /** The formatted name has the key's length and holds no underscore; it
      has a space exactly where the key has an underscore or a space; a word
      character (after the underscore replacement) that starts the name or
      follows a non-word character is upper-cased, and every other character
      is kept. */
  lemma FormatMetricNameSpec(key: string)
    ensures |FormatMetricName(key)| == |key|
    ensures '_' !in FormatMetricName(key)
    ensures forall i :: 0 <= i < |key| ==> (FormatMetricName(key)[i] == ' ' <==> key[i] == '_' || key[i] == ' ')
    ensures forall i :: 0 <= i < |key| ==>
              FormatMetricName(key)[i] ==
                if IsWordChar(Unscore(key[i])) && (i == 0 || !IsWordChar(Unscore(key[i - 1])))
                then Upper(Unscore(key[i])) else Unscore(key[i])
  {
    CapitalizeSpec(key, false);
    forall i | 0 <= i < |key| ensures AfterWordAt(key, i, false) == (i > 0 && IsWordChar(Unscore(key[i - 1]))) {
    }
  }

  lemma {:induction false} CapitalizeIdempotent(s: string, afterWord: bool)
    ensures Capitalize(Capitalize(s, afterWord), afterWord) == Capitalize(s, afterWord)
  {
    if |s| > 0 {
      var c := Unscore(s[0]);
      var r := Capitalize(s, afterWord);
      assert r[1..] == Capitalize(s[1..], IsWordChar(c));
      assert Unscore(r[0]) == r[0];
      CapitalizeIdempotent(s[1..], IsWordChar(c));
    }
  }

  /** Formatting an already formatted name changes nothing. */
  lemma FormatMetricNameIdempotent(key: string)
    ensures FormatMetricName(FormatMetricName(key)) == FormatMetricName(key)
  {
    CapitalizeIdempotent(key, false);
  }

  // ---------------------------------------------------------------------------
  // discoverMetrics
  // ---------------------------------------------------------------------------

  /** An entry of the metric picker. */
  datatype Metric = Metric(id: string, name: string, group: string)

  /** Fields never offered in the picker. */
  predicate IsHiddenField(field: string)
  {
    field == "BattS" || field == "Rssi" || field == "RSSI"
  }

  function CalculationMetrics(calcs: seq<(string, Reading)>): seq<Metric>
  {
    if |calcs| == 0 then []
    else
      var key := calcs[|calcs| - 1].0;
      CalculationMetrics(calcs[..|calcs| - 1]) + [Metric(key, FormatMetricName(key), "Calculated")]
  }

  /** The picker entry of a board's field. */
  function FieldMetric(mbId: string, field: string, assignments: Option<seq<(string, seq<string>)>>): Metric
  {
    Metric(FieldKey(mbId, field), ReadableName(mbId, field, assignments), mbId)
  }

  /** The picker entry of each field of one board. */
  function FieldMetricOf(mbId: string, assignments: Option<seq<(string, seq<string>)>>): string -> Metric
  {
    field => FieldMetric(mbId, field, assignments)
  }

  /** `metric` of each field other than BattS, Rssi and RSSI, in field order. */
  function ShownFieldMetrics(fields: seq<(string, Reading)>, metric: string -> Metric): seq<Metric>
  {
    if |fields| == 0 then []
    else
      var field := fields[|fields| - 1].0;
      ShownFieldMetrics(fields[..|fields| - 1], metric) + (if IsHiddenField(field) then [] else [metric(field)])
  }

  function BoardMetrics(mbId: string, fields: seq<(string, Reading)>, assignments: Option<seq<(string, seq<string>)>>): seq<Metric>
  {
    ShownFieldMetrics(fields, FieldMetricOf(mbId, assignments))
  }

  function DataMetrics(data: seq<(string, seq<(string, Reading)>)>, assignments: Option<seq<(string, seq<string>)>>): seq<Metric>
  {
    if |data| == 0 then []
    else DataMetrics(data[..|data| - 1], assignments) + BoardMetrics(data[|data| - 1].0, data[|data| - 1].1, assignments)
  }

  /** The metrics an envelope offers: its calculations, then its board fields. */
  function FoundMetrics(msg: Envelope, assignments: Option<seq<(string, seq<string>)>>): seq<Metric>
  {
    (if msg.calculations.Some? then CalculationMetrics(msg.calculations.value) else [])
    + (if msg.data.Some? then DataMetrics(msg.data.value, assignments) else [])
  }

  /** The shown fields' metrics are exactly those of the fields other than
      BattS, Rssi and RSSI. */
  lemma {:induction false} ShownFieldMetricsSpec(fields: seq<(string, Reading)>, metric: string -> Metric)
    ensures forall m :: m in ShownFieldMetrics(fields, metric) <==>
      exists f :: 0 <= f < |fields| && !IsHiddenField(fields[f].0) && m == metric(fields[f].0)
  {
    if |fields| > 0 {
      var init, last := fields[..|fields| - 1], fields[|fields| - 1].0;
      ShownFieldMetricsSpec(init, metric);
      var before := ShownFieldMetrics(init, metric);
      var own := if IsHiddenField(last) then [] else [metric(last)];
      assert ShownFieldMetrics(fields, metric) == before + own;
      forall m
        ensures m in before + own <==>
          exists f :: 0 <= f < |fields| && !IsHiddenField(fields[f].0) && m == metric(fields[f].0)
      {
        if m in before {
          var f :| 0 <= f < |init| && !IsHiddenField(init[f].0) && m == metric(init[f].0);
          assert init[f] == fields[f];
        } else if m !in own {
          forall f | 0 <= f < |fields| && !IsHiddenField(fields[f].0)
            ensures m != metric(fields[f].0)
          {
            if f < |init| {
              assert init[f] == fields[f];
            }
          }
        }
      }
    }
  }

  /** A board offers exactly its fields other than BattS, Rssi and RSSI. */
  lemma BoardMetricsSpec(mbId: string, fields: seq<(string, Reading)>, assignments: Option<seq<(string, seq<string>)>>)
    ensures forall m :: m in BoardMetrics(mbId, fields, assignments) <==>
      exists f :: 0 <= f < |fields| && !IsHiddenField(fields[f].0) && m == FieldMetric(mbId, fields[f].0, assignments)
  {
    ShownFieldMetricsSpec(fields, FieldMetricOf(mbId, assignments));
  }

  /** The data metrics are exactly the metrics of the envelope's boards. */
  lemma {:induction false} DataMetricsSpec(data: seq<(string, seq<(string, Reading)>)>, assignments: Option<seq<(string, seq<string>)>>)
    ensures forall m :: m in DataMetrics(data, assignments) <==>
      exists b :: 0 <= b < |data| && m in BoardMetrics(data[b].0, data[b].1, assignments)
  {
    if |data| > 0 {
      var init, last := data[..|data| - 1], data[|data| - 1];
      DataMetricsSpec(init, assignments);
      var before, own := DataMetrics(init, assignments), BoardMetrics(last.0, last.1, assignments);
      assert DataMetrics(data, assignments) == before + own;
      forall m
        ensures m in before + own <==> exists b :: 0 <= b < |data| && m in BoardMetrics(data[b].0, data[b].1, assignments)
      {
        if m in before {
          var b :| 0 <= b < |init| && m in BoardMetrics(init[b].0, init[b].1, assignments);
          assert init[b] == data[b];
        } else if m !in own {
          forall b | 0 <= b < |data|
            ensures m !in BoardMetrics(data[b].0, data[b].1, assignments)
          {
            if b < |init| {
              assert init[b] == data[b];
            }
          }
        }
      }
    }
  }

  /** No hidden field is ever offered: every data metric names a board field
      other than BattS, Rssi and RSSI. */
  lemma HiddenFieldsNeverOffered(data: seq<(string, seq<(string, Reading)>)>, assignments: Option<seq<(string, seq<string>)>>, m: Metric)
    requires m in DataMetrics(data, assignments)
    ensures exists b, f :: (0 <= b < |data| && 0 <= f < |data[b].1|
      && !IsHiddenField(data[b].1[f].0) && m.id == FieldKey(data[b].0, data[b].1[f].0))
  {
    DataMetricsSpec(data, assignments);
    var b :| 0 <= b < |data| && m in BoardMetrics(data[b].0, data[b].1, assignments);
    BoardMetricsSpec(data[b].0, data[b].1, assignments);
  }

  function IdsOf(metrics: seq<Metric>): set<string>
  {
    set i | 0 <= i < |metrics| :: metrics[i].id
  }

  /** The found metrics whose id is not among `known`, in order. */
  function NotYetKnown(found: seq<Metric>, known: set<string>): (r: seq<Metric>)
    ensures forall m :: m in r <==> m in found && m.id !in known
  {
    if |found| == 0 then []
    else
      var last := found[|found| - 1];
      var rest := NotYetKnown(found[..|found| - 1], known);
      assert forall m :: m in found <==> m in found[..|found| - 1] || m == last;
      rest + (if last.id in known then [] else [last])
  }

  /** A single found metric stays exactly when its id is unknown. */
  lemma NotYetKnownOne(m: Metric, known: set<string>)
    ensures NotYetKnown([m], known) == if m.id in known then [] else [m]
  {
    assert [m][..0] == [];
  }

  /** Filtering a list extended by one element filters the element alone. */
  lemma NotYetKnownSnoc(items: seq<Metric>, x: Metric, known: set<string>)
    ensures NotYetKnown(items + [x], known) == NotYetKnown(items, known) + NotYetKnown([x], known)
  {
    var s := items + [x];
    assert s[..|s| - 1] == items;
    assert s[|s| - 1] == x;
    NotYetKnownOne(x, known);
  }

  /** The filter keeps the order of the found metrics: it works piecewise. */
  lemma {:induction false} NotYetKnownKeepsOrder(a: seq<Metric>, b: seq<Metric>, known: set<string>)
    ensures NotYetKnown(a + b, known) == NotYetKnown(a, known) + NotYetKnown(b, known)
  {
    if |b| == 0 {
      assert a + b == a;
    } else {
      var init, last := b[..|b| - 1], b[|b| - 1];
      calc {
        NotYetKnown(a + b, known);
        { SplitLast(a, b); }
        NotYetKnown((a + init) + [last], known);
        { NotYetKnownSnoc(a + init, last, known); }
        NotYetKnown(a + init, known) + NotYetKnown([last], known);
        { NotYetKnownKeepsOrder(a, init, known); }
        NotYetKnown(a, known) + NotYetKnown(init, known) + NotYetKnown([last], known);
        { NotYetKnownSnoc(init, last, known); SplitLast(a, b); }
        NotYetKnown(a, known) + NotYetKnown(b, known);
      }
    }
  }

  /** The merge of `discoverMetrics`: the previous entries stay, in order,
      followed by the found entries whose id is new; when nothing is new
      the previous list is kept as it is. */
  function MergeMetrics(prev: seq<Metric>, found: seq<Metric>): (r: seq<Metric>)
    ensures |prev| <= |r| && r[..|prev|] == prev
    ensures forall i :: |prev| <= i < |r| ==> r[i] in found && r[i].id !in IdsOf(prev)
    ensures forall m :: m in found ==> m.id in IdsOf(r)
    ensures (forall m :: m in found ==> m.id in IdsOf(prev)) ==> r == prev
  {
    var added := NotYetKnown(found, IdsOf(prev));
    ExtendedByUnknown(prev, found);
    if |added| > 0 then prev + added else assert prev + added == prev; prev
  }

  /** The previous metrics followed by the unknown found ones keep the
      previous ones first, add only unknown found ones, and cover every
      found id. */
  lemma ExtendedByUnknown(prev: seq<Metric>, found: seq<Metric>)
    ensures var added := NotYetKnown(found, IdsOf(prev)); var r := prev + added;
      r[..|prev|] == prev
      && (forall i :: |prev| <= i < |r| ==> r[i] in found && r[i].id !in IdsOf(prev))
      && (forall m :: m in found ==> m.id in IdsOf(r))
      && ((forall m :: m in found ==> m.id in IdsOf(prev)) ==> added == [])
  {
    var added := NotYetKnown(found, IdsOf(prev));
    var r := prev + added;
    forall m | m in found ensures m.id in IdsOf(r) {
      if m.id !in IdsOf(prev) {
        var k :| 0 <= k < |added| && added[k] == m;
        assert r[|prev| + k] == m;
      } else {
        var k :| 0 <= k < |prev| && prev[k].id == m.id;
        assert r[k] == prev[k];
      }
    }
    forall i | |prev| <= i < |r| ensures r[i] in found && r[i].id !in IdsOf(prev) {
      assert r[i] == added[i - |prev|];
    }
    if |added| > 0 {
      assert added[0] in added;
    }
  }

  predicate DistinctIds(metrics: seq<Metric>)
  {
    forall i, j :: 0 <= i < j < |metrics| ==> metrics[i].id != metrics[j].id
  }

  lemma {:induction false} NotYetKnownKeepsDistinct(found: seq<Metric>, known: set<string>)
    requires DistinctIds(found)
    ensures DistinctIds(NotYetKnown(found, known))
  {
    if |found| > 0 {
      var init := found[..|found| - 1];
      var last := found[|found| - 1];
      NotYetKnownKeepsDistinct(init, known);
      var rest := NotYetKnown(init, known);
      if last.id !in known {
        forall m | m in rest ensures m.id != last.id {
          var k :| 0 <= k < |init| && init[k] == m;
          assert found[k] == m;
        }
        var r := rest + [last];
        forall i, j | 0 <= i < j < |r| ensures r[i].id != r[j].id {
          assert r[i] == rest[i];
          if j < |rest| {
            assert r[j] == rest[j];
          } else {
            assert rest[i] in rest;
          }
        }
      }
    }
  }

  /** The picker never lists an id twice if each discovery finds an id at most once. */
  lemma MergeKeepsIdsDistinct(prev: seq<Metric>, found: seq<Metric>)
    requires DistinctIds(prev) && DistinctIds(found)
    ensures DistinctIds(MergeMetrics(prev, found))
  {
    var added := NotYetKnown(found, IdsOf(prev));
    NotYetKnownKeepsDistinct(found, IdsOf(prev));
    var r := MergeMetrics(prev, found);
    forall i, j | 0 <= i < j < |r| ensures r[i].id != r[j].id {
      if j >= |prev| && i < |prev| {
        assert r[i] == prev[i];
        assert r[j].id !in IdsOf(prev);
      } else if i >= |prev| {
        assert r[i] == added[i - |prev|] && r[j] == added[j - |prev|];
      } else {
        assert r[i] == prev[i] && r[j] == prev[j];
      }
    }
  }

  // ---------------------------------------------------------------------------
  // The component's state
  // ---------------------------------------------------------------------------

  /** The rows of a loaded history, one per envelope. */
  function HistoryRows(history: seq<Envelope>, localTime: string -> string): seq<Row>
  {
    if |history| == 0 then []
    else
      var last := history[|history| - 1];
      HistoryRows(history[..|history| - 1], localTime) + [RowOf(last, localTime(last.timestamp))]
  }

  lemma HistoryRowsSnoc(history: seq<Envelope>, i: nat, localTime: string -> string)
    requires i < |history|
    ensures HistoryRows(history[..i + 1], localTime)
            == HistoryRows(history[..i], localTime) + [RowOf(history[i], localTime(history[i].timestamp))]
  {
    assert history[..i + 1][..i] == history[..i];
  }

  /** `data.map(processMeasurement)` over a fetched history. */
  method ProcessHistory(history: seq<Envelope>, localTime: string -> string) returns (rows: seq<Row>)
    ensures rows == HistoryRows(history, localTime)
  {
    rows := [];
    var i := 0;
    while i < |history|
      invariant 0 <= i <= |history|
      invariant rows == HistoryRows(history[..i], localTime)
    {
      HistoryRowsSnoc(history, i, localTime);
      var row := ProcessMeasurement(history[i], localTime(history[i].timestamp));
      rows := rows + [row];
      i := i + 1;
    }
    assert history[..i] == history;
  }

  /** The live chart's state: its rows, the selected metric ids and the
      metrics the picker offers. */
  class LiveChartView {
    var chartData: seq<Row>
    var selectedMetrics: seq<string>
    var availableMetrics: seq<Metric>

    ghost predicate Valid()
      reads this
    {
      |selectedMetrics| <= MaxSelected && Distinct(selectedMetrics)
    }

    constructor()
      ensures Valid()
      ensures chartData == [] && selectedMetrics == ["total_pv_power"] && availableMetrics == []
    {
      chartData := [];
      selectedMetrics := ["total_pv_power"];
      availableMetrics := [];
    }

    /** The history fetched on mount: a list replaces the rows, and the
        last envelope's metrics are discovered; anything else is ignored. */
    method LoadHistory(history: Option<seq<Envelope>>, localTime: string -> string,
                       assignments: Option<seq<(string, seq<string>)>>)
      modifies this
      ensures history.None? ==> chartData == old(chartData) && availableMetrics == old(availableMetrics)
      ensures history.Some? ==> chartData == HistoryRows(history.value, localTime)
      ensures history.Some? && |history.value| > 0 ==>
        availableMetrics == MergeMetrics(old(availableMetrics), FoundMetrics(history.value[|history.value| - 1], assignments))
      ensures history.Some? && |history.value| == 0 ==> availableMetrics == old(availableMetrics)
      ensures selectedMetrics == old(selectedMetrics)
    {
      if history.Some? {
        var list := history.value;
        chartData := ProcessHistory(list, localTime);
        if |list| > 0 {
          availableMetrics := MergeMetrics(availableMetrics, FoundMetrics(list[|list| - 1], assignments));
        }
      }
    }

    /** A new measurement from the backend. */
    method ReceiveMeasurement(msg: Envelope, localTime: string -> string,
                              assignments: Option<seq<(string, seq<string>)>>)
      modifies this
      ensures chartData == AppendRow(old(chartData), RowOf(msg, localTime(msg.timestamp)))
      ensures availableMetrics == MergeMetrics(old(availableMetrics), FoundMetrics(msg, assignments))
      ensures selectedMetrics == old(selectedMetrics)
    {
      var row := ProcessMeasurement(msg, localTime(msg.timestamp));
      chartData := AppendRow(chartData, row);
      availableMetrics := MergeMetrics(availableMetrics, FoundMetrics(msg, assignments));
    }

    /** `handleMetricToggle`. */
    method ToggleMetric(id: string)
      requires Valid()
      modifies this
      ensures Valid()
      ensures selectedMetrics == Toggle(old(selectedMetrics), id)
      ensures chartData == old(chartData) && availableMetrics == old(availableMetrics)
    {
      ToggleKeepsDistinct(selectedMetrics, id);
      selectedMetrics := Toggle(selectedMetrics, id);
    }
  }
}
