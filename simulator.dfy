/** The data simulator (backend/simulate_data.py): it reads the board schema
    from the configuration file, produces one constant value per field (or
    "NaN" for a disconnected board) and assembles the CSV line a controller
    would send. */
module Simulator {
  import opened Common
  import opened Text

  // ---------------------------------------------------------------------------
  // The schema file
  // ---------------------------------------------------------------------------

  /** A board of the schema and its field names, in file order. */
  datatype SchemaEntry = SchemaEntry(id: string, fields: seq<string>)

  /** The entry `load_schema` makes of one file line, if any: blank lines,
      CONFIG: lines and lines with fewer than two comma parts give none. */
  function EntryOfLine(raw: string): (r: Option<SchemaEntry>)
    ensures r.Some? ==> |r.value.fields| >= 1 && ',' !in r.value.id
    ensures r.Some? ==> forall k :: 0 <= k < |r.value.fields| ==> ',' !in r.value.fields[k]
  {
    var line := Strip(raw);
    if line != "" && !StartsWith(line, "CONFIG:") then
      var parts := Split(line, ',');
      if |parts| >= 2 then Some(SchemaEntry(parts[0], parts[1..])) else None
    else None
  }

  /** The schema read from the file's lines, in order. */
  function SchemaOf(lines: seq<string>): seq<SchemaEntry>
  {
    if |lines| == 0 then []
    else
      var entry := EntryOfLine(lines[|lines| - 1]);
      SchemaOf(lines[..|lines| - 1]) + (if entry.Some? then [entry.value] else [])
  }

  /** `load_schema` over the lines of a configuration file that was found. */
  method LoadSchema(lines: seq<string>) returns (schema: seq<SchemaEntry>)
    ensures schema == SchemaOf(lines)
  {
    schema := [];
    var i := 0;
    while i < |lines|
      invariant 0 <= i <= |lines|
      invariant schema == SchemaOf(lines[..i])
    {
      assert lines[..i + 1][..i] == lines[..i];
      var line := Strip(lines[i]);
      if line != "" && !StartsWith(line, "CONFIG:") {
        var parts := Split(line, ',');
        if |parts| >= 2 {
          schema := schema + [SchemaEntry(parts[0], parts[1..])];
        }
      }
      i := i + 1;
    }
    assert lines[..i] == lines;
  }

  /** The text of a schema line: the board id, then its fields, comma-separated. */
  function SchemaLine(e: SchemaEntry): string
  {
    e.id + "," + Join(e.fields, ',')
  }

  lemma JoinCons(p: string, rest: seq<string>, sep: char)
    requires |rest| >= 1
    ensures Join([p] + rest, sep) == p + [sep] + Join(rest, sep)
  {
    assert ([p] + rest)[1..] == rest;
  }

  /** Reading back a schema line gives the entry it was written from, provided
      its names hold no comma and it has no surrounding whitespace. */
  lemma EntryOfSchemaLine(e: SchemaEntry)
    requires |e.fields| >= 1 && ',' !in e.id
    requires forall k :: 0 <= k < |e.fields| ==> ',' !in e.fields[k]
    requires Strip(SchemaLine(e)) == SchemaLine(e) && !StartsWith(SchemaLine(e), "CONFIG:")
    ensures EntryOfLine(SchemaLine(e)) == Some(e)
  {
    var parts := [e.id] + e.fields;
    JoinCons(e.id, e.fields, ',');
    assert forall k :: 0 <= k < |parts| ==> ',' !in parts[k] by {
      forall k | 0 <= k < |parts| ensures ',' !in parts[k] {
        if k > 0 {
          assert parts[k] == e.fields[k - 1];
        }
      }
    }
    SplitJoin(parts, ',');
    assert parts[0] == e.id && parts[1..] == e.fields;
  }

  /** Every line that yields an entry yields exactly one, in file order: the
      schema has at most one entry per line. */
  lemma {:induction false} SchemaOfBound(lines: seq<string>)
    ensures |SchemaOf(lines)| <= |lines|
    ensures forall e :: e in SchemaOf(lines) ==> |e.fields| >= 1
  {
    if |lines| > 0 {
      SchemaOfBound(lines[..|lines| - 1]);
    }
  }

  // ---------------------------------------------------------------------------
  // Field values
  // ---------------------------------------------------------------------------

  /** A simulated value: the string "NaN", or a float that is a whole number
      of tenths (every constant of the simulator is). */
  datatype SimValue = NaNText | Tenths(t: int)

  /** `generate_value`: "NaN" for every field of a disconnected board, else
      the constant of the first rule the field name matches. */
  function GenerateValue(field: string, mbId: string, disconnected: set<string>): (v: SimValue)
    ensures mbId != "" && mbId in disconnected <==> v == NaNText
  {
    if mbId != "" && mbId in disconnected then NaNText
    else Tenths(FieldConstant(field))
  }

  /** The field classification of `generate_value`, in tenths. */
  function FieldConstant(field: string): int
  {
    if field == "V1D" then 2300
    else if field == "I1D" then 85
    else if field == "V2D" then 2350
    else if field == "I2D" then 88
    else if field == "V3D" then 820
    else if field == "I3D" then 150
    else if 'V' in field && 'A' in field then 2200
    else if 'I' in field && 'A' in field then 100
    else if Contains(field, "T_m") then 350
    else if Contains(field, "T_amb") then 280
    else if Contains(field, "Batt") then 950
    else if Contains(field, "Rssi") then -650
    else if 'G' in field then 8000
    else if Contains(field, "Hum") then 450
    else InverterFieldConstant(field)
  }

  /** The inverter rules of `generate_value`, tried after the board rules. */
  function InverterFieldConstant(field: string): int
  {
    if Contains(field, "PV1_V") then 2300
    else if Contains(field, "PV2_V") then 2350
    else if Contains(field, "PV1_I") then 85
    else if Contains(field, "PV2_I") then 88
    else if Contains(field, "Vbat") then 520
    else if Contains(field, "Ibat") then 150
    else if Contains(field, "Vout") then 2200
    else if Contains(field, "Iout") then 200
    else if Contains(field, "Pout") then 44000
    else 500
  }

  /** A field none of the board rules matches is valued by the inverter rules. */
  lemma InverterField(field: string)
    requires field !in ["V1D", "I1D", "V2D", "I2D", "V3D", "I3D"]
    requires 'A' !in field && 'G' !in field && 'T' !in field && 'B' !in field && 'R' !in field && 'H' !in field
    ensures FieldConstant(field) == InverterFieldConstant(field)
  {
    MissingCharNotContained(field, "T_m", 'T');
    MissingCharNotContained(field, "T_amb", 'T');
    MissingCharNotContained(field, "Batt", 'B');
    MissingCharNotContained(field, "Rssi", 'R');
    MissingCharNotContained(field, "Hum", 'H');
  }

  lemma PvOneVoltage()
    ensures FieldConstant("PV1_V") == 2300
  {
    InverterField("PV1_V");
    assert StartsWith("PV1_V", "PV1_V");
  }

  lemma PvOneCurrent()
    ensures FieldConstant("PV1_I") == 85
  {
    InverterField("PV1_I");
    SameLengthNotContained("PV1_I", "PV1_V");
    MissingCharNotContained("PV1_I", "PV2_V", '2');
    assert StartsWith("PV1_I", "PV1_I");
  }

  lemma PvTwoVoltage()
    ensures FieldConstant("PV2_V") == 2350
  {
    InverterField("PV2_V");
    MissingCharNotContained("PV2_V", "PV1_V", '1');
    assert StartsWith("PV2_V", "PV2_V");
  }

  lemma PvTwoCurrent()
    ensures FieldConstant("PV2_I") == 88
  {
    InverterField("PV2_I");
    MissingCharNotContained("PV2_I", "PV1_V", '1');
    SameLengthNotContained("PV2_I", "PV2_V");
    MissingCharNotContained("PV2_I", "PV1_I", '1');
    assert StartsWith("PV2_I", "PV2_I");
  }

  lemma OutputPower()
    ensures FieldConstant("Pout") == 44000
  {
    InverterField("Pout");
    MissingCharNotContained("Pout", "PV1_V", 'V');
    MissingCharNotContained("Pout", "PV2_V", 'V');
    MissingCharNotContained("Pout", "PV1_I", 'V');
    MissingCharNotContained("Pout", "PV2_I", 'V');
    MissingCharNotContained("Pout", "Vbat", 'V');
    MissingCharNotContained("Pout", "Ibat", 'I');
    MissingCharNotContained("Pout", "Vout", 'V');
    MissingCharNotContained("Pout", "Iout", 'I');
    assert StartsWith("Pout", "Pout");
  }

  lemma OutputVoltage()
    ensures FieldConstant("Vout") == 2200
  {
    InverterField("Vout");
    MissingCharNotContained("Vout", "PV1_V", 'P');
    MissingCharNotContained("Vout", "PV2_V", 'P');
    MissingCharNotContained("Vout", "PV1_I", 'P');
    MissingCharNotContained("Vout", "PV2_I", 'P');
    MissingCharNotContained("Vout", "Vbat", 'b');
    MissingCharNotContained("Vout", "Ibat", 'I');
    assert StartsWith("Vout", "Vout");
  }

  lemma OutputCurrent()
    ensures FieldConstant("Iout") == 200
  {
    InverterField("Iout");
    MissingCharNotContained("Iout", "PV1_V", 'P');
    MissingCharNotContained("Iout", "PV2_V", 'P');
    MissingCharNotContained("Iout", "PV1_I", 'P');
    MissingCharNotContained("Iout", "PV2_I", 'P');
    MissingCharNotContained("Iout", "Vbat", 'V');
    MissingCharNotContained("Iout", "Ibat", 'b');
    MissingCharNotContained("Iout", "Vout", 'V');
    assert StartsWith("Iout", "Iout");
  }

  /** The inverter's first PV input reads like string 1 of a board (V1D, I1D). */
  lemma PvOneMatchesStringOne()
    ensures FieldConstant("PV1_V") == FieldConstant("V1D") && FieldConstant("PV1_I") == FieldConstant("I1D")
  {
    PvOneVoltage();
    PvOneCurrent();
  }

  /** The inverter's second PV input reads like string 2 of a board (V2D, I2D). */
  lemma PvTwoMatchesStringTwo()
    ensures FieldConstant("PV2_V") == FieldConstant("V2D") && FieldConstant("PV2_I") == FieldConstant("I2D")
  {
    PvTwoVoltage();
    PvTwoCurrent();
  }

  /** The inverter's simulated output power is its output voltage times its
      output current (in tenths: 4400.0 == 220.0 * 20.0). */
  lemma OutputPowerIsVoltageTimesCurrent()
    ensures FieldConstant("Pout") * 10 == FieldConstant("Vout") * FieldConstant("Iout")
  {
    OutputPower();
    OutputVoltage();
    OutputCurrent();
  }

  /** Python's `str()` of a simulated value. */
  function Render(v: SimValue): (s: string)
    ensures ',' !in s
    ensures v.NaNText? <==> s == "NaN"
  {
    match v
    case NaNText => "NaN"
    case Tenths(t) =>
      var magnitude: nat := if t < 0 then -t else t;
      var body := NatToString(magnitude / 10) + "." + [DigitChar(magnitude % 10)];
      assert body[|body| - 2] == '.';
      if t < 0 then "-" + body else body
  }

  // ---------------------------------------------------------------------------
  // The CSV line
  // ---------------------------------------------------------------------------

  /** The rendered values of one board's fields, in order. */
  function BoardValues(e: SchemaEntry, disconnected: set<string>): seq<string>
  {
    FieldValues(e.fields, FieldText(e.id, disconnected))
  }

  /** The rendering of a field's simulated value on board `mbId`. */
  function FieldText(mbId: string, disconnected: set<string>): string -> string
  {
    field => Render(GenerateValue(field, mbId, disconnected))
  }

  /** The value of each field, in field order; `value` stands for the
      rendering of one field of the board at hand. */
  function FieldValues(fields: seq<string>, value: string -> string): seq<string>
  {
    if |fields| == 0 then []
    else FieldValues(fields[..|fields| - 1], value) + [value(fields[|fields| - 1])]
  }

  /** The rendered values of the whole schema, board by board. */
  function SimValues(schema: seq<SchemaEntry>, disconnected: set<string>): seq<string>
  {
    if |schema| == 0 then []
    else SimValues(schema[..|schema| - 1], disconnected) + BoardValues(schema[|schema| - 1], disconnected)
  }

  function TotalFields(schema: seq<SchemaEntry>): nat
  {
    if |schema| == 0 then 0 else TotalFields(schema[..|schema| - 1]) + |schema[|schema| - 1].fields|
  }

  /** The timestamp, a comma, and the values joined by commas. */
  function CsvLine(timestamp: string, values: seq<string>): string
  {
    timestamp + "," + Join(values, ',')
  }

  /** The CSV assembly of `main`: one value per field, board by board. */
  method BuildCsvLine(schema: seq<SchemaEntry>, disconnected: set<string>, timestamp: string) returns (line: string)
    ensures line == CsvLine(timestamp, SimValues(schema, disconnected))
  {
    var values := [];
    var b := 0;
    while b < |schema|
      invariant 0 <= b <= |schema|
      invariant values == SimValues(schema[..b], disconnected)
    {
      assert schema[..b + 1][..b] == schema[..b];
      var boardValues := SimulateBoard(schema[b], disconnected);
      values := values + boardValues;
      b := b + 1;
    }
    assert schema[..b] == schema;
    line := timestamp + "," + Join(values, ',');
  }

  /** The inner loop of the CSV assembly: the values of one board's fields. */
  method SimulateBoard(mb: SchemaEntry, disconnected: set<string>) returns (values: seq<string>)
    ensures values == BoardValues(mb, disconnected)
  {
    var value := FieldText(mb.id, disconnected);
    values := [];
    var f := 0;
    while f < |mb.fields|
      invariant 0 <= f <= |mb.fields|
      invariant values == FieldValues(mb.fields[..f], value)
    {
      assert mb.fields[..f + 1][..f] == mb.fields[..f];
      values := values + [value(mb.fields[f])];
      f := f + 1;
    }
    assert mb.fields[..f] == mb.fields;
  }

  lemma {:induction false} FieldValuesSpec(fields: seq<string>, value: string -> string)
    ensures |FieldValues(fields, value)| == |fields|
    ensures forall k :: 0 <= k < |fields| ==> FieldValues(fields, value)[k] == value(fields[k])
  {
    if |fields| > 0 {
      var init := fields[..|fields| - 1];
      FieldValuesSpec(init, value);
      forall k | 0 <= k < |init| ensures FieldValues(fields, value)[k] == value(fields[k]) {
        assert fields[k] == init[k];
      }
    }
  }

  /** One value per field of a board, each the rendering of that field's
      simulated value, so none contains a comma. */
  lemma BoardValuesSpec(e: SchemaEntry, disconnected: set<string>)
    ensures |BoardValues(e, disconnected)| == |e.fields|
    ensures forall k :: 0 <= k < |e.fields| ==>
              BoardValues(e, disconnected)[k] == Render(GenerateValue(e.fields[k], e.id, disconnected))
    ensures forall k :: 0 <= k < |e.fields| ==> ',' !in BoardValues(e, disconnected)[k]
  {
    FieldValuesSpec(e.fields, FieldText(e.id, disconnected));
  }

  /** One value per field of the schema, none containing a comma. */
  lemma {:induction false} SimValuesSpec(schema: seq<SchemaEntry>, disconnected: set<string>)
    ensures |SimValues(schema, disconnected)| == TotalFields(schema)
    ensures forall k :: 0 <= k < |SimValues(schema, disconnected)| ==> ',' !in SimValues(schema, disconnected)[k]
  {
    if |schema| > 0 {
      var init := schema[..|schema| - 1];
      var last := schema[|schema| - 1];
      SimValuesSpec(init, disconnected);
      BoardValuesSpec(last, disconnected);
      var a, b := SimValues(init, disconnected), BoardValues(last, disconnected);
      forall k | 0 <= k < |a + b| ensures ',' !in (a + b)[k] {
        if k >= |a| {
          assert (a + b)[k] == b[k - |a|];
        }
      }
    }
  }

  /** Every field of a disconnected board is sent as "NaN". */
  lemma DisconnectedBoardSendsNaN(e: SchemaEntry, disconnected: set<string>)
    requires e.id != "" && e.id in disconnected
    ensures forall k :: 0 <= k < |BoardValues(e, disconnected)| ==> BoardValues(e, disconnected)[k] == "NaN"
    ensures |BoardValues(e, disconnected)| == |e.fields|
  {
    BoardValuesSpec(e, disconnected);
  }

  /** Splitting the CSV line at its commas gives back the timestamp followed
      by the values, as long as the timestamp has no comma and there is at
      least one value. */
  lemma CsvLineSplits(timestamp: string, values: seq<string>)
    requires ',' !in timestamp && |values| >= 1
    requires forall k :: 0 <= k < |values| ==> ',' !in values[k]
    ensures Split(CsvLine(timestamp, values), ',') == [timestamp] + values
  {
    var parts := [timestamp] + values;
    JoinCons(timestamp, values, ',');
    assert forall k :: 0 <= k < |parts| ==> ',' !in parts[k] by {
      forall k | 0 <= k < |parts| ensures ',' !in parts[k] {
        if k > 0 {
          assert parts[k] == values[k - 1];
        }
      }
    }
    SplitJoin(parts, ',');
  }

  /** The simulated line for a non-empty schema splits into the timestamp and
      exactly one value per schema field. */
  lemma SimulatedLineHasOneValuePerField(schema: seq<SchemaEntry>, disconnected: set<string>, timestamp: string)
    requires ',' !in timestamp && TotalFields(schema) >= 1
    ensures var parts := Split(CsvLine(timestamp, SimValues(schema, disconnected)), ',');
      |parts| == TotalFields(schema) + 1 && parts[0] == timestamp && parts[1..] == SimValues(schema, disconnected)
  {
    SimValuesSpec(schema, disconnected);
    CsvLineSplits(timestamp, SimValues(schema, disconnected));
  }
}
