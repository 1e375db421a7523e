/** The PV diagnosis engine of the backend (backend/diagnosis.py): a
    rule-based validator that checks one measurement snapshot (per-board
    field maps, calculated values and the inverter's RS-485 block "INVD")
    against a threshold table and reports alerts. */
module Diagnosis {
  import opened Common
  import opened Text

  /** The fields of one board, in the order the measurement lists them. */
  type Fields = seq<(string, Reading)>
  /** The `data` map of a snapshot: board id to its fields, in order. */
  type Boards = seq<(string, Fields)>

  datatype Severity = Info | Warning | Error | Critical

  datatype AlertCategory = VoltageAlert | CurrentAlert | PowerAlert | TemperatureAlert
                         | CommunicationAlert | DiscrepancyAlert

  function CategoryName(c: AlertCategory): string
  {
    match c
    case VoltageAlert => "voltage"
    case CurrentAlert => "current"
    case PowerAlert => "power"
    case TemperatureAlert => "temperature"
    case CommunicationAlert => "communication"
    case DiscrepancyAlert => "discrepancy"
  }

  /** An alert as the engine creates it (its message text, database id,
      creation time and acknowledgement flags are not modelled). */
  datatype Alert = Alert(severity: Severity, category: AlertCategory, title: string,
                         component: string, value: real, threshold: real)

  /** The threshold table (the nested dict of the source, flattened). */
  datatype Thresholds = Thresholds(
    pvMin: real, pvMax: real, batteryMin: real, batteryMax: real, acMin: real, acMax: real,
    maxPvCurrent: real, maxBatteryCurrent: real, maxAcCurrent: real,
    maxPercentage: real,
    panelMax: real, ambientMax: real, ambientMin: real,
    minRssi: real)

  const DefaultThresholds := Thresholds(
    150.0, 450.0, 42.0, 58.0, 198.0, 264.0,
    30.0, 100.0, 50.0,
    15.0,
    85.0, 50.0, -10.0,
    -90.0)

  /** An entry of `config['sensors']`; `category` is None when the key is absent. */
  datatype Sensor = Sensor(id: string, category: Option<string>)

  /** The parts of the station configuration the engine reads.
      `thresholds` is None when `config['thresholds']` is absent or empty;
      the datasheet values are None when their key is absent. */
  datatype EngineConfig = EngineConfig(
    thresholds: Option<Thresholds>,
    stringVoltage: Option<real>,
    stringCurrent: Option<real>,
    maxDcCurrent: Option<real>,
    nominalVoltage: Option<real>,
    assignments: seq<(string, seq<string>)>,
    sensors: seq<Sensor>)

  const EmptyConfig := EngineConfig(None, None, None, None, None, [], [])

  // ---------------------------------------------------------------------------
  // Threshold selection
  // ---------------------------------------------------------------------------

  /** Python truthiness of a numeric datasheet entry: present and non-zero. */
  predicate Truthy(v: Option<real>)
  {
    v.Some? && v.value != 0.0
  }

  /** The table `auto_calculate_thresholds` derives from the datasheet:
      the defaults, with each derived entry replaced when its source key is given. */
  ghost predicate IsAutoThresholds(c: EngineConfig, t: Thresholds)
  {
    && t.pvMax == (if Truthy(c.stringVoltage) then c.stringVoltage.value * 1.2 else DefaultThresholds.pvMax)
    && t.pvMin == (if Truthy(c.stringVoltage) then c.stringVoltage.value * 0.5 else DefaultThresholds.pvMin)
    && t.maxPvCurrent == (if Truthy(c.stringCurrent) then c.stringCurrent.value * 1.2 else DefaultThresholds.maxPvCurrent)
    && t.maxBatteryCurrent == (if Truthy(c.maxDcCurrent) then c.maxDcCurrent.value else DefaultThresholds.maxBatteryCurrent)
    && t.batteryMin == (if c.nominalVoltage.Some? then c.nominalVoltage.value * 0.875 else DefaultThresholds.batteryMin)
    && t.batteryMax == (if c.nominalVoltage.Some? then c.nominalVoltage.value * 1.208 else DefaultThresholds.batteryMax)
    && t.acMin == DefaultThresholds.acMin && t.acMax == DefaultThresholds.acMax
    && t.maxAcCurrent == DefaultThresholds.maxAcCurrent
    && t.maxPercentage == DefaultThresholds.maxPercentage
    && t.panelMax == DefaultThresholds.panelMax
    && t.ambientMax == DefaultThresholds.ambientMax && t.ambientMin == DefaultThresholds.ambientMin
    && t.minRssi == DefaultThresholds.minRssi
  }

  /** Every lower bound of a table lies below its upper bound. */
  ghost predicate WellOrdered(t: Thresholds)
  {
    t.pvMin <= t.pvMax && t.batteryMin <= t.batteryMax && t.acMin <= t.acMax && t.ambientMin <= t.ambientMax
  }

  /** With no datasheet values the derived table is the default table. */
  lemma AutoWithoutDatasheetIsDefault(c: EngineConfig, t: Thresholds)
    requires c.stringVoltage.None? && c.stringCurrent.None? && c.maxDcCurrent.None? && c.nominalVoltage.None?
    requires IsAutoThresholds(c, t)
    ensures t == DefaultThresholds
  {
  }

  /** Derived tables keep their bounds ordered whenever the datasheet
      voltages are not negative. */
  lemma AutoThresholdsWellOrdered(c: EngineConfig, t: Thresholds)
    requires IsAutoThresholds(c, t)
    requires c.stringVoltage.Some? ==> c.stringVoltage.value >= 0.0
    requires c.nominalVoltage.Some? ==> c.nominalVoltage.value >= 0.0
    ensures WellOrdered(t)
  {
  }

  // ---------------------------------------------------------------------------
  // Sensor categories
  // ---------------------------------------------------------------------------

  /** The category of the first sensor with this id, "other" if there is none
      or it has no category. */
  function SensorCategory(sensors: seq<Sensor>, sensorId: string): string
  {
    if |sensors| == 0 then "other"
    else if sensors[0].id == sensorId then sensors[0].category.GetOr("other")
    else SensorCategory(sensors[1..], sensorId)
  }

  /** `m` after `m[mb] = category` for each board of `mbIds` in turn. */
  function CategorizeAll(m: map<string, string>, mbIds: seq<string>, category: string): map<string, string>
  {
    if |mbIds| == 0 then m
    else CategorizeAll(m, mbIds[..|mbIds| - 1], category)[mbIds[|mbIds| - 1] := category]
  }

  /** The board-to-category map built from the assignments, in order. */
  function CategoriesOf(sensors: seq<Sensor>, assignments: seq<(string, seq<string>)>): map<string, string>
  {
    if |assignments| == 0 then map[]
    else
      var last := assignments[|assignments| - 1];
      CategorizeAll(CategoriesOf(sensors, assignments[..|assignments| - 1]), last.1, SensorCategory(sensors, last.0))
  }

  /** `sensor_categories.get(mb_id, "other")`. */
  function CategoryOf(categories: map<string, string>, mbId: string): string
  {
    if mbId in categories then categories[mbId] else "other"
  }

  lemma {:induction false} CategorizeAllSpec(m: map<string, string>, mbIds: seq<string>, category: string, mb: string)
    ensures mb in CategorizeAll(m, mbIds, category) <==> mb in m || mb in mbIds
    ensures mb in mbIds ==> CategorizeAll(m, mbIds, category)[mb] == category
    ensures mb !in mbIds && mb in m ==> CategorizeAll(m, mbIds, category)[mb] == m[mb]
  {
    if |mbIds| > 0 {
      var init := mbIds[..|mbIds| - 1];
      CategorizeAllSpec(m, init, category, mb);
      assert mbIds == init + [mbIds[|mbIds| - 1]];
    }
  }

  /** A board has a category exactly when some assignment lists it, and it is
      the category of the sensor of the LAST assignment that lists it. */
  lemma CategoriesOfSpec(sensors: seq<Sensor>, assignments: seq<(string, seq<string>)>, mb: string)
    ensures mb in CategoriesOf(sensors, assignments) <==>
            exists i :: 0 <= i < |assignments| && mb in assignments[i].1
    ensures forall i :: 0 <= i < |assignments| && mb in assignments[i].1 &&
                        (forall j :: i < j < |assignments| ==> mb !in assignments[j].1) ==>
              mb in CategoriesOf(sensors, assignments) &&
              CategoriesOf(sensors, assignments)[mb] == SensorCategory(sensors, assignments[i].0)
  {
    CategorizedIffAssigned(sensors, assignments, mb);
    forall i | 0 <= i < |assignments| && mb in assignments[i].1 &&
               (forall j :: i < j < |assignments| ==> mb !in assignments[j].1)
      ensures mb in CategoriesOf(sensors, assignments) &&
              CategoriesOf(sensors, assignments)[mb] == SensorCategory(sensors, assignments[i].0)
    {
      LastAssignmentWins(sensors, assignments, mb, i);
    }
  }

  lemma {:induction false} CategorizedIffAssigned(sensors: seq<Sensor>, assignments: seq<(string, seq<string>)>, mb: string)
    ensures mb in CategoriesOf(sensors, assignments) <==>
            exists i :: 0 <= i < |assignments| && mb in assignments[i].1
  {
    if |assignments| > 0 {
      var n := |assignments| - 1;
      var init, last := assignments[..n], assignments[n];
      var before := CategoriesOf(sensors, init);
      CategorizedIffAssigned(sensors, init, mb);
      CategorizeAllSpec(before, last.1, SensorCategory(sensors, last.0), mb);
      if mb in last.1 {
        assert mb in assignments[n].1;
      } else if mb in before {
        var i :| 0 <= i < n && mb in init[i].1;
        assert init[i] == assignments[i];
      } else {
        forall i | 0 <= i < |assignments| ensures mb !in assignments[i].1 {
          if i < n {
            assert init[i] == assignments[i];
          }
        }
      }
    }
  }

  lemma {:induction false} LastAssignmentWins(sensors: seq<Sensor>, assignments: seq<(string, seq<string>)>, mb: string, i: nat)
    requires i < |assignments| && mb in assignments[i].1
    requires forall j :: i < j < |assignments| ==> mb !in assignments[j].1
    ensures mb in CategoriesOf(sensors, assignments)
    ensures CategoriesOf(sensors, assignments)[mb] == SensorCategory(sensors, assignments[i].0)
  {
    var n := |assignments| - 1;
    var init, last := assignments[..n], assignments[n];
    CategorizeAllSpec(CategoriesOf(sensors, init), last.1, SensorCategory(sensors, last.0), mb);
    if i < n {
      assert init[i] == assignments[i];
      assert mb !in assignments[n].1;
      forall j | i < j < n ensures mb !in init[j].1 {
        assert init[j] == assignments[j];
      }
      LastAssignmentWins(sensors, init, mb, i);
    }
  }

  // ---------------------------------------------------------------------------
  // Check 0: NaN values (disconnected boards and failing sensors)
  // ---------------------------------------------------------------------------

  function AsciiUpperChar(c: char): char
  {
    if 'a' <= c <= 'z' then (c as int - 32) as char else c
  }

  function AsciiUpper(s: string): (r: string)
    ensures |r| == |s|
  {
    if |s| == 0 then "" else AsciiUpper(s[..|s| - 1]) + [AsciiUpperChar(s[|s| - 1])]
  }

  /** `value == "NaN" or value == "nan" or (isinstance(value, str) and value.upper() == "NAN")`. */
  predicate IsNaNText(r: Reading)
  {
    r.Str? && (r.s == "NaN" || r.s == "nan" || AsciiUpper(r.s) == "NAN")
  }

  function NanCount(fields: Fields): (n: nat)
    ensures n <= |fields|
  {
    if |fields| == 0 then 0
    else NanCount(fields[..|fields| - 1]) + (if IsNaNText(fields[|fields| - 1].1) then 1 else 0)
  }

  lemma {:induction false} NanCountFacts(fields: Fields)
    ensures NanCount(fields) > 0 <==> exists i :: 0 <= i < |fields| && IsNaNText(fields[i].1)
    ensures NanCount(fields) == |fields| <==> forall i :: 0 <= i < |fields| ==> IsNaNText(fields[i].1)
  {
    if |fields| > 0 {
      var init := fields[..|fields| - 1];
      NanCountFacts(init);
      assert forall i :: 0 <= i < |init| ==> init[i] == fields[i];
      if !IsNaNText(fields[|fields| - 1].1) {
        assert NanCount(fields) == NanCount(init) <= |init| < |fields|;
      }
    }
  }

  const DisconnectedTitle := "Measurement Board Disconnected"
  const MalfunctionTitle := "Sensor Malfunction"

  /** The alerts `check_nan_values` raises for one board: at most one; a
      CRITICAL disconnection exactly when every field is NaN, an ERROR
      malfunction when only some are; the value is the number of NaN fields. */
  function BoardNanAlerts(mbId: string, fields: Fields): (r: seq<Alert>)
    ensures |r| <= 1
    ensures |r| == 1 <==> exists i :: 0 <= i < |fields| && IsNaNText(fields[i].1)
    ensures |r| == 1 ==>
              r[0].component == mbId && r[0].category == CommunicationAlert
              && r[0].value == NanCount(fields) as real && r[0].threshold == 0.0
    ensures |r| == 1 ==> (r[0].severity == Critical <==> forall i :: 0 <= i < |fields| ==> IsNaNText(fields[i].1))
    ensures |r| == 1 ==>
              (r[0].severity == Critical && r[0].title == DisconnectedTitle)
              || (r[0].severity == Error && r[0].title == MalfunctionTitle)
  {
    NanCountFacts(fields);
    var n := NanCount(fields);
    if n == 0 then []
    else if n == |fields| then [Alert(Critical, CommunicationAlert, DisconnectedTitle, mbId, n as real, 0.0)]
    else [Alert(Error, CommunicationAlert, MalfunctionTitle, mbId, n as real, 0.0)]
  }

  function NanAlerts(data: Boards): seq<Alert>
  {
    if |data| == 0 then []
    else NanAlerts(data[..|data| - 1]) + BoardNanAlerts(data[|data| - 1].0, data[|data| - 1].1)
  }

  // ---------------------------------------------------------------------------
  // Check 1: voltages
  // ---------------------------------------------------------------------------

  /** A board voltage field: its name starts with 'V' and contains 'D'. */
  predicate IsVoltageField(name: string)
  {
    StartsWith(name, "V") && 'D' in name
  }

  datatype Route = PvBounds | BatteryBounds | Unchecked

  /** Which bounds a board voltage is checked against, by the board's category:
      solar boards, and unknown boards reading above 100 V, against the PV
      string bounds; battery boards against the battery bounds. */
  function VoltageRoute(category: string, v: real): (r: Route)
    ensures category == "solar" ==> r == PvBounds
    ensures category == "battery" ==> r == BatteryBounds
    ensures category == "other" ==> (r == PvBounds <==> v > 100.0) && r != BatteryBounds
    ensures category !in {"solar", "battery", "other"} ==> r == Unchecked
  {
    if category == "solar" || (category == "other" && v > 100.0) then PvBounds
    else if category == "battery" then BatteryBounds
    else Unchecked
  }

  /** The alerts `check_voltages` raises for one board field. */
  function FieldVoltageAlerts(t: Thresholds, category: string, mbId: string, name: string, value: Reading): seq<Alert>
  {
    if IsNaNText(value) then []
    else if IsVoltageField(name) && value.Num? then
      var v := value.x;
      if category == "solar" || (category == "other" && v > 100.0) then
        if v > t.pvMax then [Alert(Warning, VoltageAlert, "High PV Voltage", mbId, v, t.pvMax)]
        else if v < t.pvMin && v > 10.0 then [Alert(Warning, VoltageAlert, "Low PV Voltage", mbId, v, t.pvMin)]
        else []
      else if category == "battery" then
        if v > t.batteryMax then [Alert(Error, VoltageAlert, "High Battery Voltage", "battery", v, t.batteryMax)]
        else if v < t.batteryMin && v > 10.0 then [Alert(Warning, VoltageAlert, "Low Battery Voltage", "battery", v, t.batteryMin)]
        else []
      else []
    else []
  }

  /** A board field raises at most one voltage alert; it is out of the bounds
      its category selects (a low reading only above the 10 V floor), and a
      field that is out of those bounds does raise one. */
  lemma FieldVoltageAlertsSpec(t: Thresholds, category: string, mbId: string, name: string, value: Reading)
    ensures var r := FieldVoltageAlerts(t, category, mbId, name, value);
      && |r| <= 1
      && (|r| == 1 ==> value.Num? && IsVoltageField(name) && r[0].value == value.x && r[0].category == VoltageAlert)
      && (|r| == 1 && value.x < r[0].threshold ==> value.x > 10.0)
      && (value.Num? && IsVoltageField(name) && VoltageRoute(category, value.x) == PvBounds ==>
            (|r| == 1 <==> value.x > t.pvMax || (value.x < t.pvMin && value.x > 10.0))
            && (|r| == 1 ==> r[0].component == mbId && r[0].severity == Warning))
      && (value.Num? && IsVoltageField(name) && VoltageRoute(category, value.x) == BatteryBounds ==>
            (|r| == 1 <==> value.x > t.batteryMax || (value.x < t.batteryMin && value.x > 10.0))
            && (|r| == 1 ==> r[0].component == "battery"))
      && (value.Num? && VoltageRoute(category, value.x) == Unchecked ==> r == [])
  {
  }

  function BoardVoltageAlerts(t: Thresholds, category: string, mbId: string, fields: Fields): seq<Alert>
  {
    if |fields| == 0 then []
    else
      var last := fields[|fields| - 1];
      BoardVoltageAlerts(t, category, mbId, fields[..|fields| - 1]) + FieldVoltageAlerts(t, category, mbId, last.0, last.1)
  }

  function SensorVoltageAlerts(t: Thresholds, categories: map<string, string>, data: Boards): seq<Alert>
  {
    if |data| == 0 then []
    else
      var last := data[|data| - 1];
      SensorVoltageAlerts(t, categories, data[..|data| - 1])
      + BoardVoltageAlerts(t, CategoryOf(categories, last.0), last.0, last.1)
  }

  /** The alert for inverter string input `n` (1 or 2): only a high voltage is reported. */
  function InverterPvAlert(t: Thresholds, invd: Fields, n: nat): seq<Alert>
  {
    match Lookup<Reading>(invd, "PV" + NatToString(n) + "_V")
    case Some(Num(v)) =>
      if v > t.pvMax then
        [Alert(Warning, VoltageAlert, "High Inverter PV" + NatToString(n) + " Voltage", "INVD_PV" + NatToString(n), v, t.pvMax)]
      else []
    case _ => []
  }

  /** Inverter string alerts for inputs 1 .. n-1. */
  function InverterPvAlertsBelow(t: Thresholds, invd: Fields, n: nat): seq<Alert>
  {
    if n <= 1 then [] else InverterPvAlertsBelow(t, invd, n - 1) + InverterPvAlert(t, invd, n - 1)
  }

  /** The inverter battery voltage check. */
  function InverterBatteryVoltageAlerts(t: Thresholds, invd: Fields): seq<Alert>
  {
    match Lookup<Reading>(invd, "Vbat")
    case Some(Num(v)) =>
      if v > t.batteryMax then [Alert(Error, VoltageAlert, "High Battery Voltage", "battery", v, t.batteryMax)]
      else if v < t.batteryMin then [Alert(Warning, VoltageAlert, "Low Battery Voltage", "battery", v, t.batteryMin)]
      else []
    case _ => []
  }

  function InverterVoltageAlerts(t: Thresholds, invd: Fields): seq<Alert>
  {
    if |invd| == 0 then [] else InverterPvAlertsBelow(t, invd, 3) + InverterBatteryVoltageAlerts(t, invd)
  }

  function VoltageAlerts(t: Thresholds, categories: map<string, string>, data: Boards, invd: Fields): seq<Alert>
  {
    SensorVoltageAlerts(t, categories, data) + InverterVoltageAlerts(t, invd)
  }

  /** Inverter string input `n` raises one WARNING, for its own component,
      exactly when its voltage reading exceeds the PV maximum. */
  lemma InverterPvAlertSpec(t: Thresholds, invd: Fields, n: nat, v: real)
    requires Lookup(invd, "PV" + NatToString(n) + "_V") == Some(Num(v))
    ensures var r := InverterPvAlert(t, invd, n);
      && |r| <= 1
      && (|r| == 1 <==> v > t.pvMax)
      && (|r| == 1 ==> r[0].severity == Warning && r[0].component == "INVD_PV" + NatToString(n) && r[0].value == v)
  {
  }

  /** The inverter battery voltage is checked against both battery bounds
      with no 10 V floor: an ERROR above, a WARNING below. */
  lemma InverterBatteryVoltageSpec(t: Thresholds, invd: Fields, v: real)
    requires Lookup(invd, "Vbat") == Some(Num(v))
    ensures var r := InverterBatteryVoltageAlerts(t, invd);
      && |r| <= 1
      && (|r| == 1 <==> v > t.batteryMax || v < t.batteryMin)
      && (|r| == 1 ==> r[0].component == "battery" && r[0].value == v && r[0].category == VoltageAlert)
      && (v > t.batteryMax ==> r[0].severity == Error && r[0].threshold == t.batteryMax)
      && (|r| == 1 && v <= t.batteryMax ==> r[0].severity == Warning && r[0].threshold == t.batteryMin)
  {
  }

  /** The inverter block contributes at most three voltage alerts, and none
      when it is empty. */
  lemma {:induction false} InverterVoltageAlertsBound(t: Thresholds, invd: Fields)
    ensures |InverterVoltageAlerts(t, invd)| <= 3
    ensures |invd| == 0 ==> InverterVoltageAlerts(t, invd) == []
  {
    if |invd| > 0 {
      assert InverterPvAlertsBelow(t, invd, 2) == InverterPvAlert(t, invd, 1);
      assert InverterPvAlertsBelow(t, invd, 3) == InverterPvAlert(t, invd, 1) + InverterPvAlert(t, invd, 2);
      assert |InverterPvAlert(t, invd, 1)| <= 1;
      assert |InverterPvAlert(t, invd, 2)| <= 1;
      assert |InverterBatteryVoltageAlerts(t, invd)| <= 1;
    }
  }

  // ---------------------------------------------------------------------------
  // Check 2: currents
  // ---------------------------------------------------------------------------

  /** The outcome of a check that can raise: `abs()` or `*` applied to a string
      raises TypeError in Python, and the exception ends the whole analysis. */
  datatype Checked = Alerts(list: seq<Alert>) | TypeError

  /** A board current field: its name starts with 'I' and contains 'D'. */
  predicate IsCurrentField(name: string)
  {
    StartsWith(name, "I") && 'D' in name
  }

  /** The alerts `check_currents` raises for one board field. */
  function FieldCurrentAlerts(t: Thresholds, category: string, mbId: string, name: string, value: Reading): seq<Alert>
  {
    if IsNaNText(value) then []
    else if IsCurrentField(name) && value.Num? then
      var v := value.x;
      if category == "solar" then
        if v > t.maxPvCurrent then [Alert(Warning, CurrentAlert, "High PV Current", mbId, v, t.maxPvCurrent)] else []
      else if category == "battery" then
        if v > t.maxBatteryCurrent then [Alert(Warning, CurrentAlert, "High Battery Current", "battery", v, t.maxBatteryCurrent)] else []
      else []
    else []
  }

  /** Only solar and battery boards have their currents checked, only against
      an upper bound, and a field above it raises exactly one WARNING. */
  lemma FieldCurrentAlertsSpec(t: Thresholds, category: string, mbId: string, name: string, value: Reading)
    ensures var r := FieldCurrentAlerts(t, category, mbId, name, value);
      && |r| <= 1
      && (|r| == 1 <==>
            value.Num? && IsCurrentField(name) &&
            ((category == "solar" && value.x > t.maxPvCurrent) ||
             (category == "battery" && value.x > t.maxBatteryCurrent)))
      && (|r| == 1 ==>
            r[0].severity == Warning && r[0].category == CurrentAlert && r[0].value == value.x
            && r[0].component == (if category == "battery" then "battery" else mbId))
  {
  }

  function BoardCurrentAlerts(t: Thresholds, category: string, mbId: string, fields: Fields): seq<Alert>
  {
    if |fields| == 0 then []
    else
      var last := fields[|fields| - 1];
      BoardCurrentAlerts(t, category, mbId, fields[..|fields| - 1]) + FieldCurrentAlerts(t, category, mbId, last.0, last.1)
  }

  function SensorCurrentAlerts(t: Thresholds, categories: map<string, string>, data: Boards): seq<Alert>
  {
    if |data| == 0 then []
    else
      var last := data[|data| - 1];
      SensorCurrentAlerts(t, categories, data[..|data| - 1])
      + BoardCurrentAlerts(t, CategoryOf(categories, last.0), last.0, last.1)
  }

  function Abs(x: real): (r: real)
    ensures r >= 0.0 && (r == x || r == -x)
  {
    if x < 0.0 then -x else x
  }

  function Max(a: real, b: real): (r: real)
    ensures r >= a && r >= b && (r == a || r == b)
  {
    if a >= b then a else b
  }

  /** The inverter battery current check. */
  function InverterCurrentAlerts(t: Thresholds, invd: Fields): Checked
  {
    if |invd| == 0 then Alerts([])
    else
      match Lookup<Reading>(invd, "Ibat")
      case None => Alerts([])
      case Some(Str(_)) => TypeError
      case Some(Num(x)) =>
        var v := Abs(x);
        if v > t.maxBatteryCurrent then
          Alerts([Alert(Error, CurrentAlert, "High Battery Current", "battery", v, t.maxBatteryCurrent)])
        else Alerts([])
  }

  /** A string Ibat makes the check raise; a numeric one raises one ERROR
      exactly when its magnitude exceeds the battery current limit. */
  lemma InverterCurrentSpec(t: Thresholds, invd: Fields)
    requires |invd| > 0
    ensures Lookup(invd, "Ibat").None? ==> InverterCurrentAlerts(t, invd) == Alerts([])
    ensures forall s :: Lookup(invd, "Ibat") == Some(Str(s)) ==> InverterCurrentAlerts(t, invd) == TypeError
    ensures forall v :: Lookup(invd, "Ibat") == Some(Num(v)) ==>
              var r := InverterCurrentAlerts(t, invd);
              && r.Alerts? && |r.list| <= 1
              && (|r.list| == 1 <==> Abs(v) > t.maxBatteryCurrent)
              && (|r.list| == 1 ==> r.list[0].severity == Error && r.list[0].value == Abs(v))
  {
  }

  function CurrentAlerts(t: Thresholds, categories: map<string, string>, data: Boards, invd: Fields): Checked
  {
    match InverterCurrentAlerts(t, invd)
    case TypeError => TypeError
    case Alerts(inv) => Alerts(SensorCurrentAlerts(t, categories, data) + inv)
  }

  // ---------------------------------------------------------------------------
  // Check 3: power discrepancy between the sensors and the inverter
  // ---------------------------------------------------------------------------

  /** `calculations.get(key, 0)`. */
  function CalcOr(calcs: map<string, real>, key: string): real
  {
    if key in calcs then calcs[key] else 0.0
  }

  /** The values the discrepancy check computes with: Python numbers (an
      int is a whole `x` with `isInt`), strings, and the TypeError an
      operation on them raises. */
  datatype PyValue = PyNum(x: real, isInt: bool) | PyStr(s: string) | Raised

  /** `invd_data.get(key, 0)`: the first entry with the key, a numeric
      reading as a float; the int 0 when the key is absent. */
  function InvdGet(invd: Fields, key: string): PyValue
  {
    if |invd| == 0 then PyNum(0.0, true)
    else if invd[0].0 == key then
      match invd[0].1
      case Num(v) => PyNum(v, false)
      case Str(s) => PyStr(s)
    else InvdGet(invd[1..], key)
  }

  /** `get` returns the looked-up reading, and its default exactly when the
      key is absent. */
  lemma {:induction false} InvdGetIsLookup(invd: Fields, key: string)
    ensures InvdGet(invd, key) ==
      match Lookup<Reading>(invd, key)
      case None => PyNum(0.0, true)
      case Some(Num(v)) => PyNum(v, false)
      case Some(Str(s)) => PyStr(s)
  {
    if |invd| > 0 && invd[0].0 != key {
      InvdGetIsLookup(invd[1..], key);
    }
  }

  /** `s * n` for a string and an int: n copies, none when n <= 0. */
  function Repeat(s: string, n: int): (r: string)
    ensures n <= 0 ==> r == ""
    decreases n
  {
    if n <= 0 then "" else s + Repeat(s, n - 1)
  }

  /** Python's `a * b`: numbers multiply, a string and an int repeat the
      string, anything else raises. */
  function PyMul(a: PyValue, b: PyValue): PyValue
  {
    if a.Raised? || b.Raised? then Raised
    else if a.PyNum? && b.PyNum? then PyNum(a.x * b.x, a.isInt && b.isInt)
    else if a.PyStr? && b.PyNum? && b.isInt then PyStr(Repeat(a.s, b.x.Floor))
    else if a.PyNum? && a.isInt && b.PyStr? then PyStr(Repeat(b.s, a.x.Floor))
    else Raised
  }

  /** Python's `a + b`: numbers add, strings concatenate, a mix raises. */
  function PyAdd(a: PyValue, b: PyValue): PyValue
  {
    if a.Raised? || b.Raised? then Raised
    else if a.PyNum? && b.PyNum? then PyNum(a.x + b.x, a.isInt && b.isInt)
    else if a.PyStr? && b.PyStr? then PyStr(a.s + b.s)
    else Raised
  }

  /** `invd_data.get(a, 0) * invd_data.get(b, 0)`. */
  function InvdProduct(invd: Fields, a: string, b: string): PyValue
  {
    PyMul(InvdGet(invd, a), InvdGet(invd, b))
  }

  /** The inverter's PV power: PV1_V*PV1_I + PV2_V*PV2_I. */
  function InvdPvPower(invd: Fields): PyValue
  {
    PyAdd(InvdProduct(invd, "PV1_V", "PV1_I"), InvdProduct(invd, "PV2_V", "PV2_I"))
  }

  /** The inverter's battery power: Vbat*Ibat. */
  function InvdBatteryPower(invd: Fields): PyValue
  {
    InvdProduct(invd, "Vbat", "Ibat")
  }

  /** A reading as a number, 0 when absent. */
  function ReadingOrZero(invd: Fields, key: string): real
  {
    var g := InvdGet(invd, key);
    if g.PyNum? then g.x else 0.0
  }

  /** `abs(a - b) / max(a, b) * 100`. */
  function PercentDiff(a: real, b: real): real
    requires Max(a, b) > 0.0
  {
    Abs(a - b) / Max(a, b) * 100.0
  }

  lemma QuotientAtMostOne(x: real, m: real)
    requires 0.0 <= x <= m && m > 0.0
    ensures x / m <= 1.0
  {
  }

  /** Between two positive powers the discrepancy is a percentage in [0, 100],
      and it is zero exactly when the two agree. */
  lemma PercentDiffBounds(a: real, b: real)
    requires a > 0.0 && b > 0.0
    ensures 0.0 <= PercentDiff(a, b) <= 100.0
    ensures PercentDiff(a, b) == 0.0 <==> a == b
  {
    QuotientAtMostOne(Abs(a - b), Max(a, b));
  }

  function PvMismatch(t: Thresholds, sensor: real, inverter: real): seq<Alert>
  {
    if sensor > 100.0 && inverter > 100.0 then
      var d := PercentDiff(sensor, inverter);
      if d > t.maxPercentage then [Alert(Warning, DiscrepancyAlert, "PV Power Mismatch", "solar", d, t.maxPercentage)] else []
    else []
  }

  function BatteryMismatch(t: Thresholds, sensor: real, inverter: real): seq<Alert>
  {
    if Abs(sensor) > 100.0 && Abs(inverter) > 100.0 then
      var d := PercentDiff(Abs(sensor), Abs(inverter));
      if d > t.maxPercentage then [Alert(Info, DiscrepancyAlert, "Battery Power Mismatch", "battery", d, t.maxPercentage)] else []
    else []
  }

  /** The inverter readings of the PV power, then all that the check reads. */
  const PvKeys := ["PV1_V", "PV1_I", "PV2_V", "PV2_I"]
  const DiscrepancyKeys := PvKeys + ["Vbat", "Ibat"]

  /** The pairs of inverter readings the check multiplies. */
  const MultipliedPairs := [("PV1_V", "PV1_I"), ("PV2_V", "PV2_I"), ("Vbat", "Ibat")]

  /** The PV comparison of `check_power_discrepancy`: the inverter's power
      is compared with 100 only when the sensor's exceeds 100 (`and`
      short-circuits), and comparing a string raises. */
  function PvComparison(t: Thresholds, sensor: real, inverter: PyValue): Checked
  {
    if inverter.Raised? || (sensor > 100.0 && inverter.PyStr?) then TypeError
    else Alerts(if inverter.PyNum? then PvMismatch(t, sensor, inverter.x) else [])
  }

  /** The battery comparison, on magnitudes: `abs` of a string raises. */
  function BatteryComparison(t: Thresholds, sensor: real, inverter: PyValue): Checked
  {
    if inverter.Raised? || (Abs(sensor) > 100.0 && inverter.PyStr?) then TypeError
    else Alerts(if inverter.PyNum? then BatteryMismatch(t, sensor, inverter.x) else [])
  }

  /** `check_power_discrepancy`: the PV comparison, then the battery one. */
  function DiscrepancyAlerts(t: Thresholds, calcs: map<string, real>, invd: Fields): Checked
  {
    if |calcs| == 0 || |invd| == 0 then Alerts([])
    else
      match PvComparison(t, CalcOr(calcs, "total_pv_power"), InvdPvPower(invd))
      case TypeError => TypeError
      case Alerts(pv) =>
        match BatteryComparison(t, CalcOr(calcs, "battery_power"), InvdBatteryPower(invd))
        case TypeError => TypeError
        case Alerts(battery) => Alerts(pv + battery)
  }

  /** The PV comparison warns only when both sides exceed 100 W and differ by
      more than the allowed percentage; the battery comparison does the same
      on magnitudes, at INFO level. */
  lemma MismatchSpec(t: Thresholds, sensor: real, inverter: real)
    ensures var r := PvMismatch(t, sensor, inverter);
      && |r| <= 1
      && (|r| == 1 <==> sensor > 100.0 && inverter > 100.0 && PercentDiff(sensor, inverter) > t.maxPercentage)
      && (|r| == 1 ==> r[0].severity == Warning && r[0].component == "solar" && r[0].value <= 100.0)
    ensures var r := BatteryMismatch(t, sensor, inverter);
      && |r| <= 1
      && (|r| == 1 <==> Abs(sensor) > 100.0 && Abs(inverter) > 100.0
                         && PercentDiff(Abs(sensor), Abs(inverter)) > t.maxPercentage)
      && (|r| == 1 ==> r[0].severity == Info && r[0].component == "battery" && r[0].value <= 100.0)
  {
    if sensor > 100.0 && inverter > 100.0 {
      PercentDiffBounds(sensor, inverter);
    }
    if Abs(sensor) > 100.0 && Abs(inverter) > 100.0 {
      PercentDiffBounds(Abs(sensor), Abs(inverter));
    }
  }

  /** A number compared with the sensor side never raises, and the outcome
      is the mismatch alert of the two numbers. */
  lemma NumericComparisons(t: Thresholds, sensor: real, inverter: PyValue)
    requires inverter.PyNum?
    ensures PvComparison(t, sensor, inverter) == Alerts(PvMismatch(t, sensor, inverter.x))
    ensures BatteryComparison(t, sensor, inverter) == Alerts(BatteryMismatch(t, sensor, inverter.x))
    ensures |PvMismatch(t, sensor, inverter.x)| <= 1 && |BatteryMismatch(t, sensor, inverter.x)| <= 1
  {
    MismatchSpec(t, sensor, inverter.x);
  }

  /** A product of two readings neither of which is a string is the product
      of the numbers, absent ones counting as 0. */
  lemma NumericProduct(invd: Fields, a: string, b: string)
    requires !InvdGet(invd, a).PyStr? && !InvdGet(invd, b).PyStr?
    ensures InvdProduct(invd, a, b).PyNum?
    ensures InvdProduct(invd, a, b).x == ReadingOrZero(invd, a) * ReadingOrZero(invd, b)
  {
  }

  /** The inverter's PV power from numeric readings. */
  lemma NumericPvPower(invd: Fields)
    requires !InvdGet(invd, "PV1_V").PyStr? && !InvdGet(invd, "PV1_I").PyStr?
    requires !InvdGet(invd, "PV2_V").PyStr? && !InvdGet(invd, "PV2_I").PyStr?
    ensures InvdPvPower(invd).PyNum?
    ensures InvdPvPower(invd).x ==
              ReadingOrZero(invd, "PV1_V") * ReadingOrZero(invd, "PV1_I") + ReadingOrZero(invd, "PV2_V") * ReadingOrZero(invd, "PV2_I")
  {
    NumericProduct(invd, "PV1_V", "PV1_I");
    NumericProduct(invd, "PV2_V", "PV2_I");
  }

  /** With only numeric inverter readings, absent ones counting as 0, the
      check never raises: it yields the PV comparison's alert, then the
      battery comparison's. */
  lemma DiscrepancySpec(t: Thresholds, calcs: map<string, real>, invd: Fields)
    ensures |calcs| == 0 || |invd| == 0 ==> DiscrepancyAlerts(t, calcs, invd) == Alerts([])
    ensures |calcs| > 0 && |invd| > 0 && (forall k :: k in DiscrepancyKeys ==> !InvdGet(invd, k).PyStr?) ==>
      DiscrepancyAlerts(t, calcs, invd) ==
        Alerts(PvMismatch(t, CalcOr(calcs, "total_pv_power"),
                          ReadingOrZero(invd, "PV1_V") * ReadingOrZero(invd, "PV1_I")
                          + ReadingOrZero(invd, "PV2_V") * ReadingOrZero(invd, "PV2_I"))
               + BatteryMismatch(t, CalcOr(calcs, "battery_power"),
                                 ReadingOrZero(invd, "Vbat") * ReadingOrZero(invd, "Ibat")))
  {
    if |calcs| > 0 && |invd| > 0 && (forall k :: k in DiscrepancyKeys ==> !InvdGet(invd, k).PyStr?) {
      NumericPowers(invd);
      var pv, battery := InvdPvPower(invd), InvdBatteryPower(invd);
      NumericComparisons(t, CalcOr(calcs, "total_pv_power"), pv);
      NumericComparisons(t, CalcOr(calcs, "battery_power"), battery);
    }
  }

  /** Both inverter powers from numeric readings. */
  lemma NumericPowers(invd: Fields)
    requires forall k :: k in DiscrepancyKeys ==> !InvdGet(invd, k).PyStr?
    ensures InvdPvPower(invd).PyNum? && InvdBatteryPower(invd).PyNum?
    ensures InvdPvPower(invd).x ==
              ReadingOrZero(invd, "PV1_V") * ReadingOrZero(invd, "PV1_I") + ReadingOrZero(invd, "PV2_V") * ReadingOrZero(invd, "PV2_I")
    ensures InvdBatteryPower(invd).x == ReadingOrZero(invd, "Vbat") * ReadingOrZero(invd, "Ibat")
  {
    assert DiscrepancyKeys[0] == "PV1_V" && DiscrepancyKeys[1] == "PV1_I" && DiscrepancyKeys[2] == "PV2_V";
    assert DiscrepancyKeys[3] == "PV2_I" && DiscrepancyKeys[4] == "Vbat" && DiscrepancyKeys[5] == "Ibat";
    NumericPvPower(invd);
    NumericProduct(invd, "Vbat", "Ibat");
  }

  /** Whatever the readings, the check yields at most one PV and one battery
      alert, and it raises only because of a string reading. */
  lemma DiscrepancyBound(t: Thresholds, calcs: map<string, real>, invd: Fields)
    ensures DiscrepancyAlerts(t, calcs, invd).Alerts? ==> |DiscrepancyAlerts(t, calcs, invd).list| <= 2
    ensures DiscrepancyAlerts(t, calcs, invd).TypeError? ==> exists k :: k in DiscrepancyKeys && InvdGet(invd, k).PyStr?
  {
    var pv, battery := InvdPvPower(invd), InvdBatteryPower(invd);
    if pv.PyNum? {
      NumericComparisons(t, CalcOr(calcs, "total_pv_power"), pv);
    }
    if battery.PyNum? {
      NumericComparisons(t, CalcOr(calcs, "battery_power"), battery);
    }
    if !pv.PyNum? || !battery.PyNum? {
      StringBehindNonNumber(invd);
    }
  }

  /** Only a string reading can make an inverter power anything but a number. */
  lemma StringBehindNonNumber(invd: Fields)
    requires !InvdPvPower(invd).PyNum? || !InvdBatteryPower(invd).PyNum?
    ensures exists k :: k in DiscrepancyKeys && InvdGet(invd, k).PyStr?
  {
    if forall k :: k in DiscrepancyKeys ==> !InvdGet(invd, k).PyStr? {
      NumericPowers(invd);
      assert false;
    }
  }

  /** A string multiplied by a float or a string raises. */
  lemma StringTimesNonIntRaises(a: PyValue, b: PyValue)
    requires (a.PyStr? && ((b.PyNum? && !b.isInt) || b.PyStr?)) || (b.PyStr? && ((a.PyNum? && !a.isInt) || a.PyStr?))
    ensures PyMul(a, b) == Raised
  {
  }

  /** A string reading multiplied by a reading that is present (so a float
      or a string) makes the whole check raise, whatever the sensors say. */
  lemma StringTimesReadingRaises(t: Thresholds, calcs: map<string, real>, invd: Fields, a: string, b: string)
    requires |calcs| > 0 && |invd| > 0
    requires (a, b) in MultipliedPairs || (b, a) in MultipliedPairs
    requires InvdGet(invd, a).PyStr? && Lookup(invd, b).Some?
    ensures DiscrepancyAlerts(t, calcs, invd) == TypeError
  {
    InvdGetIsLookup(invd, b);
    assert (InvdGet(invd, b).PyNum? && !InvdGet(invd, b).isInt) || InvdGet(invd, b).PyStr?;
    StringTimesNonIntRaises(InvdGet(invd, a), InvdGet(invd, b));
    var p1, p2 := InvdProduct(invd, "PV1_V", "PV1_I"), InvdProduct(invd, "PV2_V", "PV2_I");
    if (a, b) in [("PV1_V", "PV1_I"), ("PV1_I", "PV1_V")] {
      assert p1 == Raised;
    } else if (a, b) in [("PV2_V", "PV2_I"), ("PV2_I", "PV2_V")] {
      assert p2 == Raised;
    } else {
      assert InvdBatteryPower(invd) == Raised;
    }
  }

  /** A string battery reading whose partner is absent multiplies to the
      empty string (`s * 0`): the check raises only when the sensor battery
      power's magnitude exceeds 100 and the string is compared; otherwise the
      battery comparison is skipped. */
  lemma LoneStringBatteryReading(t: Thresholds, calcs: map<string, real>, invd: Fields, a: string, b: string)
    requires |calcs| > 0 && |invd| > 0
    requires (a, b) == ("Vbat", "Ibat") || (a, b) == ("Ibat", "Vbat")
    requires InvdGet(invd, a).PyStr? && Lookup(invd, b).None?
    requires forall k :: k in PvKeys ==> !InvdGet(invd, k).PyStr?
    ensures DiscrepancyAlerts(t, calcs, invd) ==
      if Abs(CalcOr(calcs, "battery_power")) > 100.0 then TypeError
      else Alerts(PvMismatch(t, CalcOr(calcs, "total_pv_power"),
                             ReadingOrZero(invd, "PV1_V") * ReadingOrZero(invd, "PV1_I")
                             + ReadingOrZero(invd, "PV2_V") * ReadingOrZero(invd, "PV2_I")))
  {
    assert PvKeys[0] == "PV1_V" && PvKeys[1] == "PV1_I" && PvKeys[2] == "PV2_V" && PvKeys[3] == "PV2_I";
    NumericPvPower(invd);
    NumericComparisons(t, CalcOr(calcs, "total_pv_power"), InvdPvPower(invd));
    InvdGetIsLookup(invd, b);
    assert InvdBatteryPower(invd) == PyStr("");
  }

  /** A "NaN" battery voltage without a battery current, next to a small
      sensor battery power, raises nothing and alerts nothing. */
  lemma NaNBatteryVoltageIsQuiet(t: Thresholds)
    ensures DiscrepancyAlerts(t, map["battery_power" := 50.0], [("Vbat", Str("NaN"))]) == Alerts([])
  {
    var invd: Fields := [("Vbat", Str("NaN"))];
    forall k | k in PvKeys ensures !InvdGet(invd, k).PyStr? {
      assert k == PvKeys[0] || k == PvKeys[1] || k == PvKeys[2] || k == PvKeys[3];
    }
    LoneStringBatteryReading(t, map["battery_power" := 50.0], invd, "Vbat", "Ibat");
  }

  // ---------------------------------------------------------------------------
  // Checks 4 and 5: temperature and signal strength
  // ---------------------------------------------------------------------------

  function PanelTemperatureAlerts(t: Thresholds, mbId: string, fields: Fields): seq<Alert>
  {
    match Lookup<Reading>(fields, "T_m")
    case Some(Num(v)) =>
      if v > t.panelMax then [Alert(Warning, TemperatureAlert, "High Panel Temperature", mbId, v, t.panelMax)] else []
    case _ => []
  }

  function AmbientTemperatureAlerts(t: Thresholds, fields: Fields): seq<Alert>
  {
    match Lookup<Reading>(fields, "T_amb")
    case Some(Num(v)) =>
      if v > t.ambientMax then [Alert(Info, TemperatureAlert, "High Ambient Temperature", "environment", v, t.ambientMax)]
      else if v < t.ambientMin then [Alert(Info, TemperatureAlert, "Low Ambient Temperature", "environment", v, t.ambientMin)]
      else []
    case _ => []
  }

  function BoardTemperatureAlerts(t: Thresholds, mbId: string, fields: Fields): seq<Alert>
  {
    PanelTemperatureAlerts(t, mbId, fields) + AmbientTemperatureAlerts(t, fields)
  }

  function TemperatureAlerts(t: Thresholds, data: Boards): seq<Alert>
  {
    if |data| == 0 then []
    else
      var last := data[|data| - 1];
      TemperatureAlerts(t, data[..|data| - 1]) + BoardTemperatureAlerts(t, last.0, last.1)
  }

  /** A panel above its maximum raises one WARNING for the board; an ambient
      temperature outside its band raises one INFO for the environment. */
  lemma BoardTemperatureSpec(t: Thresholds, mbId: string, fields: Fields)
    ensures forall v :: Lookup(fields, "T_m") == Some(Num(v)) ==>
              var r := PanelTemperatureAlerts(t, mbId, fields);
              (|r| == 1 <==> v > t.panelMax) && |r| <= 1 && (|r| == 1 ==> r[0].component == mbId)
    ensures forall v :: Lookup(fields, "T_amb") == Some(Num(v)) ==>
              var r := AmbientTemperatureAlerts(t, fields);
              (|r| == 1 <==> v > t.ambientMax || v < t.ambientMin) && |r| <= 1
              && (|r| == 1 ==> r[0].severity == Info && r[0].component == "environment")
    ensures |BoardTemperatureAlerts(t, mbId, fields)| <= 2
  {
  }

  /** The RSSI reading of a board: the 'Rssi' key wins over 'RSSI'. */
  function RssiReading(fields: Fields): Option<Reading>
  {
    if Lookup(fields, "Rssi").Some? then Lookup(fields, "Rssi") else Lookup(fields, "RSSI")
  }

  function BoardSignalAlerts(t: Thresholds, mbId: string, fields: Fields): seq<Alert>
  {
    match RssiReading(fields)
    case Some(Num(v)) =>
      if v < t.minRssi then [Alert(Warning, CommunicationAlert, "Weak Signal Strength", mbId, v, t.minRssi)] else []
    case _ => []
  }

  /** A board whose RSSI (spelled 'Rssi' or, failing that, 'RSSI') is below
      the minimum raises one WARNING. */
  lemma BoardSignalSpec(t: Thresholds, mbId: string, fields: Fields)
    ensures Lookup(fields, "Rssi").None? && Lookup(fields, "RSSI").None? ==> BoardSignalAlerts(t, mbId, fields) == []
    ensures forall v :: RssiReading(fields) == Some(Num(v)) ==>
              var r := BoardSignalAlerts(t, mbId, fields);
              |r| <= 1 && (|r| == 1 <==> v < t.minRssi) && (|r| == 1 ==> r[0].component == mbId)
    ensures forall v :: Lookup(fields, "Rssi") == Some(Num(v)) ==> RssiReading(fields) == Some(Num(v))
  {
  }

  function SignalAlerts(t: Thresholds, data: Boards): seq<Alert>
  {
    if |data| == 0 then []
    else
      var last := data[|data| - 1];
      SignalAlerts(t, data[..|data| - 1]) + BoardSignalAlerts(t, last.0, last.1)
  }

  // ---------------------------------------------------------------------------
  // The whole analysis
  // ---------------------------------------------------------------------------

  /** `analyze_measurement`: nothing when disabled, otherwise the NaN, voltage,
      current, discrepancy, temperature and signal alerts in that order, unless
      a check raised. */
  function Analysis(enabled: bool, t: Thresholds, categories: map<string, string>,
                    data: Boards, calcs: map<string, real>, invd: Fields): Checked
  {
    if !enabled then Alerts([])
    else
      var current := CurrentAlerts(t, categories, data, invd);
      var discrepancy := DiscrepancyAlerts(t, calcs, invd);
      if current.TypeError? || discrepancy.TypeError? then TypeError
      else
        Alerts(NanAlerts(data) + VoltageAlerts(t, categories, data, invd) + current.list + discrepancy.list
               + TemperatureAlerts(t, data) + SignalAlerts(t, data))
  }

  /** `get_alert_signature`: category, component and title joined by '_'. */
  function AlertSignature(a: Alert): string
  {
    CategoryName(a.category) + "_" + a.component + "_" + a.title
  }

  /** A board that reports NaN in every field is reported as disconnected and
      raises no voltage, current, temperature or signal alert. */
  lemma {:induction false} DisconnectedBoardReportedOnce(t: Thresholds, category: string, mbId: string, fields: Fields)
    requires |fields| > 0
    requires forall i :: 0 <= i < |fields| ==> IsNaNText(fields[i].1)
    ensures BoardNanAlerts(mbId, fields) ==
              [Alert(Critical, CommunicationAlert, DisconnectedTitle, mbId, |fields| as real, 0.0)]
    ensures BoardVoltageAlerts(t, category, mbId, fields) == []
    ensures BoardCurrentAlerts(t, category, mbId, fields) == []
    ensures BoardTemperatureAlerts(t, mbId, fields) == []
    ensures BoardSignalAlerts(t, mbId, fields) == []
  {
    NanCountFacts(fields);
    AllNaNFieldsQuiet(t, category, mbId, fields);
  }

  lemma {:induction false} AllNaNFieldsQuiet(t: Thresholds, category: string, mbId: string, fields: Fields)
    requires forall i :: 0 <= i < |fields| ==> IsNaNText(fields[i].1)
    ensures BoardVoltageAlerts(t, category, mbId, fields) == []
    ensures BoardCurrentAlerts(t, category, mbId, fields) == []
  {
    if |fields| > 0 {
      var init := fields[..|fields| - 1];
      assert forall i :: 0 <= i < |init| ==> init[i] == fields[i];
      AllNaNFieldsQuiet(t, category, mbId, init);
    }
  }

  /** On a board without a category, voltage readings up to 100 V never alert. */
  lemma {:induction false} UncategorisedLowVoltageQuiet(t: Thresholds, mbId: string, fields: Fields)
    requires forall i :: 0 <= i < |fields| && fields[i].1.Num? ==> fields[i].1.x <= 100.0
    ensures BoardVoltageAlerts(t, "other", mbId, fields) == []
  {
    if |fields| > 0 {
      var init := fields[..|fields| - 1];
      assert forall i :: 0 <= i < |init| ==> init[i] == fields[i];
      UncategorisedLowVoltageQuiet(t, mbId, init);
    }
  }

  /** The NaN check raises at most one alert per board. */
  lemma {:induction false} NanAlertsPerBoard(data: Boards)
    ensures |NanAlerts(data)| <= |data|
  {
    if |data| > 0 {
      NanAlertsPerBoard(data[..|data| - 1]);
    }
  }

  lemma SeparatorAt(x: string, r: string)
    ensures (x + "_" + r)[|x|] == '_'
    ensures (x + "_" + r)[..|x|] == x && (x + "_" + r)[|x| + 1..] == r
  {
  }

  lemma SplitAtFirstSeparator(x: string, y: string, r1: string, r2: string)
    requires '_' !in x && '_' !in y
    requires x + "_" + r1 == y + "_" + r2
    ensures x == y && r1 == r2
  {
    SeparatorAt(x, r1);
    SeparatorAt(y, r2);
    if |x| < |y| {
      assert false;
    } else if |y| < |x| {
      assert false;
    }
  }

  lemma SplitAtLastSeparator(r1: string, r2: string, x: string, y: string)
    requires '_' !in x && '_' !in y
    requires r1 + "_" + x == r2 + "_" + y
    ensures x == y && r1 == r2
  {
    SeparatorAt(r1, x);
    SeparatorAt(r2, y);
    if |x| < |y| {
      assert false;
    } else if |y| < |x| {
      assert false;
    }
  }

  /** Two alerts whose titles contain no underscore have the same signature
      only when they agree on category, component and title (components such
      as "INVD_PV1" may contain underscores). */
  lemma SignatureDeterminesAlertKind(a: Alert, b: Alert)
    requires '_' !in a.title && '_' !in b.title
    requires AlertSignature(a) == AlertSignature(b)
    ensures a.category == b.category && a.component == b.component && a.title == b.title
  {
    var ca, cb := CategoryName(a.category), CategoryName(b.category);
    assert '_' !in ca && '_' !in cb;
    assert AlertSignature(a) == ca + "_" + (a.component + "_" + a.title);
    assert AlertSignature(b) == cb + "_" + (b.component + "_" + b.title);
    SplitAtFirstSeparator(ca, cb, a.component + "_" + a.title, b.component + "_" + b.title);
    SplitAtLastSeparator(a.component, b.component, a.title, b.title);
  }

  // ---------------------------------------------------------------------------
  // The engine object
  // ---------------------------------------------------------------------------

  class DiagnosisEngine {
    var enabled: bool
    var config: EngineConfig
    var thresholds: Thresholds
    var sensorCategories: map<string, string>

    constructor ()
      ensures !enabled && config == EmptyConfig && thresholds == DefaultThresholds
      ensures sensorCategories == map[]
    {
      enabled := false;
      config := EmptyConfig;
      thresholds := DefaultThresholds;
      sensorCategories := map[];
    }

    /** `auto_calculate_thresholds`: a copy of the default table, updated entry by entry. */
    method AutoCalculateThresholds(c: EngineConfig) returns (t: Thresholds)
      ensures IsAutoThresholds(c, t)
    {
      t := DefaultThresholds;
      if c.stringVoltage.Some? && c.stringVoltage.value != 0.0 {
        var v := c.stringVoltage.value;
        t := t.(pvMax := v * 1.2);
        t := t.(pvMin := v * 0.5);
      }
      if c.stringCurrent.Some? && c.stringCurrent.value != 0.0 {
        t := t.(maxPvCurrent := c.stringCurrent.value * 1.2);
      }
      if c.maxDcCurrent.Some? && c.maxDcCurrent.value != 0.0 {
        t := t.(maxBatteryCurrent := c.maxDcCurrent.value);
      }
      if c.nominalVoltage.Some? {
        var v := c.nominalVoltage.value;
        t := t.(batteryMin := v * 0.875);
        t := t.(batteryMax := v * 1.208);
      }
    }

    /** `set_config`: the configured table when there is one, else the derived one. */
    method SetConfig(c: EngineConfig)
      modifies this`config, this`thresholds
      ensures config == c
      ensures c.thresholds.Some? ==> thresholds == c.thresholds.value
      ensures c.thresholds.None? ==> IsAutoThresholds(c, thresholds)
    {
      config := c;
      if c.thresholds.Some? {
        thresholds := c.thresholds.value;
      } else {
        thresholds := AutoCalculateThresholds(c);
      }
    }

    /** `set_sensor_categories`: rebuilds the board-to-category map from the assignments. */
    method SetSensorCategories(c: EngineConfig)
      modifies this`sensorCategories
      ensures sensorCategories == CategoriesOf(c.sensors, c.assignments)
    {
      sensorCategories := map[];
      var i := 0;
      while i < |c.assignments|
        invariant 0 <= i <= |c.assignments|
        invariant sensorCategories == CategoriesOf(c.sensors, c.assignments[..i])
      {
        var sensorId := c.assignments[i].0;
        var mbIds := c.assignments[i].1;
        var category := "other";
        var k := 0;
        while k < |c.sensors|
          invariant 0 <= k <= |c.sensors|
          invariant SensorCategory(c.sensors, sensorId) == SensorCategory(c.sensors[k..], sensorId)
        {
          assert c.sensors[k..][1..] == c.sensors[k + 1..];
          if c.sensors[k].id == sensorId {
            category := c.sensors[k].category.GetOr("other");
            break;
          }
          k := k + 1;
        }
        assert category == SensorCategory(c.sensors, sensorId);
        ghost var before := sensorCategories;
        var j := 0;
        while j < |mbIds|
          invariant 0 <= j <= |mbIds|
          invariant sensorCategories == CategorizeAll(before, mbIds[..j], category)
        {
          assert mbIds[..j + 1][..j] == mbIds[..j];
          sensorCategories := sensorCategories[mbIds[j] := category];
          j := j + 1;
        }
        assert mbIds[..j] == mbIds;
        assert c.assignments[..i + 1][..i] == c.assignments[..i];
        i := i + 1;
      }
      assert c.assignments[..i] == c.assignments;
    }

    method CheckNanValues(data: Boards) returns (alerts: seq<Alert>)
      ensures alerts == NanAlerts(data)
    {
      alerts := [];
      var b := 0;
      while b < |data|
        invariant 0 <= b <= |data|
        invariant alerts == NanAlerts(data[..b])
      {
        var mbId := data[b].0;
        var fields := data[b].1;
        var nanCount := 0;
        var totalFields := 0;
        var f := 0;
        while f < |fields|
          invariant 0 <= f <= |fields|
          invariant totalFields == f
          invariant nanCount == NanCount(fields[..f])
        {
          assert fields[..f + 1][..f] == fields[..f];
          totalFields := totalFields + 1;
          if IsNaNText(fields[f].1) {
            nanCount := nanCount + 1;
          }
          f := f + 1;
        }
        assert fields[..f] == fields;
        if nanCount > 0 {
          if nanCount == totalFields {
            alerts := alerts + [Alert(Critical, CommunicationAlert, DisconnectedTitle, mbId, nanCount as real, 0.0)];
          } else {
            alerts := alerts + [Alert(Error, CommunicationAlert, MalfunctionTitle, mbId, nanCount as real, 0.0)];
          }
        }
        assert data[..b + 1][..b] == data[..b];
        b := b + 1;
      }
      assert data[..b] == data;
    }

    /** The voltage checks of one board's fields. */
    method CheckBoardVoltages(category: string, mbId: string, fields: Fields) returns (alerts: seq<Alert>)
      ensures alerts == BoardVoltageAlerts(thresholds, category, mbId, fields)
    {
      alerts := [];
      var f := 0;
      while f < |fields|
        invariant 0 <= f <= |fields|
        invariant alerts == BoardVoltageAlerts(thresholds, category, mbId, fields[..f])
      {
        assert fields[..f + 1][..f] == fields[..f];
        var name := fields[f].0;
        var value := fields[f].1;
        if IsNaNText(value) {
          // a NaN string is skipped
        } else if IsVoltageField(name) && value.Num? {
          var v := value.x;
          if category == "solar" || (category == "other" && v > 100.0) {
            if v > thresholds.pvMax {
              alerts := alerts + [Alert(Warning, VoltageAlert, "High PV Voltage", mbId, v, thresholds.pvMax)];
            } else if v < thresholds.pvMin && v > 10.0 {
              alerts := alerts + [Alert(Warning, VoltageAlert, "Low PV Voltage", mbId, v, thresholds.pvMin)];
            }
          } else if category == "battery" {
            if v > thresholds.batteryMax {
              alerts := alerts + [Alert(Error, VoltageAlert, "High Battery Voltage", "battery", v, thresholds.batteryMax)];
            } else if v < thresholds.batteryMin && v > 10.0 {
              alerts := alerts + [Alert(Warning, VoltageAlert, "Low Battery Voltage", "battery", v, thresholds.batteryMin)];
            }
          }
        }
        f := f + 1;
      }
      assert fields[..f] == fields;
    }

    /** The voltage checks of the inverter block. */
    method CheckInverterVoltages(invd: Fields) returns (alerts: seq<Alert>)
      ensures alerts == InverterVoltageAlerts(thresholds, invd)
    {
      alerts := [];
      if |invd| > 0 {
        var n := 1;
        while n < 3
          invariant 1 <= n <= 3
          invariant alerts == InverterPvAlertsBelow(thresholds, invd, n)
        {
          var key := "PV" + NatToString(n) + "_V";
          var reading := Lookup(invd, key);
          if reading.Some? && reading.value.Num? && reading.value.x > thresholds.pvMax {
            alerts := alerts + [Alert(Warning, VoltageAlert, "High Inverter PV" + NatToString(n) + " Voltage",
                                      "INVD_PV" + NatToString(n), reading.value.x, thresholds.pvMax)];
          }
          n := n + 1;
        }
        var vbat := Lookup(invd, "Vbat");
        if vbat.Some? && vbat.value.Num? {
          var v := vbat.value.x;
          if v > thresholds.batteryMax {
            alerts := alerts + [Alert(Error, VoltageAlert, "High Battery Voltage", "battery", v, thresholds.batteryMax)];
          } else if v < thresholds.batteryMin {
            alerts := alerts + [Alert(Warning, VoltageAlert, "Low Battery Voltage", "battery", v, thresholds.batteryMin)];
          }
        }
      }
    }

    /** `check_voltages`: every board in order, then the inverter block. */
    method CheckVoltages(data: Boards, invd: Fields) returns (alerts: seq<Alert>)
      ensures alerts == VoltageAlerts(thresholds, sensorCategories, data, invd)
    {
      alerts := [];
      var b := 0;
      while b < |data|
        invariant 0 <= b <= |data|
        invariant alerts == SensorVoltageAlerts(thresholds, sensorCategories, data[..b])
      {
        var boardAlerts := CheckBoardVoltages(CategoryOf(sensorCategories, data[b].0), data[b].0, data[b].1);
        alerts := alerts + boardAlerts;
        assert data[..b + 1][..b] == data[..b];
        b := b + 1;
      }
      assert data[..b] == data;
      var inverterAlerts := CheckInverterVoltages(invd);
      alerts := alerts + inverterAlerts;
    }

    /** The current checks of one board's fields. */
    method CheckBoardCurrents(category: string, mbId: string, fields: Fields) returns (alerts: seq<Alert>)
      ensures alerts == BoardCurrentAlerts(thresholds, category, mbId, fields)
    {
      alerts := [];
      var f := 0;
      while f < |fields|
        invariant 0 <= f <= |fields|
        invariant alerts == BoardCurrentAlerts(thresholds, category, mbId, fields[..f])
      {
        assert fields[..f + 1][..f] == fields[..f];
        var name := fields[f].0;
        var value := fields[f].1;
        if IsNaNText(value) {
          // a NaN string is skipped
        } else if IsCurrentField(name) && value.Num? {
          var v := value.x;
          if category == "solar" {
            if v > thresholds.maxPvCurrent {
              alerts := alerts + [Alert(Warning, CurrentAlert, "High PV Current", mbId, v, thresholds.maxPvCurrent)];
            }
          } else if category == "battery" {
            if v > thresholds.maxBatteryCurrent {
              alerts := alerts + [Alert(Warning, CurrentAlert, "High Battery Current", "battery", v, thresholds.maxBatteryCurrent)];
            }
          }
        }
        f := f + 1;
      }
      assert fields[..f] == fields;
    }

    /** `check_currents`: every board in order, then the inverter's battery
        current; a string Ibat raises. */
    method CheckCurrents(data: Boards, invd: Fields) returns (r: Checked)
      ensures r == CurrentAlerts(thresholds, sensorCategories, data, invd)
    {
      var alerts := [];
      var b := 0;
      while b < |data|
        invariant 0 <= b <= |data|
        invariant alerts == SensorCurrentAlerts(thresholds, sensorCategories, data[..b])
      {
        var boardAlerts := CheckBoardCurrents(CategoryOf(sensorCategories, data[b].0), data[b].0, data[b].1);
        alerts := alerts + boardAlerts;
        assert data[..b + 1][..b] == data[..b];
        b := b + 1;
      }
      assert data[..b] == data;
      if |invd| > 0 {
        var ibat := Lookup(invd, "Ibat");
        if ibat.Some? {
          if ibat.value.Str? {
            return TypeError;
          }
          var v := Abs(ibat.value.x);
          if v > thresholds.maxBatteryCurrent {
            alerts := alerts + [Alert(Error, CurrentAlert, "High Battery Current", "battery", v, thresholds.maxBatteryCurrent)];
          }
        }
      }
      r := Alerts(alerts);
    }

    method CheckPowerDiscrepancy(calcs: map<string, real>, invd: Fields) returns (r: Checked)
      ensures r == DiscrepancyAlerts(thresholds, calcs, invd)
    {
      if |calcs| == 0 || |invd| == 0 {
        return Alerts([]);
      }
      var sensorPv := CalcOr(calcs, "total_pv_power");
      var invdPv1 := PyMul(InvdGet(invd, "PV1_V"), InvdGet(invd, "PV1_I"));
      var invdPv2 := PyMul(InvdGet(invd, "PV2_V"), InvdGet(invd, "PV2_I"));
      var invdPv := PyAdd(invdPv1, invdPv2);
      if invdPv.Raised? {
        return TypeError;
      }
      var pvAlerts := [];
      if sensorPv > 100.0 {
        if invdPv.PyStr? {
          return TypeError;
        }
        var v := invdPv.x;
        if v > 100.0 {
          var d := PercentDiff(sensorPv, v);
          if d > thresholds.maxPercentage {
            pvAlerts := [Alert(Warning, DiscrepancyAlert, "PV Power Mismatch", "solar", d, thresholds.maxPercentage)];
          }
        }
      }
      assert invdPv == InvdPvPower(invd);
      assert PvComparison(thresholds, sensorPv, invdPv) == Alerts(pvAlerts);
      var sensorBattery := CalcOr(calcs, "battery_power");
      var invdBattery := PyMul(InvdGet(invd, "Vbat"), InvdGet(invd, "Ibat"));
      assert invdBattery == InvdBatteryPower(invd);
      if invdBattery.Raised? {
        return TypeError;
      }
      var batteryAlerts := [];
      if Abs(sensorBattery) > 100.0 {
        if invdBattery.PyStr? {
          return TypeError;
        }
        var v := invdBattery.x;
        if Abs(v) > 100.0 {
          var d := PercentDiff(Abs(sensorBattery), Abs(v));
          if d > thresholds.maxPercentage {
            batteryAlerts := [Alert(Info, DiscrepancyAlert, "Battery Power Mismatch", "battery", d, thresholds.maxPercentage)];
          }
        }
      }
      assert BatteryComparison(thresholds, sensorBattery, invdBattery) == Alerts(batteryAlerts);
      r := Alerts(pvAlerts + batteryAlerts);
    }

    /** The temperature checks of one board. */
    method CheckBoardTemperature(mbId: string, fields: Fields) returns (alerts: seq<Alert>)
      ensures alerts == BoardTemperatureAlerts(thresholds, mbId, fields)
    {
      alerts := [];
      var panel := Lookup(fields, "T_m");
      if panel.Some? && panel.value.Num? && panel.value.x > thresholds.panelMax {
        alerts := alerts + [Alert(Warning, TemperatureAlert, "High Panel Temperature", mbId, panel.value.x, thresholds.panelMax)];
      }
      var ambient := Lookup(fields, "T_amb");
      if ambient.Some? && ambient.value.Num? {
        var v := ambient.value.x;
        if v > thresholds.ambientMax {
          alerts := alerts + [Alert(Info, TemperatureAlert, "High Ambient Temperature", "environment", v, thresholds.ambientMax)];
        } else if v < thresholds.ambientMin {
          alerts := alerts + [Alert(Info, TemperatureAlert, "Low Ambient Temperature", "environment", v, thresholds.ambientMin)];
        }
      }
    }

    /** `check_temperature`: every board in order. */
    method CheckTemperature(data: Boards) returns (alerts: seq<Alert>)
      ensures alerts == TemperatureAlerts(thresholds, data)
    {
      alerts := [];
      var b := 0;
      while b < |data|
        invariant 0 <= b <= |data|
        invariant alerts == TemperatureAlerts(thresholds, data[..b])
      {
        var boardAlerts := CheckBoardTemperature(data[b].0, data[b].1);
        alerts := alerts + boardAlerts;
        assert data[..b + 1][..b] == data[..b];
        b := b + 1;
      }
      assert data[..b] == data;
    }

    method CheckCommunication(data: Boards) returns (alerts: seq<Alert>)
      ensures alerts == SignalAlerts(thresholds, data)
    {
      alerts := [];
      var b := 0;
      while b < |data|
        invariant 0 <= b <= |data|
        invariant alerts == SignalAlerts(thresholds, data[..b])
      {
        var mbId := data[b].0;
        var fields := data[b].1;
        if Lookup(fields, "Rssi").Some? || Lookup(fields, "RSSI").Some? {
          var key := if Lookup(fields, "Rssi").Some? then "Rssi" else "RSSI";
          var value := Lookup(fields, key).value;
          if value.Num? && value.x < thresholds.minRssi {
            alerts := alerts + [Alert(Warning, CommunicationAlert, "Weak Signal Strength", mbId, value.x, thresholds.minRssi)];
          }
        }
        assert data[..b + 1][..b] == data[..b];
        b := b + 1;
      }
      assert data[..b] == data;
    }

    /** `analyze_measurement`. */
    method AnalyzeMeasurement(data: Boards, calcs: map<string, real>, invd: Fields) returns (r: Checked)
      ensures !enabled ==> r == Alerts([])
      ensures r == Analysis(enabled, thresholds, sensorCategories, data, calcs, invd)
    {
      if !enabled {
        return Alerts([]);
      }
      var alerts := CheckNanValues(data);
      var voltage := CheckVoltages(data, invd);
      alerts := alerts + voltage;
      var current := CheckCurrents(data, invd);
      if current.TypeError? {
        return TypeError;
      }
      alerts := alerts + current.list;
      var discrepancy := CheckPowerDiscrepancy(calcs, invd);
      if discrepancy.TypeError? {
        return TypeError;
      }
      alerts := alerts + discrepancy.list;
      var temperature := CheckTemperature(data);
      alerts := alerts + temperature;
      var signal := CheckCommunication(data);
      alerts := alerts + signal;
      r := Alerts(alerts);
    }
  }
}
