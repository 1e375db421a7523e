/** The text protocol between the backend (backend/server.py) and the STM32
    measurement controller: how a received serial line becomes a measurement,
    how outgoing text is framed, how a station configuration is serialised
    into CONFIG: lines, and how the WebSocket commands drive both. */
module LineProtocol {
  import opened Common
  import opened Text

  // ---------------------------------------------------------------------------
  // Incoming lines
  // ---------------------------------------------------------------------------

  /** What the read loop makes of one received line. `parse` stands for
      Python's `float()`, so the values are of whatever type it yields. */
  datatype LineOutcome<T> =
    | Blank              // nothing left after strip()
    | StatusEcho         // CONFIG:, CMD: or WAITING line, only logged
    | NotCsv             // no comma: not a measurement
    | NoValues           // a CSV line none of whose parts parsed: nothing broadcast
    | Measurement(values: seq<T>)

  /** The values of the parts that parse, in order. */
  function ParsedValues<T>(parts: seq<string>, parse: string -> Option<T>): seq<T>
  {
    if |parts| == 0 then []
    else
      var last := parse(parts[|parts| - 1]);
      ParsedValues(parts[..|parts| - 1], parse) + (if last.Some? then [last.value] else [])
  }

  predicate IsStatusLine(line: string)
  {
    StartsWith(line, "CONFIG:") || StartsWith(line, "CMD:") || StartsWith(line, "WAITING")
  }

  /** The classification and CSV parsing of `SerialManager._read_loop`: when
      the first part does not parse as a number it is skipped (it is taken to
      be the device's timestamp), and parts that fail to parse are dropped. */
  function ClassifyLine<T>(raw: string, parse: string -> Option<T>): LineOutcome<T>
  {
    var line := Strip(raw);
    if line == "" then Blank
    else if IsStatusLine(line) then StatusEcho
    else if ',' !in line then NotCsv
    else
      var parts := Split(line, ',');
      var startIdx := if parse(parts[0]).Some? then 0 else 1;
      var values := ParsedValues(parts[startIdx..], parse);
      if |values| == 0 then NoValues else Measurement(values)
  }

  /** One pass of the read loop over a received line. */
  method ReadLine<T>(raw: string, parse: string -> Option<T>) returns (r: LineOutcome<T>)
    ensures r == ClassifyLine(raw, parse)
  {
    var line := Strip(raw);
    if line == "" {
      return Blank;
    }
    if StartsWith(line, "CONFIG:") || StartsWith(line, "CMD:") || StartsWith(line, "WAITING") {
      return StatusEcho;
    }
    if ',' !in line {
      return NotCsv;
    }
    var parts := Split(line, ',');
    var isFirstNumber := parse(parts[0]).Some?;
    var startIdx := 0;
    if !isFirstNumber {
      startIdx := 1;
    }
    var values := [];
    var k := startIdx;
    while k < |parts|
      invariant startIdx <= k <= |parts|
      invariant values == ParsedValues(parts[startIdx..k], parse)
    {
      assert parts[startIdx..k + 1][..k - startIdx] == parts[startIdx..k];
      var x := parse(parts[k]);
      if x.Some? {
        values := values + [x.value];
      }
      k := k + 1;
    }
    assert parts[startIdx..k] == parts[startIdx..];
    if |values| == 0 {
      return NoValues;
    }
    r := Measurement(values);
  }

  lemma {:induction false} ParsedValuesAppend<T>(a: seq<string>, b: seq<string>, parse: string -> Option<T>)
    ensures ParsedValues(a + b, parse) == ParsedValues(a, parse) + ParsedValues(b, parse)
  {
    if |b| == 0 {
      assert a + b == a;
    } else {
      var init := b[..|b| - 1];
      ParsedValuesAppend(a, init, parse);
      assert (a + b)[..|a + b| - 1] == a + init;
      assert (a + b)[|a + b| - 1] == b[|b| - 1];
    }
  }

  /** A part that parses contributes its value right after the values of
      the parts before it. */
  lemma ParsedValueAt<T>(parts: seq<string>, parse: string -> Option<T>, i: nat)
    requires i < |parts| && parse(parts[i]).Some?
    ensures |ParsedValues(parts[..i], parse)| < |ParsedValues(parts, parse)|
    ensures ParsedValues(parts, parse)[|ParsedValues(parts[..i], parse)|] == parse(parts[i]).value
  {
    var upTo := parts[..i + 1];
    assert upTo[..|upTo| - 1] == parts[..i];
    assert ParsedValues(upTo, parse) == ParsedValues(parts[..i], parse) + [parse(parts[i]).value];
    ParsedValuesAppend(upTo, parts[i + 1..], parse);
    assert upTo + parts[i + 1..] == parts;
  }

  /** The parsed values are at most one per part, none exactly when no part
      parses, and each is the value of some part; every part that parses
      contributes its value, in the order of the parts. */
  lemma {:induction false} ParsedValuesSpec<T>(parts: seq<string>, parse: string -> Option<T>)
    ensures |ParsedValues(parts, parse)| <= |parts|
    ensures |ParsedValues(parts, parse)| == 0 <==> forall i :: 0 <= i < |parts| ==> parse(parts[i]).None?
    ensures forall j :: 0 <= j < |ParsedValues(parts, parse)| ==>
              exists i :: 0 <= i < |parts| && parse(parts[i]) == Some(ParsedValues(parts, parse)[j])
    ensures forall i :: 0 <= i < |parts| && parse(parts[i]).Some? ==>
              |ParsedValues(parts[..i], parse)| < |ParsedValues(parts, parse)|
    ensures forall i :: 0 <= i < |parts| && parse(parts[i]).Some? ==>
              ParsedValues(parts, parse)[|ParsedValues(parts[..i], parse)|] == parse(parts[i]).value
  {
    if |parts| > 0 {
      var init := parts[..|parts| - 1];
      ParsedValuesSpec(init, parse);
      assert forall i :: 0 <= i < |init| ==> init[i] == parts[i];
    }
    forall i | 0 <= i < |parts| && parse(parts[i]).Some?
      ensures |ParsedValues(parts[..i], parse)| < |ParsedValues(parts, parse)|
      ensures ParsedValues(parts, parse)[|ParsedValues(parts[..i], parse)|] == parse(parts[i]).value
    {
      ParsedValueAt(parts, parse, i);
    }
  }

  /** Skipping an unparsable first part changes nothing: it would have been
      dropped anyway. */
  lemma SkippingFirstPartIsHarmless<T>(parts: seq<string>, parse: string -> Option<T>)
    requires |parts| >= 1 && parse(parts[0]).None?
    ensures ParsedValues(parts[1..], parse) == ParsedValues(parts, parse)
  {
    ParsedValuesAppend([parts[0]], parts[1..], parse);
    assert [parts[0]] + parts[1..] == parts;
    assert ParsedValues([parts[0]], parse) == ParsedValues([], parse) + [];
  }

  /** A line yields a measurement exactly when, after stripping, it is not a
      status echo, contains a comma, and some comma-separated part parses;
      its values are then those of all parts that parse, in order. */
  lemma MeasurementIff<T>(raw: string, parse: string -> Option<T>)
    ensures ClassifyLine(raw, parse).Measurement? <==>
              var line := Strip(raw);
              && !IsStatusLine(line) && ',' in line
              && exists i :: 0 <= i < |Split(line, ',')| && parse(Split(line, ',')[i]).Some?
    ensures ClassifyLine(raw, parse).Measurement? ==>
              ClassifyLine(raw, parse).values == ParsedValues(Split(Strip(raw), ','), parse)
  {
    var line := Strip(raw);
    if line != "" && !IsStatusLine(line) && ',' in line {
      CsvLineValues(raw, parse);
      ParsedValuesSpec(Split(line, ','), parse);
    } else if line == "" {
      assert ',' !in line;
    }
  }

  /** A comma-separated line that is not a status echo is parsed from all of
      its parts. */
  lemma CsvLineValues<T>(raw: string, parse: string -> Option<T>)
    requires var line := Strip(raw); line != "" && !IsStatusLine(line) && ',' in line
    ensures var values := ParsedValues(Split(Strip(raw), ','), parse);
      ClassifyLine(raw, parse) == if |values| == 0 then NoValues else Measurement(values)
  {
    var parts := Split(Strip(raw), ',');
    if parse(parts[0]).None? {
      SkippingFirstPartIsHarmless(parts, parse);
    } else {
      assert parts[0..] == parts;
    }
  }

  // ---------------------------------------------------------------------------
  // Outgoing text
  // ---------------------------------------------------------------------------

  /** `send_raw` terminates the text with a newline unless it already ends with one. */
  function Framed(text: string): string
  {
    if EndsWith(text, "\n") then text else text + "\n"
  }

  /** A framed text ends with exactly the newline it needs: framing adds at
      most one character, keeps the text as a prefix, and is idempotent. */
  lemma FramedSpec(text: string)
    ensures EndsWith(Framed(text), "\n")
    ensures StartsWith(Framed(text), text) && |Framed(text)| <= |text| + 1
    ensures Framed(Framed(text)) == Framed(text)
    ensures EndsWith(text, "\n") <==> Framed(text) == text
  {
    if !EndsWith(text, "\n") {
      assert (text + "\n")[..|text|] == text;
    }
  }

  function FramedAll(texts: seq<string>): seq<string>
  {
    if |texts| == 0 then [] else FramedAll(texts[..|texts| - 1]) + [Framed(texts[|texts| - 1])]
  }

  lemma {:induction false} FramedAllSpec(texts: seq<string>)
    ensures |FramedAll(texts)| == |texts|
    ensures forall i :: 0 <= i < |texts| ==> FramedAll(texts)[i] == Framed(texts[i])
  {
    if |texts| > 0 {
      FramedAllSpec(texts[..|texts| - 1]);
    }
  }

  /** An entry of `mbInventory` or `sensors`; None renders as Python's "None". */
  datatype ConfigItem = ConfigItem(id: Option<string>, kind: Option<string>)

  /** The parts of a saved station configuration sent to the device. */
  datatype DeviceConfig = DeviceConfig(delay: Option<int>, mbInventory: seq<ConfigItem>, sensors: seq<ConfigItem>)

  const EmptyDeviceConfig := DeviceConfig(None, [], [])

  function ShowOptional(v: Option<string>): string
  {
    if v.Some? then v.value else "None"
  }

  function DelayLine(c: DeviceConfig): string
  {
    "CONFIG:DELAY=" + IntToString(c.delay.GetOr(8))
  }

  function ItemLine(item: ConfigItem): string
  {
    "CONFIG:" + ShowOptional(item.id) + "," + ShowOptional(item.kind)
  }

  function ItemLines(items: seq<ConfigItem>): seq<string>
  {
    if |items| == 0 then [] else ItemLines(items[..|items| - 1]) + [ItemLine(items[|items| - 1])]
  }

  lemma {:induction false} ItemLinesSpec(items: seq<ConfigItem>)
    ensures |ItemLines(items)| == |items|
    ensures forall i :: 0 <= i < |items| ==> ItemLines(items)[i] == ItemLine(items[i])
  {
    if |items| > 0 {
      ItemLinesSpec(items[..|items| - 1]);
    }
  }

  lemma FramedItemLinesSnoc(items: seq<ConfigItem>, i: nat)
    requires i < |items|
    ensures FramedAll(ItemLines(items[..i + 1])) == FramedAll(ItemLines(items[..i])) + [Framed(ItemLine(items[i]))]
  {
    assert items[..i + 1][..i] == items[..i];
  }

  /** The lines `send_config_lines` sends, before framing. */
  function ConfigLines(c: DeviceConfig): seq<string>
  {
    [DelayLine(c)] + ItemLines(c.mbInventory) + ItemLines(c.sensors) + ["CONFIG:END"]
  }

  /** The delay line comes first (8 when no delay is configured), then one line
      per board and one per sensor, each in order, then the END marker. */
  lemma ConfigLinesShape(c: DeviceConfig)
    ensures var lines := ConfigLines(c);
      && |lines| == |c.mbInventory| + |c.sensors| + 2
      && lines[0] == "CONFIG:DELAY=" + IntToString(if c.delay.Some? then c.delay.value else 8)
      && (forall i :: 0 <= i < |c.mbInventory| ==> lines[1 + i] == ItemLine(c.mbInventory[i]))
      && (forall j :: 0 <= j < |c.sensors| ==> lines[1 + |c.mbInventory| + j] == ItemLine(c.sensors[j]))
      && lines[|lines| - 1] == "CONFIG:END"
  {
    ItemLinesSpec(c.mbInventory);
    ItemLinesSpec(c.sensors);
  }

  lemma ItemLinePrefixed(item: ConfigItem)
    ensures StartsWith(ItemLine(item), "CONFIG:")
  {
    assert ItemLine(item) == "CONFIG:" + (ShowOptional(item.id) + "," + ShowOptional(item.kind));
  }

  lemma {:induction false} ItemLinesPrefixed(items: seq<ConfigItem>)
    ensures forall l :: l in ItemLines(items) ==> StartsWith(l, "CONFIG:")
  {
    if |items| > 0 {
      ItemLinesPrefixed(items[..|items| - 1]);
      ItemLinePrefixed(items[|items| - 1]);
    }
  }

  /** Every line of a configuration starts with "CONFIG:". */
  lemma ConfigLinesArePrefixed(c: DeviceConfig)
    ensures forall l :: l in ConfigLines(c) ==> StartsWith(l, "CONFIG:")
  {
    ItemLinesPrefixed(c.mbInventory);
    ItemLinesPrefixed(c.sensors);
    var delay := DelayLine(c);
    assert delay == "CONFIG:" + ("DELAY=" + IntToString(c.delay.GetOr(8)));
    assert StartsWith(delay, "CONFIG:");
    assert StartsWith("CONFIG:END", "CONFIG:");
  }

  /** The controller echoes configuration lines back; the read loop takes
      every one of them, framed as sent, for a status line and never for a
      measurement. */
  lemma ConfigEchoIsNeverAMeasurement<T>(c: DeviceConfig, parse: string -> Option<T>)
    ensures forall f :: f in FramedAll(ConfigLines(c)) ==> ClassifyLine(f, parse) == StatusEcho
  {
    var lines := ConfigLines(c);
    ConfigLinesArePrefixed(c);
    FramedAllSpec(lines);
    forall f | f in FramedAll(lines)
      ensures ClassifyLine(f, parse) == StatusEcho
    {
      var i :| 0 <= i < |lines| && FramedAll(lines)[i] == f;
      assert lines[i] in lines;
      FramedEchoIsStatus(lines[i], parse);
    }
  }

  /** A framed CONFIG: line is read back as a status echo. */
  lemma FramedEchoIsStatus<T>(l: string, parse: string -> Option<T>)
    requires StartsWith(l, "CONFIG:")
    ensures ClassifyLine(Framed(l), parse) == StatusEcho
  {
    var f := Framed(l);
    FramedSpec(l);
    assert StartsWith(f, "CONFIG:") by {
      assert f[..|l|] == l;
      assert f[..7] == l[..7];
    }
    StripKeepsPrefix(f, "CONFIG:");
  }

  lemma {:induction false} FramedAllAppend(a: seq<string>, b: seq<string>)
    ensures FramedAll(a + b) == FramedAll(a) + FramedAll(b)
  {
    if |b| == 0 {
      assert a + b == a;
    } else {
      var init := b[..|b| - 1];
      FramedAllAppend(a, init);
      assert (a + b)[..|a + b| - 1] == a + init;
    }
  }

  /** The framed configuration, piece by piece as it is sent. */
  lemma ConfigFramesSplit(c: DeviceConfig)
    ensures FramedAll(ConfigLines(c)) ==
              [Framed(DelayLine(c))] + FramedAll(ItemLines(c.mbInventory)) + FramedAll(ItemLines(c.sensors))
              + [Framed("CONFIG:END")]
  {
    var head := [DelayLine(c)];
    var boards := ItemLines(c.mbInventory);
    var sensors := ItemLines(c.sensors);
    assert FramedAll(head) == [Framed(DelayLine(c))];
    FramedAllAppend(head, boards);
    FramedAllAppend(head + boards, sensors);
    FramedAllAppend(head + boards + sensors, ["CONFIG:END"]);
  }

  // ---------------------------------------------------------------------------
  // The serial link
  // ---------------------------------------------------------------------------

  /** The serial port as the backend sees it: open or not, and the text
      written to it so far, one entry per write. */
  class SerialLink {
    var isOpen: bool
    var written: seq<string>

    constructor (open: bool)
      ensures isOpen == open && written == []
    {
      isOpen := open;
      written := [];
    }

    /** `send_raw` (a failing write is not modelled). */
    method SendRaw(text: string) returns (ok: bool)
      modifies this`written
      ensures ok == isOpen
      ensures written == old(written) + (if isOpen then [Framed(text)] else [])
    {
      if !isOpen {
        return false;
      }
      var framed := text;
      if !EndsWith(framed, "\n") {
        framed := framed + "\n";
      }
      written := written + [framed];
      ok := true;
    }

    /** One `CONFIG:<id>,<type>` line per item, in order. */
    method SendItemLines(items: seq<ConfigItem>)
      requires isOpen
      modifies this`written
      ensures written == old(written) + FramedAll(ItemLines(items))
    {
      var i := 0;
      while i < |items|
        invariant 0 <= i <= |items|
        invariant written == old(written) + FramedAll(ItemLines(items[..i]))
      {
        var line := "CONFIG:" + ShowOptional(items[i].id) + "," + ShowOptional(items[i].kind);
        FramedItemLinesSnoc(items, i);
        var _ := SendRaw(line);
        i := i + 1;
      }
      assert items[..i] == items;
    }

    /** `send_config_lines`: nothing is sent on a closed port. */
    method SendConfigLines(c: DeviceConfig) returns (ok: bool)
      modifies this`written
      ensures ok == isOpen
      ensures written == old(written) + (if isOpen then FramedAll(ConfigLines(c)) else [])
    {
      if !isOpen {
        return false;
      }
      var delay := 8;
      if c.delay.Some? {
        delay := c.delay.value;
      }
      var delayLine := "CONFIG:DELAY=" + IntToString(delay);
      assert delayLine == DelayLine(c);
      ghost var w := written;
      ghost var d, boards, sensors, end :=
        [Framed(delayLine)], FramedAll(ItemLines(c.mbInventory)), FramedAll(ItemLines(c.sensors)), [Framed("CONFIG:END")];
      var _ := SendRaw(delayLine);
      SendItemLines(c.mbInventory);
      AppendAssoc(w, d, boards);
      SendItemLines(c.sensors);
      AppendAssoc(w, d + boards, sensors);
      var _ := SendRaw("CONFIG:END");
      AppendAssoc(w, d + boards + sensors, end);
      ConfigFramesSplit(c);
      ok := true;
    }
  }

  // ---------------------------------------------------------------------------
  // Configuration history and WebSocket commands
  // ---------------------------------------------------------------------------

  datatype HistoryEntry = HistoryEntry(timestamp: string, config: DeviceConfig)

  /** The state of the history file as `append_to_history` finds it. */
  datatype HistoryFile =
    | NoFile
    | EmptyFile
    | Unreadable                 // reading or JSON decoding failed
    | NotAList                   // valid JSON, but not a list
    | Entries(list: seq<HistoryEntry>)

  /** The history `append_to_history` starts from: the stored list, or [] in
      every other case. */
  function PriorHistory(f: HistoryFile): seq<HistoryEntry>
  {
    if f.Entries? then f.list else []
  }

  datatype Command = Scan | StartMeasurement | StopMeasurement | SaveConfig(data: DeviceConfig) | Unknown

  datatype Response = ScanResult | StatusMessage(msg: string) | SaveConfirm(success: bool)

  /** The backend state the WebSocket commands touch. */
  class Backend {
    var link: SerialLink
    var history: HistoryFile
    var savedConfig: Option<DeviceConfig>

    constructor (link: SerialLink, history: HistoryFile)
      ensures this.link == link && this.history == history && savedConfig == None
    {
      this.link := link;
      this.history := history;
      savedConfig := None;
    }

    /** `append_to_history` (a failing write is not modelled). */
    method AppendToHistory(entry: HistoryEntry)
      modifies this`history
      ensures history == Entries(PriorHistory(old(history)) + [entry])
    {
      var list := [];
      if history.Entries? {
        list := history.list;
      }
      list := list + [entry];
      history := Entries(list);
    }

    /** One command received on the WebSocket. `saveSucceeds` is the outcome of
        writing the configuration file, `now` the current time. */
    method HandleCommand(cmd: Command, saveSucceeds: bool, now: string) returns (response: Option<Response>)
      modifies this`history, this`savedConfig, link`written
      ensures link == old(link)
      ensures cmd.Scan? ==>
                response == Some(ScanResult) && unchanged(this)
                && link.written == old(link.written) + (if link.isOpen then [Framed("CMD:SCAN")] else [])
      ensures cmd.StartMeasurement? ==>
                response == Some(StatusMessage("Measurement started")) && unchanged(this)
                && link.written == old(link.written) + (if link.isOpen then [Framed("CMD:START")] else [])
      ensures cmd.StopMeasurement? ==>
                response == Some(StatusMessage("Measurement stopped")) && unchanged(this)
                && link.written == old(link.written) + (if link.isOpen then [Framed("CMD:STOP")] else [])
      ensures cmd.SaveConfig? && saveSucceeds ==>
                response == Some(SaveConfirm(true)) && savedConfig == Some(cmd.data)
                && history == Entries(PriorHistory(old(history)) + [HistoryEntry(now, cmd.data)])
                && link.written == old(link.written) + (if link.isOpen then FramedAll(ConfigLines(cmd.data)) else [])
      ensures cmd.SaveConfig? && !saveSucceeds ==>
                response == Some(SaveConfirm(false)) && unchanged(this) && unchanged(link)
      ensures cmd.Unknown? ==> response == None && unchanged(this) && unchanged(link)
    {
      match cmd
      case Scan =>
        var _ := link.SendRaw("CMD:SCAN");
        response := Some(ScanResult);
      case StartMeasurement =>
        var _ := link.SendRaw("CMD:START");
        response := Some(StatusMessage("Measurement started"));
      case StopMeasurement =>
        var _ := link.SendRaw("CMD:STOP");
        response := Some(StatusMessage("Measurement stopped"));
      case SaveConfig(data) =>
        if saveSucceeds {
          savedConfig := Some(data);
          AppendToHistory(HistoryEntry(now, data));
          var _ := link.SendConfigLines(data);
          response := Some(SaveConfirm(true));
        } else {
          response := Some(SaveConfirm(false));
        }
      case Unknown =>
        response := None;
    }
  }
}
