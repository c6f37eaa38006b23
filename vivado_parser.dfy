/**
 * The parser of Vivado's `<top>_utilization_synth.rpt`: the target device
 * comes from the `| Device` header line and each metric from the "Used"
 * column of a pipe-delimited table row with a fixed first-cell key. A row
 * that is missing or does not parse gives `None`, never 0.
 */
module VivadoParser {
  import opened Common
  import opened ResourceReportModel

  const DeviceMarker: string := "| Device"
  const UnknownTarget: string := "unknown"

  const LutLabel: string := "Slice LUTs*"
  const FfLabel: string := "Slice Registers"
  const DspLabel: string := "DSPs"
  const BramLabel: string := "Block RAM Tile"
  const UramLabel: string := "URAM"

  // ---------------------------------------------------------------------
  // Device line
  // ---------------------------------------------------------------------

  /** A line `_parse_device` returns on: stripped, it starts with `| Device` and has a ':'. */
  predicate IsDeviceLine(line: string) {
    var stripped := Strip(line);
    StartsWith(stripped, DeviceMarker) && ':' in stripped
  }

  /** The text after the first ':' of the stripped line, stripped. */
  function DeviceValue(line: string): string
    requires IsDeviceLine(line)
  {
    var stripped := Strip(line);
    Strip(stripped[IndexOf(stripped, ':') + 1..])
  }

  /** `_parse_device`. */
  function ParseDevice(lines: seq<string>): Option<string>
  {
    var k := FindFirst(lines, IsDeviceLine);
    if k < |lines| then Some(DeviceValue(lines[k])) else None
  }

  /** `self._parse_device(lines) or "unknown"`: an empty device value also falls back. */
  function Target(lines: seq<string>): (t: string)
    ensures t != ""
    ensures ParseDevice(lines).Some? && ParseDevice(lines).value != "" ==> t == ParseDevice(lines).value
    ensures ParseDevice(lines).None? || ParseDevice(lines).value == "" ==> t == UnknownTarget
  {
    match ParseDevice(lines)
    case Some(v) => if v != "" then v else UnknownTarget
    case None => UnknownTarget
  }

  /** The first device line decides, whatever follows it. */
  lemma FirstDeviceLineDecides(before: seq<string>, line: string, after: seq<string>)
    requires forall j :: 0 <= j < |before| ==> !IsDeviceLine(before[j])
    requires IsDeviceLine(line)
    ensures ParseDevice(before + [line] + after) == Some(DeviceValue(line))
  {
    FindFirstAt(before, line, after, IsDeviceLine);
    assert (before + [line] + after)[|before|] == line;
  }

  /** Without a device line the target is "unknown". */
  lemma NoDeviceLineUnknown(lines: seq<string>)
    requires forall j :: 0 <= j < |lines| ==> !IsDeviceLine(lines[j])
    ensures ParseDevice(lines) == None && Target(lines) == UnknownTarget
  {
  }

  // ---------------------------------------------------------------------
  // Table rows
  // ---------------------------------------------------------------------

  /** `[p.strip() for p in line.split("|")[1:-1]]`. */
  function Cells(line: string): (cells: seq<string>)
    ensures forall i :: 0 <= i < |cells| ==> Stripped(cells[i])
  {
    var parts := Split(line, '|');
    if |parts| < 2 then []
    else seq(|parts| - 2, i requires 0 <= i < |parts| - 2 => Strip(parts[i + 1]))
  }

  /** The two cheap filters `_extract_used` applies before splitting. */
  predicate IsCandidateRow(line: string, key: string) {
    StartsWith(Strip(line), "|") && Contains(line, "| " + key)
  }

  /** A row whose first cell is exactly the key. */
  predicate IsLabelRow(line: string, key: string) {
    IsCandidateRow(line, key) && |Cells(line)| > 0 && Cells(line)[0] == key
  }

  /** Index of the first row for `key`, or |lines| when there is none. */
  function FindLabelRow(lines: seq<string>, key: string): (k: nat)
    ensures k <= |lines|
    ensures k < |lines| ==> IsLabelRow(lines[k], key)
    ensures forall j :: 0 <= j < k ==> !IsLabelRow(lines[j], key)
  {
    FindFirst(lines, line => IsLabelRow(line, key))
  }

  /** The "Used" value of a matching row: the second cell, '_' removed, as an integer. */
  function UsedOf(cells: seq<string>): (r: Option<int>)
    ensures r.Some? <==> |cells| >= 2 && IsIntLiteral(Strip(RemoveAll(cells[1], '_')))
  {
    if |cells| < 2 then None
    else ParseInt(Strip(RemoveAll(cells[1], '_')))
  }

  /** `_extract_used`. */
  function ExtractUsed(lines: seq<string>, key: string): Option<int>
  {
    var k := FindLabelRow(lines, key);
    if k < |lines| then UsedOf(Cells(lines[k])) else None
  }

  /**
   * A reported value is the Used cell of the first row for the key; with no
   * row for the key nothing is reported.
   */
  lemma ExtractUsedSome(lines: seq<string>, key: string)
    ensures ExtractUsed(lines, key).Some? ==>
      exists k :: 0 <= k < |lines| && IsLabelRow(lines[k], key)
        && (forall j :: 0 <= j < k ==> !IsLabelRow(lines[j], key))
        && ExtractUsed(lines, key) == UsedOf(Cells(lines[k]))
    ensures (forall j :: 0 <= j < |lines| ==> !IsLabelRow(lines[j], key)) ==> ExtractUsed(lines, key) == None
  {
    var k := FindLabelRow(lines, key);
    if k < |lines| {
      assert IsLabelRow(lines[k], key);
    }
  }

  /** The first row for the key decides; later rows are never consulted. */
  lemma FirstRowDecides(before: seq<string>, row: string, after: seq<string>, key: string)
    requires forall j :: 0 <= j < |before| ==> !IsLabelRow(before[j], key)
    requires IsLabelRow(row, key)
    ensures ExtractUsed(before + [row] + after, key) == UsedOf(Cells(row))
  {
    FindFirstAt(before, row, after, line => IsLabelRow(line, key));
    assert (before + [row] + after)[|before|] == row;
  }

  // ---------------------------------------------------------------------
  // The whole report
  // ---------------------------------------------------------------------

  /** `VivadoResourceReportParser.parse` on the text of the report file. */
  function Parse(text: string): (r: ResourceReport)
    ensures r.tool == "vivado" && r.fmaxMhz.None? && r.target != ""
  {
    var lines := SplitLines(text);
    ResourceReport(
      "vivado",
      Target(lines),
      ExtractUsed(lines, LutLabel),
      ExtractUsed(lines, FfLabel),
      ExtractUsed(lines, DspLabel),
      ExtractUsed(lines, BramLabel),
      ExtractUsed(lines, UramLabel),
      None)
  }

  /** A report without a row for a metric leaves that metric absent, never zero. */
  lemma MissingRowIsNone(text: string)
    ensures (forall j :: 0 <= j < |SplitLines(text)| ==> !IsLabelRow(SplitLines(text)[j], LutLabel)) ==> Parse(text).lut == None
    ensures (forall j :: 0 <= j < |SplitLines(text)| ==> !IsLabelRow(SplitLines(text)[j], FfLabel)) ==> Parse(text).ff == None
    ensures (forall j :: 0 <= j < |SplitLines(text)| ==> !IsLabelRow(SplitLines(text)[j], DspLabel)) ==> Parse(text).dsp == None
    ensures (forall j :: 0 <= j < |SplitLines(text)| ==> !IsLabelRow(SplitLines(text)[j], BramLabel)) ==> Parse(text).bram == None
    ensures (forall j :: 0 <= j < |SplitLines(text)| ==> !IsLabelRow(SplitLines(text)[j], UramLabel)) ==> Parse(text).uram == None
  {
  }

  // ---------------------------------------------------------------------
  // Round trip with a rendered report
  // ---------------------------------------------------------------------

  /** A cell value the table can carry: non-empty, stripped, on one line, without '|'. */
  predicate IsCellText(s: string) {
    s != "" && Stripped(s) && '|' !in s && '\n' !in s
  }

  /** The row `| <key> | <used> |`. */
  function Row(key: string, used: string): string {
    "| " + key + " | " + used + " |"
  }

  /** The header line `| Device : <target>`. */
  function DeviceLine(target: string): string {
    "| Device : " + target
  }

  lemma RowSplit(key: string, used: string)
    requires IsCellText(key) && IsCellText(used)
    ensures Split(Row(key, used), '|') == ["", " " + key + " ", " " + used + " ", ""]
  {
    var k, u := " " + key + " ", " " + used + " ";
    var parts := ["", k, u, ""];
    JoinCons(u, [""], "|");
    JoinCons(k, [u, ""], "|");
    JoinCons("", [k, u, ""], "|");
    assert [u] + [""] == [u, ""] && [k] + [u, ""] == [k, u, ""] && [""] + [k, u, ""] == parts;
    assert Join(parts, "|") == Row(key, used);
    SplitJoin(parts, '|');
  }

  lemma CellsOfFourParts(line: string, a: string, b: string, c: string, d: string)
    requires Split(line, '|') == [a, b, c, d]
    ensures Cells(line) == [Strip(b), Strip(c)]
  {
  }

  /** The cells of a rendered row are its label and its Used text. */
  lemma RowCells(key: string, used: string)
    requires IsCellText(key) && IsCellText(used)
    ensures Cells(Row(key, used)) == [key, used]
  {
    RowSplit(key, used);
    CellsOfFourParts(Row(key, used), "", " " + key + " ", " " + used + " ", "");
    StripPadded(" ", key, " ");
    StripPadded(" ", used, " ");
  }

  lemma RowStripped(key: string, used: string)
    ensures Strip(Row(key, used)) == Row(key, used)
  {
    var row := Row(key, used);
    assert row[0] == '|' && row[|row| - 1] == '|';
    StripStripped(row);
  }

  lemma NoNewlineInRow(key: string, used: string)
    requires '\n' !in key && '\n' !in used
    ensures '\n' !in Row(key, used)
  {
  }

  lemma LabelRowOfCells(line: string, key: string, used: string, other: string)
    requires Cells(line) == [key, used]
    requires Strip(line) == line
    requires StartsWith(line, "| " + key)
    ensures IsLabelRow(line, other) <==> other == key
  {
    if other == key {
      assert line[..1] == "|";
      ContainsAt(line, "| " + key, 0);
    }
  }

  /** A rendered row is read back by its own key and by no other. */
  lemma RowMatches(key: string, used: string, other: string)
    requires IsCellText(key) && IsCellText(used)
    ensures IsLabelRow(Row(key, used), other) <==> other == key
  {
    RowCells(key, used);
    RowStripped(key, used);
    var row := Row(key, used);
    assert row[..|"| " + key|] == "| " + key;
    LabelRowOfCells(row, key, used, other);
  }

  /** A rendered row is not mistaken for the device line unless its key starts with "Device". */
  lemma RowNotDeviceLine(key: string, used: string)
    requires IsCellText(key) && IsCellText(used)
    requires !StartsWith(key, "Device")
    ensures !IsDeviceLine(Row(key, used))
  {
    var row := Row(key, used);
    RowStripped(key, used);
    if |key| < 6 {
      assert row[2 + |key|] == ' ' != DeviceMarker[2 + |key|];
    } else {
      assert key[..6] == row[2..8];
    }
  }

  lemma DeviceLineStripped(target: string)
    requires IsCellText(target)
    ensures Strip(DeviceLine(target)) == DeviceLine(target)
  {
    var line := DeviceLine(target);
    assert line[0] == '|' && line[|line| - 1] == target[|target| - 1];
    StripStripped(line);
  }

  /** The rendered device line is the device line, and its value is the target. */
  lemma DeviceLineValue(target: string)
    requires IsCellText(target)
    ensures IsDeviceLine(DeviceLine(target)) && DeviceValue(DeviceLine(target)) == target
  {
    var line := DeviceLine(target);
    DeviceLineStripped(target);
    assert line[..8] == DeviceMarker;
    assert line == "| Device " + [':'] + (" " + target);
    IndexOfAfter("| Device ", ':', " " + target);
    assert line[10..] == " " + target;
    StripPadded(" ", target, "");
    assert " " + target + "" == " " + target;
  }

  lemma CellsOfTwoParts(line: string, a: string, b: string)
    requires Split(line, '|') == [a, b]
    ensures Cells(line) == []
  {
  }

  /** The device line has no table cells, so no metric key matches it. */
  lemma DeviceLineCells(target: string, key: string)
    requires IsCellText(target)
    ensures Cells(DeviceLine(target)) == []
    ensures !IsLabelRow(DeviceLine(target), key)
  {
    var line := DeviceLine(target);
    var parts := ["", " Device : " + target];
    assert Join(parts, "|") == line;
    SplitJoin(parts, '|');
    CellsOfTwoParts(line, parts[0], parts[1]);
  }

  /** The text of a report with a device line and one row per metric. */
  function RenderReport(target: string, lut: nat, ff: nat, dsp: nat, bram: nat, uram: nat): string {
    Join([DeviceLine(target),
          Row(LutLabel, Decimal(lut)),
          Row(FfLabel, Decimal(ff)),
          Row(DspLabel, Decimal(dsp)),
          Row(BramLabel, Decimal(bram)),
          Row(UramLabel, Decimal(uram))], "\n")
  }

  lemma DecimalCell(n: nat, key: string)
    ensures IsCellText(Decimal(n))
    ensures UsedOf([key, Decimal(n)]) == Some(n)
  {
    var d := Decimal(n);
    assert !IsSpace(d[0]) && !IsSpace(d[|d| - 1]);
    assert forall i :: 0 <= i < |d| ==> d[i] != '|' && d[i] != '\n' && d[i] != '_';
    assert '_' !in d;
    ParseDecimal(n);
  }

  /** A row with a different key is not a label row for `key`. */
  lemma OtherRowSkipped(other: string, n: nat, key: string)
    requires IsCellText(other) && other != key
    ensures !IsLabelRow(Row(other, Decimal(n)), key)
  {
    DecimalCell(n, key);
    RowMatches(other, Decimal(n), key);
  }

  /** The row of a key reads back its value. */
  lemma OwnRowValue(key: string, n: nat)
    requires IsCellText(key)
    ensures IsLabelRow(Row(key, Decimal(n)), key)
    ensures UsedOf(Cells(Row(key, Decimal(n)))) == Some(n)
  {
    DecimalCell(n, key);
    RowMatches(key, Decimal(n), key);
    RowCells(key, Decimal(n));
  }

  /** In a device line followed by rows with distinct keys, each key reads back its own value. */
  lemma {:induction false} RenderedRowFound(lines: seq<string>, keys: seq<string>, values: seq<nat>, i: nat)
    requires |keys| == |values| && |lines| == |keys| + 1 && i < |keys|
    requires forall j :: 0 <= j < |keys| ==> IsCellText(keys[j])
    requires forall j, k :: 0 <= j < k < |keys| ==> keys[j] != keys[k]
    requires forall j :: 1 <= j < |lines| ==> lines[j] == Row(keys[j - 1], Decimal(values[j - 1]))
    requires !IsLabelRow(lines[0], keys[i])
    ensures ExtractUsed(lines, keys[i]) == Some(values[i])
  {
    var key := keys[i];
    var before := lines[..i + 1];
    forall j | 0 <= j < |before| ensures !IsLabelRow(before[j], key) {
      if j > 0 {
        assert before[j] == Row(keys[j - 1], Decimal(values[j - 1]));
        OtherRowSkipped(keys[j - 1], values[j - 1], key);
      }
    }
    assert lines[i + 1] == Row(key, Decimal(values[i]));
    OwnRowValue(key, values[i]);
    FirstRowDecides(before, lines[i + 1], lines[i + 2..], key);
    SeqAround(lines, i + 1);
  }

  lemma LabelsAreCellText()
    ensures IsCellText(LutLabel) && IsCellText(FfLabel) && IsCellText(DspLabel)
    ensures IsCellText(BramLabel) && IsCellText(UramLabel)
  {
  }

  lemma RowLine(key: string, n: nat)
    requires IsCellText(key)
    ensures '\n' !in Row(key, Decimal(n)) && Row(key, Decimal(n)) != ""
  {
    DecimalCell(n, key);
    NoNewlineInRow(key, Decimal(n));
  }

  lemma RenderedLines(target: string, lut: nat, ff: nat, dsp: nat, bram: nat, uram: nat)
    requires IsCellText(target)
    ensures SplitLines(RenderReport(target, lut, ff, dsp, bram, uram))
         == [DeviceLine(target), Row(LutLabel, Decimal(lut)), Row(FfLabel, Decimal(ff)),
             Row(DspLabel, Decimal(dsp)), Row(BramLabel, Decimal(bram)), Row(UramLabel, Decimal(uram))]
  {
    var lines := [DeviceLine(target), Row(LutLabel, Decimal(lut)), Row(FfLabel, Decimal(ff)),
                  Row(DspLabel, Decimal(dsp)), Row(BramLabel, Decimal(bram)), Row(UramLabel, Decimal(uram))];
    LabelsAreCellText();
    RowLine(LutLabel, lut);
    RowLine(FfLabel, ff);
    RowLine(DspLabel, dsp);
    RowLine(BramLabel, bram);
    RowLine(UramLabel, uram);
    assert '\n' !in DeviceLine(target);
    assert forall i :: 0 <= i < |lines| ==> '\n' !in lines[i];
    SplitLinesJoin(lines);
  }

  /** The five metric keys in report order. */
  const MetricKeys: seq<string> := [LutLabel, FfLabel, DspLabel, BramLabel, UramLabel]

  lemma MetricKeysFacts()
    ensures forall j :: 0 <= j < |MetricKeys| ==> IsCellText(MetricKeys[j])
    ensures forall j, k :: 0 <= j < k < |MetricKeys| ==> MetricKeys[j] != MetricKeys[k]
  {
    LabelsAreCellText();
  }

  lemma RenderedMetrics(target: string, lines: seq<string>, values: seq<nat>)
    requires IsCellText(target) && |values| == 5 && |lines| == 6 && lines[0] == DeviceLine(target)
    requires forall j :: 1 <= j < |lines| ==> lines[j] == Row(MetricKeys[j - 1], Decimal(values[j - 1]))
    ensures forall i :: 0 <= i < 5 ==> ExtractUsed(lines, MetricKeys[i]) == Some(values[i])
  {
    MetricKeysFacts();
    forall i | 0 <= i < 5 ensures ExtractUsed(lines, MetricKeys[i]) == Some(values[i]) {
      DeviceLineCells(target, MetricKeys[i]);
      RenderedRowFound(lines, MetricKeys, values, i);
    }
  }

  lemma RenderedShape(target: string, values: seq<nat>, lines: seq<string>)
    requires IsCellText(target) && |values| == 5
    requires lines == SplitLines(RenderReport(target, values[0], values[1], values[2], values[3], values[4]))
    ensures |lines| == 6 && lines[0] == DeviceLine(target)
    ensures forall j :: 1 <= j < |lines| ==> lines[j] == Row(MetricKeys[j - 1], Decimal(values[j - 1]))
  {
    RenderedLines(target, values[0], values[1], values[2], values[3], values[4]);
  }

  lemma RenderedTarget(target: string, lines: seq<string>)
    requires IsCellText(target) && |lines| > 0 && lines[0] == DeviceLine(target)
    ensures Target(lines) == target
  {
    DeviceLineValue(target);
    FirstDeviceLineDecides([], lines[0], lines[1..]);
    assert [] + [lines[0]] + lines[1..] == lines;
  }

  /** Parsing a rendered report gives back every metric and the device. */
  lemma ParseRenderedReport(target: string, lut: nat, ff: nat, dsp: nat, bram: nat, uram: nat)
    requires IsCellText(target)
    ensures Parse(RenderReport(target, lut, ff, dsp, bram, uram))
         == ResourceReport("vivado", target, Some(lut), Some(ff), Some(dsp), Some(bram), Some(uram), None)
  {
    var values := [lut, ff, dsp, bram, uram];
    var lines := SplitLines(RenderReport(target, lut, ff, dsp, bram, uram));
    RenderedShape(target, values, lines);
    RenderedTarget(target, lines);
    RenderedMetrics(target, lines, values);
    assert MetricKeys[0] == LutLabel && MetricKeys[1] == FfLabel && MetricKeys[2] == DspLabel;
    assert MetricKeys[3] == BramLabel && MetricKeys[4] == UramLabel;
  }

  lemma UsedOfText(cells: seq<string>, text: string, n: int)
    requires |cells| >= 2 && RemoveAll(cells[1], '_') == text && Stripped(text) && ParseInt(text) == Some(n)
    ensures UsedOf(cells) == Some(n)
  {
    StripStripped(text);
  }

  /** Digits around one '_' form a cell whose text, less the '_', parses as those digits. */
  lemma GroupedCell(a: string, b: string)
    requires a != [] && b != [] && AllDigits(a) && AllDigits(b)
    ensures IsCellText(a + "_" + b)
    ensures RemoveAll(a + "_" + b, '_') == a + b
    ensures Stripped(a + b) && ParseInt(a + b) == Some(DigitsValue(a + b))
  {
    var used := a + "_" + b;
    assert used[0] == a[0] && used[|used| - 1] == b[|b| - 1];
    assert '|' !in a && '|' !in b && '\n' !in a && '\n' !in b;
    assert '_' !in a && '_' !in b;
    RemoveSeparator(a, b, '_');
    var text := a + b;
    assert AllDigits(text) && text[0] == a[0] && text[|text| - 1] == b[|b| - 1];
    ParseDigits(text);
  }

  /**
   * A Used cell written with a digit-group separator, such as `6_528`, reads
   * as the number its digits spell (6528).
   */
  lemma GroupedUsedValue(key: string, a: string, b: string)
    requires IsCellText(key) && a != [] && b != [] && AllDigits(a) && AllDigits(b)
    ensures ExtractUsed([Row(key, a + "_" + b)], key) == Some(DigitsValue(a + b))
  {
    var used := a + "_" + b;
    GroupedCell(a, b);
    var row := Row(key, used);
    RowCells(key, used);
    RowMatches(key, used, key);
    FirstRowDecides([], row, [], key);
    assert [] + [row] + [] == [row];
    UsedOfText([key, used], a + b, DigitsValue(a + b));
  }
}
