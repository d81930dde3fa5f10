/** The CPU temperature block: the scan of the `sensors` output and its
    colour classification. */
module Sensors {
  import opened Wrappers
  import opened Strings
  import opened Lines
  import opened Blocks

  /** Package temperature and its two limits, whole degrees Celsius. */
  datatype Thermal = Thermal(temp: int, high: int, crit: int)

  /** The dictionary the scan fills: the thermal triple and the fan speed text. */
  datatype SensorsReading = SensorsReading(thermal: Option<Thermal>, fan: Option<string>)

  const NoSensors := SensorsReading(None, None)

  /** `(\d+.\d+)` read with `int(float(...))`: the whole-degree part and the rest of the text. */
  function Celsius(s: string): (r: Option<(nat, string)>)
    ensures r.Some? ==> |r.value.1| < |s|
  {
    var whole :- Number(s);
    var rest := whole.1;
    if |rest| > 0 && rest[0] == '.' then
      var frac :- Number(rest[1..]);
      Some((whole.0, frac.1))
    else None
  }

  /** Recogniser for the package line,
      `Physical id 0:  +45.0°C  (high = +80.0°C, crit = +100.0°C)`. */
  function ThermalLine(line: string): Option<Thermal> {
    var r0 :- Lit(TrimLeft(line), "Physical");
    var r1 :- AfterFirst(r0, ":");
    var r2 :- Spaces(r1);
    var r3 :- Lit(r2, "+");
    var cur :- Celsius(r3);
    var limits :- Limits(cur.1);
    Some(Thermal(cur.0, limits.0, limits.1))
  }

  /** The rest of the package line, `(high = +80.0°C, crit = +100.0°C)`:
      the two limits. */
  function Limits(s: string): Option<(nat, nat)> {
    var r4 :- AfterFirst(s, "(high");
    var r5 :- Spaces(r4);
    var r6 :- Lit(r5, "=");
    var r7 :- Spaces(r6);
    var r8 :- Lit(r7, "+");
    var high :- Celsius(r8);
    var r9 :- AfterFirst(high.1, ",");
    var r10 :- Spaces(r9);
    var r11 :- Lit(r10, "crit");
    var r12 :- Spaces(r11);
    var r13 :- Lit(r12, "=");
    var r14 :- Spaces(r13);
    var r15 := if StartsWith(r14, "+") then r14[1..] else r14;
    var crit :- Celsius(r15);
    if Contains(crit.1, ")") then Some((high.0, crit.0)) else None
  }

  /** Recogniser for `fan\d+:\s+(\d+\s+RPM)` at the start of a line: the captured text. */
  function FanLine(line: string): Option<string> {
    var r0 :- Lit(line, "fan");
    var n :- Number(r0);
    var r1 :- Lit(n.1, ":");
    var r2 :- Spaces(r1);
    var digits := DigitRun(r2);
    var gap := SpaceRun(r2[digits..]);
    if digits > 0 && gap > 0 && StartsWith(r2[digits + gap..], "RPM") then
      Some(r2[..digits + gap + 3])
    else None
  }

  /** What one line stores: the triple from a `Physical` line, else the fan text from a `fan` line. */
  function ThermalOf(line: string): Option<Thermal> {
    if Contains(line, "Physical") then ThermalLine(line) else None
  }

  function FanOf(line: string): Option<string> {
    if !Contains(line, "Physical") && Contains(line, "fan") then FanLine(line) else None
  }

  /** One iteration of the loop of `parse_sensors`. */
  function SensorsStep(st: SensorsReading, line: string): SensorsReading {
    if Contains(line, "Physical") then
      match ThermalLine(line)
      case Some(t) => st.(thermal := Some(t))
      case None => st
    else if Contains(line, "fan") then
      match FanLine(line)
      case Some(f) => st.(fan := Some(f))
      case None => st
    else st
  }

  /** The dictionary after the loop has seen `lines`. */
  function ScanSensors(lines: seq<string>): SensorsReading {
    if |lines| == 0 then NoSensors
    else SensorsStep(ScanSensors(lines[..|lines| - 1]), lines[|lines| - 1])
  }

  /** `parse_sensors`, with the output of `sensors` given as its lines. */
  method ParseSensors(lines: seq<string>) returns (r: SensorsReading)
    ensures r == ScanSensors(lines)
  {
    r := NoSensors;
    var i := 0;
    while i < |lines|
      invariant 0 <= i <= |lines|
      invariant r == ScanSensors(lines[..i])
    {
      var line := lines[i];
      assert lines[..i + 1][..i] == lines[..i];
      if Contains(line, "Physical") {
        var t := ThermalLine(line);
        if t.Some? {
          r := r.(thermal := t);
        }
      } else if Contains(line, "fan") {
        var f := FanLine(line);
        if f.Some? {
          r := r.(fan := f);
        }
      }
      i := i + 1;
    }
    assert lines[..|lines|] == lines;
  }

  /** Each entry of the dictionary comes from the last line that sets it:
      the triple from the last recognised `Physical` line, the fan text from
      the last recognised `fan` line that is not a `Physical` line. */
  lemma {:induction false} ScanSensorsLastWins(lines: seq<string>)
    ensures ScanSensors(lines).thermal == LastMatch(lines, ThermalOf)
    ensures ScanSensors(lines).fan == LastMatch(lines, FanOf)
  {
    if |lines| > 0 {
      ScanSensorsLastWins(lines[..|lines| - 1]);
    }
  }

  /** The colours of `get_cpu_temp_status`: a second, later check overrides
      the first. Above the critical limit the block is red on red, whatever
      the high limit: the foreground is the danger background, not the danger colour. */
  function TempColors(t: Thermal): (c: Colors)
    ensures t.temp <= t.high && t.temp <= t.crit ==> c == Pair(Normal)
    ensures t.high < t.temp <= t.crit ==> c == Pair(Warn)
    ensures t.temp > t.crit ==> c == Colors(DangerBackground, DangerBackground)
    ensures c.background == DangerBackground <==> t.temp > t.crit
  {
    var c := if t.temp > t.high then Pair(Warn) else Pair(Normal);
    if t.temp > t.crit then Colors(DangerBackground, DangerBackground) else c
  }

  /** `get_cpu_temp_status` once the sensors have been read. */
  function CpuTempStatus(s: SensorsReading): (r: Result<Block>)
    ensures r.Err? <==> s.thermal.None? || s.fan.None?
    ensures r.Err? ==> r.fault == KeyError
    ensures r.Ok? ==> r.value.name == "cpu_temp" && r.value.colors == TempColors(s.thermal.value)
    ensures r.Ok? ==>
      r.value.shortText == [Str(" " + IntText(s.thermal.value.temp) + "[C] ")] &&
      r.value.fullText == [Str(" " + IntText(s.thermal.value.temp) + "[C] " + s.fan.value + " ")]
  {
    var t :- Lookup(s.thermal);
    var fan :- Lookup(s.fan);
    var degrees := IntText(t.temp);
    Ok(Block("cpu_temp", [Str(" " + degrees + "[C] " + fan + " ")], [Str(" " + degrees + "[C] ")],
             TempColors(t), true))
  }
}
