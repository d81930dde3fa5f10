/** The battery block: the scan of the `upower` property dump, the charge
    time and its colour, and the H:MM:SS text. */
module Battery {
  import opened Wrappers
  import opened Strings
  import opened Numeric
  import opened Blocks

  /** The dictionary `parse_bat` fills. `state` stores whatever `get_value`
      returns, so a state line that does not match stores `None`. */
  datatype BatData = BatData(
    state: Option<Option<string>>,
    capacity: Option<real>,
    energy: Option<real>,
    energyFull: Option<real>,
    energyRate: Option<real>)

  const NoBat := BatData(None, None, None, None, None)

  /** `get_value`, the pattern `^\s+key:\s+(.+)\s*$`. The greedy `\s+` takes
      the whole gap after the colon and the group the rest of the line; when
      nothing follows the gap, the gap gives its last character back to the
      group, which needs a gap of two. */
  function GetValue(key: string, line: string): (r: Option<string>)
    ensures r.Some? ==> 0 < |r.value| <= |line| && r.value == line[|line| - |r.value|..]
  {
    var r1 :- Spaces(line);
    var r2 :- Lit(r1, key + ":");
    var k := SpaceRun(r2);
    if k == 0 then None
    else if k < |r2| then Some(r2[k..])
    else if k >= 2 then Some(r2[k - 1..])
    else None
  }

  predicate AllSpace(s: string) {
    forall i :: 0 <= i < |s| ==> IsSpace(s[i])
  }

  lemma SpaceRunOf(ws: string, rest: string)
    requires AllSpace(ws) && (|rest| == 0 || !IsSpace(rest[0]))
    ensures SpaceRun(ws + rest) == |ws|
  {
    assert forall i :: 0 <= i < |ws| ==> (ws + rest)[i] == ws[i];
    assert |rest| > 0 ==> (ws + rest)[|ws|] == rest[0];
  }

  /** A property line as `upower` writes it, `  key:   value`, gives back its value. */
  lemma GetValueOfLine(indent: string, key: string, gap: string, value: string)
    requires |indent| > 0 && AllSpace(indent) && |key| > 0 && !IsSpace(key[0])
    requires |gap| > 0 && AllSpace(gap) && |value| > 0 && !IsSpace(value[0])
    ensures GetValue(key, indent + key + ":" + gap + value) == Some(value)
  {
    var line := indent + key + ":" + gap + value;
    var after := key + ":" + gap + value;
    assert line == indent + after;
    SpaceRunOf(indent, after);
    assert Spaces(line) == Some(after);
    assert after[..|key + ":"|] == key + ":";
    assert after[|key + ":"|..] == gap + value;
    SpaceRunOf(gap, value);
    assert (gap + value)[|gap|..] == value;
  }

  /** `float(get_value(key, line).replace(unit, ''))`: `None.replace` raises
      AttributeError, `float` of anything but a number ValueError. */
  function Reading(key: string, unit: string, line: string): Result<real>
    requires |unit| > 0
  {
    match GetValue(key, line)
    case None => Err(AttributeError)
    case Some(v) =>
      match ParseFloat(RemoveAll(v, unit))
      case Some(x) => Ok(x)
      case None => Err(ValueError)
  }

  /** One iteration of the loop of `parse_bat`: the first test that the line
      passes decides what it sets. */
  function BatStep(st: Result<BatData>, line: string): Result<BatData> {
    var b :- st;
    if Contains(line, "state") then Ok(b.(state := Some(GetValue("state", line))))
    else if Contains(line, "capacity") then
      var x :- Reading("capacity", "%", line);
      Ok(b.(capacity := Some(x)))
    else if Contains(line, "energy:") then
      var x :- Reading("energy", "Wh", line);
      Ok(b.(energy := Some(x)))
    else if Contains(line, "energy-full:") then
      var x :- Reading("energy-full", "Wh", line);
      Ok(b.(energyFull := Some(x)))
    else if Contains(line, "energy-rate:") then
      var x :- Reading("energy-rate", "W", line);
      Ok(b.(energyRate := Some(x)))
    else Ok(b)
  }

  /** The dictionary after the loop has seen `lines`. */
  function ScanBat(lines: seq<string>): Result<BatData> {
    if |lines| == 0 then Ok(NoBat)
    else BatStep(ScanBat(lines[..|lines| - 1]), lines[|lines| - 1])
  }

  /** `parse_bat`, with the property dump given as its lines. */
  method ParseBat(lines: seq<string>) returns (r: Result<BatData>)
    ensures r == ScanBat(lines)
  {
    var b := NoBat;
    var i := 0;
    while i < |lines|
      invariant 0 <= i <= |lines|
      invariant ScanBat(lines[..i]) == Ok(b)
    {
      var line := lines[i];
      ScanBatNext(lines, i);
      if Contains(line, "state") {
        b := b.(state := Some(GetValue("state", line)));
      } else if Contains(line, "capacity") {
        var x := Reading("capacity", "%", line);
        if x.Err? { ScanBatFailed(lines, i + 1); return Err(x.fault); }
        b := b.(capacity := Some(x.value));
      } else if Contains(line, "energy:") {
        var x := Reading("energy", "Wh", line);
        if x.Err? { ScanBatFailed(lines, i + 1); return Err(x.fault); }
        b := b.(energy := Some(x.value));
      } else if Contains(line, "energy-full:") {
        var x := Reading("energy-full", "Wh", line);
        if x.Err? { ScanBatFailed(lines, i + 1); return Err(x.fault); }
        b := b.(energyFull := Some(x.value));
      } else if Contains(line, "energy-rate:") {
        var x := Reading("energy-rate", "W", line);
        if x.Err? { ScanBatFailed(lines, i + 1); return Err(x.fault); }
        b := b.(energyRate := Some(x.value));
      }
      i := i + 1;
    }
    assert lines[..|lines|] == lines;
    r := Ok(b);
  }

  /** The scan of one more line is one more step. */
  lemma ScanBatNext(lines: seq<string>, i: nat)
    requires i < |lines|
    ensures ScanBat(lines[..i + 1]) == BatStep(ScanBat(lines[..i]), lines[i])
  {
    assert lines[..i + 1][..i] == lines[..i];
  }

  /** A failure is final: once a prefix fails, the whole scan fails with the same fault. */
  lemma {:induction false} ScanBatFailed(lines: seq<string>, i: nat)
    requires i <= |lines| && ScanBat(lines[..i]).Err?
    ensures ScanBat(lines) == ScanBat(lines[..i])
    decreases |lines| - i
  {
    if i < |lines| {
      assert lines[..i + 1][..i] == lines[..i];
      ScanBatFailed(lines, i + 1);
    } else {
      assert lines[..i] == lines;
    }
  }

  /** Without an `energy-rate:` line the rate is never stored, whatever the
      other lines say. */
  lemma {:induction false} NoRateLineNoRate(lines: seq<string>)
    requires forall j :: 0 <= j < |lines| ==> !Contains(lines[j], "energy-rate:")
    ensures ScanBat(lines).Ok? ==> ScanBat(lines).value.energyRate.None?
  {
    if |lines| > 0 {
      var init := lines[..|lines| - 1];
      assert forall j :: 0 <= j < |init| ==> init[j] == lines[j];
      NoRateLineNoRate(init);
    }
  }

  /** Hours to empty while discharging, hours to full otherwise; zero when
      the rate is zero. */
  function ChargeTime(discharging: bool, energy: real, full: real, rate: real): (t: real)
    ensures rate == 0.0 ==> t == 0.0
    ensures rate != 0.0 ==> t * rate == if discharging then energy else full - energy
  {
    if rate == 0.0 then 0.0
    else if discharging then energy / rate
    else (full - energy) / rate
  }

  /** The colours of `get_batt_status`: while discharging, less than half an
      hour left is danger and less than an hour warn; charging is always normal. */
  function BattColors(discharging: bool, time: real): (c: Colors)
    ensures !discharging ==> c == Pair(Normal)
    ensures discharging ==> (c == Pair(Danger) <==> time < 0.5)
    ensures discharging ==> (c == Pair(Warn) <==> 0.5 <= time < 1.0)
    ensures discharging ==> (c == Pair(Normal) <==> time >= 1.0)
  {
    if discharging then
      if time < 1.0 && time >= 0.5 then Pair(Warn)
      else if time < 0.5 then Pair(Danger)
      else Pair(Normal)
    else Pair(Normal)
  }

  /** `int(time)`, `int((time * 60) % 60)` and `int((time * 3600) % 60)`:
      minutes and seconds are each taken from the fractional hours, and
      both lie in [0, 60) whatever the sign of `time`. */
  function ClockParts(time: real): (p: (int, int, int))
    ensures 0 <= p.1 < 60 && 0 <= p.2 < 60
    ensures p.1 == (time * 60.0).Floor % 60 && p.2 == (time * 3600.0).Floor % 60
    ensures time >= 0.0 ==> p.0 == time.Floor
  {
    TruncFloorMod60(time * 60.0);
    TruncFloorMod60(time * 3600.0);
    (Trunc(time), Trunc(FloorMod(time * 60.0, 60.0)), Trunc(FloorMod(time * 3600.0, 60.0)))
  }

  /** For a non-negative time the three parts are the whole seconds of the
      time, split into hours, minutes and seconds. */
  lemma ClockPartsSeconds(time: real)
    requires time >= 0.0
    ensures var (h, m, s) := ClockParts(time);
      3600 * h + 60 * m + s == (time * 3600.0).Floor
  {
    var (h, m, s) := ClockParts(time);
    var f := (time * 3600.0).Floor;
    assert time * 3600.0 / 60.0 == time * 60.0;
    FloorOfQuotient(time * 3600.0, 60);
    assert (time * 60.0).Floor == f / 60;
    assert time * 3600.0 / 3600.0 == time;
    FloorOfQuotient(time * 3600.0, 3600);
    assert h == f / 3600;
    assert f / 60 / 60 == f / 3600;
    assert f / 60 == 60 * (f / 3600) + m;
    assert f == 60 * (f / 60) + s;
  }

  /** `%02d:%02d:%02d` of the three clock parts: below a hundred hours, two
      digits each for the hours, minutes and seconds, separated by colons. */
  function ClockText(time: real): (t: string)
    ensures 0.0 <= time < 100.0 ==>
      && |t| == 8 && t[2] == ':' && t[5] == ':'
      && AllDigits(t[..2]) && AllDigits(t[3..5]) && AllDigits(t[6..])
      && DigitsValue(t[..2]) == ClockParts(time).0
      && DigitsValue(t[3..5]) == ClockParts(time).1
      && DigitsValue(t[6..]) == ClockParts(time).2
  {
    var (h, m, s) := ClockParts(time);
    var t := Pad2(h) + ":" + Pad2(m) + ":" + Pad2(s);
    if 0.0 <= time < 100.0 then
      assert t[..2] == Pad2(h) && t[3..5] == Pad2(m) && t[6..] == Pad2(s);
      t
    else t
  }

  /** The block of `get_batt_status` once every value it reads is present. */
  function BattBlock(energy: real, full: real, capacity: real, state: string, rate: real): (blk: Block)
    requires full != 0.0
    ensures var discharging := Contains(state, "discharging");
      var time := ChargeTime(discharging, energy, full, rate);
      && blk.name == "battery"
      && blk.colors == BattColors(discharging, time)
      && |blk.fullText| == 3
      && blk.fullText[0] == Str(if discharging then " BAT " else " CHR ")
      && blk.fullText[1] == Fixed2(RoundTo(energy / full * capacity, 2))
      && blk.fullText[2] == Str("% " + ClockText(time) + " ")
      && blk.shortText == [Str(" " + (if discharging then "B" else "C") + " " + IntText(Trunc(energy / full * capacity)) +
                               "% " + Pad2(ClockParts(time).0) + ":" + Pad2(ClockParts(time).1) + " ")]
  {
    var percentage := energy / full * capacity;
    var discharging := Contains(state, "discharging");
    var time := ChargeTime(discharging, energy, full, rate);
    var clock := ClockParts(time);
    Block("battery",
          [Str(if discharging then " BAT " else " CHR "), Fixed2(RoundTo(percentage, 2)), Str("% " + ClockText(time) + " ")],
          [Str(" " + (if discharging then "B" else "C") + " " + IntText(Trunc(percentage)) +
               "% " + Pad2(clock.0) + ":" + Pad2(clock.1) + " ")],
          BattColors(discharging, time), true)
  }

  /** `get_batt_status` once the property dump has been read. The lookups
      fail in the order the source performs them: energy, full energy, the
      division, capacity, state, rate. */
  function BattStatus(b: BatData): (r: Result<Block>)
    ensures b.energy.None? || b.energyFull.None? ==> r == Err(KeyError)
    ensures b.energy.Some? && b.energyFull == Some(0.0) ==> r == Err(ZeroDivisionError)
    ensures r.Err? <==> b.energy.None? || b.energyFull.None? || b.energyFull == Some(0.0) ||
                        b.capacity.None? || b.state.None? || b.state == Some(None) || b.energyRate.None?
    ensures (b.energy.Some? && b.energyFull.Some? && b.energyFull.value != 0.0) ==>
      && (b.capacity.None? ==> r == Err(KeyError))
      && (b.capacity.Some? && b.state.None? ==> r == Err(KeyError))
      && (b.capacity.Some? && b.state == Some(None) ==> r == Err(TypeError))
      && (b.capacity.Some? && b.state.Some? && b.state.value.Some? && b.energyRate.None? ==> r == Err(KeyError))
    ensures r.Ok? ==> r.value == BattBlock(b.energy.value, b.energyFull.value, b.capacity.value,
                                           b.state.value.value, b.energyRate.value)
  {
    var energy :- Lookup(b.energy);
    var full :- Lookup(b.energyFull);
    if full == 0.0 then Err(ZeroDivisionError)
    else
      var capacity :- Lookup(b.capacity);
      var stored :- Lookup(b.state);
      var state :- if stored.Some? then Ok(stored.value) else Err(TypeError);
      var rate :- Lookup(b.energyRate);
      Ok(BattBlock(energy, full, capacity, state, rate))
  }

  /** A dump without an `energy-rate:` line yields no battery block: the
      rate is looked up whether or not the battery discharges. */
  lemma MissingRateFails(lines: seq<string>)
    requires forall j :: 0 <= j < |lines| ==> !Contains(lines[j], "energy-rate:")
    ensures ScanBat(lines).Ok? ==> BattStatus(ScanBat(lines).value).Err?
  {
    NoRateLineNoRate(lines);
  }

  /** Discharging at a zero rate reads as no time left: danger, and a clock of zeros. */
  lemma ZeroRateDischargingIsDanger(b: BatData)
    requires b.energy.Some? && b.energyFull.Some? && b.energyFull.value != 0.0 && b.capacity.Some?
    requires b.state.Some? && b.state.value.Some? && Contains(b.state.value.value, "discharging")
    requires b.energyRate == Some(0.0)
    ensures BattStatus(b).Ok? && BattStatus(b).value.colors == Pair(Danger)
    ensures BattStatus(b).value.fullText[2] == Str("% 00:00:00 ")
  {
    var state := b.state.value.value;
    var blk := BattBlock(b.energy.value, b.energyFull.value, b.capacity.value, state, 0.0);
    assert BattStatus(b) == Ok(blk);
    assert ChargeTime(true, b.energy.value, b.energyFull.value, 0.0) == 0.0;
    ZeroClock();
    assert "% " + ClockText(0.0) + " " == "% 00:00:00 ";
  }

  /** No time left reads as a clock of zeros. */
  lemma ZeroClock()
    ensures ClockText(0.0) == "00:00:00"
  {
    assert ClockParts(0.0) == (0, 0, 0);
    assert Pad2(0) == "00" by {
      assert DigitChar(0) == '0';
    }
  }

  /** An hour and a half reads as 01:30:00. */
  lemma HourAndHalfClock()
    ensures ClockParts(1.5) == (1, 30, 0)
    ensures Pad2(1) == "01" && Pad2(30) == "30"
    ensures ClockText(1.5) == "01:30:00"
  {
    assert ClockParts(1.5) == (1, 30, 0);
    assert Pad2(0) == "00" && Pad2(1) == "01" by {
      assert DigitChar(0) == '0' && DigitChar(1) == '1';
    }
    assert Pad2(30) == "30" by {
      assert NatText(30) == NatText(3) + [DigitChar(0)];
      assert DigitChar(3) == '3';
    }
  }

  /** 46.5 of 50 Wh at a capacity of 100 is 93 %, shown as 93.00 and 93. */
  lemma NinetyThreePercent()
    ensures 46.5 / 50.0 * 100.0 == 93.0
    ensures RoundTo(93.0, 2) == 93.0
    ensures IntText(Trunc(93.0)) == "93"
  {
    var r := RoundTo(93.0, 2);
    assert Scale(2) == 100.0;
    assert 9299.5 < r * 100.0 <= 9300.5;
    assert (r * 100.0).Floor as real == r * 100.0;
    assert (r * 100.0).Floor == 9300;
    assert Trunc(93.0) == 93;
    assert NatText(93) == NatText(9) + [DigitChar(3)];
    assert DigitChar(9) == '9' && DigitChar(3) == '3';
  }

  /** A discharging battery at 93 % drawing 31 W from 46.5 of 50 Wh has an
      hour and a half left: the block reads " BAT 93.00% 01:30:00 " and " B 93% 01:30 ". */
  lemma DischargingExample(state: string)
    requires Contains(state, "discharging")
    ensures var blk := BattBlock(46.5, 50.0, 100.0, state, 31.0);
      && blk.colors == Pair(Normal)
      && blk.fullText == [Str(" BAT "), Fixed2(93.0), Str("% 01:30:00 ")]
      && blk.shortText == [Str(" B 93% 01:30 ")]
  {
    assert ChargeTime(true, 46.5, 50.0, 31.0) == 1.5;
    NinetyThreePercent();
    HourAndHalfClock();
    assert "% " + "01:30:00" + " " == "% 01:30:00 ";
    assert " " + "B" + " " + "93" + "% " + "01" + ":" + "30" + " " == " B 93% 01:30 ";
  }

  /** Ten watt-hours drawn at twenty watts is half an hour: the lower,
      inclusive edge of warn. */
  lemma HalfHourIsWarn(full: real)
    ensures ChargeTime(true, 10.0, full, 20.0) == 0.5
    ensures BattColors(true, ChargeTime(true, 10.0, full, 20.0)) == Pair(Warn)
    ensures BattColors(true, 0.499999) == Pair(Danger)
  {
  }
}
