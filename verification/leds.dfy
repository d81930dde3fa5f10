/** The caps and num lock blocks: the LED mask `xset` reports, read as a
    decimal number, and the two indicator bits taken from it. */
module Leds {
  import opened Wrappers
  import opened Strings
  import opened Blocks

  /** `re.search(r'([0-9]{8})[\s]*$', xset)`: the match must run to the end
      of the text over whitespace only, so the eight digits are the last
      eight characters once trailing whitespace is removed. */
  function LedMask(xset: string): (r: Option<string>)
    ensures r.Some? ==> |r.value| == 8 && AllDigits(r.value)
    ensures r.Some? ==> |TrimRight(xset)| >= 8 && TrimRight(xset)[|TrimRight(xset)| - 8..] == r.value
    ensures r.None? ==> |TrimRight(xset)| < 8 || !AllDigits(TrimRight(xset)[|TrimRight(xset)| - 8..])
  {
    var t := TrimRight(xset);
    if |t| >= 8 && AllDigits(t[|t| - 8..]) then Some(t[|t| - 8..]) else None
  }

  /** `bool(n & 1)`. */
  predicate CapsBit(n: nat) {
    n % 2 == 1
  }

  /** `bool(n & 0x2)`. */
  predicate NumBit(n: nat) {
    n / 2 % 2 == 1
  }

  /** Modulo four, a decimal number is its last two digits. */
  lemma LastTwoDigits(s: string)
    requires |s| >= 2 && AllDigits(s)
    ensures DigitsValue(s) % 4 == (10 * DigitValue(s[|s| - 2]) + DigitValue(s[|s| - 1])) % 4
  {
    var init := s[..|s| - 1];
    assert init[|init| - 1] == s[|s| - 2];
    var x := DigitsValue(init[..|init| - 1]);
    var a := DigitValue(s[|s| - 2]);
    var b := DigitValue(s[|s| - 1]);
    assert DigitsValue(s) == 100 * x + 10 * a + b;
    assert 100 * x == 4 * (25 * x);
  }

  /** The caps bit of the decimal reading is the parity of the last digit. */
  lemma CapsIsLastDigitOdd(mask: string)
    requires |mask| >= 1 && AllDigits(mask)
    ensures CapsBit(DigitsValue(mask)) <==> DigitValue(mask[|mask| - 1]) % 2 == 1
  {
    var x := DigitsValue(mask[..|mask| - 1]);
    var b := DigitValue(mask[|mask| - 1]);
    assert DigitsValue(mask) == 2 * (5 * x) + b;
  }

  /** On a mask of zeros and ones, the decimal reading agrees with the
      binary one on the two low bits: caps is the last digit and num the
      one before it. */
  lemma BinaryDigitsBits(mask: string)
    requires |mask| >= 2 && forall i :: 0 <= i < |mask| ==> mask[i] == '0' || mask[i] == '1'
    ensures CapsBit(DigitsValue(mask)) <==> mask[|mask| - 1] == '1'
    ensures NumBit(DigitsValue(mask)) <==> mask[|mask| - 2] == '1'
  {
    LastTwoDigits(mask);
    var v := DigitsValue(mask);
    var a := DigitValue(mask[|mask| - 2]);
    var b := DigitValue(mask[|mask| - 1]);
    assert a == 0 || a == 1;
    assert b == 0 || b == 1;
    assert v % 4 == 2 * a + b;
    LowBits(v);
  }

  /** The two low bits of a number are read off its remainder modulo four. */
  lemma {:induction false} LowBits(v: nat)
    ensures v % 2 == (v % 4) % 2 && v / 2 % 2 == (v % 4) / 2
  {
    if v >= 4 {
      LowBits(v - 4);
    }
  }

  /** The mask the block reads, if the command ran and the pattern matched;
      `None` for the command's output stands for a failing command. */
  function MaskOf(xset: Option<string>): Option<string> {
    var s :- xset;
    LedMask(s)
  }

  /** `get_caps_status`: every failure (the command, a missing mask) is
      caught and shown as the danger block `CAPS_E`. */
  function CapsStatus(xset: Option<string>): (b: Block)
    ensures b.name == "caps" && b.separator
    ensures MaskOf(xset).None? ==>
      b.fullText == [Str(" CAPS_E ")] && b.shortText == [Str("CAPS_E")] && b.colors == Pair(Danger)
    ensures MaskOf(xset).Some? ==>
      && b.fullText == b.shortText == [Str(" CAPS ")]
      && (b.colors == Pair(Set) <==> CapsBit(DigitsValue(MaskOf(xset).value)))
      && (b.colors == Pair(Normal) <==> !CapsBit(DigitsValue(MaskOf(xset).value)))
  {
    match MaskOf(xset)
    case None => Block("caps", [Str(" CAPS_E ")], [Str("CAPS_E")], Pair(Danger), true)
    case Some(mask) =>
      Plain("caps", " CAPS ", if CapsBit(DigitsValue(mask)) then Pair(Set) else Pair(Normal))
  }

  /** `get_num_status`: nothing is caught, so a failing command or a missing
      mask ends the program. */
  function NumStatus(xset: Option<string>): (r: Result<Block>)
    ensures xset.None? ==> r == Err(CalledProcessError)
    ensures xset.Some? && MaskOf(xset).None? ==> r == Err(AttributeError)
    ensures r.Ok? <==> MaskOf(xset).Some?
    ensures r.Ok? ==>
      && r.value.name == "num"
      && r.value.fullText == r.value.shortText == [Str(" NUM ")]
      && (r.value.colors == Pair(Set) <==> NumBit(DigitsValue(MaskOf(xset).value)))
      && (r.value.colors == Pair(Normal) <==> !NumBit(DigitsValue(MaskOf(xset).value)))
  {
    var s :- if xset.Some? then Ok(xset.value) else Err(CalledProcessError);
    var mask :- if LedMask(s).Some? then Ok(LedMask(s).value) else Err(AttributeError);
    Ok(Plain("num", " NUM ", if NumBit(DigitsValue(mask)) then Pair(Set) else Pair(Normal)))
  }

  /** The usual mask of zeros and ones: caps is set exactly when the last
      digit is 1, num exactly when the one before it is. */
  lemma IndicatorsFromBinaryMask(xset: string)
    requires LedMask(xset).Some?
    requires forall i :: 0 <= i < 8 ==> LedMask(xset).value[i] in {'0', '1'}
    ensures CapsStatus(Some(xset)).colors == Pair(Set) <==> LedMask(xset).value[7] == '1'
    ensures NumStatus(Some(xset)).Ok?
    ensures NumStatus(Some(xset)).value.colors == Pair(Set) <==> LedMask(xset).value[6] == '1'
  {
    BinaryDigitsBits(LedMask(xset).value);
  }
}
