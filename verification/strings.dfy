/** Character classes, the small scanners the line recognisers are built
    from, and the decimal text of integers.

    Python 2 works on byte strings here; every character the command
    outputs use is ASCII, so `char` stands for a byte. */
module Strings {
  import opened Wrappers

  /** Python's `\s` on a byte string. */
  predicate IsSpace(c: char) {
    c == ' ' || c == '\t' || c == '\n' || c == '\r' || c == '\U{0B}' || c == '\U{0C}'
  }

  /** Python's `\d` on a byte string. */
  predicate IsDigit(c: char) {
    '0' <= c <= '9'
  }

  /** Python's `\w` on a byte string without the UNICODE flag. */
  predicate IsWordChar(c: char) {
    'a' <= c <= 'z' || 'A' <= c <= 'Z' || IsDigit(c) || c == '_'
  }

  predicate AllDigits(s: string) {
    forall i :: 0 <= i < |s| ==> IsDigit(s[i])
  }

  predicate StartsWith(s: string, p: string) {
    |p| <= |s| && s[..|p|] == p
  }

  /** Python's `p in s` on strings: `p` occurs in `s` as a substring. */
  predicate Contains(s: string, p: string)
    decreases |s|
  {
    StartsWith(s, p) || (|s| > 0 && Contains(s[1..], p))
  }

  /** `str.lower()` of one ASCII character. */
  function Lower(c: char): char {
    if 'A' <= c <= 'Z' then (c as int + 32) as char else c
  }

  /** Number of leading whitespace characters. */
  function SpaceRun(s: string): (n: nat)
    ensures n <= |s|
    ensures forall i :: 0 <= i < n ==> IsSpace(s[i])
    ensures n < |s| ==> !IsSpace(s[n])
  {
    if |s| > 0 && IsSpace(s[0]) then 1 + SpaceRun(s[1..]) else 0
  }

  /** Number of leading non-whitespace characters. */
  function NonSpaceRun(s: string): (n: nat)
    ensures n <= |s|
    ensures forall i :: 0 <= i < n ==> !IsSpace(s[i])
    ensures n < |s| ==> IsSpace(s[n])
  {
    if |s| > 0 && !IsSpace(s[0]) then 1 + NonSpaceRun(s[1..]) else 0
  }

  /** Number of leading decimal digits. */
  function DigitRun(s: string): (n: nat)
    ensures n <= |s|
    ensures forall i :: 0 <= i < n ==> IsDigit(s[i])
    ensures n < |s| ==> !IsDigit(s[n])
  {
    if |s| > 0 && IsDigit(s[0]) then 1 + DigitRun(s[1..]) else 0
  }

  /** `s` without its leading whitespace. */
  function TrimLeft(s: string): (r: string)
    ensures |r| <= |s| && r == s[|s| - |r|..]
  {
    s[SpaceRun(s)..]
  }

  /** `s` without its trailing whitespace. */
  function TrimRight(s: string): (r: string)
    ensures |r| <= |s| && r == s[..|r|]
    ensures forall i :: |r| <= i < |s| ==> IsSpace(s[i])
    ensures |r| > 0 ==> !IsSpace(r[|r| - 1])
  {
    if |s| > 0 && IsSpace(s[|s| - 1]) then TrimRight(s[..|s| - 1]) else s
  }

  /** Scanner for `\s+`: at least one whitespace character, all of them consumed. */
  function Spaces(s: string): (r: Option<string>)
    ensures r.Some? ==> |r.value| < |s| && r.value == s[|s| - |r.value|..]
  {
    var n := SpaceRun(s);
    if n == 0 then None else Some(s[n..])
  }

  /** A whitespace run stops at the first character that is not whitespace. */
  lemma {:induction false} SpaceRunOfPrefix(ws: string, t: string)
    requires forall i :: 0 <= i < |ws| ==> IsSpace(ws[i])
    requires |t| > 0 && !IsSpace(t[0])
    ensures SpaceRun(ws + t) == |ws|
  {
    if |ws| > 0 {
      assert (ws + t)[1..] == ws[1..] + t;
      SpaceRunOfPrefix(ws[1..], t);
    }
  }

  /** Scanner for a literal. */
  function Lit(s: string, p: string): (r: Option<string>)
    ensures r.Some? <==> StartsWith(s, p)
    ensures r.Some? ==> r.value == s[|p|..]
  {
    if StartsWith(s, p) then Some(s[|p|..]) else None
  }

  /** The text after the first occurrence of `p`. */
  function AfterFirst(s: string, p: string): (r: Option<string>)
    ensures r.Some? ==> |r.value| <= |s| && r.value == s[|s| - |r.value|..]
    decreases |s|
  {
    if StartsWith(s, p) then Some(s[|p|..])
    else if |s| == 0 then None
    else AfterFirst(s[1..], p)
  }

  function DigitValue(c: char): (d: nat)
    requires IsDigit(c)
    ensures d < 10
  {
    c as int - '0' as int
  }

  function DigitChar(d: nat): (c: char)
    requires d < 10
    ensures IsDigit(c) && DigitValue(c) == d
  {
    ('0' as int + d) as char
  }

  /** `int(ds)` of a string of decimal digits. */
  function DigitsValue(ds: string): nat
    requires AllDigits(ds)
  {
    if |ds| == 0 then 0 else 10 * DigitsValue(ds[..|ds| - 1]) + DigitValue(ds[|ds| - 1])
  }

  /** Scanner for `(\d+)` followed by something that is not a digit: the value and the rest. */
  function Number(s: string): (r: Option<(nat, string)>)
    ensures r.Some? ==> |r.value.1| < |s| && r.value.1 == s[|s| - |r.value.1|..]
  {
    var n := DigitRun(s);
    if n == 0 then None else Some((DigitsValue(s[..n]), s[n..]))
  }

  /** `str(n)` of a non-negative integer. */
  function NatText(n: nat): (s: string)
    ensures |s| > 0 && AllDigits(s)
  {
    if n < 10 then [DigitChar(n)] else NatText(n / 10) + [DigitChar(n % 10)]
  }

  /** Reading back the decimal text of a number gives the number. */
  lemma {:induction false} NatTextValue(n: nat)
    ensures DigitsValue(NatText(n)) == n
  {
    var s := NatText(n);
    if n >= 10 {
      NatTextValue(n / 10);
      assert s[..|s| - 1] == NatText(n / 10);
    }
  }

  /** `str(n)` of any integer. */
  function IntText(n: int): (s: string)
    ensures n >= 0 ==> s == NatText(n)
    ensures n < 0 ==> s == "-" + NatText(-n)
  {
    if n < 0 then "-" + NatText(-n) else NatText(n)
  }

  /** `"%02d" % n`: at least two characters, zero-padded. */
  function Pad2(n: int): (s: string)
    ensures 0 <= n < 100 ==> |s| == 2 && AllDigits(s) && DigitsValue(s) == n
    ensures n >= 10 || n < 0 ==> s == IntText(n)
  {
    if 0 <= n < 10 then
      TwoDigits(0, n);
      [DigitChar(0), DigitChar(n)]
    else
      NatTextValue(if n < 0 then 0 else n);
      IntText(n)
  }

  lemma TwoDigits(a: nat, b: nat)
    requires a < 10 && b < 10
    ensures DigitsValue([DigitChar(a), DigitChar(b)]) == 10 * a + b
  {
    var t := [DigitChar(a), DigitChar(b)];
    assert t[..1] == [DigitChar(a)];
    assert t[..1][..0] == [];
    assert DigitsValue(t[..1]) == a;
  }

  /** `s[2:]`: the text from the third character on, empty when there is none. */
  function Drop2(s: string): string {
    if |s| >= 2 then s[2..] else ""
  }

  /** `str(year)[2:]` is the zero-padded two-digit year for every four-digit year. */
  lemma {:induction false} YearSuffix(year: nat)
    requires 1000 <= year <= 9999
    ensures Drop2(NatText(year)) == Pad2(year % 100)
  {
    var a, b, c, d := year / 1000, year / 100 % 10, year / 10 % 10, year % 10;
    assert NatText(year / 1000) == [DigitChar(a)];
    assert NatText(year / 100) == [DigitChar(a), DigitChar(b)];
    assert NatText(year / 10) == [DigitChar(a), DigitChar(b), DigitChar(c)];
    assert NatText(year) == [DigitChar(a), DigitChar(b), DigitChar(c), DigitChar(d)];
    var t := [DigitChar(c), DigitChar(d)];
    assert Drop2(NatText(year)) == t;
    TwoDigits(c, d);
    if year % 100 >= 10 {
      NatTextValue(year % 100);
      assert year % 100 / 10 == c && year % 100 % 10 == d;
      assert NatText(year % 100) == t;
    }
  }

  /** `s.replace(p, '')`: every non-overlapping occurrence of `p`, scanned left to right, removed. */
  function RemoveAll(s: string, p: string): (r: string)
    requires |p| > 0
    ensures |r| <= |s|
    decreases |s|
  {
    if |s| < |p| then s
    else if s[..|p|] == p then RemoveAll(s[|p|..], p)
    else [s[0]] + RemoveAll(s[1..], p)
  }

  /** Splits `s` into its whitespace-separated words, as `str.split()` does. */
  function Words(s: string): seq<string>
    decreases |s|
  {
    var t := TrimLeft(s);
    if t == [] then []
    else
      var n := NonSpaceRun(t);
      [t[..n]] + Words(t[n..])
  }

  function Pow10(n: nat): (p: nat)
    ensures p >= 1
  {
    if n == 0 then 1 else 10 * Pow10(n - 1)
  }

  /** Python's `float(s)` restricted to plain decimal notation: surrounding
      whitespace, an optional sign, digits with an optional fraction (at
      least one digit in all). Exponents, `inf` and `nan` are not modelled. */
  function ParseFloat(s: string): (r: Option<real>)
    ensures r.Some? ==> |TrimRight(TrimLeft(s))| > 0
  {
    var t := TrimRight(TrimLeft(s));
    var neg := |t| > 0 && t[0] == '-';
    var u := if |t| > 0 && (t[0] == '-' || t[0] == '+') then t[1..] else t;
    var k := DigitRun(u);
    var whole := u[..k];
    if k == |u| then
      if k == 0 then None else Some(Signed(neg, DigitsValue(whole) as real))
    else if u[k] != '.' then None
    else
      var frac := u[k + 1..];
      if !AllDigits(frac) || k + |frac| == 0 then None
      else Some(Signed(neg, DigitsValue(whole) as real + DigitsValue(frac) as real / Pow10(|frac|) as real))
  }

  function Signed(neg: bool, x: real): real {
    if neg then -x else x
  }
}
