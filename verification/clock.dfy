/** The date and hour blocks, built from the time read once per cycle. */
module Clock {
  import opened Strings
  import opened Blocks

  /** The fields of a `datetime` the two blocks use. */
  datatype DateTime = DateTime(year: nat, month: nat, day: nat, hour: nat, minute: nat, second: nat)

  /** The ranges a `datetime` guarantees. */
  predicate Valid(now: DateTime) {
    1 <= now.year <= 9999 && 1 <= now.month <= 12 && 1 <= now.day <= 31 &&
    now.hour < 24 && now.minute < 60 && now.second < 60
  }

  /** `get_date`, with `calendar.month_abbr` given as its thirteen entries
      (the first one empty). */
  function DateStatus(now: DateTime, monthAbbr: seq<string>): (b: Block)
    requires Valid(now) && |monthAbbr| == 13
    ensures b.name == "date" && b.colors == Pair(Normal) && b.separator
    ensures b.fullText == [Str(" " + monthAbbr[now.month] + " " + NatText(now.day) + ", " + NatText(now.year) + " ")]
    ensures b.shortText == [Str(" " + NatText(now.day) + "/" + NatText(now.month) + "/" + Drop2(NatText(now.year)) + " ")]
  {
    Block("date",
          [Str(" " + monthAbbr[now.month] + " " + NatText(now.day) + ", " + NatText(now.year) + " ")],
          [Str(" " + NatText(now.day) + "/" + NatText(now.month) + "/" + Drop2(NatText(now.year)) + " ")],
          Pair(Normal), true)
  }

  /** For a four-digit year, `str(year)[2:]` in the short date is the year
      modulo 100, zero-padded to two digits. */
  lemma ShortDateYear(now: DateTime, monthAbbr: seq<string>)
    requires Valid(now) && |monthAbbr| == 13 && now.year >= 1000
    ensures DateStatus(now, monthAbbr).shortText ==
      [Str(" " + NatText(now.day) + "/" + NatText(now.month) + "/" + Pad2(now.year % 100) + " ")]
    ensures |Pad2(now.year % 100)| == 2 && DigitsValue(Pad2(now.year % 100)) == now.year % 100
  {
    YearSuffix(now.year);
  }

  /** `%I`: the hour on the twelve-hour clock, where midnight and noon are 12. */
  function Hour12(hour: nat): (h: nat)
    requires hour < 24
    ensures 1 <= h <= 12
    ensures h % 12 == hour % 12
  {
    if hour % 12 == 0 then 12 else hour % 12
  }

  /** `%p` in the C locale. */
  function Meridiem(hour: nat): (s: string)
    ensures s == "AM" <==> hour < 12
    ensures s == "PM" <==> hour >= 12
  {
    if hour < 12 then "AM" else "PM"
  }

  /** `get_hour`: `strftime(' %I:%M:%S %p ')` and `strftime(' %H:%M ')`. */
  function HourStatus(now: DateTime): (b: Block)
    requires Valid(now)
    ensures b.name == "hour" && b.colors == Pair(Normal) && b.separator
    ensures b.fullText == [Str(" " + Pad2(Hour12(now.hour)) + ":" + Pad2(now.minute) + ":" + Pad2(now.second) +
                               " " + Meridiem(now.hour) + " ")]
    ensures b.shortText == [Str(" " + Pad2(now.hour) + ":" + Pad2(now.minute) + " ")]
  {
    Block("hour",
          [Str(" " + Pad2(Hour12(now.hour)) + ":" + Pad2(now.minute) + ":" + Pad2(now.second) +
               " " + Meridiem(now.hour) + " ")],
          [Str(" " + Pad2(now.hour) + ":" + Pad2(now.minute) + " ")],
          Pair(Normal), true)
  }

  /** Both hour texts have a fixed width: thirteen characters for the full
      text and seven for the short one, each field two digits. */
  lemma HourTextWidths(now: DateTime)
    requires Valid(now)
    ensures |HourStatus(now).fullText[0].s| == 13
    ensures |HourStatus(now).shortText[0].s| == 7
  {
  }
}
