/** The home and root disk blocks: the scan of the `df` table and the
    colour classification of one mount. */
module Disk {
  import opened Wrappers
  import opened Strings
  import opened Numeric
  import opened Lines
  import opened Blocks

  /** One row of `df`: 1K-block counts, the use column and the mount path. */
  datatype DfRow = DfRow(blocks: nat, used: nat, available: nat, use: string, mount: string)

  /** What the table keeps for a mount: sizes in gigabytes rounded to two decimals. */
  datatype Usage = Usage(blocks: real, used: real, available: real, use: string)

  const OneGig: real := 1024.0 * 1024.0

  /** `\d+%`. */
  predicate PercentToken(t: string) {
    |t| >= 2 && t[|t| - 1] == '%' && AllDigits(t[..|t| - 1])
  }

  /** `\/\w*`. */
  predicate MountToken(t: string) {
    |t| >= 1 && t[0] == '/' && forall i :: 1 <= i < |t| ==> IsWordChar(t[i])
  }

  predicate CountToken(t: string) {
    |t| > 0 && AllDigits(t)
  }

  /** Exactly one whitespace character between the last two words of `t`. */
  predicate SingleGapBefore(t: string, last: string) {
    |t| >= |last| + 2 && IsSpace(t[|t| - |last| - 1]) && !IsSpace(t[|t| - |last| - 2])
  }

  /** Recogniser for `\/dev.*?\s+(\d+)\s+(\d+)\s+(\d+)\s+(\d+%)\s(\/\w*)\s*$`,
      read on the whitespace-separated words of the row: the last five words
      are the three counts, the use column and the mount path, and a single
      whitespace character separates the use column from the mount path. */
  function DfLine(line: string): (r: Option<DfRow>)
    ensures r.Some? ==> MountToken(r.value.mount) && PercentToken(r.value.use)
  {
    var w := Words(line);
    var n := |w|;
    if StartsWith(line, "/dev") && n >= 6 &&
       CountToken(w[n - 5]) && CountToken(w[n - 4]) && CountToken(w[n - 3]) &&
       PercentToken(w[n - 2]) && MountToken(w[n - 1]) && SingleGapBefore(TrimRight(line), w[n - 1])
    then Some(DfRow(DigitsValue(w[n - 5]), DigitsValue(w[n - 4]), DigitsValue(w[n - 3]), w[n - 2], w[n - 1]))
    else None
  }

  /** The key a mount path is stored under: `root` for `/`, `home` for any
      other path that contains "home", none for the rest. */
  function MountKey(mount: string): Option<string> {
    if mount == "/" then Some("root")
    else if Contains(mount, "home") then Some("home")
    else None
  }

  /** The entry stored for a row: each count of 1K blocks in GB, rounded to
      two decimals, and the use column as it was read. */
  function ToUsage(row: DfRow): (u: Usage)
    ensures u.blocks >= 0.0 && u.used >= 0.0 && u.available >= 0.0
    ensures u.blocks == RoundTo(row.blocks as real / OneGig, 2)
    ensures u.used == RoundTo(row.used as real / OneGig, 2)
    ensures u.available == RoundTo(row.available as real / OneGig, 2)
    ensures u.use == row.use
  {
    Usage(RoundTo(row.blocks as real / OneGig, 2), RoundTo(row.used as real / OneGig, 2),
          RoundTo(row.available as real / OneGig, 2), row.use)
  }

  /** The entry one line stores, with its key. */
  function EntryOf(line: string): Option<(string, Usage)> {
    if !Contains(line, "/dev/") then None
    else
      var row :- DfLine(line);
      var key :- MountKey(row.mount);
      Some((key, ToUsage(row)))
  }

  /** The usage one line stores under `key`. */
  function UsageAt(key: string, line: string): Option<Usage> {
    match EntryOf(line)
    case Some((k, u)) => if k == key then Some(u) else None
    case None => None
  }

  /** One iteration of the loop of `parse_hdd`. */
  function DfStep(table: map<string, Usage>, line: string): map<string, Usage> {
    match EntryOf(line)
    case Some((key, u)) => table[key := u]
    case None => table
  }

  /** The table after the loop has seen `lines`. */
  function ScanDf(lines: seq<string>): map<string, Usage> {
    if |lines| == 0 then map[]
    else DfStep(ScanDf(lines[..|lines| - 1]), lines[|lines| - 1])
  }

  /** `parse_hdd`, with the output of `df` given as its lines. */
  method ParseHdd(lines: seq<string>) returns (table: map<string, Usage>)
    ensures table == ScanDf(lines)
  {
    table := map[];
    var i := 0;
    while i < |lines|
      invariant 0 <= i <= |lines|
      invariant table == ScanDf(lines[..i])
    {
      var line := lines[i];
      assert lines[..i + 1][..i] == lines[..i];
      if Contains(line, "/dev/") {
        var row := DfLine(line);
        if row.Some? {
          var key := MountKey(row.value.mount);
          if key.Some? {
            table := table[key.value := ToUsage(row.value)];
          }
        }
      }
      i := i + 1;
    }
    assert lines[..|lines|] == lines;
  }

  /** Only `/` maps to root, and only a path containing "home" (other than `/`) maps to home. */
  lemma MountKeys(mount: string)
    ensures MountKey(mount) == Some("root") <==> mount == "/"
    ensures MountKey(mount) == Some("home") <==> mount != "/" && Contains(mount, "home")
    ensures MountKey(mount).None? <==> mount != "/" && !Contains(mount, "home")
  {
  }

  /** The table holds only the keys root and home, and each key holds the
      entry of the last row that maps to it. */
  lemma {:induction false} ScanDfLastWins(lines: seq<string>, key: string)
    ensures ScanDf(lines).Keys <= {"root", "home"}
    ensures (if key in ScanDf(lines) then Some(ScanDf(lines)[key]) else None) ==
            LastMatch(lines, line => UsageAt(key, line))
  {
    if |lines| > 0 {
      var init := lines[..|lines| - 1];
      ScanDfLastWins(init, key);
      var line := lines[|lines| - 1];
      match EntryOf(line)
      case Some((k, u)) =>
        assert MountKey(DfLine(line).value.mount) == Some(k);
      case None =>
    }
  }

  /** The colours of `get_hdd_status`. The danger test sits in the `elif` of
      a warn test that it implies, so it never fires: the block is warn
      exactly when less than 5 GB or less than 30 % is available. */
  function HddColors(available: real, percentage: real): (c: Colors)
    ensures c != Pair(Danger)
    ensures c == Pair(Warn) <==> available < 5.0 || percentage < 30.0
    ensures c == Pair(Normal) <==> !(available < 5.0 || percentage < 30.0)
    ensures available < 3.0 || percentage < 10.0 ==> c == Pair(Warn)
  {
    if available < 5.0 || percentage < 30.0 then Pair(Warn)
    else if available < 3.0 || percentage < 10.0 then Pair(Danger)
    else Pair(Normal)
  }

  /** `round(available / blocks * 100, 0)`: the whole number nearest to the
      available share, a half percent rounded away from zero. */
  function AvailablePercentage(u: Usage): (p: real)
    requires u.blocks != 0.0
    ensures OnGrid(p, 1.0)
    ensures -0.5 <= p - u.available / u.blocks * 100.0 <= 0.5
    ensures u.available / u.blocks * 100.0 >= 0.0 ==> -0.5 < p - u.available / u.blocks * 100.0
    ensures u.available / u.blocks * 100.0 < 0.0 ==> p - u.available / u.blocks * 100.0 < 0.5
  {
    var p := RoundTo(u.available / u.blocks * 100.0, 0);
    assert Scale(0) == 1.0;
    p
  }

  /** A half percent rounds up: 59 GB available of 200 GB is 29.5 %, shown
      as 30 %, which is not warn. */
  lemma HalfPercentRoundsUp()
    ensures AvailablePercentage(Usage(200.0, 141.0, 59.0, "71%")) == 30.0
    ensures HddColors(59.0, AvailablePercentage(Usage(200.0, 141.0, 59.0, "71%"))) == Pair(Normal)
  {
    var u := Usage(200.0, 141.0, 59.0, "71%");
    var p := AvailablePercentage(u);
    assert u.available / u.blocks * 100.0 == 29.5;
    assert 29.0 < p <= 30.0;
    assert p.Floor as real == p;
    assert p.Floor == 30;
  }

  /** The block `get_hdd_status` builds for a mount with a non-zero size. */
  function HddBlock(dir: string, u: Usage): (b: Block)
    requires u.blocks != 0.0
    ensures b.name == dir + "_hhd"
    ensures b.colors == HddColors(u.available, AvailablePercentage(u))
    ensures b.fullText == [Str(" /" + dir + " "), Float(u.available), Str("Gb "), Float(AvailablePercentage(u)), Str("% ")]
    ensures b.shortText == [Str("/" + dir + " "), Float(u.available), Str("Gb ")]
  {
    var percentage := AvailablePercentage(u);
    Block(dir + "_hhd",
          [Str(" /" + dir + " "), Float(u.available), Str("Gb "), Float(percentage), Str("% ")],
          [Str("/" + dir + " "), Float(u.available), Str("Gb ")],
          HddColors(u.available, percentage), true)
  }

  /** `get_hdd_status` for the mount stored under `dir`: a missing mount and
      a mount of size zero raise. */
  function HddStatus(dir: string, table: map<string, Usage>): (r: Result<Block>)
    ensures dir !in table ==> r == Err(KeyError)
    ensures dir in table && table[dir].blocks == 0.0 ==> r == Err(ZeroDivisionError)
    ensures dir in table && table[dir].blocks != 0.0 ==> r == Ok(HddBlock(dir, table[dir]))
  {
    if dir !in table then Err(KeyError)
    else if table[dir].blocks == 0.0 then Err(ZeroDivisionError)
    else Ok(HddBlock(dir, table[dir]))
  }

  /** The two disk blocks are named after their mount points. */
  lemma HddNames(table: map<string, Usage>)
    ensures HddStatus("home", table).Ok? ==> HddStatus("home", table).value.name == "home_hhd"
    ensures HddStatus("root", table).Ok? ==> HddStatus("root", table).value.name == "root_hhd"
  {
    assert "home" + "_hhd" == "home_hhd";
    assert "root" + "_hhd" == "root_hhd";
  }
}
