/** The memory block: the `Mem` and `Swap` rows of `free` and the text
    built from them. */
module Memory {
  import opened Wrappers
  import opened Strings
  import opened Numeric
  import opened Blocks

  /** One recognised row of `free`, in KiB, with the free share in percent
      rounded to one decimal. */
  datatype MemRow = MemRow(total: nat, used: nat, free: nat, freePercentage: real)

  /** The dictionary `get_mem_status` fills: a row that does not match
      stores an empty dictionary, which fails at the later lookup just as a
      missing row does, so both are `None`. */
  datatype FreeTable = FreeTable(mem: Option<MemRow>, swap: Option<MemRow>)

  const NoRows := FreeTable(None, None)

  /** Recogniser for `^\s*Label:\s+(\d+)\s+(\d+)\s+(\d+).*$`: the three counts. */
  function MemFields(line: string, name: string): Option<(nat, nat, nat)> {
    var r0 :- Lit(TrimLeft(line), name + ":");
    var r1 :- Spaces(r0);
    var total :- Number(r1);
    var r2 :- Spaces(total.1);
    var used :- Number(r2);
    var r3 :- Spaces(used.1);
    var free :- Number(r3);
    Some((total.0, used.0, free.0))
  }

  /** `parse_mem`: the row when the line matches, none when it does not,
      and the division by the total fails when the total is zero. */
  function ParseMem(line: string, name: string): (r: Result<Option<MemRow>>)
    ensures r.Err? <==> MemFields(line, name).Some? && MemFields(line, name).value.0 == 0
    ensures r.Err? ==> r.fault == ZeroDivisionError
    ensures r.Ok? ==> (r.value.Some? <==> MemFields(line, name).Some?)
  {
    match MemFields(line, name)
    case None => Ok(None)
    case Some((total, used, free)) =>
      if total == 0 then Err(ZeroDivisionError)
      else
        Ok(Some(MemRow(total, used, free, FreePercentage(free, total))))
  }

  /** A matched row keeps the three counts of the line, and its free share is
      the exact share of the total, rounded to a tenth. */
  lemma ParseMemRow(line: string, name: string)
    requires ParseMem(line, name).Ok? && ParseMem(line, name).value.Some?
    ensures var row := ParseMem(line, name).value.value;
      && (row.total, row.used, row.free) == MemFields(line, name).value
      && row.total > 0
      && OnGrid(row.freePercentage, 10.0)
      && -0.05 < row.freePercentage - row.free as real / row.total as real * 100.0 <= 0.05
  {
  }

  /** `round(free / total * 100, 1)`: the multiple of a tenth nearest to the
      exact share, half a tenth rounded up. */
  function FreePercentage(free: nat, total: nat): (p: real)
    requires total > 0
    ensures p >= 0.0
    ensures OnGrid(p, 10.0)
    ensures -0.05 < p - free as real / total as real * 100.0 <= 0.05
  {
    var x := free as real / total as real * 100.0;
    DivNonneg(free as real, total as real);
    var p := RoundTo(x, 1);
    assert Scale(1) == 10.0;
    assert -0.5 < p * 10.0 - x * 10.0 <= 0.5;
    p
  }

  /** A share ending in half a tenth rounds up: 49 of 400 is 12.25 %, shown as 12.3 %. */
  lemma HalfTenthRoundsUp()
    ensures FreePercentage(49, 400) == 12.3
  {
    var p := FreePercentage(49, 400);
    assert 49 as real / 400 as real * 100.0 == 12.25;
    assert 122.0 < p * 10.0 <= 123.0;
    assert (p * 10.0).Floor as real == p * 10.0;
    assert (p * 10.0).Floor == 123;
  }

  /** One iteration of the loop of `get_mem_status`: a `Mem` line sets the
      memory row, any other `Swap` line the swap row, and a failing
      `parse_mem` ends the program. */
  function FreeStep(st: Result<FreeTable>, line: string): Result<FreeTable> {
    var t :- st;
    if Contains(line, "Mem") then
      var row :- ParseMem(line, "Mem");
      Ok(t.(mem := row))
    else if Contains(line, "Swap") then
      var row :- ParseMem(line, "Swap");
      Ok(t.(swap := row))
    else Ok(t)
  }

  /** The dictionary after the loop has seen `lines`. */
  function ScanFree(lines: seq<string>): Result<FreeTable> {
    if |lines| == 0 then Ok(NoRows)
    else FreeStep(ScanFree(lines[..|lines| - 1]), lines[|lines| - 1])
  }

  /** The free memory in GB, rounded to two decimals, and the free share. */
  function Segment(row: MemRow): Text {
    [Float(RoundTo(row.free as real / 1024.0 / 1024.0, 2)), Str("Gb "), Float(row.freePercentage), Str("%")]
  }

  /** The block `get_mem_status` builds from the table. */
  function MemBlock(t: FreeTable): (r: Result<Block>)
    ensures r.Err? <==> t.mem.None? || t.swap.None?
    ensures r.Err? ==> r.fault == KeyError
    ensures r.Ok? ==>
      && r.value.name == "memory"
      && r.value.colors == Pair(Normal)
      && r.value.fullText == r.value.shortText
      && |r.value.fullText| >= 5
      && r.value.fullText[..5] == [Str("MM ")] + Segment(t.mem.value)
      && (Str(" SW ") in r.value.fullText <==> t.swap.value.used > 0)
      && (t.swap.value.used > 0 ==> r.value.fullText[5..] == [Str(" SW ")] + Segment(t.swap.value))
      && (t.swap.value.used == 0 ==> |r.value.fullText| == 5)
  {
    var mem :- Lookup(t.mem);
    var swap :- Lookup(t.swap);
    var text := [Str("MM ")] + Segment(mem) + if swap.used > 0 then [Str(" SW ")] + Segment(swap) else [];
    Ok(Block("memory", text, text, Pair(Normal), true))
  }

  /** `get_mem_status` on the specification: the scan, then the block. */
  function MemStatus(lines: seq<string>): Result<Block> {
    var t :- ScanFree(lines);
    MemBlock(t)
  }

  /** `get_mem_status`, with the output of `free` given as its lines. */
  method GetMemStatus(lines: seq<string>) returns (r: Result<Block>)
    ensures r == MemStatus(lines)
  {
    var mem: Option<MemRow> := None;
    var swap: Option<MemRow> := None;
    var i := 0;
    while i < |lines|
      invariant 0 <= i <= |lines|
      invariant ScanFree(lines[..i]) == Ok(FreeTable(mem, swap))
    {
      var line := lines[i];
      ScanFreeNext(lines, i);
      if Contains(line, "Mem") {
        var row := ParseMem(line, "Mem");
        if row.Err? {
          ScanFreeFailed(lines, i + 1);
          assert lines[..|lines|] == lines;
          return Err(row.fault);
        }
        mem := row.value;
      } else if Contains(line, "Swap") {
        var row := ParseMem(line, "Swap");
        if row.Err? {
          ScanFreeFailed(lines, i + 1);
          assert lines[..|lines|] == lines;
          return Err(row.fault);
        }
        swap := row.value;
      }
      i := i + 1;
    }
    assert lines[..|lines|] == lines;
    r := MemBlock(FreeTable(mem, swap));
  }

  /** The scan of one more line is one more step. */
  lemma ScanFreeNext(lines: seq<string>, i: nat)
    requires i < |lines|
    ensures ScanFree(lines[..i + 1]) == FreeStep(ScanFree(lines[..i]), lines[i])
  {
    assert lines[..i + 1][..i] == lines[..i];
  }

  /** A failure is final: once a prefix fails, the whole scan fails with the same fault. */
  lemma {:induction false} ScanFreeFailed(lines: seq<string>, i: nat)
    requires i <= |lines| && ScanFree(lines[..i]).Err?
    ensures ScanFree(lines) == ScanFree(lines[..i])
    decreases |lines| - i
  {
    if i < |lines| {
      assert lines[..i + 1][..i] == lines[..i];
      ScanFreeFailed(lines, i + 1);
    } else {
      assert lines[..i] == lines;
    }
  }

  /** A machine whose `Swap` row reports a total of zero gets no memory
      block at all: `parse_mem` divides by the zero total. */
  lemma {:induction false} ZeroSwapFails(lines: seq<string>, j: nat)
    requires j < |lines|
    requires !Contains(lines[j], "Mem") && Contains(lines[j], "Swap")
    requires MemFields(lines[j], "Swap").Some? && MemFields(lines[j], "Swap").value.0 == 0
    ensures ScanFree(lines).Err? && MemStatus(lines).Err?
  {
    var prefix := lines[..j + 1];
    assert prefix[..j] == lines[..j];
    assert ScanFree(prefix).Err?;
    ScanFreeFailed(lines, j + 1);
  }
}
