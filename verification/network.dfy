/** The wifi and ethernet blocks: the scan of one interface's `ifconfig`
    dump and the label built from it. */
module Network {
  import opened Wrappers
  import opened Strings
  import opened Lines
  import opened Blocks

  /** Packet and byte counters of one direction (`RX` or `TX`), kept as text. */
  datatype Counter = Counter(packets: string, bytes: string)

  /** The dictionary the scan fills: the `status` flag, the address and the counters by direction. */
  datatype IfaceReading = IfaceReading(up: bool, ip: Option<string>, counters: map<string, Counter>)

  const Down := IfaceReading(false, None, map[])

  /** The greatest index `j` with `s[j] == '>'` followed by whitespace. */
  function LastAngleBeforeSpace(s: string): (r: Option<nat>)
    ensures r.Some? ==> r.value + 1 < |s| && s[r.value] == '>' && IsSpace(s[r.value + 1])
  {
    if |s| < 2 then None
    else if s[|s| - 2] == '>' && IsSpace(s[|s| - 1]) then Some(|s| - 2)
    else LastAngleBeforeSpace(s[..|s| - 1])
  }

  /** Recogniser for `^[^\s]*:\s+flags=\d+<(.*)>\s.*$`: the text between the angle brackets. */
  function FlagsList(line: string): Option<string> {
    var k := NonSpaceRun(line);
    if k == 0 || line[k - 1] != ':' then None
    else
      var r1 :- Spaces(line[k..]);
      var r2 :- Lit(r1, "flags=");
      var n :- Number(r2);
      var r3 :- Lit(n.1, "<");
      var j :- LastAngleBeforeSpace(r3);
      Some(r3[..j])
  }

  /** `n` groups of decimal digits separated by single dots. */
  predicate DottedGroups(s: string, n: nat)
    decreases n
  {
    var k := DigitRun(s);
    n > 0 && k > 0 &&
    if n == 1 then k == |s| else k < |s| && s[k] == '.' && DottedGroups(s[k + 1..], n - 1)
  }

  /** Number of leading characters that are digits or dots. */
  function DottedRun(s: string): (n: nat)
    ensures n <= |s|
  {
    if |s| > 0 && (IsDigit(s[0]) || s[0] == '.') then 1 + DottedRun(s[1..]) else 0
  }

  /** Recogniser for `^\s+inet (\d+.\d+.\d+.\d+).*$`, read as a dotted quad:
      the address is the text right after the indentation and `inet `. */
  function InetAddr(line: string): (r: Option<string>)
    ensures r.Some? ==> DottedGroups(r.value, 4)
    ensures r.Some? ==>
      && SpaceRun(line) > 0 && StartsWith(TrimLeft(line), "inet ")
      && 5 + |r.value| <= |TrimLeft(line)| && TrimLeft(line)[5..5 + |r.value|] == r.value
  {
    var r1 :- Spaces(line);
    InetAfterIndent(r1)
  }

  /** The part of the recogniser after the indentation: `inet ` and the quad. */
  function InetAfterIndent(r1: string): (r: Option<string>)
    ensures r.Some? ==>
      && DottedGroups(r.value, 4) && StartsWith(r1, "inet ")
      && 5 + |r.value| <= |r1| && r1[5..5 + |r.value|] == r.value
  {
    var r2 :- Lit(r1, "inet ");
    var k := DottedRun(r2);
    if DottedGroups(r2[..k], 4) then Some(r2[..k]) else None
  }

  /** The usual address line `  inet 192.168.1.5  netmask ...` is recognised,
      and its address is the dotted quad after `inet `. */
  lemma InetAddrOfLine(ws: string, q: string, rest: string)
    requires |ws| > 0 && forall i :: 0 <= i < |ws| ==> IsSpace(ws[i])
    requires DottedGroups(q, 4)
    requires |rest| == 0 || !(IsDigit(rest[0]) || rest[0] == '.')
    ensures InetAddr(ws + "inet " + q + rest) == Some(q)
  {
    var tail := "inet " + q + rest;
    assert ws + "inet " + q + rest == ws + tail;
    assert Spaces(ws + tail) == Some(tail) by {
      SpaceRunOfPrefix(ws, tail);
      assert (ws + tail)[|ws|..] == tail;
    }
    InetAfterIndentOf(q, rest);
  }

  lemma InetAfterIndentOf(q: string, rest: string)
    requires DottedGroups(q, 4)
    requires |rest| == 0 || !(IsDigit(rest[0]) || rest[0] == '.')
    ensures InetAfterIndent("inet " + q + rest) == Some(q)
  {
    var tail := "inet " + q + rest;
    assert Lit(tail, "inet ") == Some(q + rest) by {
      assert tail[..5] == "inet " && tail[5..] == q + rest;
    }
    assert DottedRun(q + rest) == |q| by {
      DottedGroupsChars(q, 4);
      DottedRunOfPrefix(q, rest);
    }
    assert (q + rest)[..|q|] == q;
  }

  /** Every character of dotted groups is a digit or a dot. */
  lemma {:induction false} DottedGroupsChars(s: string, n: nat)
    requires DottedGroups(s, n)
    ensures forall i :: 0 <= i < |s| ==> IsDigit(s[i]) || s[i] == '.'
    decreases n
  {
    var k := DigitRun(s);
    if n > 1 {
      DottedGroupsChars(s[k + 1..], n - 1);
      forall i | k + 1 <= i < |s|
        ensures IsDigit(s[i]) || s[i] == '.'
      {
        assert s[i] == s[k + 1..][i - k - 1];
      }
    }
  }

  /** The run of digits and dots stops where `rest` begins. */
  lemma {:induction false} DottedRunOfPrefix(q: string, rest: string)
    requires forall i :: 0 <= i < |q| ==> IsDigit(q[i]) || q[i] == '.'
    requires |rest| == 0 || !(IsDigit(rest[0]) || rest[0] == '.')
    ensures DottedRun(q + rest) == |q|
  {
    if |q| > 0 {
      assert (q + rest)[1..] == q[1..] + rest;
      DottedRunOfPrefix(q[1..], rest);
    }
  }

  /** The last `(` and the last `)` after it: the text between them. */
  function Parenthesised(s: string): Option<string> {
    var close :- LastIndexOf(s, ')');
    var open :- LastIndexOf(s[..close], '(');
    Some(s[open + 1..close])
  }

  function LastIndexOf(s: string, c: char): (r: Option<nat>)
    ensures r.Some? ==> r.value < |s| && s[r.value] == c
  {
    if |s| == 0 then None
    else if s[|s| - 1] == c then Some(|s| - 1)
    else LastIndexOf(s[..|s| - 1], c)
  }

  /** Recogniser for `^\s+(.X)\s+packets\s+(\d+).*\((\d+.\d\s.*)\).*$`:
      the direction, the packet count and the byte text. */
  function PacketsLine(line: string): Option<(string, Counter)> {
    var r1 :- Spaces(line);
    if |r1| < 2 || r1[1] != 'X' then None
    else
      var r2 :- Spaces(r1[2..]);
      var r3 :- Lit(r2, "packets");
      var r4 :- Spaces(r3);
      var k := DigitRun(r4);
      var bytes :- Parenthesised(r4[k..]);
      if k > 0 && |bytes| > 0 && IsDigit(bytes[0]) then Some((r1[..2], Counter(r4[..k], bytes))) else None
  }

  /** A flags line whose flag list names RUNNING. */
  predicate Running(line: string) {
    Contains(line, "flags") && FlagsList(line).Some? && Contains(FlagsList(line).value, "RUNNING")
  }

  /** The address an `inet` line stores once the interface is up. */
  function InetOf(line: string): Option<string> {
    if Contains(line, "flags") then None
    else if Contains(line, "inet") then InetAddr(line)
    else None
  }

  /** One iteration of the loop of `parse_ifconfig`. */
  function IfaceStep(st: IfaceReading, line: string): IfaceReading {
    if Contains(line, "flags") then
      match FlagsList(line)
      case Some(flags) => if Contains(flags, "RUNNING") then st.(up := true) else st
      case None => st
    else if Contains(line, "inet") && st.up then
      match InetAddr(line)
      case Some(ip) => st.(ip := Some(ip))
      case None => st
    else if Contains(line, "packets") && st.up then
      match PacketsLine(line)
      case Some((dir, c)) => st.(counters := st.counters[dir := c])
      case None => st
    else st
  }

  /** The dictionary after the loop has seen `lines`. */
  function ScanIfconfig(lines: seq<string>): IfaceReading {
    if |lines| == 0 then Down
    else IfaceStep(ScanIfconfig(lines[..|lines| - 1]), lines[|lines| - 1])
  }

  /** `parse_ifconfig`, with the dump of the interface given as its lines. */
  method ParseIfconfig(lines: seq<string>) returns (r: IfaceReading)
    ensures r == ScanIfconfig(lines)
  {
    r := Down;
    var i := 0;
    while i < |lines|
      invariant 0 <= i <= |lines|
      invariant r == ScanIfconfig(lines[..i])
    {
      var line := lines[i];
      assert lines[..i + 1][..i] == lines[..i];
      if Contains(line, "flags") {
        var flags := FlagsList(line);
        if flags.Some? && Contains(flags.value, "RUNNING") {
          r := r.(up := true);
        }
      } else if Contains(line, "inet") && r.up {
        var ip := InetAddr(line);
        if ip.Some? {
          r := r.(ip := ip);
        }
      } else if Contains(line, "packets") && r.up {
        var c := PacketsLine(line);
        if c.Some? {
          r := r.(counters := r.counters[c.value.0 := c.value.1]);
        }
      }
      i := i + 1;
    }
    assert lines[..|lines|] == lines;
  }

  /** The index of the first RUNNING flags line. */
  function FirstRunning(lines: seq<string>): Option<nat> {
    FirstWhere(lines, Running)
  }

  /** The `status` flag is set exactly when some flags line lists RUNNING,
      and without one nothing at all is recorded: an interface that is
      not running shows no address even if its dump lists one. */
  lemma {:induction false} IfaceUpIff(lines: seq<string>)
    ensures ScanIfconfig(lines).up <==> FirstRunning(lines).Some?
    ensures FirstRunning(lines).None? ==> ScanIfconfig(lines) == Down
  {
    if |lines| > 0 {
      IfaceUpIff(lines[..|lines| - 1]);
    }
  }

  /** The address is that of the last `inet` line after the first RUNNING
      flags line; `inet` lines before it are ignored, later ones overwrite. */
  lemma {:induction false} IfaceIpAfterRunning(lines: seq<string>)
    ensures ScanIfconfig(lines).ip == IpAfterRunning(lines)
  {
    if |lines| > 0 {
      IfaceIpAfterRunning(lines[..|lines| - 1]);
      IpStep(lines);
    }
  }

  /** What the ip entry should be: the last address after the first RUNNING line. */
  function IpAfterRunning(lines: seq<string>): Option<string> {
    LastMatchAfterFirst(lines, Running, InetOf)
  }

  /** One more line keeps the ip entry equal to its description. */
  lemma IpStep(lines: seq<string>)
    requires |lines| > 0
    requires ScanIfconfig(lines[..|lines| - 1]).ip == IpAfterRunning(lines[..|lines| - 1])
    ensures ScanIfconfig(lines).ip == IpAfterRunning(lines)
  {
    IfaceUpIff(lines[..|lines| - 1]);
    if FirstRunning(lines[..|lines| - 1]).Some? {
      IpStepWhenUp(lines);
    } else {
      IpStepWhenDown(lines);
    }
  }

  /** Once the interface is up, a line with an address overwrites the entry. */
  lemma IpStepWhenUp(lines: seq<string>)
    requires |lines| > 0
    requires FirstRunning(lines[..|lines| - 1]).Some? && ScanIfconfig(lines[..|lines| - 1]).up
    requires ScanIfconfig(lines[..|lines| - 1]).ip == IpAfterRunning(lines[..|lines| - 1])
    ensures ScanIfconfig(lines).ip == IpAfterRunning(lines)
  {
    ScanIpWhenUp(lines);
    AfterRunningStep(lines);
  }

  /** The scan, once up: the last line's address, if it has one, replaces the entry. */
  lemma ScanIpWhenUp(lines: seq<string>)
    requires |lines| > 0 && ScanIfconfig(lines[..|lines| - 1]).up
    ensures ScanIfconfig(lines).ip ==
      if InetOf(lines[|lines| - 1]).Some? then InetOf(lines[|lines| - 1]) else ScanIfconfig(lines[..|lines| - 1]).ip
  {
    StepIpWhenUp(ScanIfconfig(lines[..|lines| - 1]), lines[|lines| - 1]);
  }

  /** The description, once a RUNNING line has been seen: the same replacement. */
  lemma AfterRunningStep(lines: seq<string>)
    requires |lines| > 0 && FirstRunning(lines[..|lines| - 1]).Some?
    ensures IpAfterRunning(lines) ==
      if InetOf(lines[|lines| - 1]).Some? then InetOf(lines[|lines| - 1]) else IpAfterRunning(lines[..|lines| - 1])
  {
    LastMatchAfterFirstStep(lines, Running, InetOf);
  }

  /** Before the first RUNNING line nothing is stored, and a RUNNING line
      starts an empty run of addresses. */
  lemma IpStepWhenDown(lines: seq<string>)
    requires |lines| > 0
    requires FirstRunning(lines[..|lines| - 1]).None? && ScanIfconfig(lines[..|lines| - 1]) == Down
    ensures ScanIfconfig(lines).ip == IpAfterRunning(lines)
  {
    StepIpWhenDown(lines[|lines| - 1]);
    LastMatchAfterFirstNone(lines, Running, InetOf);
  }

  lemma StepIpWhenUp(st: IfaceReading, line: string)
    requires st.up
    ensures IfaceStep(st, line).ip == if InetOf(line).Some? then InetOf(line) else st.ip
  {
  }

  lemma StepIpWhenDown(line: string)
    ensures IfaceStep(Down, line).ip.None?
  {
  }

  /** `get_net_status`'s choice of device and letter: the first letter of
      the requested name, either case, picks ethernet or wifi. */
  function Device(interface: string): (r: Option<(string, string)>)
    ensures r == Some(("enp0s25", "E")) <==> |interface| > 0 && Lower(interface[0]) == 'e'
    ensures r == Some(("wlp3s0", "W")) <==> |interface| > 0 && Lower(interface[0]) == 'w'
    ensures r.None? <==> |interface| == 0 || Lower(interface[0]) !in {'e', 'w'}
  {
    if |interface| > 0 && Lower(interface[0]) == 'e' then Some(("enp0s25", "E"))
    else if |interface| > 0 && Lower(interface[0]) == 'w' then Some(("wlp3s0", "W"))
    else None
  }

  /** `get_net_status`, given the scan of the chosen device's dump. */
  function NetStatus(interface: string, reading: IfaceReading): (r: Result<Block>)
    ensures Device(interface).None? ==> r == Err(UnboundLocalError)
    ensures Device(interface).Some? && reading.up && reading.ip.None? ==> r == Err(KeyError)
    ensures r.Ok? ==>
      var (device, letter) := Device(interface).value;
      && r.value.name == device + "_iface"
      && r.value.colors == Pair(Normal)
      && r.value.fullText == r.value.shortText
      && r.value.fullText == [Str(if reading.up then letter + ": (" + reading.ip.value + ")"
                                  else letter + ": OFF")]
    ensures Device(interface).Some? && (!reading.up || reading.ip.Some?) ==> r.Ok?
  {
    match Device(interface)
    case None => Err(UnboundLocalError)
    case Some((device, letter)) =>
      if reading.up && reading.ip.None? then Err(KeyError)
      else
        var text := if reading.up then letter + ": (" + reading.ip.value + ")" else letter + ": OFF";
        Ok(Plain(device + "_iface", text, Pair(Normal)))
  }

  /** The two requested interfaces name their blocks after their devices. */
  lemma NetNames(wifi: IfaceReading, ethernet: IfaceReading)
    ensures NetStatus("wifi", wifi).Ok? ==> NetStatus("wifi", wifi).value.name == "wlp3s0_iface"
    ensures NetStatus("ethernet", ethernet).Ok? ==> NetStatus("ethernet", ethernet).value.name == "enp0s25_iface"
  {
    assert Device("wifi") == Some(("wlp3s0", "W"));
    assert Device("ethernet") == Some(("enp0s25", "E"));
    assert "wlp3s0" + "_iface" == "wlp3s0_iface";
    assert "enp0s25" + "_iface" == "enp0s25_iface";
  }
}
