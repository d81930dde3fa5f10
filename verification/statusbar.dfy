/** One poll cycle of the feeder: the eleven blocks, in their fixed order,
    from one reading of every source. */
module StatusBar {
  import opened Wrappers
  import opened Blocks
  import opened Leds
  import opened Network
  import opened Disk
  import opened Memory
  import opened Sensors
  import opened Battery
  import opened Clock

  /** What the commands of one cycle print, and the time read at its start.
      `xset` runs twice, once per lock block; `df` once for both disks.
      `None` for an `xset` output stands for the command failing. */
  datatype Sources = Sources(
    now: DateTime,
    monthAbbr: seq<string>,
    df: seq<string>,
    capsXset: Option<string>,
    numXset: Option<string>,
    ifconfig: string -> seq<string>,
    free: seq<string>,
    sensors: seq<string>,
    upower: seq<string>)

  predicate ValidSources(src: Sources) {
    Valid(src.now) && |src.monthAbbr| == 13
  }

  /** The block names, in the order the cycle emits them. */
  const SlotNames: seq<string> :=
    ["caps", "num", "wlp3s0_iface", "enp0s25_iface", "home_hhd", "root_hhd",
     "memory", "cpu_temp", "battery", "date", "hour"]

  /** `get_net_status(interface)`: the dump of the device the name selects. */
  function NetBlock(src: Sources, interface: string): Result<Block> {
    var device := if Device(interface).Some? then Device(interface).value.0 else interface;
    NetStatus(interface, ScanIfconfig(src.ifconfig(device)))
  }

  /** `get_batt_status`: the scan of the dump, then the block. */
  function BatteryBlock(lines: seq<string>): Result<Block> {
    var bat :- ScanBat(lines);
    BattStatus(bat)
  }

  /** What each call in the loop of `main` returns or raises; the caps,
      date and hour blocks are built without any call that can raise. */
  datatype Calls = Calls(
    caps: Block,
    num: Result<Block>,
    wifi: Result<Block>,
    ethernet: Result<Block>,
    home: Result<Block>,
    root: Result<Block>,
    memory: Result<Block>,
    cpu: Result<Block>,
    battery: Result<Block>,
    date: Block,
    hour: Block)

  /** The calls of one cycle on one reading of every source. */
  function CallsOf(src: Sources): Calls
    requires ValidSources(src)
  {
    var table := ScanDf(src.df);
    Calls(
      CapsStatus(src.capsXset),
      NumStatus(src.numXset),
      NetBlock(src, "wifi"),
      NetBlock(src, "ethernet"),
      HddStatus("home", table),
      HddStatus("root", table),
      MemStatus(src.free),
      CpuTempStatus(ScanSensors(src.sensors)),
      BatteryBlock(src.upower),
      DateStatus(src.now, src.monthAbbr),
      HourStatus(src.now))
  }

  /** The `k`-th call, in the order of `main`. */
  function Part(c: Calls, k: nat): Result<Block>
    requires k < |SlotNames|
  {
    if k == 0 then Ok(c.caps)
    else if k == 1 then c.num
    else if k == 2 then c.wifi
    else if k == 3 then c.ethernet
    else if k == 4 then c.home
    else if k == 5 then c.root
    else if k == 6 then c.memory
    else if k == 7 then c.cpu
    else if k == 8 then c.battery
    else if k == 9 then Ok(c.date)
    else Ok(c.hour)
  }

  /** `status_list.append` of the first `n` calls in turn: the list of their
      values, or the fault of the first call that raises, which ends the program. */
  function CollectUpTo(c: Calls, n: nat): Result<seq<Block>>
    requires n <= |SlotNames|
  {
    if n == 0 then Ok([])
    else
      match CollectUpTo(c, n - 1)
      case Err(f) => Err(f)
      case Ok(blocks) =>
        match Part(c, n - 1)
        case Err(f) => Err(f)
        case Ok(b) => Ok(blocks + [b])
  }

  /** The list holds the value of each call exactly when none raised; otherwise
      the fault is that of the first call that raised. */
  lemma {:induction false} CollectUpToSpec(c: Calls, n: nat)
    requires n <= |SlotNames|
    ensures CollectUpTo(c, n).Ok? <==> forall i :: 0 <= i < n ==> Part(c, i).Ok?
    ensures CollectUpTo(c, n).Ok? ==>
      |CollectUpTo(c, n).value| == n &&
      forall i :: 0 <= i < n ==> CollectUpTo(c, n).value[i] == Part(c, i).value
    ensures CollectUpTo(c, n).Err? ==>
      exists i :: 0 <= i < n && Part(c, i) == Err(CollectUpTo(c, n).fault) &&
        forall j :: 0 <= j < i ==> Part(c, j).Ok?
  {
    if n > 0 {
      CollectUpToSpec(c, n - 1);
    }
  }

  /** Once a call raises, the calls after it change nothing. */
  lemma {:induction false} CollectFailed(c: Calls, n: nat, m: nat)
    requires n <= m <= |SlotNames| && CollectUpTo(c, n).Err?
    ensures CollectUpTo(c, m) == CollectUpTo(c, n)
    decreases m - n
  {
    if n < m {
      CollectFailed(c, n, m - 1);
    }
  }

  /** The body of the loop of `main`. */
  function CycleBlocks(src: Sources): Result<seq<Block>>
    requires ValidSources(src)
  {
    CollectUpTo(CallsOf(src), |SlotNames|)
  }

  /** One cycle, running the parsers and classifiers as `main` does. */
  method Cycle(src: Sources) returns (r: Result<seq<Block>>)
    requires ValidSources(src)
    ensures r == CycleBlocks(src)
  {
    ghost var c := CallsOf(src);
    var table := ParseHdd(src.df);
    var status: seq<Block> := [];

    var caps := CapsStatus(src.capsXset);
    assert Part(c, 0) == Ok(caps);
    status := status + [caps];
    assert CollectUpTo(c, 1) == Ok(status);

    var num := NumStatus(src.numXset);
    assert Part(c, 1) == num;
    if num.Err? { CollectFailed(c, 2, |SlotNames|); return Err(num.fault); }
    status := status + [num.value];
    assert CollectUpTo(c, 2) == Ok(status);

    var wifiDump := ParseIfconfig(src.ifconfig("wlp3s0"));
    var wifi := NetStatus("wifi", wifiDump);
    assert Part(c, 2) == wifi;
    if wifi.Err? { CollectFailed(c, 3, |SlotNames|); return Err(wifi.fault); }
    status := status + [wifi.value];
    assert CollectUpTo(c, 3) == Ok(status);

    var ethernetDump := ParseIfconfig(src.ifconfig("enp0s25"));
    var ethernet := NetStatus("ethernet", ethernetDump);
    assert Part(c, 3) == ethernet;
    if ethernet.Err? { CollectFailed(c, 4, |SlotNames|); return Err(ethernet.fault); }
    status := status + [ethernet.value];
    assert CollectUpTo(c, 4) == Ok(status);

    var home := HddStatus("home", table);
    assert Part(c, 4) == home;
    if home.Err? { CollectFailed(c, 5, |SlotNames|); return Err(home.fault); }
    status := status + [home.value];
    assert CollectUpTo(c, 5) == Ok(status);

    var root := HddStatus("root", table);
    assert Part(c, 5) == root;
    if root.Err? { CollectFailed(c, 6, |SlotNames|); return Err(root.fault); }
    status := status + [root.value];
    assert CollectUpTo(c, 6) == Ok(status);

    var memory := GetMemStatus(src.free);
    assert Part(c, 6) == memory;
    if memory.Err? { CollectFailed(c, 7, |SlotNames|); return Err(memory.fault); }
    status := status + [memory.value];
    assert CollectUpTo(c, 7) == Ok(status);

    var sensors := ParseSensors(src.sensors);
    var cpu := CpuTempStatus(sensors);
    assert Part(c, 7) == cpu;
    if cpu.Err? { CollectFailed(c, 8, |SlotNames|); return Err(cpu.fault); }
    status := status + [cpu.value];
    assert CollectUpTo(c, 8) == Ok(status);

    var bat := ParseBat(src.upower);
    var battery := if bat.Err? then Err(bat.fault) else BattStatus(bat.value);
    assert Part(c, 8) == battery;
    if battery.Err? { CollectFailed(c, 9, |SlotNames|); return Err(battery.fault); }
    status := status + [battery.value];
    assert CollectUpTo(c, 9) == Ok(status);

    var date := DateStatus(src.now, src.monthAbbr);
    assert Part(c, 9) == Ok(date);
    status := status + [date];
    assert CollectUpTo(c, 10) == Ok(status);

    var hour := HourStatus(src.now);
    assert Part(c, 10) == Ok(hour);
    status := status + [hour];
    assert CollectUpTo(c, 11) == Ok(status);
    r := Ok(status);
  }

  /** A cycle that completes emits eleven blocks, named in the fixed order;
      the two disk blocks read the same `df` table. */
  lemma CycleOrder(src: Sources)
    requires ValidSources(src)
    ensures CycleBlocks(src).Ok? ==>
      var blocks := CycleBlocks(src).value;
      && |blocks| == |SlotNames|
      && (forall i :: 0 <= i < |blocks| ==> blocks[i].name == SlotNames[i])
      && blocks[0] == CapsStatus(src.capsXset)
      && HddStatus("home", ScanDf(src.df)) == Ok(blocks[4])
      && HddStatus("root", ScanDf(src.df)) == Ok(blocks[5])
  {
    CallsWellNamed(src);
    CollectedInOrder(CallsOf(src));
  }

  /** The collected list of well-named calls: eleven blocks in slot order,
      the caps block first and the two disk blocks fifth and sixth. */
  lemma CollectedInOrder(c: Calls)
    requires WellNamed(c)
    ensures CollectUpTo(c, |SlotNames|).Ok? ==>
      var blocks := CollectUpTo(c, |SlotNames|).value;
      && |blocks| == |SlotNames|
      && (forall i :: 0 <= i < |blocks| ==> blocks[i].name == SlotNames[i])
      && blocks[0] == c.caps
      && c.home == Ok(blocks[4])
      && c.root == Ok(blocks[5])
  {
    CollectUpToSpec(c, |SlotNames|);
    if CollectUpTo(c, |SlotNames|).Ok? {
      var blocks := CollectUpTo(c, |SlotNames|).value;
      SlotNamesHold(c);
      forall i | 0 <= i < |blocks| ensures blocks[i].name == SlotNames[i] {
        assert Part(c, i).Ok?;
      }
      assert Part(c, 0).Ok? && Part(c, 4).Ok? && Part(c, 5).Ok?;
    }
  }

  /** Each call that returns gives its block the name of its slot. */
  predicate WellNamed(c: Calls) {
    && c.caps.name == "caps"
    && (c.num.Ok? ==> c.num.value.name == "num")
    && (c.wifi.Ok? ==> c.wifi.value.name == "wlp3s0_iface")
    && (c.ethernet.Ok? ==> c.ethernet.value.name == "enp0s25_iface")
    && (c.home.Ok? ==> c.home.value.name == "home_hhd")
    && (c.root.Ok? ==> c.root.value.name == "root_hhd")
    && (c.memory.Ok? ==> c.memory.value.name == "memory")
    && (c.cpu.Ok? ==> c.cpu.value.name == "cpu_temp")
    && (c.battery.Ok? ==> c.battery.value.name == "battery")
    && c.date.name == "date"
    && c.hour.name == "hour"
  }

  /** The calls of a cycle name their blocks after their slots. */
  lemma CallsWellNamed(src: Sources)
    requires ValidSources(src)
    ensures WellNamed(CallsOf(src))
  {
    var c := CallsOf(src);
    assert Device("wifi") == Some(("wlp3s0", "W"));
    assert Device("ethernet") == Some(("enp0s25", "E"));
    NetNames(ScanIfconfig(src.ifconfig("wlp3s0")), ScanIfconfig(src.ifconfig("enp0s25")));
    HddNames(ScanDf(src.df));
    assert c.battery.Ok? ==> c.battery == BattStatus(ScanBat(src.upower).value);
  }

  /** On well-named calls, every block that is emitted has its slot's name. */
  lemma SlotNamesHold(c: Calls)
    requires WellNamed(c)
    ensures forall i :: 0 <= i < |SlotNames| && Part(c, i).Ok? ==> Part(c, i).value.name == SlotNames[i]
  {
    forall i | 0 <= i < |SlotNames| && Part(c, i).Ok?
      ensures Part(c, i).value.name == SlotNames[i]
    {
      assert i in {0, 1, 2, 3, 4, 5, 6, 7, 8, 9, 10};
    }
  }

  /** A cycle completes exactly when no call raises; the caps, date and hour
      blocks never raise, and each of the others may. */
  lemma CycleCompletes(src: Sources)
    requires ValidSources(src)
    ensures CycleBlocks(src).Ok? <==>
      && NumStatus(src.numXset).Ok?
      && NetBlock(src, "wifi").Ok? && NetBlock(src, "ethernet").Ok?
      && HddStatus("home", ScanDf(src.df)).Ok? && HddStatus("root", ScanDf(src.df)).Ok?
      && MemStatus(src.free).Ok?
      && CpuTempStatus(ScanSensors(src.sensors)).Ok?
      && BatteryBlock(src.upower).Ok?
  {
    var c := CallsOf(src);
    CollectUpToSpec(c, |SlotNames|);
    AllCallsOk(c);
  }

  /** Every call returns exactly when each call that can raise returns. */
  lemma AllCallsOk(c: Calls)
    ensures (forall i :: 0 <= i < |SlotNames| ==> Part(c, i).Ok?) <==>
      c.num.Ok? && c.wifi.Ok? && c.ethernet.Ok? && c.home.Ok? && c.root.Ok? &&
      c.memory.Ok? && c.cpu.Ok? && c.battery.Ok?
  {
    if c.num.Ok? && c.wifi.Ok? && c.ethernet.Ok? && c.home.Ok? && c.root.Ok? &&
       c.memory.Ok? && c.cpu.Ok? && c.battery.Ok? {
      forall i | 0 <= i < |SlotNames| ensures Part(c, i).Ok? {
        assert i in {0, 1, 2, 3, 4, 5, 6, 7, 8, 9, 10};
      }
    } else {
      assert !Part(c, 1).Ok? || !Part(c, 2).Ok? || !Part(c, 3).Ok? || !Part(c, 4).Ok? ||
             !Part(c, 5).Ok? || !Part(c, 6).Ok? || !Part(c, 7).Ok? || !Part(c, 8).Ok?;
    }
  }
}
