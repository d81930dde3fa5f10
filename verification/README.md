# status.py — a verified model of the status-bar feeder

`status.py` feeds an i3-style status bar. Once a second it runs a handful of
system commands (`xset`, `ifconfig`, `df`, `free`, `sensors`, `upower`), scans
their output line by line into dictionaries, classifies each reading into a
colour pair (normal, set, warn, danger) and a full and short text, and prints
the eleven resulting blocks as one JSON array.

This project models that pipeline in Dafny, one module per concern:

- `Wrappers`: `Option`, `Result` and the Python exceptions a cycle can raise (`Fault`).
- `Strings`: the scanning helpers the recognisers share, and the text of numbers.
  - The scanning helpers are whitespace and digit runs, literals and `in`.
  - The text of numbers covers `str(n)`, `%02d`, `float()` and `.replace`.
- `Numeric`: `int()`, float `%` and `round` on exact reals.
- `Blocks`: the colour constants, the palette and the status block.
- `Lines`: generic last-match and first-match searches over lines.
- `Sensors`, `Network`, `Disk`, `Memory`, `Battery`: each parser and its classifier.
  - Every parser loop is a `method` with a `while` loop.
  - Each loop is proved equal to a left fold: `ScanSensors`, `ScanIfconfig`, `ScanDf`, `ScanFree` and `ScanBat`.
  - The fold takes one step per line, as the loop body does.
  - The properties of the parsers are lemmas about these folds.
- `Leds`: the caps and num lock blocks, decoding the LED mask.
- `Clock`: the date and hour blocks.
- `StatusBar`: one pass of the loop of `main`.

The command outputs are parameters: each is the list of its lines, as
`splitlines()` returns it. A Python exception anywhere in a cycle ends the
program, so every operation that can raise returns `Result`, and `Err(fault)`
names the exception. The cycle (`StatusBar.Cycle`) is proved to return the eleven blocks
in `main`'s order exactly when no call raises, and the first fault otherwise.

Floats are exact reals. `round(x, n)` is the nearest multiple of 10^-n with
halves away from zero (Python 2), and `int(x)` truncates toward zero. The
texts that show a float keep it as a `Float` or `Fixed2` piece rather than
spelling its digits.

Some behaviours of `status.py` are easy to miss, and the model reproduces them:

- Several inputs end the program. These are a zero `Swap` total, a missing
  `energy-rate:` line, an unmatched battery `state` line and a missing
  sensors entry (`Memory.ZeroSwapFails`, `Battery.MissingRateFails`, `Battery.BattStatus`,
  `Sensors.CpuTempStatus`).
- The energy rate is looked up whether or not the battery discharges, so a
  missing rate raises `KeyError`.
- The disk block is never danger, because its danger test sits behind a
  warn test that it implies. 2.9 GB available is warn (`Disk.HddColors`).
- Above the critical temperature both colours of the CPU block are the
  danger background (`Sensors.TempColors`).

## Model

| member | source | states |
|---|---|---|
| Blocks.PairsDistinct | status.py:12-19 | the four colour pairs are pairwise different, so a block's colours name its palette |
| Numeric.Trunc | status.py:314 | `int(x)` truncates toward zero: the floor for x >= 0, and the integer n with x <= n < x + 1 for x < 0 |
| Numeric.RoundTo | status.py:48 | Python 2's `round(x, n)` is a multiple of 10^-n within half a step of x, a half rounded away from zero |
| Sensors.ParseSensors | status.py:21-38 | the loop over the `sensors` lines computes exactly the fold `ScanSensors` of its steps |
| Sensors.ScanSensorsLastWins | status.py:24-37 | the temperature triple is that of the last recognised `Physical` line and the fan text that of the last recognised `fan` line that is not a `Physical` line |
| Memory.ParseMem | status.py:40-49 | the row parse fails exactly when the line matches with a total of 0, and then with ZeroDivisionError; otherwise it yields a row exactly when the line matches |
| Memory.ParseMemRow | status.py:44-48 | a parsed row keeps the three counts of the line, and its free share is the multiple of 0.1 nearest free/total*100, half a tenth rounded up |
| Memory.FreePercentage | status.py:48 | `round(free/total*100, 1)` is non-negative and the multiple of 0.1 nearest the exact share, half a tenth rounded up |
| Memory.HalfTenthRoundsUp | status.py:48 | 49 of 400 is 12.25 %, which rounds to 12.3 % |
| Network.ParseIfconfig | status.py:51-74 | the loop over the `ifconfig` lines computes exactly the fold `ScanIfconfig`, the `status` flag carried from line to line |
| Network.IfaceUpIff | status.py:53-60 | `status` is true exactly when some flags line lists RUNNING; without one nothing at all is recorded |
| Network.IfaceIpAfterRunning | status.py:54-66 | the stored address is the last `inet` address after the first RUNNING flags line; earlier `inet` lines are ignored, later ones overwrite |
| Network.StepIpWhenUp | status.py:62-66 | once the interface is up, a recognised `inet` line replaces the address and any other line keeps it |
| Network.StepIpWhenDown | status.py:62-66 | while the interface is down, no line stores an address |
| Network.InetAddr | status.py:63-64 | a recognised address is four dot-separated groups of digits, found right after the indentation and `inet ` |
| Network.InetAddrOfLine | status.py:63-66 | an indented line `inet <quad>` followed by nothing or by a character that is neither a digit nor a dot is recognised, with exactly that quad |
| Disk.DfLine | status.py:84-85 | a recognised `df` row has a mount path `/\w*` and a use column `\d+%` |
| Disk.ToUsage | status.py:93-99 | each size is its count of 1K blocks in GB rounded to two decimals, hence non-negative, and the use column is kept as read |
| Disk.ParseHdd | status.py:79-102 | the loop over the `df` lines computes exactly the fold `ScanDf` |
| Disk.MountKeys | status.py:87-92 | `/` maps to root, any other path containing "home" to home, every other row is discarded (all three both ways) |
| Disk.ScanDfLastWins | status.py:82-100 | the table holds only root and home, and each key holds the entry of the last row that maps to it |
| Battery.GetValue | status.py:105-109 | a matched value is a non-empty suffix of the line |
| Battery.GetValueOfLine | status.py:106-109 | a line `  key:   value` with a value not starting with whitespace gives back exactly that value |
| Battery.ParseBat | status.py:111-125 | the loop over the `upower` lines returns the fold `ScanBat`, and the first failing `float`/`get_value` ends it with that fault |
| Battery.ScanBatFailed | status.py:114-124 | a failure is final: once a prefix fails, the whole scan fails with the same fault |
| Battery.NoRateLineNoRate | status.py:123-124 | without an `energy-rate:` line the rate is never stored |
| Leds.LedMask | status.py:136-138 | the mask exists exactly when the text, trailing whitespace removed, ends in eight digits, and it is those digits |
| Leds.CapsIsLastDigitOdd | status.py:141 | `int(mask) & 1` is set exactly when the last decimal digit is odd |
| Leds.BinaryDigitsBits | status.py:141-172 | on a mask of zeros and ones the decimal reading gives caps = last digit and num = the digit before it |
| Leds.CapsStatus | status.py:127-156 | a failed command or an unmatched mask gives " CAPS_E "/"CAPS_E" on the danger pair; otherwise " CAPS " on the set pair exactly when bit 1 is set, normal otherwise |
| Leds.NumStatus | status.py:159-181 | no fallback: a failed command raises CalledProcessError and an unmatched mask AttributeError; otherwise " NUM " on the set pair exactly when bit 2 is set |
| Leds.IndicatorsFromBinaryMask | status.py:136-181 | for a 0/1 mask, caps is set iff its 8th digit is 1 and num iff its 7th digit is 1 |
| Network.Device | status.py:199-204 | a name starting with e/E picks enp0s25 and letter E, w/W picks wlp3s0 and W, any other name neither (all both ways) |
| Network.NetStatus | status.py:197-221 | an unknown name raises UnboundLocalError, an up interface without address KeyError; otherwise "X: (ip)" when up and "X: OFF" when down, normal pair, named after the device |
| Network.NetNames | status.py:218 | the wifi and ethernet blocks are named wlp3s0_iface and enp0s25_iface |
| Memory.MemBlock | status.py:232-243 | a missing row raises KeyError; otherwise the text starts with "MM " and the memory segment, and " SW " with the swap segment follows exactly when swap is in use |
| Memory.GetMemStatus | status.py:223-243 | the loop over the `free` lines returns exactly the scan followed by the block, the first failing row parse ending it |
| Memory.ScanFreeFailed | status.py:226-230 | once a row parse fails, the whole scan fails with the same fault |
| Memory.ZeroSwapFails | status.py:229-230 | a `Swap` row with total 0 makes the whole memory block fail |
| Disk.AvailablePercentage | status.py:249 | `round(available/blocks*100, 0)` is the whole number nearest the exact share, a half rounded away from zero |
| Disk.HalfPercentRoundsUp | status.py:249-256 | 59 GB free of 200 GB is 29.5 %, which rounds to 30 % and so is normal, not warn |
| Disk.HddColors | status.py:251-256 | never danger; warn exactly when available < 5 or percentage < 30, normal otherwise; the danger test implies the warn test |
| Disk.HddBlock | status.py:258-265 | the block's name, colours and both texts for a mount of non-zero size |
| Disk.HddStatus | status.py:245-266 | a missing key raises KeyError, zero blocks ZeroDivisionError, otherwise the block of that mount |
| Disk.HddNames | status.py:263 | the two disk blocks are named home_hhd and root_hhd |
| Sensors.TempColors | status.py:270-278 | temp <= high and <= crit is normal, high < temp <= crit is warn, temp > crit is danger background on danger background whatever high is |
| Sensors.CpuTempStatus | status.py:268-288 | a missing temperature or fan raises KeyError; otherwise the block named cpu_temp with the classified colours and both texts |
| Battery.ChargeTime | status.py:295-312 | zero rate gives 0; otherwise time*rate is the energy left when discharging and the energy missing when charging |
| Battery.BattColors | status.py:297-310 | charging is always normal; discharging is danger below 0.5 h, warn on [0.5, 1) h, normal from 1 h |
| Battery.ClockParts | status.py:314-316 | minutes = floor(60t) mod 60 and seconds = floor(3600t) mod 60, both in [0, 60) for any sign; hours = floor(t) for t >= 0 |
| Battery.ClockPartsSeconds | status.py:314-316 | for t >= 0 the three parts are the whole seconds of t: 3600h + 60m + s = floor(3600t) |
| Battery.ClockText | status.py:319 | for 0 <= t < 100 the clock is HH:MM:SS, each field two digits whose value is the hours, minutes and seconds of `ClockParts` |
| Battery.HourAndHalfClock | status.py:314-319 | 1.5 h splits into 1 h 30 min 0 s and reads 01:30:00 |
| Battery.ZeroClock | status.py:314-319 | a time of zero reads 00:00:00 |
| Battery.BattBlock | status.py:292-326 | the block's name, classified colours, full text (status word, percentage rounded to two decimals, clock) and short text (status letter, truncated percentage, hours and minutes) |
| Battery.NinetyThreePercent | status.py:292-320 | 46.5 of 50 Wh at capacity 100 is 93 %, shown as 93.00 and as 93 |
| Battery.DischargingExample | status.py:292-326 | discharging 46.5 of 50 Wh at 31 W gives " BAT 93.00% 01:30:00 " and " B 93% 01:30 " on the normal pair |
| Battery.BattStatus | status.py:290-326 | the lookups fail in source order with the exception each raises: KeyError for energy, full energy, capacity, state and rate, ZeroDivisionError for a zero full energy, TypeError for a stored `None` state; otherwise the block |
| Battery.MissingRateFails | status.py:300-311 | a dump without an `energy-rate:` line never yields a battery block, charging or not |
| Battery.ZeroRateDischargingIsDanger | status.py:295-307 | discharging at rate 0 is danger with the clock 00:00:00 |
| Battery.HalfHourIsWarn | status.py:301-307 | 10 Wh at 20 W is exactly 0.5 h, which is warn, while 0.499999 h is danger |
| Clock.DateStatus | status.py:328-341 | " Mon D, YYYY " and " D/M/YY " on the normal pair, named date |
| Clock.ShortDateYear | status.py:330 | for a four-digit year `str(year)[2:]` is the two-digit year modulo 100 |
| Clock.Hour12 | status.py:344 | `%I` lies in 1..12 and agrees with the hour modulo 12 |
| Clock.Meridiem | status.py:344 | `%p` is AM exactly before noon and PM from noon |
| Clock.HourStatus | status.py:343-355 | " hh:mm:ss AM " and " HH:MM " on the normal pair, named hour |
| Clock.HourTextWidths | status.py:344-345 | the hour texts are always 13 and 7 characters wide |
| StatusBar.CollectUpToSpec | status.py:365-376 | appending the calls in turn yields every call's value in order exactly when none raises, and otherwise the fault of the first call that raises |
| StatusBar.CollectFailed | status.py:366-376 | the calls after one that raises change nothing |
| StatusBar.Cycle | status.py:363-376 | one cycle, running the parsers and classifiers as `main` does, returns exactly the collected blocks or the first fault |
| StatusBar.CallsWellNamed | status.py:366-376 | every call of a cycle that returns names its block after its slot |
| StatusBar.CollectedInOrder | status.py:365-376 | a completed list has eleven blocks in slot order, the caps block first and the two disk blocks fifth and sixth |
| StatusBar.CycleOrder | status.py:363-376 | a completed cycle emits caps, num, wifi, ethernet, home, root, memory, cpu, battery, date, hour, both disk blocks read from the one `df` table |
| StatusBar.CycleCompletes | status.py:366-376 | a cycle completes exactly when num, both network, both disk, memory, cpu and battery calls return; caps, date and hour never raise |

## Left out

- The shell commands (`subprocess.check_output`) are not run. Their output, split into lines, is a parameter of each parser.
- The `xset` command can fail. Its output is an `Option`, and `None` stands for the failure. The other commands are assumed to succeed.
- The loop of `main` is not modelled beyond one cycle. The protocol header lines, `print`, `json.dumps` and `time.sleep` are I/O.
- `datetime.now()` is a parameter. `calendar.month_abbr` is a parameter too: its thirteen entries, the first one empty.
- `strftime` is modelled in the C locale. Other locales' `%p` texts are not modelled.
- Binary floating point is not modelled. Every quantity is the exact real, and `round` rounds that real.
- The decimal digits of a float in a text (`str()` and `%0.2f`) are not spelled out. The text holds a `Float` or `Fixed2` piece with the value.
- Strings.ParseFloat: Python's `float()` also accepts exponents, `inf` and `nan`; these are not modelled.
- Sensors.ThermalLine: the regular expression's backtracking over `.*` is simplified. The recogniser reads the fields in order, taking the first `:`, `(high` and `,` where the pattern may take a later one. It does not require whitespace before `(high`.
- Sensors.Celsius: reads a temperature only with a `.` between its digit groups. The pattern's `.` matches any character, so a temperature such as `+45,0°C` matches, `float` raises ValueError and the program ends. The model treats that line as unrecognised, and the scan goes on.
- Network.InetAddr: the recogniser takes the longest run of digits and dots after `inet ` and requires it to be a dotted quad. The pattern's `.` matches any character and its groups backtrack, so it also accepts other separators, and it captures `1.2.3.4` out of `1.2.3.4.5`.
- Network.PacketsLine: simplified in the same way, taking the last parenthesised group. The packet counters are recorded but no block shows them.
- Disk.DfLine: the row is read on its whitespace-separated words, and no contract is stated on the word split itself.
- Sensors.FanLine and Sensors.ThermalLine state no contract of their own. Their effect is stated by `ScanSensorsLastWins`.
- The `is '/'` test at status.py:87 is an identity test, which holds for the one-character string only through CPython interning. It is modelled as string equality.
- Lines are assumed to hold no line break, as `splitlines()` guarantees.
- `parse_leds` and `get_scroll_status` are dead code, and the `leds_dict` parameters are unused, so none of them is modelled.
