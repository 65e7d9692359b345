/**
  The boot screen (`BootSequence`): a log window fed one line every 250 ms from a
  fixed list of eight, keeping only the latest six, and a progress bar advanced
  by a random amount every 150 ms. The tick after the bar reaches 100 stops both
  intervals and schedules the completion callback.

  Each interval firing is one event; the random increment is a draw in [0, 1)
  passed in. The JavaScript double `progress` is a `real`.
 */
module Boot {
  import opened Scramble

  const BootLogs: seq<string> := [
    "INITIALIZING_KERNEL...",
    "LOADING_MODULES: [PHYSICS, GFX, AUDIO]...",
    "VERIFYING_INTEGRITY...",
    "ALLOCATING_VRAM...",
    "MOUNTING_FILE_SYSTEM...",
    "ESTABLISHING_SECURE_UPLINK...",
    "DECRYPTING_USER_DATA...",
    "ACCESS_GRANTED."
  ]

  /** The number of lines the window keeps (the in-code comment says five; the code keeps six). */
  const WindowSize: nat := 6

  /** The largest increment of one progress tick, exclusive. */
  const MaxIncrement: real := 15.0

  /**
    The boot screen's state: the bar's value, the log window, the closure's
    `logIndex`, whether each interval still runs, and how many times the
    completion callback has been scheduled.
   */
  datatype Boot = Boot(
    progress: real,
    logs: seq<string>,
    logIndex: nat,
    logRunning: bool,
    progressRunning: bool,
    completions: nat)

  const Start: Boot := Boot(0.0, [], 0, true, true, 0)

  /** `slice(-6)`: the last six elements, or all of them when there are fewer. */
  function Last6(s: seq<string>): (r: seq<string>)
    ensures |r| <= WindowSize
    ensures |s| <= WindowSize ==> r == s
    ensures |s| > WindowSize ==> |r| == WindowSize
    ensures r == s[|s| - |r|..]
  {
    if |s| <= WindowSize then s else s[|s| - WindowSize..]
  }

  /** Trimming before appending one more line leaves the same window as trimming after. */
  lemma Last6Append(s: seq<string>, x: string)
    ensures Last6(Last6(s) + [x]) == Last6(s + [x])
  {
    if |s| > WindowSize {
      var w := s[|s| - WindowSize..];
      assert (w + [x])[1..] == (s + [x])[|s| + 1 - WindowSize..];
    }
  }

  /** The window over the first `i + 1` lines is the window over the first `i` with line `i` appended. */
  lemma WindowGrows(lines: seq<string>, i: nat)
    requires i < |lines|
    ensures Last6(Last6(lines[..i]) + [lines[i]]) == Last6(lines[..i + 1])
  {
    Last6Append(lines[..i], lines[i]);
    assert lines[..i] + [lines[i]] == lines[..i + 1];
  }

  /** One firing of the log interval: append the next boot line, if any is left, and keep the latest six. */
  function LogTick(b: Boot): (r: Boot)
    ensures !b.logRunning || b.logIndex >= |BootLogs| ==> r == b
    ensures b.logRunning && b.logIndex < |BootLogs| ==>
      && r.logs == Last6(b.logs + [BootLogs[b.logIndex]])
      && r.logIndex == b.logIndex + 1
      && r.(logs := b.logs, logIndex := b.logIndex) == b
    ensures |r.logs| <= WindowSize || r.logs == b.logs
  {
    if b.logRunning && b.logIndex < |BootLogs| then
      b.(logs := Last6(b.logs + [BootLogs[b.logIndex]]), logIndex := b.logIndex + 1)
    else b
  }

  /** `Math.min(a, b)` on reals. */
  function Min(a: real, b: real): (m: real)
    ensures m <= a && m <= b && (m == a || m == b)
  {
    if a <= b then a else b
  }

  /**
    One firing of the progress interval. At 100 or more: pin to 100, clear both
    intervals and schedule completion. Below: add `r * 15` and cap at 100.
   */
  function ProgressTick(b: Boot, r: real): (n: Boot)
    requires IsDraw(r)
    ensures !b.progressRunning ==> n == b
    ensures b.progressRunning && b.progress >= 100.0 ==>
      && n.progress == 100.0 && !n.progressRunning && !n.logRunning
      && n.completions == b.completions + 1
      && n.logs == b.logs && n.logIndex == b.logIndex
    ensures b.progressRunning && b.progress < 100.0 ==>
      && b.progress <= n.progress <= 100.0
      && n.progress < b.progress + MaxIncrement
      && n.(progress := b.progress) == b
    ensures b.progressRunning && b.progress < 100.0 && b.progress + r * MaxIncrement >= 100.0 ==> n.progress == 100.0
    ensures b.progressRunning && b.progress < 100.0 && b.progress + r * MaxIncrement < 100.0 ==>
      n.progress == b.progress + r * MaxIncrement
  {
    if !b.progressRunning then b
    else if b.progress >= 100.0 then
      b.(progress := 100.0, logRunning := false, progressRunning := false, completions := b.completions + 1)
    else
      b.(progress := Min(b.progress + r * MaxIncrement, 100.0))
  }

  /** The percentage the screen prints: `Math.floor(progress)`. */
  function Percent(b: Boot): int {
    b.progress.Floor
  }

  /** What holds of the boot screen between ticks. */
  predicate BootOk(b: Boot) {
    && 0.0 <= b.progress <= 100.0
    && b.logIndex <= |BootLogs|
    && b.logs == Last6(BootLogs[..b.logIndex])
    && b.completions <= 1
    && (b.progressRunning <==> b.completions == 0)
    && (!b.progressRunning ==> b.progress == 100.0 && !b.logRunning)
  }

  /** The printed percentage of a consistent state lies in 0..100. */
  lemma PercentInRange(b: Boot)
    requires BootOk(b)
    ensures 0 <= Percent(b) <= 100
  {
  }

  datatype BootEvent = LogInterval | ProgressInterval(draw: real)

  predicate EventOk(e: BootEvent) {
    e.ProgressInterval? ==> IsDraw(e.draw)
  }

  function Step(b: Boot, e: BootEvent): Boot
    requires EventOk(e)
  {
    match e
    case LogInterval => LogTick(b)
    case ProgressInterval(r) => ProgressTick(b, r)
  }

  lemma LogTickKeepsBootOk(b: Boot)
    requires BootOk(b)
    ensures BootOk(LogTick(b)) && LogTick(b).progress == b.progress
  {
    if b.logRunning && b.logIndex < |BootLogs| {
      var i := b.logIndex;
      WindowGrows(BootLogs, i);
      assert LogTick(b) == b.(logs := Last6(Last6(BootLogs[..i]) + [BootLogs[i]]), logIndex := i + 1);
    }
  }

  lemma ProgressTickKeepsBootOk(b: Boot, r: real)
    requires BootOk(b) && IsDraw(r)
    ensures BootOk(ProgressTick(b, r)) && ProgressTick(b, r).progress >= b.progress
  {
  }

  function Run(b: Boot, events: seq<BootEvent>): Boot
    requires forall j :: 0 <= j < |events| ==> EventOk(events[j])
    decreases |events|
  {
    if events == [] then b else Run(Step(b, events[0]), events[1..])
  }

  /**
    From the initial screen, whatever the interleaving of ticks and the draws:
    the window holds the latest at most six of the lines emitted so far, in order;
    the bar never moves back and never passes 100; completion is scheduled at most
    once, and only together with stopping both intervals.
   */
  lemma {:induction false} RunKeepsBootOk(b: Boot, events: seq<BootEvent>)
    requires BootOk(b)
    requires forall j :: 0 <= j < |events| ==> EventOk(events[j])
    ensures BootOk(Run(b, events))
    ensures Run(b, events).progress >= b.progress
    ensures |Run(b, events).logs| <= WindowSize
    decreases |events|
  {
    if events != [] {
      match events[0] {
        case LogInterval => LogTickKeepsBootOk(b);
        case ProgressInterval(r) => ProgressTickKeepsBootOk(b, r);
      }
      RunKeepsBootOk(Step(b, events[0]), events[1..]);
    }
  }

  lemma StartIsBootOk()
    ensures BootOk(Start)
  {
  }

  /** Once all eight lines are out, the window shows the last six of them and log ticks change nothing. */
  lemma AllLinesEmitted(b: Boot)
    requires BootOk(b) && b.logIndex == |BootLogs|
    ensures b.logs == BootLogs[2..]
    ensures LogTick(b) == b
  {
  }
}
