/**
  The footer's two counters: the `SystemStatus` latency readout, a clamped random
  walk ticking every 2 s, and the `ArchitectSeal`, whose text decrypts half a
  character per 30 ms tick while hovered. Random draws are inputs.
 */
module Footer {
  import opened Scramble

  const LatencyStart: int := 24
  const LatencyMin: int := 12
  const LatencyMax: int := 45

  /** `Math.floor(Math.random() * 5) - 2` */
  function Jitter(r: real): (j: int)
    requires IsDraw(r)
    ensures -2 <= j <= 2
  {
    (r * 5.0).Floor - 2
  }

  /** One latency tick: `max(12, min(45, prev + change))`. */
  function LatencyTick(prev: int, r: real): (next: int)
    requires IsDraw(r)
    ensures LatencyMin <= next <= LatencyMax
    ensures LatencyMin <= prev + Jitter(r) <= LatencyMax ==> next == prev + Jitter(r)
    ensures prev + Jitter(r) < LatencyMin ==> next == LatencyMin
    ensures prev + Jitter(r) > LatencyMax ==> next == LatencyMax
    ensures LatencyMin <= prev <= LatencyMax ==> -2 <= next - prev <= 2
  {
    var moved := prev + Jitter(r);
    if moved < LatencyMin then LatencyMin else if moved > LatencyMax then LatencyMax else moved
  }

  /** The readings a run of ticks produces, the starting value first. */
  function Readings(start: int, draws: seq<real>): (r: seq<int>)
    requires forall j :: 0 <= j < |draws| ==> IsDraw(draws[j])
    ensures |r| == |draws| + 1 && r[0] == start
    ensures forall i :: 0 <= i < |draws| ==> r[i + 1] == LatencyTick(r[i], draws[i])
    decreases |draws|
  {
    if draws == [] then [start] else [start] + Readings(LatencyTick(start, draws[0]), draws[1..])
  }

  /** From any in-range start, every reading lies in 12..45 and consecutive readings differ by at most 2. */
  lemma {:induction false} ReadingsStayInRange(start: int, draws: seq<real>)
    requires LatencyMin <= start <= LatencyMax
    requires forall j :: 0 <= j < |draws| ==> IsDraw(draws[j])
    ensures forall i :: 0 <= i < |Readings(start, draws)| ==> LatencyMin <= Readings(start, draws)[i] <= LatencyMax
    ensures forall i :: 0 < i < |Readings(start, draws)| ==>
      -2 <= Readings(start, draws)[i] - Readings(start, draws)[i - 1] <= 2
    decreases |draws|
  {
    if draws != [] {
      var next := LatencyTick(start, draws[0]);
      ReadingsStayInRange(next, draws[1..]);
      var rest := Readings(next, draws[1..]);
      assert Readings(start, draws) == [start] + rest;
    }
  }

  /** The readout as mounted, 24 ms, and every reading after it stays in 12..45. */
  lemma ReadoutFromMount(draws: seq<real>)
    requires forall j :: 0 <= j < |draws| ==> IsDraw(draws[j])
    ensures Readings(LatencyStart, draws)[0] == 24
    ensures forall i :: 0 <= i < |Readings(LatencyStart, draws)| ==>
      LatencyMin <= Readings(LatencyStart, draws)[i] <= LatencyMax
  {
    ReadingsStayInRange(LatencyStart, draws);
  }

  const SealText: string := "DESIGNED & ENGINEERED BY LAKSHIT SONI"

  /**
    The seal's state: hover flag, displayed text, the decrypt position counted in
    half characters (`iteration` is `halfSteps / 2`), and whether the interval runs.
   */
  datatype Seal = Seal(hovered: bool, display: string, halfSteps: nat, running: bool)

  const SealIdle: Seal := Seal(false, SealText, 0, false)

  /**
    One hovered frame: positions below `iteration` show the original character,
    every other position a random glyph; spaces are not kept.
   */
  function SealFrame(prev: string, halfSteps: nat, draws: seq<real>): (r: string)
    requires |prev| == |SealText| && AreDraws(draws, |prev|)
    ensures |r| == |prev|
    ensures forall i :: 0 <= i < |r| && 2 * i < halfSteps ==> r[i] == SealText[i]
    ensures forall i :: 0 <= i < |r| && 2 * i >= halfSteps ==> r[i] in Glyphs
  {
    seq(|prev|, i requires 0 <= i < |prev| => if 2 * i < halfSteps then SealText[i] else Pick(draws[i]))
  }

  /** Unlike the headline effect, a space not yet reached is scrambled like any other position. */
  lemma SealScramblesSpaces()
    ensures SealText[8] == ' '
    ensures AreDraws(seq(|SealText|, _ => 0.0), |SealText|)
    ensures SealFrame(SealText, 0, seq(|SealText|, _ => 0.0))[8] == 'A'
  {
    var zeros := seq(|SealText|, _ => 0.0);
    assert zeros[8] == 0.0;
    assert GlyphIndex(0.0) == 0;
    assert Glyphs[0] == 'A';
  }

  /** The pointer enters: a new decrypt run starts from iteration 0. */
  function HoverStart(s: Seal): (r: Seal)
    ensures !s.hovered ==> r.hovered && r.running && r.halfSteps == 0 && r.display == s.display
    ensures s.hovered ==> r == s
  {
    if s.hovered then s else Seal(true, s.display, 0, true)
  }

  /** The pointer leaves: the interval is cleared and the original text shown. */
  function HoverEnd(s: Seal): (r: Seal)
    ensures s.hovered ==> !r.hovered && !r.running && r.display == SealText
    ensures !s.hovered ==> r == s
  {
    if !s.hovered then s else Seal(false, SealText, 0, false)
  }

  /**
    One interval tick: redraw with the current iteration, clear the interval if
    the iteration has reached the text's length, then advance by half a character.
   */
  function SealTick(s: Seal, draws: seq<real>): (r: Seal)
    requires |s.display| == |SealText| && AreDraws(draws, |SealText|)
    ensures !s.running ==> r == s
    ensures s.running ==> r.halfSteps == s.halfSteps + 1
    ensures s.running ==> (r.running <==> s.halfSteps < 2 * |SealText|)
    ensures s.running && s.halfSteps >= 2 * |SealText| ==> r.display == SealText
    ensures s.running ==> r.hovered == s.hovered
    ensures s.running && s.halfSteps < 2 * |SealText| ==> r.display == SealFrame(s.display, s.halfSteps, draws)
  {
    if !s.running then s
    else
      var frame := SealFrame(s.display, s.halfSteps, draws);
      assert s.halfSteps >= 2 * |SealText| ==> frame == SealText;
      Seal(s.hovered, frame, s.halfSteps + 1, s.halfSteps < 2 * |SealText|)
  }

  datatype SealEvent = Enter | Leave | Interval(draws: seq<real>)

  predicate SealEventOk(e: SealEvent) {
    e.Interval? ==> AreDraws(e.draws, |SealText|)
  }

  /** What holds of the seal between events. */
  predicate SealOk(s: Seal) {
    && |s.display| == |SealText|
    && (!s.hovered ==> s.display == SealText && !s.running)
    && (s.running ==> s.halfSteps <= 2 * |SealText|)
    && (s.hovered && !s.running ==> s.display == SealText)
    && (forall i :: 0 <= i < |SealText| && 2 * i + 1 < s.halfSteps ==> s.display[i] == SealText[i])
  }

  function SealStep(s: Seal, e: SealEvent): Seal
    requires SealOk(s) && SealEventOk(e)
  {
    match e
    case Enter => HoverStart(s)
    case Leave => HoverEnd(s)
    case Interval(d) => SealTick(s, d)
  }

  lemma SealStepKeepsOk(s: Seal, e: SealEvent)
    requires SealOk(s) && SealEventOk(e)
    ensures SealOk(SealStep(s, e))
  {
  }

  function SealRun(s: Seal, events: seq<SealEvent>): Seal
    requires SealOk(s)
    requires forall j :: 0 <= j < |events| ==> SealEventOk(events[j])
    decreases |events|
  {
    if events == [] then s
    else
      SealStepKeepsOk(s, events[0]);
      SealRun(SealStep(s, events[0]), events[1..])
  }

  /** Whatever the pointer and the timer do, the seal shows the original text whenever it is not hovered. */
  lemma {:induction false} UnhoveredShowsOriginal(s: Seal, events: seq<SealEvent>)
    requires SealOk(s)
    requires forall j :: 0 <= j < |events| ==> SealEventOk(events[j])
    ensures SealOk(SealRun(s, events))
    ensures !SealRun(s, events).hovered ==> SealRun(s, events).display == SealText
    decreases |events|
  {
    if events != [] {
      SealStepKeepsOk(s, events[0]);
      UnhoveredShowsOriginal(SealStep(s, events[0]), events[1..]);
    }
  }

  /** Held hovered, the seal is fully decrypted and its interval cleared after at most 2 * 37 + 1 ticks. */
  lemma {:induction false} HoverDecrypts(s: Seal, ticks: seq<seq<real>>)
    requires SealOk(s) && s.hovered
    requires forall j :: 0 <= j < |ticks| ==> AreDraws(ticks[j], |SealText|)
    requires s.running ==> s.halfSteps + |ticks| > 2 * |SealText|
    ensures var events := seq(|ticks|, j requires 0 <= j < |ticks| => Interval(ticks[j]));
            SealRun(s, events).display == SealText && !SealRun(s, events).running
    decreases |ticks|
  {
    var events := seq(|ticks|, j requires 0 <= j < |ticks| => Interval(ticks[j]));
    if ticks != [] {
      var next := SealStep(s, events[0]);
      SealStepKeepsOk(s, events[0]);
      HoverDecrypts(next, ticks[1..]);
      var rest := seq(|ticks[1..]|, j requires 0 <= j < |ticks[1..]| => Interval(ticks[1..][j]));
      assert events[1..] == rest;
    }
  }
}
