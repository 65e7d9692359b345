/**
  The headline text-scramble effect (`DecryptionText`). The effect starts from a
  fully scrambled frame, then every 50 ms tick k (of 2000 / 50 = 40) shows the
  first floor(k * len / 40) characters of the target and scrambles the rest,
  keeping spaces; at tick 40 it snaps to the target and stops.

  Randomness is an input: each frame receives one `Math.random()` draw per
  position, used only where the position is scrambled.
 */
module Decryption {
  import opened Scramble

  /** 2000 ms of animation at one tick per 50 ms: 40 ticks. */
  const TotalSteps: nat := 40

  /** How many leading characters are solved at tick `k`: `Math.floor(k * len / 40)`. */
  function RevealIndex(k: nat, len: nat): (r: nat)
    ensures k <= TotalSteps ==> r <= len
    ensures k == TotalSteps ==> r == len
  {
    RevealBound(k, len);
    (k * len) / TotalSteps
  }

  /** The solved prefix only grows, never passes the text's end before the last tick, and covers it at the last. */
  lemma RevealIndexProgress(k1: nat, k2: nat, len: nat)
    requires k1 <= k2
    ensures RevealIndex(k1, len) <= RevealIndex(k2, len)
    ensures k2 <= TotalSteps ==> RevealIndex(k2, len) <= len
    ensures RevealIndex(TotalSteps, len) == len
  {
    MulMonotone(k1, k2, len);
    if k2 <= TotalSteps {
      MulMonotone(k2, TotalSteps, len);
    }
  }

  /** The floor of `k * len / 40` stays within `len` up to the last tick and meets it there. */
  lemma RevealBound(k: nat, len: nat)
    ensures k <= TotalSteps ==> (k * len) / TotalSteps <= len
    ensures k == TotalSteps ==> (k * len) / TotalSteps == len
  {
    if k <= TotalSteps {
      MulMonotone(k, TotalSteps, len);
    }
  }

  lemma {:induction false} MulMonotone(a: nat, b: nat, c: nat)
    requires a <= b
    ensures a * c <= b * c
  {
    if c > 0 {
      MulMonotone(a, b, c - 1);
      assert a * c == a * (c - 1) + a;
      assert b * c == b * (c - 1) + b;
    }
  }

  /** The character a position shows: solved, a kept space, or a random glyph. */
  function FrameChar(text: string, solved: nat, draws: seq<real>, i: nat): char
    requires AreDraws(draws, |text|) && i < |text|
  {
    if i < solved then text[i] else if text[i] == ' ' then ' ' else Pick(draws[i])
  }

  /** The frame shown before the first tick: every space kept, every other position a random glyph. */
  function InitialFrame(text: string, draws: seq<real>): (r: string)
    requires AreDraws(draws, |text|)
    ensures |r| == |text|
    ensures forall i :: 0 <= i < |r| ==> (text[i] == ' ' ==> r[i] == ' ') && (text[i] != ' ' ==> r[i] in Glyphs)
  {
    seq(|text|, i requires 0 <= i < |text| => FrameChar(text, 0, draws, i))
  }

  /** The frame of tick `k`: the solved prefix shows the target, the rest keeps spaces and scrambles the others. */
  function Frame(text: string, k: nat, draws: seq<real>): (r: string)
    requires AreDraws(draws, |text|)
    ensures |r| == |text|
    ensures forall i :: 0 <= i < |r| && i < RevealIndex(k, |text|) ==> r[i] == text[i]
    ensures forall i :: 0 <= i < |r| && text[i] == ' ' ==> r[i] == ' '
    ensures forall i :: RevealIndex(k, |text|) <= i < |r| && text[i] != ' ' ==> r[i] in Glyphs
  {
    seq(|text|, i requires 0 <= i < |text| => FrameChar(text, RevealIndex(k, |text|), draws, i))
  }

  /** A later frame agrees with the target on every position an earlier frame had solved. */
  lemma SolvedStaysSolved(text: string, k1: nat, k2: nat, d1: seq<real>, d2: seq<real>)
    requires k1 <= k2
    requires AreDraws(d1, |text|) && AreDraws(d2, |text|)
    ensures forall i :: 0 <= i < RevealIndex(k1, |text|) && i < |text| ==>
      Frame(text, k1, d1)[i] == Frame(text, k2, d2)[i] == text[i]
  {
    RevealIndexProgress(k1, k2, |text|);
  }

  /** The frame of the last tick is the target whatever the draws. */
  lemma LastFrameIsText(text: string, draws: seq<real>)
    requires AreDraws(draws, |text|)
    ensures Frame(text, TotalSteps, draws) == text
  {
    RevealIndexProgress(TotalSteps, TotalSteps, |text|);
  }

  /** The effect's state: ticks elapsed, the displayed string, and whether the interval still runs. */
  datatype Effect = Effect(step: nat, display: string, scrambling: bool)

  /** Mounting, a new text or a toggled replay flag: restart from a fully scrambled frame. */
  function Start(text: string, draws: seq<real>): (e: Effect)
    requires AreDraws(draws, |text|)
    ensures e.step == 0 && e.scrambling && e.display == InitialFrame(text, draws)
  {
    Effect(0, InitialFrame(text, draws), true)
  }

  /** One interval tick; once the interval is cleared no tick arrives, so a stopped effect stays put. */
  function Tick(text: string, e: Effect, draws: seq<real>): (r: Effect)
    requires AreDraws(draws, |text|)
    ensures !e.scrambling ==> r == e
    ensures e.scrambling ==> r.step == e.step + 1
    ensures e.scrambling && e.step + 1 >= TotalSteps ==> r.display == text && !r.scrambling
    ensures e.scrambling && e.step + 1 < TotalSteps ==> r.scrambling && r.display == Frame(text, e.step + 1, draws)
  {
    if !e.scrambling then e
    else
      var k := e.step + 1;
      if k >= TotalSteps then Effect(k, text, false)
      else Effect(k, Frame(text, k, draws), true)
  }

  /** Every draw sequence of a run of ticks fits the text. */
  predicate AllDraws(text: string, ticks: seq<seq<real>>) {
    forall j :: 0 <= j < |ticks| ==> AreDraws(ticks[j], |text|)
  }

  function Animate(text: string, e: Effect, ticks: seq<seq<real>>): Effect
    requires AllDraws(text, ticks)
    decreases |ticks|
  {
    if ticks == [] then e else Animate(text, Tick(text, e, ticks[0]), ticks[1..])
  }

  /** The display has the text's length and a space wherever the text has one. */
  predicate KeepsShape(text: string, display: string) {
    && |display| == |text|
    && forall i :: 0 <= i < |text| && text[i] == ' ' ==> display[i] == ' '
  }

  /** The first `solved` positions of the display show the text. */
  predicate ShowsSolved(text: string, display: string, solved: nat) {
    forall i :: 0 <= i < solved && i < |text| && i < |display| ==> display[i] == text[i]
  }

  /** The interval runs exactly before the last tick, and a stopped effect shows the text. */
  predicate FlagAgrees(text: string, e: Effect) {
    && (e.scrambling <==> e.step < TotalSteps)
    && (!e.scrambling ==> e.display == text)
  }

  /** What holds of the effect between ticks. */
  predicate Consistent(text: string, e: Effect) {
    && KeepsShape(text, e.display)
    && FlagAgrees(text, e)
    && ShowsSolved(text, e.display, RevealIndex(e.step, |text|))
  }

  /** Each frame keeps the shape and shows the prefix solved at its tick. */
  lemma FrameKeepsShape(text: string, k: nat, draws: seq<real>)
    requires AreDraws(draws, |text|)
    ensures KeepsShape(text, Frame(text, k, draws))
    ensures ShowsSolved(text, Frame(text, k, draws), RevealIndex(k, |text|))
  {
  }

  /** A running effect before the last tick that shows its tick's frame is consistent. */
  lemma FrameIsConsistent(text: string, r: Effect, draws: seq<real>)
    requires AreDraws(draws, |text|)
    requires r.scrambling && r.step < TotalSteps && r.display == Frame(text, r.step, draws)
    ensures Consistent(text, r)
  {
    FrameKeepsShape(text, r.step, draws);
  }

  /** A stopped effect at or past the last tick that shows the text is consistent. */
  lemma SettledIsConsistent(text: string, r: Effect)
    requires !r.scrambling && r.step >= TotalSteps && r.display == text
    ensures Consistent(text, r)
  {
  }

  /**
    A tick keeps the effect consistent: before the last tick it shows the next
    frame, at the last it shows the text and stops, and a stopped effect stays.
   */
  lemma TickKeepsConsistent(text: string, e: Effect, draws: seq<real>)
    requires AreDraws(draws, |text|) && Consistent(text, e)
    ensures Consistent(text, Tick(text, e, draws))
  {
    if !e.scrambling {
      assert Tick(text, e, draws) == e;
    } else if e.step + 1 < TotalSteps {
      FrameIsConsistent(text, Tick(text, e, draws), draws);
    } else {
      SettledIsConsistent(text, Tick(text, e, draws));
    }
  }

  /**
    From a fresh start, every frame keeps the text's length and spaces and shows
    the solved prefix; after 40 ticks the display is the text exactly and further
    ticks change nothing.
   */
  lemma {:induction false} AnimationSettles(text: string, e: Effect, ticks: seq<seq<real>>)
    requires AllDraws(text, ticks) && Consistent(text, e)
    ensures Consistent(text, Animate(text, e, ticks))
    ensures e.step + |ticks| >= TotalSteps ==>
      Animate(text, e, ticks).display == text && !Animate(text, e, ticks).scrambling
    decreases |ticks|
  {
    if ticks != [] {
      TickKeepsConsistent(text, e, ticks[0]);
      AnimationSettles(text, Tick(text, e, ticks[0]), ticks[1..]);
    }
  }

  lemma StartIsConsistent(text: string, draws: seq<real>)
    requires AreDraws(draws, |text|)
    ensures Consistent(text, Start(text, draws))
  {
  }
}
