/**
  The scramble alphabet shared by the decryption headline and the footer seal, and
  the way one `Math.random()` draw selects a character from it:
  `CHARS[Math.floor(Math.random() * CHARS.length)]`.
 */
module Scramble {

  /** `CHARS`: the letters, the digits and ten punctuation marks; it holds no space. */
  const Glyphs: string := "ABCDEFGHIJKLMNOPQRSTUVWXYZ" + "0123456789" + "<>/[]{}|;:"

  /** A value `Math.random()` can return. */
  predicate IsDraw(r: real) {
    0.0 <= r < 1.0
  }

  /** One draw per position of an `n`-character string. */
  predicate AreDraws(draws: seq<real>, n: nat) {
    |draws| == n && forall i :: 0 <= i < |draws| ==> IsDraw(draws[i])
  }

  /** The alphabet position a draw selects. */
  function GlyphIndex(r: real): (j: int)
    requires IsDraw(r)
    ensures 0 <= j < |Glyphs|
  {
    assert |Glyphs| == 46;
    (r * 46.0).Floor
  }

  /** The character a draw selects; never a space. */
  function Pick(r: real): (c: char)
    requires IsDraw(r)
    ensures c in Glyphs && c != ' '
  {
    Glyphs[GlyphIndex(r)]
  }

  /** Every character of the alphabet is selected by some draw. */
  lemma PickReachesEveryGlyph(j: nat)
    requires j < |Glyphs|
    ensures IsDraw(j as real / 46.0)
    ensures Pick(j as real / 46.0) == Glyphs[j]
  {
    var r := j as real / 46.0;
    assert r * 46.0 == j as real;
    assert (j as real).Floor == j;
  }
}
