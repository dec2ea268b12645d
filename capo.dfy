/**
  The capo calculator: which fret to clamp the capo on so that chord shapes
  of one key sound in another.
*/
module Capo {

  import opened Arith

  /** The keys both selects offer. */
  const Keys: seq<string> := ["C", "C#", "D", "D#", "E", "F", "F#", "G", "G#", "A", "A#", "B"]

  /** The first position of `x` in `s` at or after `from`, or -1. */
  function IndexFrom(s: seq<string>, x: string, from: nat): (i: int)
    requires from <= |s|
    ensures i == -1 || from <= i < |s|
    ensures i == -1 <==> x !in s[from..]
    ensures i >= 0 ==> s[i] == x && x !in s[from..i]
    decreases |s| - from
  {
    if from == |s| then -1
    else if s[from] == x then from
    else
      var j := IndexFrom(s, x, from + 1);
      assert s[from..] == [s[from]] + s[from + 1..];
      assert j >= 0 ==> s[from..j] == [s[from]] + s[from + 1..j];
      j
  }

  /** `indexOf`: the first position of `x` in `s`, or -1 when it is absent. */
  function IndexOf(s: seq<string>, x: string): (i: int)
    ensures -1 <= i < |s|
    ensures i == -1 <==> x !in s
    ensures i >= 0 ==> s[i] == x && x !in s[..i]
  {
    assert s[0..] == s;
    IndexFrom(s, x, 0)
  }

  /** The gap from `lower` up to `upper` in semitones: the difference of the
      indices, wrapped once into the octave. */
  function Gap(upper: int, lower: int): int
  {
    var gap := upper - lower;
    if gap < 0 then gap + 12 else gap
  }

  /** The capo fret that makes `playShape` shapes sound in `vocalKey`. */
  function CalculateCapo(vocalKey: string, playShape: string): (r: int)
    ensures 0 <= r <= 12
    ensures r == 12 ==> IndexOf(Keys, playShape) == -1
  {
    Gap(IndexOf(Keys, vocalKey), IndexOf(Keys, playShape))
  }

  /** The same computation in the first form the calculator wrote, from an
      original key down to a target key. */
  function GetCapoPosition(originalKey: string, targetKey: string): (capo: int)
    ensures capo == CalculateCapo(originalKey, targetKey)
  {
    var origIndex := IndexOf(Keys, originalKey);
    var targetIndex := IndexOf(Keys, targetKey);
    var diff := origIndex - targetIndex;
    if diff < 0 then diff + 12 else diff
  }

  /** On two pitch classes the wrapped gap is the difference mod 12, on the
      first eleven frets, zero only between equal classes, and it carries
      `lower` up to `upper`. */
  lemma GapSpec(upper: int, lower: int)
    requires 0 <= upper < 12 && 0 <= lower < 12
    ensures Gap(upper, lower) == (upper - lower) % 12
    ensures 0 <= Gap(upper, lower) <= 11
    ensures Gap(upper, lower) == 0 <==> upper == lower
    ensures (lower + Gap(upper, lower)) % 12 == upper
  {
  }

  /** The wrapped gap is the only fret below 12 that carries `lower` up to `upper`. */
  lemma GapUnique(upper: int, lower: int, fret: int)
    requires 0 <= upper < 12 && 0 <= lower < 12 && 0 <= fret < 12
    requires (lower + fret) % 12 == upper
    ensures fret == Gap(upper, lower)
  {
    if lower + fret < 12 {
      ModUnique(lower + fret, 0, lower + fret, 12);
    } else {
      ModUnique(lower + fret, 1, lower + fret - 12, 12);
    }
  }

  /** The wrapped gap between the positions of two entries of a twelve-entry
      list, stated once for any such list. */
  lemma IndexGap(s: seq<string>, upper: string, lower: string)
    requires |s| == 12 && upper in s && lower in s
    ensures var u, l := IndexOf(s, upper), IndexOf(s, lower);
      && Gap(u, l) == (u - l) % 12
      && 0 <= Gap(u, l) <= 11
      && (Gap(u, l) == 0 <==> upper == lower)
      && (l + Gap(u, l)) % 12 == u
  {
    var u, l := IndexOf(s, upper), IndexOf(s, lower);
    GapSpec(u, l);
    if u == l {
      assert upper == s[u] == lower;
    }
  }

  /** For keys the selects offer: the capo is the semitone distance from the
      shape key up to the vocal key, mod 12, on the first eleven frets; it is 0
      exactly when the two keys are the same; and capoing the shape key up by it
      lands on the vocal key. */
  lemma CapoSpec(vocalKey: string, playShape: string)
    requires vocalKey in Keys && playShape in Keys
    ensures var capo, v, p := CalculateCapo(vocalKey, playShape), IndexOf(Keys, vocalKey), IndexOf(Keys, playShape);
      && capo == (v - p) % 12
      && 0 <= capo <= 11
      && (capo == 0 <==> vocalKey == playShape)
      && (p + capo) % 12 == v
  {
    IndexGap(Keys, vocalKey, playShape);
  }

  /** No other fret below 12 moves the shape key onto the vocal key. */
  lemma CapoUnique(vocalKey: string, playShape: string, fret: int)
    requires vocalKey in Keys && playShape in Keys
    requires 0 <= fret < 12 && (IndexOf(Keys, playShape) + fret) % 12 == IndexOf(Keys, vocalKey)
    ensures fret == CalculateCapo(vocalKey, playShape)
  {
    GapUnique(IndexOf(Keys, vocalKey), IndexOf(Keys, playShape), fret);
  }

  /** Swapping the two keys gives the complementary fret: the two capos add up
      to a full octave unless the keys are equal. */
  lemma CapoSwap(a: string, b: string)
    requires a in Keys && b in Keys && a != b
    ensures CalculateCapo(a, b) + CalculateCapo(b, a) == 12
  {
    var ia, ib := IndexOf(Keys, a), IndexOf(Keys, b);
    assert Keys[ia] == a && Keys[ib] == b;
  }

  /** A key outside the list reads as index -1: the answer no longer says how
      far apart the keys are, and with "B" over an unknown shape key it leaves
      the first eleven frets. This is why the inputs must come from the selects. */
  lemma UnknownKeyOutOfRange()
    ensures CalculateCapo("H", "C") == 11
    ensures CalculateCapo("C", "H") == 1
    ensures CalculateCapo("B", "H") == 12
  {
    assert IndexOf(Keys, "C") == 0;
    assert "H" !in Keys;
    assert Keys[11] == "B" && "B" !in Keys[..11];
  }
}
