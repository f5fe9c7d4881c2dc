/**
 * The tables of microtonal.c, its two name lookups, and the arithmetic that
 * turns one bass entry into pitches: the bass offset below the note, its
 * split into a nearest semitone and a remainder, the chord tones built on
 * it, their pitch classes and their pitch-bend words.
 */
module Microtonal {
  import opened Wrappers
  import opened CMath

  /** The twelve note names, sharps spelled out, indexed by pitch class. */
  const ChromaticScale: seq<string> :=
    ["C", "C#", "D", "D#", "E", "F", "F#", "G", "G#", "A", "A#", "B"]

  /** A named just interval. */
  datatype Sruti = Sruti(name: string, numerator: int, denominator: int)

  const SrutiTable: seq<Sruti> := [
    Sruti("sa", 1, 1),
    Sruti("r1", 256, 243),
    Sruti("r2", 16, 15),
    Sruti("r3", 10, 9),
    Sruti("r4", 9, 8),
    Sruti("g1", 32, 27),
    Sruti("g2", 6, 5),
    Sruti("g3", 5, 4),
    Sruti("g4", 81, 64),
    Sruti("m1", 4, 3),
    Sruti("m2", 27, 20),
    Sruti("m3", 45, 32),
    Sruti("m4", 64, 45),
    Sruti("pa", 3, 2),
    Sruti("d1", 128, 81),
    Sruti("d2", 8, 5),
    Sruti("d3", 5, 3),
    Sruti("d4", 27, 16),
    Sruti("n1", 16, 9),
    Sruti("n2", 9, 5),
    Sruti("n3", 15, 8),
    Sruti("n4", 243, 128),
    Sruti("7/4", 7, 4),
    Sruti("7/5", 7, 5),
    Sruti("7/6", 7, 6)
  ]

  /** The names of the table, in table order. */
  function SrutiNames(): seq<string>
  {
    seq(|SrutiTable|, k requires 0 <= k < |SrutiTable| => SrutiTable[k].name)
  }

  /** Every interval of the table is a ratio within one octave, [1, 2), with a positive denominator. */
  lemma SrutiTableWithinOctave()
    ensures forall k :: 0 <= k < |SrutiTable| ==>
      0 < SrutiTable[k].denominator <= SrutiTable[k].numerator < 2 * SrutiTable[k].denominator
  {
  }

  /** The value of an interval, numerator over denominator. */
  function Ratio(s: Sruti): (r: real)
    requires 0 < s.denominator <= s.numerator < 2 * s.denominator
    ensures 1.0 <= r < 2.0
    ensures s.numerator == s.denominator ==> r == 1.0
  {
    var n, d := s.numerator as real, s.denominator as real;
    var r := n / d;
    assert r * d == n;
    PositiveFactor(r - 1.0, d);
    PositiveFactor(2.0 - r, d);
    PositiveFactor(1.0 - r, d);
    r
  }

  /** The first position of `s` in `names`, or None when `s` does not occur. */
  function IndexOf(names: seq<string>, s: string): (r: Option<nat>)
    ensures r.None? <==> s !in names
    ensures r.Some? ==> r.value < |names| && names[r.value] == s && s !in names[..r.value]
  {
    if names == [] then None
    else if names[0] == s then Some(0)
    else match IndexOf(names[1..], s)
      case None => None
      case Some(k) =>
        assert names[1..][..k] == names[1..k + 1];
        Some(k + 1)
  }

  /** A position holding `s` with no `s` before it is the one IndexOf answers. */
  lemma IndexOfFirst(names: seq<string>, s: string, k: nat)
    requires k < |names| && names[k] == s && s !in names[..k]
    ensures IndexOf(names, s) == Some(k)
  {
  }

  /**
   * chromatic_index: a linear search of the twelve names that answers the
   * pitch class of the first name equal to `s`, or -1 when none is.
   */
  method ChromaticIndex(s: string) returns (i: int)
    ensures -1 <= i < |ChromaticScale|
    ensures i == -1 <==> s !in ChromaticScale
    ensures 0 <= i ==> ChromaticScale[i] == s && s !in ChromaticScale[..i]
    ensures IndexOf(ChromaticScale, s) == if i < 0 then None else Some(i)
  {
    for k := 0 to 12
      invariant s !in ChromaticScale[..k]
    {
      if ChromaticScale[k] == s {
        IndexOfFirst(ChromaticScale, s, k);
        return k;
      }
      assert ChromaticScale[..k + 1] == ChromaticScale[..k] + [ChromaticScale[k]];
    }
    return -1;
  }

  /** No two of the twelve names are the same. */
  lemma ChromaticScaleDistinct()
    ensures forall i, j :: 0 <= i < j < |ChromaticScale| ==> ChromaticScale[i] != ChromaticScale[j]
  {
  }

  /** No two intervals of the table share a name. */
  lemma SrutiNamesDistinct()
    ensures forall i, j :: 0 <= i < j < |SrutiNames()| ==> SrutiNames()[i] != SrutiNames()[j]
  {
  }

  /** A name that occurs only at position `k` is found at `k`. */
  lemma {:induction false} IndexOfDistinct(names: seq<string>, k: nat)
    requires k < |names|
    requires forall i, j :: 0 <= i < j < |names| ==> names[i] != names[j]
    ensures IndexOf(names, names[k]) == Some(k)
  {
    assert names[k] !in names[..k] by {
      forall i | 0 <= i < k
        ensures names[..k][i] != names[k]
      {
      }
    }
    IndexOfFirst(names, names[k], k);
  }

  /** Looking up the name of pitch class `k` answers `k`. */
  lemma ChromaticIndexOfName(k: nat)
    requires k < |ChromaticScale|
    ensures IndexOf(ChromaticScale, ChromaticScale[k]) == Some(k)
  {
    ChromaticScaleDistinct();
    IndexOfDistinct(ChromaticScale, k);
  }

  /** Looking up the name of interval `k` finds entry `k`. */
  lemma SrutiIndexOfName(k: nat)
    requires k < |SrutiTable|
    ensures IndexOf(SrutiNames(), SrutiTable[k].name) == Some(k)
  {
    var names := SrutiNames();
    assert names[k] == SrutiTable[k].name;
    SrutiNamesDistinct();
    IndexOfDistinct(names, k);
  }

  /** The unison (sa) is the first interval of the table; the major third (g3) and major seventh (n3) are in it. */
  lemma IntervalsFound()
    ensures IndexOf(SrutiNames(), "sa") == Some(0)
    ensures IndexOf(SrutiNames(), "g3").Some? && IndexOf(SrutiNames(), "n3").Some?
  {
    var names := SrutiNames();
    assert names[0] == "sa";
    IndexOfFirst(names, "sa", 0);
    assert names[7] == "g3";
    assert names[20] == "n3";
  }

  /** The ratio named `s`, for a name the table holds: what sruti_ratio answers on a hit. */
  function RatioOf(s: string): (r: real)
    requires IndexOf(SrutiNames(), s).Some?
    ensures 1.0 <= r < 2.0
  {
    SrutiTableWithinOctave();
    Ratio(SrutiTable[IndexOf(SrutiNames(), s).value])
  }

  /**
   * sruti_ratio: a linear search of the 25 intervals that answers the ratio
   * of the first entry named `s`, or 0.0 when none is. Since every ratio of
   * the table is at least 1, a hit is never mistaken for the miss value.
   */
  method SrutiRatio(s: string) returns (r: real)
    ensures r == 0.0 <==> s !in SrutiNames()
    ensures r != 0.0 ==> 1.0 <= r < 2.0
    ensures IndexOf(SrutiNames(), s).Some? ==> r == RatioOf(s)
  {
    var names := SrutiNames();
    for k := 0 to 25
      invariant s !in names[..k]
    {
      var entry := SrutiTable[k];
      assert names[k] == entry.name;
      if entry.name == s {
        IndexOfFirst(names, s, k);
        SrutiTableWithinOctave();
        assert 0 < entry.denominator <= entry.numerator < 2 * entry.denominator;
        r := Ratio(entry);
        assert r == RatioOf(s);
        return;
      }
      assert names[..k + 1] == names[..k] + [names[k]];
    }
    assert names[..25] == names;
    return 0.0;
  }

  /** An interval as a real number of equal-tempered semitones, 12 * log2(ratio). */
  function Semis(lg: real -> real, ratio: real): real
  {
    12.0 * lg(ratio)
  }

  /** A ratio within one octave spans [0, 12) semitones. */
  lemma SemisWithinOctave(lg: real -> real, ratio: real)
    requires IsLog2(lg)
    requires 1.0 <= ratio < 2.0
    ensures 0.0 <= Semis(lg, ratio) < 12.0
  {
    Log2WithinOctave(lg, ratio);
  }

  /** The bass offset, measured downward from pitch class `base` by the interval `ratio`. */
  function BassSemitones(lg: real -> real, base: int, ratio: real): real
  {
    base as real - Semis(lg, ratio)
  }

  /** A pitch class below by an interval within one octave lies in (-12, 11]. */
  lemma BassSemitonesRange(lg: real -> real, base: int, ratio: real)
    requires IsLog2(lg)
    requires 0 <= base < 12 && 1.0 <= ratio < 2.0
    ensures -12.0 < BassSemitones(lg, base, ratio) <= 11.0
  {
    SemisWithinOctave(lg, ratio);
  }

  /**
   * The split of a real offset into the nearest semitone `root` and the
   * remainder `delta` that a pitch bend supplies.
   */
  datatype Split = Split(root: int, delta: real)

  function SplitSemitones(x: real): (s: Split)
    ensures s.root as real + s.delta == x
    ensures -0.5 <= s.delta <= 0.5
    ensures s.root == Round(x)
  {
    Split(Round(x), x - Round(x) as real)
  }

  /** The pitch class of the root, after the single correction by one octave when root is negative. */
  function RootModulo(root: int): (m: int)
    ensures m % 12 == root % 12
    ensures -12 <= root < 12 ==> 0 <= m < 12
    ensures 0 <= root ==> m == root
  {
    if root < 0 then root + 12 else root
  }

  /**
   * For a note of the chromatic scale and an interval within one octave, the
   * root lies in [-12, 11] and its corrected pitch class indexes the
   * chromatic scale.
   */
  lemma RootIsPitchClass(lg: real -> real, base: int, ratio: real)
    requires IsLog2(lg)
    requires 0 <= base < 12 && 1.0 <= ratio < 2.0
    ensures -12 <= SplitSemitones(BassSemitones(lg, base, ratio)).root <= 11
    ensures 0 <= RootModulo(SplitSemitones(BassSemitones(lg, base, ratio)).root) < |ChromaticScale|
  {
    BassSemitonesRange(lg, base, ratio);
  }

  /**
   * The normalisation of a chord tone as microtonal.c writes it: 12 is
   * subtracted only above 12 and added only below 0, so 12 itself stays.
   */
  function ToneModulo(n: int): (m: int)
    ensures m % 12 == n % 12
    ensures -12 <= n <= 24 ==> 0 <= m <= 12
    ensures 0 <= n <= 12 ==> m == n
    ensures n > 12 ==> m == n - 12
    ensures n < 0 ==> m == n + 12
  {
    if n > 12 then n - 12 else if n < 0 then n + 12 else n
  }

  /**
   * The normalisation that indexing the twelve names needs: the pitch class
   * of any tone, however many octaves it is shifted. It agrees with the
   * single step as written everywhere that step reaches [0, 11].
   */
  function PitchClass(n: int): (m: int)
    ensures 0 <= m < |ChromaticScale|
    ensures m % 12 == n % 12
    ensures -12 <= n < 24 && n != 12 ==> m == ToneModulo(n)
  {
    n % 12
  }

  /** A whole number of octaves has pitch class 0; the single step as written leaves one octave or more at 12 or above. */
  lemma OctaveMultiple(k: int)
    ensures PitchClass(12 * k) == 0
    ensures ToneModulo(12 * k) >= |ChromaticScale| <==> k >= 1
  {
  }

  /**
   * One step of 12 cannot normalise a tone shifted up two octaves or more:
   * as written, such a tone stays at 12 or above.
   */
  lemma ToneModuloAboveOctave(n: int)
    requires n >= 24
    ensures ToneModulo(n) >= |ChromaticScale|
    ensures PitchClass(n) == ToneModulo(n) % 12
  {
  }

  /** A chord tone: its nearest semitone, the remainder, and its normalised value. */
  datatype Tone = Tone(rounded: int, delta: real, modulo: int)

  /**
   * A chord tone on the unrounded bass offset `semitones`: the interval
   * `ratio` above it and `octave` octaves up, rounded on its own, and the
   * rounded value normalised as microtonal.c writes it.
   */
  function ChordTone(lg: real -> real, semitones: real, ratio: real, octave: int): (t: Tone)
    ensures t.rounded as real + t.delta == semitones + Semis(lg, ratio) + 12.0 * octave as real
    ensures -0.5 <= t.delta <= 0.5
    ensures t.rounded == Round(semitones + Semis(lg, ratio) + 12.0 * octave as real)
    ensures t.modulo == ToneModulo(t.rounded)
  {
    var value := semitones + Semis(lg, ratio) + 12.0 * octave as real;
    var s := SplitSemitones(value);
    Tone(s.root, s.delta, ToneModulo(s.root))
  }

  /**
   * The 14-bit pitch-bend word for a remainder of `delta` semitones, centred
   * on 8192, with 4096 steps per semitone: a sensitivity of plus or minus two
   * semitones, which the tracks set up through RPN 0.
   */
  function BendWord(delta: real): (w: int)
    ensures -0.5 <= delta <= 0.5 ==> 6144 <= w <= 10240
    ensures delta == 0.0 ==> w == 8192
  {
    8192 + Round(4096.0 * delta)
  }

  /** A larger remainder never bends lower. */
  lemma BendWordMonotone(d1: real, d2: real)
    requires d1 <= d2
    ensures BendWord(d1) <= BendWord(d2)
  {
    RoundMonotone(4096.0 * d1, 4096.0 * d2);
  }

  /** Every remainder the split produces gives a valid 14-bit pitch-bend word. */
  lemma BendWordIsFourteenBits(x: real)
    ensures 0 <= BendWord(SplitSemitones(x).delta) < 0x4000
  {
  }

  /** A remainder of exactly half a semitone bends by exactly one semitone, 2048 steps either way. */
  lemma BendWordAtHalfSemitone()
    ensures BendWord(0.5) == 10240 && BendWord(-0.5) == 6144
  {
  }

  /**
   * The chord tones on a bass offset in (-12, 11], with an interval within
   * one octave and no octave shift, round into [-12, 23]. Their normalised
   * value lies in [0, 12], one more than the last index of the chromatic
   * scale, and it is 12 exactly when the tone rounds to 12; the corrected
   * normalisation always indexes the scale.
   */
  lemma ChordToneRange(lg: real -> real, semitones: real, ratio: real)
    requires IsLog2(lg)
    requires -12.0 < semitones <= 11.0 && 1.0 <= ratio < 2.0
    ensures -12 <= ChordTone(lg, semitones, ratio, 0).rounded <= 23
    ensures 0 <= ChordTone(lg, semitones, ratio, 0).modulo <= |ChromaticScale|
    ensures ChordTone(lg, semitones, ratio, 0).modulo == |ChromaticScale| <==> ChordTone(lg, semitones, ratio, 0).rounded == 12
    ensures 0 <= PitchClass(ChordTone(lg, semitones, ratio, 0).rounded) < |ChromaticScale|
  {
    SemisWithinOctave(lg, ratio);
  }
}
