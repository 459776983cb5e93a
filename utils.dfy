/**
 * Frequency-to-colour mapping and the mean-of-squares loudness statistic
 * (js/utils.js).
 *
 * Math.log and Math.sqrt are not modelled as machine functions: the natural
 * logarithm is a parameter `ln`, and the RMS is described through the mean of
 * squares it is the square root of.
 */
module Utils {

  /** Default end points of the logarithmic colour scale, in Hz. */
  const MinFreq: real := 20.0
  const MaxFreq: real := 16000.0

  function Abs(x: real): real { if x < 0.0 then -x else x }
  function Min(a: real, b: real): real { if a <= b then a else b }
  function Max(a: real, b: real): real { if a >= b then a else b }

  /** Integer part of q, rounding toward zero. */
  function Trunc(q: real): int { if q >= 0.0 then q.Floor else -((-q).Floor) }

  /** JavaScript's `a % 2` on numbers: the remainder of truncating division, with the sign of a. */
  function JsRem2(a: real): (r: real)
    ensures a >= 0.0 ==> 0.0 <= r < 2.0
    ensures a < 0.0 ==> -2.0 < r <= 0.0
  {
    a - 2.0 * Trunc(a / 2.0) as real
  }

  /** Math.round: the nearest integer, halves rounded up. */
  function Round(x: real): int { (x + 0.5).Floor }

  /** The cross-fade factor x = 1 - |(h % 2) - 1| of the HSV conversion. */
  function CrossFade(h: real): real { 1.0 - Abs(JsRem2(h) - 1.0) }

  /** Channel fractions in the unit range, before scaling to 8 bits. */
  datatype Rgb = Rgb(r: real, g: real, b: real)

  /** An 8-bit colour as the source returns it, {r, g, b}. */
  datatype Color = Color(r: int, g: int, b: int)

  /**
   * Which branch of the if/else chain h selects: the first k in 0..4 with
   * h < k + 1, and 5 (the final else) when there is none.
   */
  function Sector(h: real): (k: nat)
    ensures k <= 5
    ensures k < 5 ==> h < k as real + 1.0
    ensures k > 0 ==> h >= k as real
  {
    if h < 1.0 then 0
    else if h < 2.0 then 1
    else if h < 3.0 then 2
    else if h < 4.0 then 3
    else if h < 5.0 then 4
    else 5
  }

  /** HSV to RGB at full saturation and value, for h = hue * 6. */
  function HsvToRgb(h: real): (c: Rgb)
    ensures c.r == 1.0 || c.g == 1.0 || c.b == 1.0
    ensures c.r == 0.0 || c.g == 0.0 || c.b == 0.0
  {
    var x := CrossFade(h);
    match Sector(h)
    case 0 => Rgb(1.0, x, 0.0)
    case 1 => Rgb(x, 1.0, 0.0)
    case 2 => Rgb(0.0, 1.0, x)
    case 3 => Rgb(0.0, x, 1.0)
    case 4 => Rgb(x, 0.0, 1.0)
    case _ => Rgb(1.0, 0.0, x)
  }

  /** The colour of a normalised hue: the last steps of getFrequencyColor. */
  function HueColor(hue: real): (c: Color)
    ensures c.r == 255 || c.g == 255 || c.b == 255
    ensures c.r == 0 || c.g == 0 || c.b == 0
  {
    var rgb := HsvToRgb(hue * 6.0);
    Color(Round(rgb.r * 255.0), Round(rgb.g * 255.0), Round(rgb.b * 255.0))
  }

  /**
   * The unclamped logarithmic normalisation of a frequency: 0 at minFreq,
   * 1 at maxFreq, extrapolated outside that range.
   */
  function NormalisedHue(frequency: real, ln: real -> real, minFreq: real, maxFreq: real): (t: real)
    requires frequency > 0.0 && minFreq > 0.0 && maxFreq > 0.0
    requires ln(maxFreq) != ln(minFreq)
    ensures frequency == minFreq ==> t == 0.0
    ensures frequency == maxFreq ==> t == 1.0
  {
    var span := ln(maxFreq) - ln(minFreq);
    assert span / span == 1.0;
    (ln(frequency) - ln(minFreq)) / span
  }

  /** getFrequencyColor: a frequency in Hz to a rainbow colour. */
  function GetFrequencyColor(frequency: real, ln: real -> real, minFreq: real, maxFreq: real): (c: Color)
    requires frequency > 0.0 && minFreq > 0.0 && maxFreq > 0.0
    requires ln(maxFreq) != ln(minFreq)
    ensures frequency == minFreq || frequency == maxFreq ==> c == Color(255, 0, 0)
  {
    HueEndPoints();
    HueColor(NormalisedHue(frequency, ln, minFreq, maxFreq))
  }

  // ---------------------------------------------------------------------------
  // Properties of the colour mapping

  /** Truncating division by two on a known interval. */
  lemma RemOnInterval(h: real, k: int)
    requires k >= 0 && 2.0 * k as real <= h < 2.0 * k as real + 2.0
    ensures JsRem2(h) == h - 2.0 * k as real
  {
    assert (h / 2.0).Floor == k;
  }

  /**
   * For h >= 0 the cross-fade is the triangle wave of h mod 2: it rises as m
   * on [0,1) and falls as 2 - m on [1,2), so it lies in [0,1].
   */
  lemma {:induction false} CrossFadeIsTriangle(h: real)
    requires h >= 0.0
    ensures var m := h - 2.0 * (h / 2.0).Floor as real;
      0.0 <= m < 2.0 && CrossFade(h) == (if m < 1.0 then m else 2.0 - m)
    ensures 0.0 <= CrossFade(h) <= 1.0
  {
    RemOnInterval(h, (h / 2.0).Floor);
  }

  /** For h < 0 (a frequency under minFreq) the cross-fade is at most 0 and over -2. */
  lemma NegativeCrossFade(h: real)
    requires h < 0.0
    ensures -2.0 < CrossFade(h) <= 0.0
  {
  }

  lemma RoundUnit(v: real)
    requires 0.0 <= v <= 1.0
    ensures 0 <= Round(v * 255.0) <= 255
  {
  }

  /** At a non-negative hue every channel lies in [0, 255]. */
  lemma {:induction false} ChannelsInByteRange(hue: real)
    requires hue >= 0.0
    ensures var c := HueColor(hue); 0 <= c.r <= 255 && 0 <= c.g <= 255 && 0 <= c.b <= 255
  {
    CrossFadeIsTriangle(hue * 6.0);
    var rgb := HsvToRgb(hue * 6.0);
    RoundUnit(rgb.r);
    RoundUnit(rgb.g);
    RoundUnit(rgb.b);
  }

  /** Within [0,1) the green channel fraction is h; within [1,2) the red one is 2 - h. */
  lemma FirstSectors(h: real)
    requires 0.0 <= h < 2.0
    ensures h < 1.0 ==> HsvToRgb(h) == Rgb(1.0, h, 0.0)
    ensures 1.0 <= h ==> HsvToRgb(h) == Rgb(2.0 - h, 1.0, 0.0)
  {
    RemOnInterval(h, 0);
  }

  /** The branch taken depends only on the unit interval h falls in; every h >= 5 takes the last. */
  lemma SectorOfInterval(h: real, k: nat)
    requires k <= 5 && k as real <= h && (k < 5 ==> h < k as real + 1.0)
    ensures Sector(h) == k
  {
  }

  /** The branch index never decreases as h grows. */
  lemma SectorMonotone(h1: real, h2: real)
    requires h1 <= h2
    ensures Sector(h1) <= Sector(h2)
  {
  }

  /** Both ends of the scale are pure red: hue 0, and hue 1 (h = 6, last branch, x = 0). */
  lemma HueEndPoints()
    ensures HueColor(0.0) == Color(255, 0, 0)
    ensures HueColor(1.0) == Color(255, 0, 0)
  {
    RemOnInterval(0.0, 0);
    RemOnInterval(6.0, 3);
  }

  /**
   * With an increasing logarithm, a higher frequency never selects an earlier
   * branch of the conversion.
   */
  lemma HueSectorMonotone(f1: real, f2: real, ln: real -> real, minFreq: real, maxFreq: real)
    requires 0.0 < f1 <= f2 && 0.0 < minFreq < maxFreq
    requires forall a, b :: 0.0 < a < b ==> ln(a) < ln(b)
    ensures Sector(NormalisedHue(f1, ln, minFreq, maxFreq) * 6.0)
         <= Sector(NormalisedHue(f2, ln, minFreq, maxFreq) * 6.0)
  {
    var d := ln(maxFreq) - ln(minFreq);
    assert d > 0.0;
    assert ln(f1) <= ln(f2) by {
      if f1 < f2 { }
    }
    var t1 := NormalisedHue(f1, ln, minFreq, maxFreq);
    var t2 := NormalisedHue(f2, ln, minFreq, maxFreq);
    DivideMonotone(ln(f1) - ln(minFreq), ln(f2) - ln(minFreq), d);
    SectorMonotone(t1 * 6.0, t2 * 6.0);
  }

  lemma DivideMonotone(a: real, b: real, d: real)
    requires a <= b && d > 0.0
    ensures a / d <= b / d
  {
    assert b / d - a / d == (b - a) / d;
  }

  // ---------------------------------------------------------------------------
  // An independent reference: the textbook HSV formula at S = V = 1

  function Mod6(a: real): real { a - 6.0 * (a / 6.0).Floor as real }

  /** Channel n of the textbook formula: 1 - max(0, min(k, 4 - k, 1)) with k = (n + h) mod 6. */
  function ReferenceChannel(n: real, h: real): real
  {
    var k := Mod6(n + h);
    1.0 - Max(0.0, Min(Min(k, 4.0 - k), 1.0))
  }

  function ReferenceHsv(h: real): Rgb
  {
    Rgb(ReferenceChannel(5.0, h), ReferenceChannel(3.0, h), ReferenceChannel(1.0, h))
  }

  lemma Mod6OnInterval(a: real, k: int)
    requires 6.0 * k as real <= a < 6.0 * k as real + 6.0
    ensures Mod6(a) == a - 6.0 * k as real
  {
    assert (a / 6.0).Floor == k;
  }

  /** On one turn of the hue circle, h in [0,6), the branch chain is the textbook conversion. */
  lemma {:induction false} MatchesReferenceHsv(h: real)
    requires 0.0 <= h < 6.0
    ensures HsvToRgb(h) == ReferenceHsv(h)
  {
    RemOnInterval(h, (h / 2.0).Floor);
    assert 0 <= (h / 2.0).Floor <= 2;
    if 5.0 + h < 6.0 { Mod6OnInterval(5.0 + h, 0); } else { Mod6OnInterval(5.0 + h, 1); }
    if 3.0 + h < 6.0 { Mod6OnInterval(3.0 + h, 0); } else { Mod6OnInterval(3.0 + h, 1); }
    if 1.0 + h < 6.0 { Mod6OnInterval(1.0 + h, 0); } else { Mod6OnInterval(1.0 + h, 1); }
  }

  /**
   * The hue is not wrapped: h = 7 (normalised hue 7/6, a frequency above
   * maxFreq) stays in the last branch and gives magenta, where the textbook
   * conversion, which is periodic, gives yellow.
   */
  lemma BeyondMaxFreqDoesNotWrap()
    ensures HsvToRgb(7.0) == Rgb(1.0, 0.0, 1.0)
    ensures ReferenceHsv(7.0) == Rgb(1.0, 1.0, 0.0)
    ensures HsvToRgb(7.0) != ReferenceHsv(7.0)
  {
    RemOnInterval(7.0, 3);
    Mod6OnInterval(12.0, 2);
    Mod6OnInterval(10.0, 1);
    Mod6OnInterval(8.0, 1);
  }

  // ---------------------------------------------------------------------------
  // calculateRMS

  /** `val * val` */
  function Square(x: real): real { x * x }

  /** The fold `samples.reduce((acc, val) => acc + val * val, 0)`, left to right. */
  function SumOfSquares(s: seq<real>): (r: real)
    ensures r >= 0.0
    decreases |s|
  {
    if |s| == 0 then 0.0
    else
      var last := s[|s| - 1];
      SquareFacts(last);
      SumOfSquares(s[..|s| - 1]) + Square(last)
  }

  /** The quantity calculateRMS takes the square root of; the source divides by the length. */
  function MeanSquare(s: seq<real>): (m: real)
    requires |s| > 0
    ensures m >= 0.0
  {
    SumOfSquares(s) / |s| as real
  }

  ghost predicate Silent(s: seq<real>)
  {
    forall i :: 0 <= i < |s| ==> s[i] == 0.0
  }

  lemma {:induction false} SumOfSquaresZero(s: seq<real>)
    ensures SumOfSquares(s) == 0.0 <==> Silent(s)
    decreases |s|
  {
    if |s| > 0 {
      var init, last := s[..|s| - 1], s[|s| - 1];
      SumOfSquaresZero(init);
      SquareFacts(last);
      assert Silent(s) <==> Silent(init) && last == 0.0 by {
        if Silent(init) && last == 0.0 {
          forall i | 0 <= i < |s| ensures s[i] == 0.0 {
            if i < |s| - 1 { assert s[i] == init[i]; }
          }
        }
        if Silent(s) {
          forall i | 0 <= i < |init| ensures init[i] == 0.0 {
            assert init[i] == s[i];
          }
        }
      }
    }
  }

  /** The mean of squares is 0 exactly when every sample is 0. */
  lemma {:induction false} MeanSquareZero(s: seq<real>)
    requires |s| > 0
    ensures MeanSquare(s) == 0.0 <==> Silent(s)
  {
    SumOfSquaresZero(s);
  }

  ghost predicate FullScale(s: seq<real>)
  {
    forall i :: 0 <= i < |s| ==> -1.0 <= s[i] <= 1.0
  }

  lemma {:induction false} SumOfSquaresBound(s: seq<real>)
    requires FullScale(s)
    ensures SumOfSquares(s) <= |s| as real
    decreases |s|
  {
    if |s| > 0 {
      var init, last := s[..|s| - 1], s[|s| - 1];
      assert forall i :: 0 <= i < |init| ==> init[i] == s[i];
      SumOfSquaresBound(init);
      SquareAtMostOne(last);
    }
  }

  /** Full-scale samples have a mean of squares of at most 1. */
  lemma {:induction false} MeanSquareOfUnitSamples(s: seq<real>)
    requires |s| > 0 && FullScale(s)
    ensures MeanSquare(s) <= 1.0
  {
    SumOfSquaresBound(s);
  }

  /** What calculateRMS returns: the non-negative square root of the mean of squares. */
  ghost predicate IsRms(rms: real, s: seq<real>)
    requires |s| > 0
  {
    rms >= 0.0 && Square(rms) == MeanSquare(s)
  }

  /** The RMS is 0 exactly on silence, and at most 1 for full-scale samples. */
  lemma {:induction false} RmsBounds(rms: real, s: seq<real>)
    requires |s| > 0 && IsRms(rms, s)
    ensures rms == 0.0 <==> Silent(s)
    ensures FullScale(s) ==> rms <= 1.0
  {
    MeanSquareZero(s);
    SquareFacts(rms);
    if FullScale(s) {
      MeanSquareOfUnitSamples(s);
      RootAtMostOne(rms);
    }
  }

  /** What Math.sqrt is taken to be: the non-negative square root on non-negative inputs. */
  ghost predicate IsSquareRoot(sqrt: real -> real)
  {
    forall x :: x >= 0.0 ==> sqrt(x) >= 0.0 && Square(sqrt(x)) == x
  }

  /**
   * calculateRMS, `Math.sqrt(sum / samples.length)`, for a non-empty buffer
   * (the source divides by the length). js/ui.js carries a verbatim copy,
   * which this one function models as well.
   */
  function CalculateRms(samples: seq<real>, sqrt: real -> real): (rms: real)
    requires |samples| > 0 && IsSquareRoot(sqrt)
    ensures IsRms(rms, samples)
    ensures rms == 0.0 <==> Silent(samples)
    ensures FullScale(samples) ==> rms <= 1.0
  {
    var rms := sqrt(MeanSquare(samples));
    RmsBounds(rms, samples);
    rms
  }

  // Facts about products, stated through Mul so that the solver keeps them as written.

  function Mul(a: real, b: real): real { a * b }

  lemma MulPositive(a: real, b: real)
    requires a > 0.0 && b > 0.0
    ensures Mul(a, b) > 0.0
  {
  }

  lemma MulAtMost(a: real, b: real, c: real)
    requires 0.0 <= a <= c && 0.0 <= b
    ensures Mul(a, b) <= Mul(c, b)
  {
  }

  lemma SquareFacts(x: real)
    ensures Square(x) >= 0.0
    ensures Square(x) == 0.0 <==> x == 0.0
  {
    if x > 0.0 { MulPositive(x, x); assert Square(x) == Mul(x, x); }
    if x < 0.0 { MulPositive(-x, -x); assert Square(x) == Mul(-x, -x); }
  }

  lemma SquareAtMostOne(x: real)
    requires -1.0 <= x <= 1.0
    ensures Square(x) <= 1.0
  {
    var a := Abs(x);
    MulAtMost(a, a, 1.0);
    MulAtMost(a, 1.0, 1.0);
    assert Square(x) == Mul(a, a);
  }

  lemma RootAtMostOne(x: real)
    requires x >= 0.0 && Square(x) <= 1.0
    ensures x <= 1.0
  {
    if x > 1.0 {
      assert Square(x) == Mul(x, x);
      MulAtMost(1.0, x, x);
    }
  }
}
