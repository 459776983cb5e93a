/**
 * drawVectorscope (js/vectorscope.js): one frame of the phase plot. The
 * canvas is faded with a translucent black rectangle, then every sample pair
 * is drawn as a short segment at its mid/side position, stroked in a colour
 * derived from the dominant frequency bin of the two spectra.
 */
module Vectorscope {
  import opened Wrappers
  import opened Canvas
  import opened Stereo
  import Utils

  /** An element of a Uint8Array: one frequency-magnitude bin. */
  newtype byte = x: int | 0 <= x < 256

  /** Half of the 44.1 kHz sample rate the code assumes. */
  const Nyquist: real := 22050.0

  /** `rgba(0, 0, 0, 0.1)`: the fade that leaves a trail of earlier frames. */
  const Fade := Paint(0, 0, 0, 0.1)

  const TraceWidth: real := 2.0

  // ---------------------------------------------------------------------------
  // The dominant-frequency scan

  /** `Math.max(frequencyDataLeft[j], frequencyDataRight[j])` */
  function Amplitude(left: seq<byte>, right: seq<byte>, j: nat): int
    requires j < |left| && j < |right|
  {
    if left[j] >= right[j] then left[j] as int else right[j] as int
  }

  datatype Peak = Peak(bin: nat, amplitude: int)

  /**
   * p is what a scan of the first n bins must find: the largest amplitude,
   * at the lowest bin that reaches it; with no bins, bin 0 and amplitude 0.
   */
  ghost predicate IsFirstPeak(left: seq<byte>, right: seq<byte>, n: nat, p: Peak)
    requires n <= |left| && n <= |right|
  {
    if n == 0 then p == Peak(0, 0)
    else
      && p.bin < n
      && p.amplitude == Amplitude(left, right, p.bin)
      && (forall j :: 0 <= j < n ==> Amplitude(left, right, j) <= p.amplitude)
      && (forall j :: 0 <= j < p.bin ==> Amplitude(left, right, j) < p.amplitude)
  }

  /**
   * The running (dominantFrequencyBin, maxAmplitude) pair after the first n
   * bins: a later bin replaces it only when strictly louder.
   */
  function ScanPeak(left: seq<byte>, right: seq<byte>, n: nat): (p: Peak)
    requires n <= |left| && n <= |right|
    ensures IsFirstPeak(left, right, n, p)
    decreases n
  {
    if n == 0 then Peak(0, 0)
    else
      var previous := ScanPeak(left, right, n - 1);
      var amplitude := Amplitude(left, right, n - 1);
      if amplitude > previous.amplitude then Peak(n - 1, amplitude) else previous
  }

  /** The inner loop of drawVectorscope, over all frequencyDataLeft.length bins. */
  method FindDominantBin(left: seq<byte>, right: seq<byte>) returns (dominantBin: nat, maxAmplitude: int)
    requires |left| <= |right|
    ensures Peak(dominantBin, maxAmplitude) == ScanPeak(left, right, |left|)
    ensures IsFirstPeak(left, right, |left|, Peak(dominantBin, maxAmplitude))
  {
    maxAmplitude := 0;
    dominantBin := 0;
    for j := 0 to |left|
      invariant Peak(dominantBin, maxAmplitude) == ScanPeak(left, right, j)
    {
      var amplitude := Amplitude(left, right, j);
      if amplitude > maxAmplitude {
        maxAmplitude := amplitude;
        dominantBin := j;
      }
    }
  }

  /** The scan's result is determined by the spectra: two first peaks are the same peak. */
  lemma FirstPeakUnique(left: seq<byte>, right: seq<byte>, n: nat, p: Peak, q: Peak)
    requires n <= |left| && n <= |right|
    requires IsFirstPeak(left, right, n, p) && IsFirstPeak(left, right, n, q)
    ensures p == q
  {
  }

  /** With every magnitude 0, the bin and the maximum both stay 0. */
  lemma {:induction false} SilentSpectrum(left: seq<byte>, right: seq<byte>)
    requires |left| <= |right|
    requires forall j :: 0 <= j < |left| ==> left[j] == 0 && right[j] == 0
    ensures ScanPeak(left, right, |left|) == Peak(0, 0)
  {
    var p := ScanPeak(left, right, |left|);
    if |left| > 0 {
      assert Amplitude(left, right, p.bin) == 0;
      assert Amplitude(left, right, 0) == 0;
    }
  }

  /** One louder bin k among silent ones, in either channel, is found. */
  lemma {:induction false} SingleLoudBin(left: seq<byte>, right: seq<byte>, k: nat)
    requires k < |left| <= |right|
    requires Amplitude(left, right, k) > 0
    requires forall j :: 0 <= j < |left| && j != k ==> left[j] == 0 && right[j] == 0
    ensures ScanPeak(left, right, |left|) == Peak(k, Amplitude(left, right, k))
  {
    var p := ScanPeak(left, right, |left|);
    assert Amplitude(left, right, k) <= p.amplitude;
  }

  /** A bin reaching the maximum after an earlier bin that also reaches it is never chosen. */
  lemma {:induction false} EarlierTieWins(left: seq<byte>, right: seq<byte>, i: nat, k: nat)
    requires i < k < |left| <= |right|
    requires Amplitude(left, right, i) == Amplitude(left, right, k)
    ensures ScanPeak(left, right, |left|).bin != k
  {
    var p := ScanPeak(left, right, |left|);
  }

  // ---------------------------------------------------------------------------
  // From bin to colour

  /** `(dominantFrequencyBin / frequencyBinCount) * nyquist` */
  function BinToHz(bin: nat, binCount: nat): (hz: real)
    requires bin < binCount
    ensures 0.0 <= hz < Nyquist
    ensures hz == 0.0 <==> bin == 0
  {
    var fraction := bin as real / binCount as real;
    assert fraction < 1.0 by {
      Utils.MulAtMost(fraction, binCount as real, 1.0);
      assert Utils.Mul(fraction, binCount as real) == bin as real;
    }
    fraction * Nyquist
  }

  /** `rgb(r, g, b)` */
  function Solid(c: Utils.Color): Paint
  {
    Paint(c.r, c.g, c.b, 1.0)
  }

  /**
   * The stroke colour computed for the marks of one call. When the dominant
   * bin is 0 the source takes the logarithm of 0 Hz and builds a colour
   * string with a NaN channel; that string is modelled as None, a style the
   * canvas does not accept.
   */
  function TraceColour(left: seq<byte>, right: seq<byte>, ln: real -> real): (c: Option<Paint>)
    requires |left| <= |right|
    requires ln(Utils.MaxFreq) != ln(Utils.MinFreq)
    ensures c.None? <==> ScanPeak(left, right, |left|).bin == 0
  {
    var p := ScanPeak(left, right, |left|);
    if p.bin == 0 then None
    else Some(Solid(Utils.GetFrequencyColor(BinToHz(p.bin, |left|), ln, Utils.MinFreq, Utils.MaxFreq)))
  }

  /** The style the marks are stroked with, given the style the canvas had before. */
  function TraceStroke(previous: Paint, left: seq<byte>, right: seq<byte>, ln: real -> real): Paint
    requires |left| <= |right|
    requires ln(Utils.MaxFreq) != ln(Utils.MinFreq)
  {
    match TraceColour(left, right, ln)
    case None => previous
    case Some(p) => p
  }

  /** A silent spectrum gives no usable colour, so the marks keep the previous stroke style. */
  lemma {:induction false} SilentSpectrumKeepsStroke(previous: Paint, left: seq<byte>, right: seq<byte>, ln: real -> real)
    requires |left| <= |right|
    requires ln(Utils.MaxFreq) != ln(Utils.MinFreq)
    requires forall j :: 0 <= j < |left| ==> left[j] == 0 && right[j] == 0
    ensures TraceColour(left, right, ln) == None
    ensures TraceStroke(previous, left, right, ln) == previous
  {
    SilentSpectrum(left, right);
  }

  /**
   * With at most 1102 bins (1024 for the 2048-point analysers), every bin
   * above 0 lies above 20 Hz, so with an increasing logarithm the colour's
   * channels all lie in [0, 255].
   */
  lemma {:induction false} TraceColourInByteRange(left: seq<byte>, right: seq<byte>, ln: real -> real)
    requires |left| <= |right| && |left| <= 1102
    requires forall a, b :: 0.0 < a < b ==> ln(a) < ln(b)
    ensures ln(Utils.MaxFreq) != ln(Utils.MinFreq)
    ensures TraceColour(left, right, ln).Some? ==>
      var c := TraceColour(left, right, ln).value;
      0 <= c.r <= 255 && 0 <= c.g <= 255 && 0 <= c.b <= 255
  {
    assert ln(Utils.MinFreq) < ln(Utils.MaxFreq);
    var p := ScanPeak(left, right, |left|);
    if p.bin > 0 {
      var n := |left| as real;
      var hz := BinToHz(p.bin, |left|);
      assert hz >= Utils.MinFreq by {
        var unit := 1.0 / n;
        Utils.MulAtMost(1.0, unit, p.bin as real);
        assert Utils.Mul(p.bin as real, unit) == p.bin as real / n;
        assert unit >= 1.0 / 1102.0 by {
          Utils.MulAtMost(n, unit, 1102.0);
          assert Utils.Mul(n, unit) == 1.0;
        }
      }
      var t := Utils.NormalisedHue(hz, ln, Utils.MinFreq, Utils.MaxFreq);
      if hz > Utils.MinFreq {
        Utils.DivideMonotone(0.0, ln(hz) - ln(Utils.MinFreq), ln(Utils.MaxFreq) - ln(Utils.MinFreq));
      }
      assert t >= 0.0;
      Utils.ChannelsInByteRange(t);
    }
  }

  // ---------------------------------------------------------------------------
  // From sample to point

  /** `x = centerX + side * (width / 2)`, `y = centerY - mid * (height / 2)` */
  function PlotPoint(s: StereoSample, width: real, height: real): Point
  {
    Point(width / 2.0 + s.side * (width / 2.0), height / 2.0 - s.mid * (height / 2.0))
  }

  /** A pair of full-scale samples lands on the canvas. */
  lemma {:induction false} PointOnCanvas(left: real, right: real, width: real, height: real)
    requires -1.0 <= left <= 1.0 && -1.0 <= right <= 1.0
    requires width >= 0.0 && height >= 0.0
    ensures var p := PlotPoint(MidSide(left, right), width, height);
      0.0 <= p.x <= width && 0.0 <= p.y <= height
  {
    var s := MidSide(left, right);
    var p := PlotPoint(s, width, height);
    ScaledWithin(s.side, width / 2.0);
    ScaledWithin(s.mid, height / 2.0);
    assert p.x == width / 2.0 + Utils.Mul(s.side, width / 2.0);
    assert p.y == height / 2.0 - Utils.Mul(s.mid, height / 2.0);
  }

  lemma ScaledWithin(t: real, c: real)
    requires -1.0 <= t <= 1.0 && c >= 0.0
    ensures -c <= Utils.Mul(t, c) <= c
  {
    assert Utils.Mul(1.0, c) == c && Utils.Mul(0.0, c) == 0.0;
    if t >= 0.0 {
      Utils.MulAtMost(t, c, 1.0);
      Utils.MulAtMost(0.0, c, t);
    } else {
      Utils.MulAtMost(-t, c, 1.0);
      assert Utils.Mul(-t, c) == -Utils.Mul(t, c);
    }
  }

  /** Reading a point back: the sample that PlotPoint puts there. */
  function Unplot(p: Point, width: real, height: real): StereoSample
    requires width > 0.0 && height > 0.0
  {
    StereoSample((height / 2.0 - p.y) / (height / 2.0), (p.x - width / 2.0) / (width / 2.0))
  }

  /** On a non-degenerate canvas the plot loses nothing: the point gives back mid and side, hence L and R. */
  lemma {:induction false} UnplotInvertsPlot(s: StereoSample, width: real, height: real)
    requires width > 0.0 && height > 0.0
    ensures Unplot(PlotPoint(s, width, height), width, height) == s
  {
    CancelScale(s.side, width / 2.0);
    CancelScale(s.mid, height / 2.0);
  }

  lemma CancelScale(t: real, c: real)
    requires c > 0.0
    ensures (t * c) / c == t
  {
  }

  // ---------------------------------------------------------------------------
  // The drawing

  /** `moveTo(x, y); lineTo(x + 1, y + 1)`, stroked */
  function Mark(p: Point, stroke: Paint): Command
  {
    Line(p, Point(p.x + 1.0, p.y + 1.0), stroke, TraceWidth)
  }

  /**
   * drawVectorscope. The scan is repeated for every sample, as in the source,
   * and gives the same result each time, so every mark of one call is
   * stroked alike.
   */
  method DrawVectorscope(surface: Surface, dataLeft: seq<real>, dataRight: seq<real>,
                         frequencyLeft: seq<byte>, frequencyRight: seq<byte>, ln: real -> real)
    requires |dataLeft| <= |dataRight| && |frequencyLeft| <= |frequencyRight|
    requires ln(Utils.MaxFreq) != ln(Utils.MinFreq)
    modifies surface
    ensures surface.width == old(surface.width) && surface.height == old(surface.height)
    ensures surface.fillStyle == Fade && surface.lineWidth == TraceWidth
    ensures surface.strokeStyle ==
      if |dataLeft| == 0 then old(surface.strokeStyle)
      else TraceStroke(old(surface.strokeStyle), frequencyLeft, frequencyRight, ln)
    ensures |surface.drawn| == |old(surface.drawn)| + 1 + |dataLeft|
    ensures surface.drawn[..|old(surface.drawn)|] == old(surface.drawn)
    ensures surface.drawn[|old(surface.drawn)|] == Rect(0.0, 0.0, surface.width as real, surface.height as real, Fade)
    ensures forall i :: 0 <= i < |dataLeft| ==>
      surface.drawn[|old(surface.drawn)| + 1 + i] ==
        Mark(PlotPoint(MidSide(dataLeft[i], dataRight[i]), surface.width as real, surface.height as real),
             TraceStroke(old(surface.strokeStyle), frequencyLeft, frequencyRight, ln))
  {
    var width, height := surface.width, surface.height;
    ghost var before := surface.drawn;
    ghost var stroke := TraceStroke(surface.strokeStyle, frequencyLeft, frequencyRight, ln);
    ghost var previous := surface.strokeStyle;

    surface.SetFillStyle(Fade);
    surface.FillRect(0.0, 0.0, width as real, height as real);
    surface.SetLineWidth(TraceWidth);

    var centerX := width as real / 2.0;
    var centerY := height as real / 2.0;
    var frequencyBinCount := |frequencyLeft|;

    var i := 0;
    while i < |dataLeft|
      invariant 0 <= i <= |dataLeft|
      invariant surface.width == width && surface.height == height
      invariant surface.fillStyle == Fade && surface.lineWidth == TraceWidth
      invariant surface.strokeStyle == if i == 0 then previous else stroke
      invariant |surface.drawn| == |before| + 1 + i
      invariant surface.drawn[..|before| + 1] == before + [Rect(0.0, 0.0, width as real, height as real, Fade)]
      invariant forall k :: 0 <= k < i ==>
        surface.drawn[|before| + 1 + k] ==
          Mark(PlotPoint(MidSide(dataLeft[k], dataRight[k]), width as real, height as real), stroke)
    {
      var sample := MidSide(dataLeft[i], dataRight[i]);
      var x := centerX + sample.side * (width as real / 2.0);
      var y := centerY - sample.mid * (height as real / 2.0);

      var dominantBin, maxAmplitude := FindDominantBin(frequencyLeft, frequencyRight);
      var colour: Option<Paint>;
      if dominantBin == 0 {
        colour := None;
      } else {
        var dominantFrequency := BinToHz(dominantBin, frequencyBinCount);
        colour := Some(Solid(Utils.GetFrequencyColor(dominantFrequency, ln, Utils.MinFreq, Utils.MaxFreq)));
      }
      assert colour == TraceColour(frequencyLeft, frequencyRight, ln);

      surface.SetStrokeStyle(colour);
      surface.StrokeSegment(Point(x, y), Point(x + 1.0, y + 1.0));
      i := i + 1;
    }
    assert surface.drawn[..|before|] == (surface.drawn[..|before| + 1])[..|before|];
  }
}
