/**
 * The arithmetic of the user interface (js/ui.js): the four loudness meters
 * updated on every frame and the square sizing of the two canvases.
 *
 * Math.log10 is a parameter `log10` and Math.sqrt a parameter `sqrt`, as in
 * Utils. A meter element is a CSS variable `--level` set to a percentage; the
 * model returns the four percentages instead of writing them.
 */
module Ui {
  import opened Wrappers
  import opened Stereo
  import Utils
  import Canvas

  // ---------------------------------------------------------------------------
  // Decibels and dbToPercentage

  /**
   * `20 * Math.log10(rms)`. The RMS of a silent buffer is 0, whose logarithm
   * is -Infinity; that value is kept apart from the finite readings.
   */
  datatype Decibels = MinusInfinity | Db(value: real)

  /** The usual order on the extended reals, -Infinity below every reading. */
  predicate AtMost(a: Decibels, b: Decibels)
  {
    a.MinusInfinity? || (b.Db? && a.value <= b.value)
  }

  function ToDecibels(rms: real, log10: real -> real): (d: Decibels)
    requires rms >= 0.0
    ensures d.MinusInfinity? <==> rms == 0.0
  {
    if rms == 0.0 then MinusInfinity else Db(20.0 * log10(rms))
  }

  /**
   * `Math.min(100, Math.max(0, (db + 60) / 60 * 100))`: a linear scale from
   * -60 dB (empty meter) to 0 dB (full meter), clamped. For -Infinity the
   * inner expression is -Infinity and Math.max makes it 0.
   */
  function DbToPercentage(db: Decibels): (p: real)
    ensures 0.0 <= p <= 100.0
    ensures db.MinusInfinity? ==> p == 0.0
    ensures db.Db? && db.value <= -60.0 ==> p == 0.0
    ensures db.Db? && db.value >= 0.0 ==> p == 100.0
    ensures db.Db? && -60.0 < db.value < 0.0 ==> 0.0 < p < 100.0
  {
    match db
    case MinusInfinity => 0.0
    case Db(v) => Utils.Min(100.0, Utils.Max(0.0, (v + 60.0) / 60.0 * 100.0))
  }

  /** The end points of the scale. */
  lemma PercentageEndPoints()
    ensures DbToPercentage(Db(-60.0)) == 0.0 && DbToPercentage(Db(0.0)) == 100.0
    ensures DbToPercentage(MinusInfinity) == 0.0
  {
  }

  /** Louder never reads lower. */
  lemma {:induction false} PercentageMonotone(a: Decibels, b: Decibels)
    requires AtMost(a, b)
    ensures DbToPercentage(a) <= DbToPercentage(b)
  {
    if a.Db? {
      var pa, pb := (a.value + 60.0) / 60.0 * 100.0, (b.value + 60.0) / 60.0 * 100.0;
      Utils.DivideMonotone(a.value + 60.0, b.value + 60.0, 60.0);
      assert pa <= pb;
    }
  }

  /** Between -60 dB and 0 dB the scale is strictly increasing. */
  lemma {:induction false} PercentageStrictBetween(a: real, b: real)
    requires -60.0 < a < b < 0.0
    ensures DbToPercentage(Db(a)) < DbToPercentage(Db(b))
  {
    assert (a + 60.0) / 60.0 < (b + 60.0) / 60.0;
  }

  /** The reading `0.6 * p - 60` dB shows exactly p percent: the scale inverts on [0, 100]. */
  lemma {:induction false} PercentageRoundTrip(p: real)
    requires 0.0 <= p <= 100.0
    ensures DbToPercentage(Db(0.6 * p - 60.0)) == p
  {
    assert (0.6 * p - 60.0 + 60.0) / 60.0 * 100.0 == p;
  }

  // ---------------------------------------------------------------------------
  // updateVUMeter

  /**
   * One meter: `dbToPercentage(20 * Math.log10(calculateRMS(samples)))`.
   * A silent buffer reads 0.
   */
  function MeterLevel(samples: seq<real>, sqrt: real -> real, log10: real -> real): (level: real)
    requires |samples| > 0 && Utils.IsSquareRoot(sqrt)
    ensures 0.0 <= level <= 100.0
    ensures Utils.Silent(samples) ==> level == 0.0
  {
    DbToPercentage(ToDecibels(Utils.CalculateRms(samples, sqrt), log10))
  }

  /** The mid buffer: sample i is the mid of (left[i], right[i]). */
  ghost function MidChannel(left: seq<real>, right: seq<real>): seq<real>
    requires |left| <= |right|
  {
    seq(|left|, i requires 0 <= i < |left| => MidSide(left[i], right[i]).mid)
  }

  /** The side buffer: sample i is the side of (left[i], right[i]). */
  ghost function SideChannel(left: seq<real>, right: seq<real>): seq<real>
    requires |left| <= |right|
  {
    seq(|left|, i requires 0 <= i < |left| => MidSide(left[i], right[i]).side)
  }

  /**
   * The loop that fills `dataMid` and `dataSide`, two new buffers of the
   * left channel's length.
   */
  method MidSideBuffers(dataLeft: seq<real>, dataRight: seq<real>) returns (dataMid: seq<real>, dataSide: seq<real>)
    requires |dataLeft| <= |dataRight|
    ensures dataMid == MidChannel(dataLeft, dataRight) && dataSide == SideChannel(dataLeft, dataRight)
    ensures |dataMid| == |dataLeft| && |dataSide| == |dataLeft|
    ensures forall i :: 0 <= i < |dataLeft| ==>
      dataMid[i] + dataSide[i] == dataLeft[i] && dataMid[i] - dataSide[i] == dataRight[i]
  {
    var mid := new real[|dataLeft|];
    var side := new real[|dataLeft|];
    for i := 0 to |dataLeft|
      invariant forall k :: 0 <= k < i ==>
        mid[k] == (dataLeft[k] + dataRight[k]) / 2.0 && side[k] == (dataLeft[k] - dataRight[k]) / 2.0
    {
      mid[i] := (dataLeft[i] + dataRight[i]) / 2.0;
      side[i] := (dataLeft[i] - dataRight[i]) / 2.0;
    }
    dataMid, dataSide := mid[..], side[..];
  }

  /** The mid and side buffers are the two halves of the decomposition: they give back both channels. */
  lemma {:induction false} ChannelsRecombine(left: seq<real>, right: seq<real>)
    requires |left| <= |right|
    ensures |MidChannel(left, right)| == |left| && |SideChannel(left, right)| == |left|
    ensures forall i :: 0 <= i < |left| ==>
      MidChannel(left, right)[i] + SideChannel(left, right)[i] == left[i] &&
      MidChannel(left, right)[i] - SideChannel(left, right)[i] == right[i]
  {
    forall i | 0 <= i < |left|
      ensures MidChannel(left, right)[i] + SideChannel(left, right)[i] == left[i]
      ensures MidChannel(left, right)[i] - SideChannel(left, right)[i] == right[i]
    {
      var s := MidSide(left[i], right[i]);
      assert MidChannel(left, right)[i] == s.mid && SideChannel(left, right)[i] == s.side;
    }
  }

  /** The four meter levels, in the order left, right, mid, side. */
  datatype MeterLevels = MeterLevels(left: real, right: real, mid: real, side: real)

  /**
   * updateVUMeter. When any of the four meter elements is missing
   * (`metersFound` false) nothing is computed or shown.
   */
  method UpdateVUMeter(metersFound: bool, dataLeft: seq<real>, dataRight: seq<real>,
                       sqrt: real -> real, log10: real -> real) returns (levels: Option<MeterLevels>)
    requires 0 < |dataLeft| <= |dataRight|
    requires Utils.IsSquareRoot(sqrt)
    ensures levels.Some? <==> metersFound
    ensures levels.Some? ==> levels.value == MeterLevels(
      MeterLevel(dataLeft, sqrt, log10), MeterLevel(dataRight, sqrt, log10),
      MeterLevel(MidChannel(dataLeft, dataRight), sqrt, log10),
      MeterLevel(SideChannel(dataLeft, dataRight), sqrt, log10))
  {
    if !metersFound {
      return None;
    }
    var rmsLeft := Utils.CalculateRms(dataLeft, sqrt);
    var rmsRight := Utils.CalculateRms(dataRight, sqrt);
    var dataMid, dataSide := MidSideBuffers(dataLeft, dataRight);
    var rmsMid := Utils.CalculateRms(dataMid, sqrt);
    var rmsSide := Utils.CalculateRms(dataSide, sqrt);
    levels := Some(MeterLevels(
      DbToPercentage(ToDecibels(rmsLeft, log10)), DbToPercentage(ToDecibels(rmsRight, log10)),
      DbToPercentage(ToDecibels(rmsMid, log10)), DbToPercentage(ToDecibels(rmsSide, log10))));
  }

  /**
   * With a silent right channel the mid and side buffers coincide (both are
   * half the left channel), so the mid and side meters agree.
   */
  lemma {:induction false} SilentRightMetersAgree(left: seq<real>, right: seq<real>, sqrt: real -> real, log10: real -> real)
    requires 0 < |left| <= |right| && Utils.IsSquareRoot(sqrt)
    requires Utils.Silent(right)
    ensures MidChannel(left, right) == SideChannel(left, right)
    ensures MeterLevel(MidChannel(left, right), sqrt, log10) == MeterLevel(SideChannel(left, right), sqrt, log10)
  {
    var mid, side := MidChannel(left, right), SideChannel(left, right);
    assert |mid| == |side|;
    forall i | 0 <= i < |mid| ensures mid[i] == side[i] {
      assert right[i] == 0.0;
    }
  }

  /** Silence in both channels empties all four meters. */
  lemma {:induction false} SilenceEmptiesMeters(left: seq<real>, right: seq<real>, sqrt: real -> real, log10: real -> real)
    requires 0 < |left| <= |right| && Utils.IsSquareRoot(sqrt)
    requires Utils.Silent(left) && Utils.Silent(right)
    ensures MeterLevel(left, sqrt, log10) == 0.0 && MeterLevel(right, sqrt, log10) == 0.0
    ensures MeterLevel(MidChannel(left, right), sqrt, log10) == 0.0
    ensures MeterLevel(SideChannel(left, right), sqrt, log10) == 0.0
  {
    var mid, side := MidChannel(left, right), SideChannel(left, right);
    forall i | 0 <= i < |mid| ensures mid[i] == 0.0 && side[i] == 0.0 {
      assert left[i] == 0.0 && right[i] == 0.0;
    }
  }

  // ---------------------------------------------------------------------------
  // adjustCanvasSize

  /**
   * The size computation: start from the window width and fall back to 80%
   * of the window height when the square would be taller than that. The
   * result is the smaller of the two.
   */
  method SquareSize(windowWidth: nat, windowHeight: nat) returns (size: real, containerHeight: real)
    ensures containerHeight == size
    ensures size <= windowWidth as real && size <= 0.8 * windowHeight as real
    ensures size == windowWidth as real || size == 0.8 * windowHeight as real
  {
    size := windowWidth as real;
    containerHeight := size;
    if containerHeight > windowHeight as real * 0.8 {
      size := windowHeight as real * 0.8;
      containerHeight := size;
    }
  }

  /**
   * adjustCanvasSize: the container gets the square size in CSS pixels and
   * both canvases get it as their bitmap size. Assigning a canvas dimension
   * truncates to an integer and clears the canvas.
   */
  method AdjustCanvasSize(windowWidth: nat, windowHeight: nat, vectorscope: Canvas.Surface, overlay: Canvas.Surface)
    returns (containerWidth: real, containerHeight: real)
    modifies vectorscope, overlay
    ensures containerWidth == containerHeight
    ensures containerWidth <= windowWidth as real && containerWidth <= 0.8 * windowHeight as real
    ensures containerWidth == windowWidth as real || containerWidth == 0.8 * windowHeight as real
    ensures vectorscope.width == containerWidth.Floor && vectorscope.height == containerWidth.Floor
    ensures overlay.width == containerWidth.Floor && overlay.height == containerWidth.Floor
    ensures vectorscope.IsReset() && overlay.IsReset()
  {
    var size, squareHeight := SquareSize(windowWidth, windowHeight);
    containerWidth, containerHeight := size, squareHeight;
    var side: nat := size.Floor;
    vectorscope.SetWidth(side);
    vectorscope.SetHeight(side);
    overlay.SetWidth(side);
    overlay.SetHeight(side);
  }
}
