/**
 * Mid/side decomposition of one left/right sample pair, as computed in
 * drawVectorscope (js/vectorscope.js) and in updateVUMeter (js/ui.js).
 */
module Stereo {

  datatype StereoSample = StereoSample(mid: real, side: real)

  /**
   * mid = (L + R) / 2 and side = (L - R) / 2: the halved sum and difference,
   * which invert exactly and keep full-scale inputs in full scale.
   */
  function MidSide(left: real, right: real): (s: StereoSample)
    ensures s.mid + s.side == left && s.mid - s.side == right
    ensures -1.0 <= left <= 1.0 && -1.0 <= right <= 1.0 ==>
      -1.0 <= s.mid <= 1.0 && -1.0 <= s.side <= 1.0
  {
    StereoSample((left + right) / 2.0, (left - right) / 2.0)
  }

  /** The decomposition is the only pair that recombines to (left, right). */
  lemma MidSideUnique(left: real, right: real, s: StereoSample)
    requires s.mid + s.side == left && s.mid - s.side == right
    ensures s == MidSide(left, right)
  {
  }

  /** A mono pair (L == R) has no side; an anti-phase pair (L == -R) has no mid. */
  lemma MonoAndAntiPhase(left: real, right: real)
    ensures MidSide(left, right).side == 0.0 <==> left == right
    ensures MidSide(left, right).mid == 0.0 <==> left == -right
  {
  }
}
