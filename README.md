# Vectorscope: a Dafny model of its analysis core

The application is a browser vectorscope. It shows stereo audio as a phase plot, with four loudness meters beside it. This project models the parts of it that compute something:

- **drawVectorscope** (`vectorscope.dfy`, module `Vectorscope`). One frame first fades the canvas with a translucent black rectangle. It then draws one short segment per sample pair, at the pair's mid/side position. Every segment is stroked in a colour taken from the loudest bin of the two magnitude spectra. The loudest bin is found by a first-strict-maximum scan, and its index is converted to Hz with a fixed Nyquist frequency of 22050 Hz.
- **getFrequencyColor and calculateRMS** (`utils.dfy`, module `Utils`). getFrequencyColor normalises the frequency logarithmically between 20 Hz and 16 kHz, with no clamping. It then applies a six-sector HSV-to-RGB conversion at full saturation and value, and rounds each channel to 0..255. calculateRMS is the mean-of-squares RMS.
- **updateVUMeter and adjustCanvasSize** (`ui.dfy`, module `Ui`):
  - updateVUMeter fills mid and side buffers and converts four RMS values to decibels. It maps each to a meter percentage clamped to [0, 100].
  - adjustCanvasSize sizes both canvases to the same square, min(window width, 0.8 · window height).
- **Shared pieces.** `stereo.dfy` (module `Stereo`) holds the mid/side decomposition that both drawVectorscope and updateVUMeter use. `canvas.dfy` (module `Canvas`) models the browser's 2D canvas as a class. Its state is the bitmap size, the three context properties the code sets and the log of drawing commands issued since the last clear. `wrappers.dfy` holds `Option`.

The numbers are Dafny reals: exact arithmetic, no IEEE rounding. Three library functions become parameters:

- Math.log is a parameter `ln`. Where a property needs more, the lemma asks for `ln` to be increasing.
- Math.log10 is a parameter `log10`.
- Math.sqrt is a parameter `sqrt`. It must satisfy `Utils.IsSquareRoot`: non-negative, and its square gives back its argument.

JavaScript's `%` truncates toward zero. It is written out as `Utils.JsRem2`. Math.round is `floor(x + 0.5)`.

Two undefined values of the source are kept explicit instead of becoming NaN:

- When the dominant bin is 0 (a silent spectrum, or a spectrum whose loudest bin is the DC bin), the source computes the logarithm of 0 Hz. It then writes a colour string with a NaN channel, which the canvas rejects, so the stroke style stays what it was. The model gives `None` for that colour, and `Canvas.Surface.SetStrokeStyle` ignores `None`. The marks of such a frame are therefore drawn in the previous stroke style.
- A silent meter buffer has RMS 0, whose decibel value is -Infinity. The model writes it as `Ui.MinusInfinity`, and the clamp maps it to 0 %.

## Model

| member | source | states |
|---|---|---|
| Vectorscope.ScanPeak | js/vectorscope.js:37-45 | after n bins the running pair is the first peak: the bin is below n, its amplitude is the largest of all n amplitudes, and every earlier bin is strictly quieter; with no bins it is (0, 0) |
| Vectorscope.FindDominantBin | js/vectorscope.js:37-45 | the loop over all bins ends with `dominantFrequencyBin` and `maxAmplitude` equal to the first peak of the whole spectrum |
| Vectorscope.FirstPeakUnique | js/vectorscope.js:39-44 | the first-peak property determines the peak: two peaks satisfying it are equal, so the scan's answer is the only correct one |
| Vectorscope.SilentSpectrum | js/vectorscope.js:37-45 | when every magnitude in both channels is 0, the bin and the maximum both stay 0 |
| Vectorscope.SingleLoudBin | js/vectorscope.js:39-44 | when only bin k is non-zero, in either channel, the scan returns k with that bin's amplitude |
| Vectorscope.EarlierTieWins | js/vectorscope.js:41 | a bin whose amplitude equals that of an earlier bin is never the answer, because the comparison is strict |
| Vectorscope.BinToHz | js/vectorscope.js:48 | the bin frequency lies in [0, 22050) and is 0 exactly when the bin is 0 |
| Vectorscope.TraceColour | js/vectorscope.js:47-53 | the frame's stroke colour is undefined (None) exactly when the dominant bin is 0; otherwise it is the opaque rgb() of getFrequencyColor at that bin's frequency |
| Vectorscope.SilentSpectrumKeepsStroke | js/vectorscope.js:48-53 | a silent spectrum yields no colour, so the marks keep the stroke style the canvas already had |
| Vectorscope.TraceColourInByteRange | js/vectorscope.js:47-53 | with at most 1102 bins and an increasing logarithm, every bin above 0 lies at 20 Hz or more, so all three channels of the colour lie in [0, 255] |
| Vectorscope.PointOnCanvas | js/vectorscope.js:33-34 | samples in [-1, 1] plot to a point with 0 <= x <= width and 0 <= y <= height |
| Vectorscope.UnplotInvertsPlot | js/vectorscope.js:33-34 | on a canvas of positive size the plotted point gives back its mid and side values exactly |
| Vectorscope.DrawVectorscope | js/vectorscope.js:11-60 | the canvas size is unchanged; the old commands stay in place, followed by exactly one full-canvas fade rectangle and one segment (x, y)–(x+1, y+1) per sample in index order; every segment uses line width 2 and the same stroke, the frame's colour, or the previous stroke style when that colour is undefined |
| Stereo.MidSide | js/vectorscope.js:30-31 | mid + side gives back the left sample and mid - side the right one; full-scale inputs give full-scale mid and side |
| Stereo.MidSideUnique | js/vectorscope.js:30-31 | the decomposition is the only pair that recombines to (left, right) |
| Stereo.MonoAndAntiPhase | js/ui.js:282-283 | side is 0 exactly for a mono pair (L == R), and mid is 0 exactly for an anti-phase pair (L == -R) |
| Canvas.Surface.constructor | js/ui.js:39-40 | a new canvas is 300 × 150, with black fill and stroke, line width 1 and nothing drawn |
| Canvas.Surface.SetWidth | js/ui.js:243-246 | assigning the width sets it, keeps the height and resets the canvas: cleared, default styles |
| Canvas.Surface.SetHeight | js/ui.js:243-246 | assigning the height sets it, keeps the width and resets the canvas |
| Canvas.Surface.SetFillStyle | js/vectorscope.js:18 | sets the fill style and changes nothing else |
| Canvas.Surface.FillRect | js/vectorscope.js:19 | appends one rectangle in the current fill style and changes nothing else |
| Canvas.Surface.SetLineWidth | js/vectorscope.js:21 | sets the line width and changes nothing else |
| Canvas.Surface.SetStrokeStyle | js/vectorscope.js:53 | an accepted colour becomes the stroke style; an undefined one leaves the style unchanged; nothing else changes |
| Canvas.Surface.StrokeSegment | js/vectorscope.js:55-58 | appends one segment in the current stroke style and line width and changes nothing else |
| Utils.JsRem2 | js/utils.js:17 | the truncating remainder `a % 2` lies in [0, 2) for non-negative a and in (-2, 0] for negative a |
| Utils.RemOnInterval | js/utils.js:17 | on [2k, 2k+2) the remainder is h - 2k |
| Utils.CrossFadeIsTriangle | js/utils.js:17 | for h >= 0 the cross-fade `1 - |(h % 2) - 1|` is the triangle wave of h mod 2 and lies in [0, 1] |
| Utils.NegativeCrossFade | js/utils.js:17 | for negative h the cross-fade lies in (-2, 0] |
| Utils.Sector | js/utils.js:20-25 | the if-chain picks branch k <= 5 with k <= h < k+1 for the first five branches; every h >= 5 takes the last branch |
| Utils.SectorOfInterval | js/utils.js:20-25 | the branch depends only on the unit interval that h lies in |
| Utils.SectorMonotone | js/utils.js:20-25 | a larger h never selects an earlier branch |
| Utils.HsvToRgb | js/utils.js:19-25 | in every branch one channel is 1 and another is 0 |
| Utils.FirstSectors | js/utils.js:17-21 | on [0, 1) the colour is (1, h, 0); on [1, 2) it is (2 - h, 1, 0) |
| Utils.MatchesReferenceHsv | js/utils.js:15-25 | for 0 <= h < 6 the branches agree with the closed-form HSV conversion at full saturation and value |
| Utils.BeyondMaxFreqDoesNotWrap | js/utils.js:10-25 | a hue above 1 is not wrapped: at h = 7 the code gives (1, 0, 1) while the periodic HSV conversion gives (1, 1, 0) |
| Utils.RoundUnit | js/utils.js:28-30 | rounding v · 255 for v in [0, 1] gives an integer in [0, 255] |
| Utils.HueColor | js/utils.js:16-31 | the rounded colour has one channel equal to 255 and another equal to 0 |
| Utils.ChannelsInByteRange | js/utils.js:16-31 | for a hue >= 0 all three channels lie in [0, 255] |
| Utils.HueEndPoints | js/utils.js:16-31 | both hue 0 and hue 1 (h = 6, last branch with cross-fade 0) give (255, 0, 0) |
| Utils.NormalisedHue | js/utils.js:10-13 | the normalised hue is 0 at minFreq and 1 at maxFreq |
| Utils.HueSectorMonotone | js/utils.js:10-25 | with an increasing logarithm, a higher frequency never selects an earlier branch |
| Utils.GetFrequencyColor | js/utils.js:8-32 | the colour at minFreq and at maxFreq is (255, 0, 0) |
| Utils.SumOfSquares | js/utils.js:40 | the left fold of squares is non-negative |
| Utils.SumOfSquaresZero | js/utils.js:40 | the sum of squares is 0 exactly when every sample is 0 |
| Utils.SumOfSquaresBound | js/utils.js:40 | for samples in [-1, 1] the sum of squares is at most the length |
| Utils.MeanSquare | js/utils.js:41 | the mean of squares of a non-empty buffer is non-negative |
| Utils.MeanSquareZero | js/utils.js:40-41 | the mean of squares is 0 exactly when every sample is 0 |
| Utils.MeanSquareOfUnitSamples | js/utils.js:40-41 | for samples in [-1, 1] the mean of squares is at most 1 |
| Utils.RmsBounds | js/utils.js:39-42 | a non-negative square root of the mean of squares is 0 exactly on silence and at most 1 for full-scale samples |
| Utils.CalculateRms | js/utils.js:39-42 | calculateRMS returns the non-negative root of the mean of squares; it is 0 exactly on silence and at most 1 for full-scale samples |
| Ui.ToDecibels | js/ui.js:292-295 | the decibel value is -Infinity exactly when the RMS is 0 |
| Ui.DbToPercentage | js/ui.js:290 | the percentage lies in [0, 100]; -Infinity and anything at or below -60 dB give 0, anything at or above 0 dB gives 100, and strictly between the two it lies strictly inside (0, 100) |
| Ui.PercentageEndPoints | js/ui.js:290 | -60 dB gives 0 %, 0 dB gives 100 % and -Infinity gives 0 % |
| Ui.PercentageMonotone | js/ui.js:290 | a louder reading never gives a lower percentage, -Infinity included |
| Ui.PercentageStrictBetween | js/ui.js:290 | between -60 dB and 0 dB the percentage is strictly increasing |
| Ui.PercentageRoundTrip | js/ui.js:290 | on [0, 100] the scale inverts: 0.6 · p - 60 dB reads exactly p % |
| Ui.MeterLevel | js/ui.js:292-295 | a meter level lies in [0, 100] and is 0 for a silent buffer |
| Ui.MidSideBuffers | js/ui.js:279-284 | both buffers have the left channel's length; at every index they hold the mid and the side of that sample pair, and they recombine to both channels |
| Ui.ChannelsRecombine | js/ui.js:281-284 | mid + side gives back the left buffer and mid - side the right one, element-wise |
| Ui.UpdateVUMeter | js/ui.js:264-296 | nothing is shown when a meter element is missing; otherwise the four levels are those of the left, right, mid and side buffers |
| Ui.SilentRightMetersAgree | js/ui.js:282-295 | with a silent right channel the mid and side buffers are equal, and so are their meter levels |
| Ui.SilenceEmptiesMeters | js/ui.js:286-295 | silence in both channels puts all four meters at 0 |
| Ui.SquareSize | js/ui.js:231-238 | the container is square, and its size is the smaller of the window width and 0.8 · window height |
| Ui.AdjustCanvasSize | js/ui.js:226-246 | the container is the square min(width, 0.8 · height); both canvases get its integer part as width and height, identical and square, and both are cleared |

## Left out

- js/audio.js: microphone capture, the audio graph of gain, splitter and analysers, and the animation loop. These are platform calls with no computation. The file also imports `getThemeColors` from js/utils.js, which does not export it; that import is not part of this model.
- js/overlay.js (drawOverlay): fixed drawing calls for the graticule. After adjustCanvasSize the overlay is left cleared; the redraw at js/ui.js:248 is not modelled.
- js/main.js and the DOM construction, listeners and slider handlers of js/ui.js (js/ui.js:21-220). This is element wiring with no computation.
- The colour theme: changeColorTheme is empty, and drawVectorscope takes no colour argument.
- IEEE-754 doubles and Float32Array storage: all arithmetic is exact over the reals, so no rounding and no overflow is modelled.
- Math.log, Math.log10 and Math.sqrt: these are parameters, so the model does not fix their values. Properties that need them assume only an increasing `ln`, and `sqrt` satisfying `Utils.IsSquareRoot`.
- The NaN channel for dominant bin 0 is modelled as an undefined colour (None), not as a string containing NaN.
- Negative colour channels are not clamped. A hue below 0 (a frequency under 20 Hz, which no non-zero bin of at most 1102 bins reaches) gives negative channels, which CSS would clamp to 0. The model describes the numbers only.
- Vectorscope.DrawVectorscope: requires the right buffers to be at least as long as the left ones. The source would read `undefined` past the end of a shorter right buffer, which the model does not represent.
- Ui.UpdateVUMeter: requires non-empty buffers. For an empty buffer the source divides 0 by 0, so the level is NaN; that path is not modelled. The CSS writes are modelled as the four returned percentages.
- Utils.CalculateRms: requires a non-empty buffer, because the source divides by the length. The copy at js/ui.js:303-306 is the same code and is modelled by this one function.
- Ui.AdjustCanvasSize: the container's CSS size is returned, not written. Assigning a fractional size to a canvas dimension is modelled as truncation to an integer.
