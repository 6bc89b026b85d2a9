# Browser photo critic: a Dafny model of the analysis and scoring core

The photo critic runs in the browser. It reads a photograph's pixels and measures its composition:
- tone clipping and exposure;
- edge strength, the horizon tilt and leading lines;
- the subject box from a saliency map, and the rule of thirds;
- foreground/background balance, colour cast, saturation and sharpness.

From these measurements it writes a ranked list of feedback tags. It proposes up to six crop
variations, scores them and picks the best one. It also brightens and recolours the chosen
render with a tone curve, local contrast and a vignette.

Two scorers rate the candidates:
- The page's inference controller can use a backend, a model in a worker, or a closed-form
  heuristic.
- The worker runs an ONNX or TF.js model and falls back to its own heuristic.

Three small page helpers are included:
- the size clamp for the working canvas;
- the JPEG EXIF orientation reader and the canvas transform that undoes that orientation;
- the engine-status badge.

The project models that core in Dafny:
- Pure computations are functions with named results.
- The pixel loops are methods proved equal to a reference function.
- The engine, the inference controller and the worker's state are classes whose methods
  update their fields.
- The math built-ins (`Math.hypot`, `Math.atan2`, `Math.sqrt`, `Math.pow`, `Math.cos`,
  `Math.sin`) are fields of an `Ops` record. They are constrained only by the range facts the
  proofs need.

Modules, one per concern of the source:

| module | file | models |
|---|---|---|
| `Wrappers`, `Numeric` | wrappers.dfy, numeric.dfy | `Option`, `clamp`, `Math.round`, index arithmetic |
| `CompositionTypes`, `ScoreTypes` | composition_types.dfy, features.dfy | metrics, feedback tags, feature records, scores |
| `CompositionStats` | composition_stats.dfy | `computeStatistics`, `samplePercentile`, `computeHistogram`, `analyseColorBalance` |
| `Gradient` | gradient.dfy | `toGrayscale` (BT.709 and BT.601) and the 3x3 Sobel gradient |
| `CompositionTally` | composition_tally.dfy | the pixel loops of `computeMetrics` |
| `CompositionMetrics` | composition_metrics.dfy | `computeMetrics` |
| `Feedback` | feedback.dfy | `buildFeedback` |
| `Adjustments` | adjustments.dfy | `toneCurve`, `applyToneAndColorAdjustments`, `applyLocalContrast`, `applyVignette` |
| `ContentBounds` | content_bounds.dfy | `computeContentBounds`, `fillCanvasGutters` |
| `CropBox` | crop_box.dfy | `computeCropBox` |
| `Candidates` | candidates.dfy | `candidateFeatures`, `variationList`, class `CompositionEngine` |
| `Saliency`, `SaliencyScan`, `IntegralImage` | saliency.dfy, saliency_scan.dfy, integral.dfy | `estimateSaliency` and its helpers |
| `Horizon` | horizon.dfy | `estimateHorizon` and its helpers |
| `InferenceController` | inference_controller.dfy | class `AIInferenceController` and its heuristic |
| `WorkerInfer` | worker_infer.dfy | the worker's heuristic, `runModel` and its message handler |
| `PageHelpers` | page_helpers.dfy | `scaleDimensions`, `getExifOrientation`, `orientImageSource`, `updateStatusBadge` |

Conventions of the model:
- An image is a row-major sequence of RGBA byte values, four per pixel.
- A JavaScript value that is `NaN` or `undefined` is `None`.

## Model

| member | source | states |
|---|---|---|
| Numeric.Clamp | assets/js/composition_engine.js:4-6 | the result is at most `hi`; it is at least `lo` when `lo <= hi`; a value inside the bounds is kept, and one outside is replaced by the nearer bound |
| Numeric.ClampByte | assets/js/saliency_fallback.js:13-15 | the default bounds 0..255: the result is a byte value, and a byte value is kept |
| Numeric.Round | assets/js/main.js:628 | `Math.round` gives the integer within half a unit of its argument, with halves rounded up |
| CompositionStats.ComputeStatistics | assets/js/composition_engine.js:8-20 | the two loops give the mean and the square root of the population variance; an empty input has none |
| CompositionStats.StatisticsFacts | assets/js/composition_engine.js:8-20 | the mean of values in [lo, hi] lies in [lo, hi]; the variance is never negative; a constant input has that value as its mean and variance 0 |
| CompositionStats.SortAscending | assets/js/composition_engine.js:23 | the numeric sort yields an ascending permutation of the input |
| CompositionStats.AscendingPermutationUnique | assets/js/composition_engine.js:23 | two ascending permutations of the same values are equal, so the sorted order does not depend on the sort algorithm |
| CompositionStats.SamplePercentile | assets/js/composition_engine.js:22-26 | the result is defined exactly when the index `min(n-1, round(p*(n-1)))` is not negative, and it is then one of the input values |
| CompositionStats.PercentileAt | assets/js/composition_engine.js:22-26 | a defined percentile is the sorted input read at that index |
| CompositionStats.PercentileMonotone | assets/js/composition_engine.js:22-26 | for 0 <= p <= q the empty input has no percentile, and a non-empty input has both, with the p-th at most the q-th |
| CompositionStats.PercentileExtremes | assets/js/composition_engine.js:22-26 | percentile 0 is the minimum and percentile 1 the maximum of a non-empty input |
| CompositionStats.Histogram | assets/js/composition_engine.js:28-35 | there are `bins` counters, and counter b is the number of values whose bin `min(bins-1, floor(v/255*bins))` is b |
| CompositionStats.HistogramTotal | assets/js/composition_engine.js:28-35 | with non-negative values every value is counted exactly once: the counters sum to n |
| CompositionStats.ComputeHistogram | assets/js/composition_engine.js:28-35 | the counter loop yields `Histogram` |
| CompositionStats.AnalyseColorBalance | assets/js/composition_engine.js:37-49 | the per-channel mean of red, green and blue; an empty buffer has none |
| CompositionStats.ColorBalanceFacts | assets/js/composition_engine.js:37-49 | channel means of byte data lie in [0, 255], and a grey image has three equal means |
| CompositionTypes.TagId | assets/js/composition_engine.js:300-348 | every feedback tag stands for a `feedback_` dictionary key |
| CompositionTypes.TagIdInjective | assets/js/composition_engine.js:300-348 | distinct tags have distinct keys |
| Gradient.ToGrayscale | assets/js/composition_engine.js:51-64 | one luminance per pixel with the BT.709 weights (the horizon detector's copy at horizon_detector.js:1-14 uses BT.601) |
| Gradient.LumaRange | assets/js/composition_engine.js:51-64 | both weight sets are convex, so the luminance of byte data lies in [0, 255] |
| Gradient.SobelAt | assets/js/composition_engine.js:72-79 | the two 3x3 Sobel sums at an interior pixel, read at flat offsets |
| Gradient.ComputeGradient | assets/js/composition_engine.js:66-85 | every pixel's x and y gradients and magnitude are the closed-form Sobel values, zero on the border; the same loop is `computeGradient` at horizon_detector.js:16-35 |
| Gradient.MagnitudeFacts | assets/js/composition_engine.js:66-85 | the magnitude is non-negative, at least each gradient's absolute value, and zero off the interior |
| Gradient.FlatImageHasNoGradient | assets/js/composition_engine.js:66-85 | a constant image has zero gradients and magnitude everywhere |
| Gradient.PartEnds | assets/js/composition_engine.js:66-85 | before the loop nothing is written, after it every entry is final, and an image under three rows has no interior |
| CompositionTally.TallyTones | assets/js/composition_engine.js:120-129 | the tone loop gives the shadow and highlight clip counts, the midtone count and sum, and the gradient sum |
| CompositionTally.ToneTallyFacts | assets/js/composition_engine.js:120-129 | the three tone classes are disjoint, the midtone sum lies between 96 and 192 times the midtone count, and the gradient sum is non-negative |
| CompositionTally.LineAngle | assets/js/composition_engine.js:147-148 | the edge's line angle, folded from atan2, lies in [-90, 90) |
| CompositionTally.TallyEdges | assets/js/composition_engine.js:131-157 | the edge loop over the interior yields the reference tally |
| CompositionTally.EdgeTallyOfOk | assets/js/composition_engine.js:131-157 | with no strong edge the box keeps its initial values; otherwise it lies inside the interior and the coordinate sums lie between count times the box's edges; the weights are non-negative and the weighted angle sum lies within 90 times the weight sum |
| CompositionTally.SharpnessSum | assets/js/composition_engine.js:231-235 | the sum of squared gradient magnitudes, never negative |
| CompositionTally.ChromaRange | assets/js/composition_engine.js:237-247 | a pixel's chroma `(max-min)/255` lies in [0, 1] and is 0 exactly for a grey pixel |
| CompositionTally.SaturationSum | assets/js/composition_engine.js:237-247 | the saturation loop sums the chroma of the first n pixels |
| CompositionTally.Half | assets/js/composition_engine.js:249 | `floor(height/2)`: twice it is height or height - 1 |
| CompositionTally.SumRows | assets/js/composition_engine.js:250-261 | the half-image loops sum exactly the grey values of rows [y0, y1) |
| CompositionMetrics.ColorCastOf | assets/js/composition_engine.js:188-196 | the cast's bias is mean red minus mean blue, its strength is not negative, and a neutral balance has no cast |
| CompositionMetrics.ColorHarmony | assets/js/composition_engine.js:197 | harmony lies in [0, 1] and is 1 exactly when there is no cast |
| CompositionMetrics.LeadingLinesOf | assets/js/composition_engine.js:199-203 | without band weight the leading lines stay at angle 0 and strength 0; otherwise the angle lies in [-90, 90] and the strength is not negative |
| CompositionMetrics.SubjectOf | assets/js/composition_engine.js:205-223 | with at most 50 strong edges there is no box, the centre is the image centre and there is no offset; otherwise the box starts at or before the strong edges, the centroid lies inside their span, the offsets lie in [-1/2, 1/2] and the size in [0, 1) |
| CompositionMetrics.SubjectBoxCanOverhang | assets/js/composition_engine.js:208-213 | the box's far edges are not clipped: a strong-edge box at the right border of a 10-pixel-wide image reaches x = 12 |
| CompositionMetrics.ThirdDistance | assets/js/composition_engine.js:225-228 | the distance to the nearer thirds line is not negative, at most a third of the axis for a point on the axis, and 0 on a thirds line |
| CompositionMetrics.ThirdsScore | assets/js/composition_engine.js:225-229 | the thirds score is at most 1, exactly 1 on a thirds intersection, and at least 1/3 for a centre inside the image |
| CompositionMetrics.ForegroundBackground | assets/js/composition_engine.js:262-264 | the bottom-to-top brightness ratio of non-negative sums is not negative |
| CompositionMetrics.UniformImageBalanced | assets/js/composition_engine.js:249-264 | an evenly lit image of luminance at least 1 has ratio exactly 1 |
| CompositionMetrics.Share | assets/js/composition_engine.js:177-178 | a clipping share lies in [0, 1] and is 0 exactly when nothing is clipped |
| CompositionMetrics.SharesBounded | assets/js/composition_engine.js:177-178 | the shadow and highlight shares of disjoint counts add up to at most 1 |
| CompositionMetrics.MidtoneBalance | assets/js/composition_engine.js:179 | with midtones the balance lies in [96/255, 192/255]; without them it is the overall mean on a 0..1 scale |
| CompositionMetrics.SaturationOf | assets/js/composition_engine.js:247 | the mean chroma on a 0..255 scale lies in [0, 255] |
| CompositionMetrics.PerPixel | assets/js/composition_engine.js:182 | `textureStrength` and `sharpnessVariance` have the sign of their sums |
| CompositionMetrics.HorizonAngleOf | assets/js/composition_engine.js:166 | without band weight the angle is 0; otherwise the weighted mean lies in [-90, 90] |
| CompositionMetrics.HorizonConfidenceOf | assets/js/composition_engine.js:167 | the confidence lies in [0, 1] and is 0 without band weight |
| CompositionMetrics.EdgeInputOf | assets/js/composition_engine.js:97-100 | the Sobel field and the two percentile thresholds form a well-formed input for the edge loop |
| CompositionMetrics.ComputeEdgeInput | assets/js/composition_engine.js:97-100 | the `sobel` call and the 82nd and 75th percentiles yield `EdgeInputOf` |
| CompositionMetrics.SumHalves | assets/js/composition_engine.js:249-261 | the two row loops sum exactly the top rows [0, floor(H/2)) and the bottom rows [floor(H/2), H) |
| CompositionMetrics.ComputeTallies | assets/js/composition_engine.js:120-157 | the tone, edge, sharpness, saturation and half loops yield the reference tallies |
| CompositionMetrics.TalliesOfOk | assets/js/composition_engine.js:120-264 | every RGBA image's tallies satisfy the tone and edge invariants |
| CompositionMetrics.AnalysisOf | assets/js/composition_engine.js:159-276 | the analyser's feedback is `buildFeedback` of its own metrics |
| CompositionMetrics.BaseMetricsRanges | assets/js/composition_engine.js:159-264 | from valid tallies: exposure, midtone, saturation, clipping shares, harmony and horizon confidence lie in their ranges, the horizon angle in [-90, 90], the subject size in [0, 1) and the thirds score in [1/3, 1] |
| CompositionMetrics.MetricsRanges | assets/js/composition_engine.js:87-276 | the same ranges for every analysed RGBA image |
| CompositionMetrics.FromSaliency | assets/js/composition_engine.js:278-288 | the detector's integer rectangle is read as a box, with its centre and confidence kept |
| CompositionMetrics.FromHorizon | assets/js/composition_engine.js:291-295 | the horizon detector's angle, confidence and line are taken unchanged |
| CompositionMetrics.ApplyDetectors | assets/js/composition_engine.js:278-295 | a saliency result replaces the subject rectangle, centre, confidence, offset (centre over size, minus 0.5) and size share exactly when the override condition holds; a horizon result always replaces the angle, confidence and line; every other field, the feedback among them, is kept |
| CompositionMetrics.SaliencyOverrideCondition | assets/js/composition_engine.js:278 | the analyser's own saliency confidence is still 0, so a saliency result overrides exactly when no subject box was found or its confidence is positive |
| CompositionMetrics.ComputeMetrics | assets/js/composition_engine.js:87-298 | the metrics are the detector overrides applied to the analysis, and the feedback is that of the analyser's own values |
| Feedback.TagAt | assets/js/composition_engine.js:302-343 | the tag at each position of the rule order; `Rank` is its inverse |
| Feedback.Fired | assets/js/composition_engine.js:302-343 | after k positions the list has at most k tags |
| Feedback.FiredPartial | assets/js/composition_engine.js:302-343 | after k positions the list holds exactly the tags of the first k positions whose rule fired, in rule order |
| Feedback.StepOk | assets/js/composition_engine.js:302-343 | each position appends its tag exactly when its rule fires, as `Set.add` of a new member does |
| Feedback.NothingFiredYet | assets/js/composition_engine.js:344 | after the rules the set is empty exactly when no rule fired |
| Feedback.Expected | assets/js/composition_engine.js:300-348 | the reference list satisfies the feedback property: the fired tags in rule order, or `feedback_good` alone |
| Feedback.AddWhen | assets/js/composition_engine.js:302-343 | one guarded `feedback.add` moves the list from position k to k + 1 |
| Feedback.AddColorCast | assets/js/composition_engine.js:332-338 | the colour-cast rule adds the warm tag for a bias of at least 0 and the cool tag otherwise, covering two positions |
| Feedback.FramingAndExposureRules | assets/js/composition_engine.js:302-317 | the rotation, crop, exposure, highlight and shadow rules yield the list after five positions |
| Feedback.ToneRules | assets/js/composition_engine.js:318-325 | the contrast and saturation rules add their pairs, reaching position nine |
| Feedback.DetailAndColorRules | assets/js/composition_engine.js:326-338 | the sharpness, balance and colour-cast rules reach position thirteen |
| Feedback.BuildFeedback | assets/js/composition_engine.js:300-348 | the result is the reference list, and it satisfies the feedback property |
| Feedback.SortedSameMembers | assets/js/composition_engine.js:347 | two lists in rule order with the same members are equal |
| Feedback.FeedbackUnique | assets/js/composition_engine.js:300-348 | the feedback is determined by the metrics |
| Feedback.FeedbackShape | assets/js/composition_engine.js:300-348 | the list has no duplicates and is never empty, and it holds `feedback_good` exactly when no rule fired, and then nothing else |
| Feedback.FeedbackGroups | assets/js/composition_engine.js:318-343 | contrast comes with local contrast and saturation with vibrance; warm and cool exclude each other; every other tag is listed exactly when its rule fires |
| Adjustments.ShadowLift | assets/js/composition_engine.js:405-408 | a non-negative boost never lowers a tone under 0.6, and a tone at or above 0.6 or a non-positive boost is left alone |
| Adjustments.BlackLift | assets/js/composition_engine.js:409-412 | a non-negative lift never lowers the tone, and it changes only tones under 0.4 |
| Adjustments.HighlightPull | assets/js/composition_engine.js:413-416 | a non-negative pull never raises the tone and changes only tones over 0.6, and a pull of at most 0.8 keeps the tone at or above `min(v, 0.6)` |
| Adjustments.ToneCurve | assets/js/composition_engine.js:396-420 | the curve's output lies in [0, 1] |
| Adjustments.ToneCurveNeutral | assets/js/composition_engine.js:396-420 | with every option at its default 0 the curve is the identity on [0, 1] |
| Adjustments.ToneCurveKeepsShadowsUp | assets/js/composition_engine.js:396-420 | non-negative lifts, a pull of at most 0.8 and a non-negative bias plus brightness never darken a tone in [0, 0.6] |
| Adjustments.ClampRgb | assets/js/composition_engine.js:4-6 | channel-wise `clamp` yields byte values and keeps a byte colour |
| Adjustments.Rewritten | assets/js/composition_engine.js:556-644 | the buffer after a pass has the same length as before; pixels before n hold the pass's colour and every other entry is kept |
| Adjustments.RewriteStep | assets/js/composition_engine.js:640-642 | storing pixel p writes the pass's colour, computed from the untouched pixel, into its three colour entries |
| Adjustments.RewrittenEntries | assets/js/composition_engine.js:556-644 | a pass keeps every alpha entry, and its colour entries are bytes when the pixel map always yields bytes |
| Adjustments.RewritePixel | assets/js/composition_engine.js:640-642 | one store of r, g and b extends the rewritten prefix by one pixel |
| Adjustments.RewrittenDarkens | assets/js/composition_engine.js:686-688 | a darkening pixel map leaves every colour entry between 0 and its old value |
| Adjustments.RewriteRows | assets/js/composition_engine.js:556-644 | the nested row and column loops at `idx = (y*width + x)*4` rewrite every pixel exactly once |
| Adjustments.ContrastColour | assets/js/composition_engine.js:665-667 | each channel moves away from the blurred one by `amount`, clamped, and a pixel equal to its blur is kept |
| Adjustments.ApplyLocalContrast | assets/js/composition_engine.js:649-670 | a non-positive amount or an empty canvas leaves the buffer unchanged; otherwise the `i += 4` loop rewrites every pixel with the contrast colour |
| Adjustments.ContrastOfFlatImage | assets/js/composition_engine.js:664-668 | where the blurred copy equals the image, the pass changes nothing |
| Adjustments.VignetteFor | assets/js/composition_engine.js:678-679 | the centre is the focus point or else the canvas centre, and the distance to the farthest corner is positive on a canvas with a pixel |
| Adjustments.VignetteFactor | assets/js/composition_engine.js:683-685 | a strength in (0, 1] gives a factor in [0, 1] |
| Adjustments.VignetteColour | assets/js/composition_engine.js:686-688 | the result is a byte colour, and a factor in [0, 1] keeps each channel between 0 and its old value |
| Adjustments.ApplyVignette | assets/js/composition_engine.js:672-692 | a non-positive strength leaves the buffer unchanged; otherwise every pixel is rewritten with its vignette colour |
| Adjustments.VignetteDarkens | assets/js/composition_engine.js:672-692 | a vignette of strength in (0, 1] only darkens: every colour entry ends between 0 and its old value |
| Adjustments.ToneSettingsFor | assets/js/composition_engine.js:542-554 | the focus defaults to the canvas centre, every lift is positive, the gamma is 0.95, 1.05 or 1 by exposure, the warm shift is positive exactly for a positive bias, and the cool shift and the natural warmth are positive exactly for a negative bias |
| Adjustments.Tone | assets/js/composition_engine.js:563-564 | the Rec. 709 tone of a byte colour lies in [0, 1] |
| Adjustments.CurveStage | assets/js/composition_engine.js:565-577 | the tone-curve scaling keeps a byte colour a byte colour |
| Adjustments.BrightenStage | assets/js/composition_engine.js:579-584 | the brightness lift keeps bytes, and does nothing without a positive lift |
| Adjustments.BlackStage | assets/js/composition_engine.js:586-592 | the black lift keeps bytes, and does nothing without a positive lift or for a tone of at least 0.45 |
| Adjustments.FocusStage | assets/js/composition_engine.js:594-603 | the focus lift keeps bytes, and does nothing for a zero radius |
| Adjustments.GammaStage | assets/js/composition_engine.js:605-609 | the gamma stage keeps bytes, and a gamma of 1 does nothing |
| Adjustments.CastStage | assets/js/composition_engine.js:611-625 | the cast corrections keep bytes, and do nothing without a shift or warmth |
| Adjustments.VibranceStage | assets/js/composition_engine.js:627-638 | a non-zero vibrance clamps every channel, so the result is a byte colour |
| Adjustments.ToneColour | assets/js/composition_engine.js:559-642 | the stages in order, with the tone read once from the incoming pixel, give a byte colour |
| Adjustments.ApplyToneAndColorAdjustments | assets/js/composition_engine.js:538-647 | every pixel is rewritten with the tone colour under the metrics' settings |
| Adjustments.ToneAndColorInBytes | assets/js/composition_engine.js:538-647 | after the pass every colour entry is a byte and every alpha entry is as it was |
| ContentBounds.IncludeFacts | assets/js/composition_engine.js:439-442 | taking in a canvas pixel keeps the box inside the canvas, makes it non-empty, covers the pixel and only widens the box |
| ContentBounds.RowFromHolds | assets/js/composition_engine.js:437-443 | the rest of a coarse row takes in every visible pixel it visits |
| ContentBounds.RowFromEmpty | assets/js/composition_engine.js:437-443 | the rest of a coarse row leaves the box empty exactly when it was empty and no visited pixel is visible |
| ContentBounds.ScanFromHolds | assets/js/composition_engine.js:435-445 | the rest of the coarse scan takes in every visible visited pixel |
| ContentBounds.ScanFromEmpty | assets/js/composition_engine.js:435-445 | the rest of the coarse scan leaves the box empty exactly when it was empty and nothing it visits is visible |
| ContentBounds.CoarseFacts | assets/js/composition_engine.js:435-449 | the coarse box is empty exactly when no visited pixel has alpha above 8; otherwise it lies in the canvas and holds every visible visited pixel |
| ContentBounds.CoarseScan | assets/js/composition_engine.js:435-445 | the coarse loops over every `step`-th pixel of every `step`-th row yield the reference box |
| ContentBounds.RowScan | assets/js/composition_engine.js:459-465 | the inner loop with its `break` finds a visible pixel in row y between x0 and x1 exactly when there is one |
| ContentBounds.ColumnScan | assets/js/composition_engine.js:485-491 | the inner loop with its `break` finds a visible pixel in column x between y0 and y1 exactly when there is one |
| ContentBounds.FindTop | assets/js/composition_engine.js:457-468 | `top` is the first row from startY with content, or endY: every row before it is empty |
| ContentBounds.FindBottom | assets/js/composition_engine.js:470-481 | `bottom` is the last row up to endY with content, or top: every row after it is empty |
| ContentBounds.FindLeft | assets/js/composition_engine.js:483-494 | `left` is the first column from startX with content between top and bottom, or endX |
| ContentBounds.FindRight | assets/js/composition_engine.js:496-507 | `right` is the last column up to endX with content between top and bottom, or left |
| ContentBounds.Refine | assets/js/composition_engine.js:451-515 | the refined rectangle has at least one pixel each way and lies inside the canvas |
| ContentBounds.ComputeContentBounds | assets/js/composition_engine.js:422-523 | `null` exactly for an empty canvas or when no visited pixel is visible; otherwise a rectangle of at least one pixel inside the canvas |
| ContentBounds.FillCanvasGutters | assets/js/composition_engine.js:525-536 | on a non-empty canvas the padded canvas is between 1 pixel and the canvas in each direction, and without visible content the canvas is kept |
| CropBox.AspectPreference | assets/js/composition_engine.js:695 | 3:2 exactly when the canvas is at least as wide as tall, 4:5 otherwise |
| CropBox.SubjectMargin | assets/js/composition_engine.js:696-697 | the margin lies in [0.08, 0.35]; it is 0.16 without a subject or offset, and in [0.1, 0.28] for a subject without offset |
| CropBox.AspectFit | assets/js/composition_engine.js:701-705 | one side is kept and the other shortened to the preferred aspect; a crop of at least a pixel each way stays so |
| CropBox.CropSize | assets/js/composition_engine.js:698-708 | neither side is longer than the canvas, and each is at least 1 on a non-empty canvas |
| CropBox.Place | assets/js/composition_engine.js:731-735 | the crop's edge puts it wholly on the canvas, and for an admissible centre it is the centre less half the size, rounded |
| CropBox.AimedCenter | assets/js/composition_engine.js:710-729 | with a neutral bias and no offset the aimed centre is the subject (or the canvas middle) |
| CropBox.ComputeCropBox | assets/js/composition_engine.js:694-747 | the crop lies wholly on the canvas with at least one pixel each way on a non-empty canvas; its focus is the subject centre in crop coordinates, or the crop's middle without a subject |
| CropBox.CenteredWithoutSubject | assets/js/composition_engine.js:694-747 | without a subject, an offset or a bias, the crop's edges are the rounded halves of the spare width and height |
| Candidates.VariationList | assets/js/composition_engine.js:922-932 | seven variations, `base` first with margin offset 0; each sets exactly one option, within the listed ranges |
| Candidates.VariationIdsDistinct | assets/js/composition_engine.js:922-932 | the variations' ids are pairwise distinct |
| Candidates.FeatureSubject | assets/js/composition_engine.js:879-884 | the detected subject box, or else a box a fifth of the crop's size |
| Candidates.SyntheticSubjectOffCentre | assets/js/composition_engine.js:879-888 | without a subject the scored point lies at 0.6 of the crop's size from its corner, not at the crop's centre |
| Candidates.CandidateFeatures | assets/js/composition_engine.js:875-920 | every field is present; the thirds score is that of the subject box's centre (the detected box, else the synthetic one) against the image, clamped to [0, 1]; the crop area is the crop's positive share of the image; the subject size is the subject box's share of the crop; the confidences come from the detectors when given; and the ten vector entries are the named features |
| Candidates.SyntheticSubjectFeatures | assets/js/composition_engine.js:879-901 | without a detected subject the thirds score is that of the point at 0.6 of the crop, not its centre, and the subject size is exactly 0.04 |
| Candidates.CropBoxArea | assets/js/composition_engine.js:893 | a crop computed for the analysed image covers a share of it in (0, 1] |
| Candidates.SliceLength | assets/js/composition_engine.js:950 | `slice(0, end)` keeps `min(len, end)` entries for a non-negative end and drops `-end` from the back otherwise |
| Candidates.CompositionEngine.constructor | assets/js/composition_engine.js:935-937 | an absent or zero limit becomes 6, any other limit is kept |
| Candidates.CompositionEngine.GenerateCandidates | assets/js/composition_engine.js:949-964 | one candidate per variation kept by the slice, in list order, each with its variation's crop box, the horizon angle as rotation and the features `candidateFeatures` gives for that crop and the detectors, whose vector matches them |
| Candidates.CompositionEngine.EvaluateCandidates | assets/js/composition_engine.js:966-973 | the candidates in order, each with the score at its index; a missing composition or aesthetic score is 0.5 and a missing mode is the rules |
| Candidates.CompositionEngine.SelectBestCandidate | assets/js/composition_engine.js:975-990 | there is no best candidate exactly when the list is empty |
| Candidates.ReduceBestFirst | assets/js/composition_engine.js:977-989 | the `reduce`, started on the first best of a prefix, ends on the first best of the whole list |
| Candidates.SelectBestIsFirstMaximum | assets/js/composition_engine.js:975-990 | the selection is the first candidate that is greatest on (composition, aesthetic): it beats every earlier one, and no later one beats it |
| InferenceController.HorizonTerm | assets/js/ai_inference_controller.js:13 | the horizon term lies in [0, 1]; it is 1 for a level or unknown horizon and 0 from 45 degrees on |
| InferenceController.TextureTerm | assets/js/ai_inference_controller.js:14 | the texture term is at most 1, 0.54 when unknown and not negative for a non-negative texture |
| InferenceController.BalanceTerm | assets/js/ai_inference_controller.js:16 | the balance term lies in [0, 1] and is 1 for an even or unknown balance |
| InferenceController.HeuristicScore | assets/js/ai_inference_controller.js:10-20 | the composition score is at most 0.99 and the aesthetic score at most 0.98 |
| InferenceController.HeuristicDefaults | assets/js/ai_inference_controller.js:10-20 | an empty record scores 0.7332 and 0.65758 |
| InferenceController.HeuristicMonotoneInThirds | assets/js/ai_inference_controller.js:17 | a better thirds score never lowers the composition score |
| InferenceController.HeuristicFloor | assets/js/ai_inference_controller.js:17 | non-negative thirds, saliency and texture scores give a composition score of at least 0.24 |
| InferenceController.FeatureVector | assets/js/ai_inference_controller.js:218-231 | ten entries in the models' order; each present feature at its place and each absent one at its default (0.5, 0.5, 0, 0.1, 1, 1, 0.5, 0.5, 0.2, 0.2) |
| InferenceController.FeatureVectorDefaults | assets/js/ai_inference_controller.js:218-231 | an empty record gives the list of defaults |
| InferenceController.WorkerPayload | assets/js/ai_inference_controller.js:120-123 | every feature record gets a vector, its own if it had one, else a ten-entry one; `ScoreCandidates` records it as the message posted to the worker |
| InferenceController.RulesScore | assets/js/ai_inference_controller.js:145-148 | a rules score carries the heuristic's two scores and the rules mode |
| InferenceController.FallbackResults | assets/js/ai_inference_controller.js:145-151 | one rules score per feature record, index-aligned, each within the caps |
| InferenceController.CloudResults | assets/js/ai_inference_controller.js:100-109 | one cloud score per backend result: a missing composition is the heuristic's, a missing aesthetic the composition; a result past the features that needs the heuristic throws |
| InferenceController.WorkerResults | assets/js/ai_inference_controller.js:130-138 | the worker's results in order, each tagged with the worker's mode |
| InferenceController.AIInferenceController.constructor | assets/js/ai_inference_controller.js:23-36 | a fresh controller is idle, on the rules, uninitialised and without a worker |
| InferenceController.AIInferenceController.Initialize | assets/js/ai_inference_controller.js:38-66 | a no-op once initialised; otherwise it ends initialised: ready in the worker's mode when the worker answered, ready on the rules without a worker or an answer, in error on the rules when the worker cannot be started |
| InferenceController.AIInferenceController.LoadModelWithWorker | assets/js/ai_inference_controller.js:165-187 | the mode follows a successful answer, and is the rules on a failed answer or request; the answer is returned |
| InferenceController.AIInferenceController.Terminate | assets/js/ai_inference_controller.js:68-76 | back to an idle, uninitialised controller on the rules, without a worker |
| InferenceController.AIInferenceController.ScoreCandidates | assets/js/ai_inference_controller.js:78-152 | nothing for no features; otherwise, from the mode `initialize` leaves: in the backend mode with an endpoint, the backend's results when it answers, else the rules' scores and the rules mode without trying the worker; off the rules with a worker, the worker is posted the payload and its results and mode are taken when it answers, else the rules' scores and the rules mode; otherwise the rules' scores with the mode kept; the results are recorded as the last inference |
| WorkerInfer.TextureTerm | assets/js/worker_infer.js:39 | the worker's texture term is at most 1 and 0.6 when unknown |
| WorkerInfer.BalanceTerm | assets/js/worker_infer.js:40 | because `??` binds looser than `-`, the default is 0: an absent ratio gives 1, and so does a present ratio of 0, while an even ratio of 1 gives only 0.5 |
| WorkerInfer.BalanceShiftedByOne | assets/js/worker_infer.js:40 | the worker's balance term of r is the controller's of r + 1 |
| WorkerInfer.HeuristicScore | assets/js/worker_infer.js:35-51 | the worker's composition score is at most 0.99 and its aesthetic score at most 0.98 |
| WorkerInfer.HeuristicDefaults | assets/js/worker_infer.js:35-51 | an empty record scores 0.703 and 0.6398 |
| WorkerInfer.ScorersDiffer | assets/js/worker_infer.js:35-51 | the worker and the controller score an empty record differently |
| WorkerInfer.HeuristicResults | assets/js/worker_infer.js:55 | one heuristic score per feature, in order |
| WorkerInfer.ModelResults | assets/js/worker_infer.js:65-70 | score i reads entry i of the composition tensor, and entry i of the aesthetic tensor or else of the composition tensor |
| WorkerInfer.WorkerState.constructor | assets/js/worker_infer.js:1-3 | the worker starts without a session, on the rules, with no version |
| WorkerInfer.WorkerState.RunModel | assets/js/worker_infer.js:53-100 | without a session or off the local backend, the heuristic's scores; else the model's; when the model throws, the heuristic's after dropping the session and returning to the rules |
| WorkerInfer.WorkerState.LoadModel | assets/js/worker_infer.js:105-132 | a session is obtained exactly for a fetched and created ONNX model or a created TF.js model; the worker is then local, otherwise on the rules, and the reply reports exactly that |
| WorkerInfer.WorkerState.Infer | assets/js/worker_infer.js:133-136 | the reply carries the request's id, the mode and version after the run, and the results of `runModel` over the features (none without an array): the heuristic's with the worker unchanged when it has no local session; else the model's with the worker unchanged, or, when the run fails, the heuristic's with the session dropped and the mode back on the rules |
| Saliency.KernelIsSobelX | assets/js/saliency_fallback.js:1-5 | the kernel loop over `SOBEL_X` computes the closed-form horizontal Sobel response |
| Saliency.KernelIsSobelY | assets/js/saliency_fallback.js:7-11 | the kernel loop over `SOBEL_Y` computes the closed-form vertical Sobel response |
| Saliency.ApplyKernelRow | assets/js/saliency_fallback.js:43-48 | the innermost loop adds the three taps of one kernel row to both sums and advances `k` by 3 |
| Saliency.ApplyKernels | assets/js/saliency_fallback.js:39-49 | the two kernel loops at an interior pixel give the two Sobel responses |
| Saliency.ConvolveSobel | assets/js/saliency_fallback.js:32-58 | the kernel convolution yields the same gradient field as `Gradient.ComputeGradient`, zero on the border |
| Saliency.SaliencyFields | assets/js/saliency_fallback.js:113-115 | the gradient components are the Sobel field of the BT.709 luminance and the map is its normalised magnitude, every entry in [0, 1] |
| Saliency.SeqMin | assets/js/saliency_fallback.js:63-67 | the running minimum is at most every value |
| Saliency.SeqMax | assets/js/saliency_fallback.js:63-67 | the running maximum is at least every value |
| Saliency.BoundsAttained | assets/js/saliency_fallback.js:63-67 | both bounds are values of the sequence |
| Saliency.NormRange | assets/js/saliency_fallback.js:68 | `max - min \|\| 1` is positive, and is either 1 or the spread |
| Saliency.NormalizedRange | assets/js/saliency_fallback.js:60-74 | normalising puts every value in [0, 1] and keeps the order of values |
| Saliency.NormalizedMinIsZero | assets/js/saliency_fallback.js:60-74 | the minimum goes to 0 |
| Saliency.NormalizedMaxIsOne | assets/js/saliency_fallback.js:60-74 | when the values differ, the maximum goes to 1 |
| Saliency.NormalizedConstant | assets/js/saliency_fallback.js:60-74 | a constant map becomes all zeros |
| Saliency.Normalize | assets/js/saliency_fallback.js:60-74 | the two loops yield the normalised map |
| Saliency.Bounds | assets/js/saliency_fallback.js:61-67 | the min/max loop from the two infinities yields the least and greatest value |
| Saliency.Rescale | assets/js/saliency_fallback.js:69-72 | each output is `(v - min) / range` |
| Saliency.ScanBest | assets/js/saliency_fallback.js:119-143 | the four nested loops give the best window over the scan, starting from the full frame and a score of minus infinity |
| Saliency.WindowEnergy | assets/js/saliency_fallback.js:150-159 | the energy loop sums the map and the gradient L1 norm over the chosen rectangle; the energy is non-negative for a non-negative map |
| Saliency.Confidence | assets/js/saliency_fallback.js:160 | the confidence lies in [0, 1] |
| Saliency.RectConfidence | assets/js/saliency_fallback.js:150-160 | the confidence is min(1, e / max(1, 0.6·t)) for the map sum e and the gradient L1 sum t over the rectangle, and lies in [0, 1] |
| Saliency.EstimateSaliency | assets/js/saliency_fallback.js:102-170 | a zero-sized image gives the full frame, confidence 0 and no map; otherwise the map is the normalised gradient magnitude, the rectangle the best window over its integral table and inside the image, the centre the rectangle's centre, and the confidence min(1, e / max(1, 0.6·t)) over that rectangle, with e the map's sum and t the Sobel L1 sum, in [0, 1] |
| SaliencyScan.StepOf | assets/js/saliency_fallback.js:118 | the window step is at least 12 and at least 8% of the shorter side, less the rounding |
| SaliencyScan.StrideOf | assets/js/saliency_fallback.js:124-125 | the stride is at least 8 and at least half the step, less the rounding |
| SaliencyScan.Score | assets/js/saliency_fallback.js:126-135 | a window with a score has a defined inner sum; a band read past the table gives NaN |
| SaliencyScan.Update | assets/js/saliency_fallback.js:136-139 | one iteration keeps the best, or replaces it with this window and its score |
| SaliencyScan.BestOfUnscored | assets/js/saliency_fallback.js:119-143 | the search keeps the full frame with no score exactly when no visited window gets a score |
| SaliencyScan.BestOfIsMaximal | assets/js/saliency_fallback.js:136-139 | the kept score is at least the score of every visited window |
| SaliencyScan.BestOfIsFirst | assets/js/saliency_fallback.js:136-139 | the kept rectangle is a visited window with the kept score, and every earlier window scores lower |
| SaliencyScan.LoopsComputeBestOf | assets/js/saliency_fallback.js:122-143 | the four nested loops compute the best window over the list of visited windows |
| SaliencyScan.ScanWindowsShape | assets/js/saliency_fallback.js:122-125 | every visited window lies strictly inside the image and is at least `step` wide and high, and the windows come in ascending (height, width, y, x) order |
| SaliencyScan.SmallImageHasNoWindows | assets/js/saliency_fallback.js:122-125 | an image no larger than `step` in either direction has no window |
| SaliencyScan.ScanKeepsFullFrame | assets/js/saliency_fallback.js:119-143 | the search keeps the full frame exactly when no window of the scan gets a score |
| SaliencyScan.ScanPicksFirstMaximum | assets/js/saliency_fallback.js:119-143 | otherwise the chosen rectangle is a window inside the image with the maximal score, and the first with that score in (height, width, y, x) order |
| SaliencyScan.BestRectFits | assets/js/saliency_fallback.js:119-143 | the chosen rectangle always lies within the image |
| SaliencyScan.BottomRowsScoreNaN | assets/js/saliency_fallback.js:131 | a window whose bottom band reaches below the image scores NaN and is never chosen |
| IntegralImage.ComputeIntegralMap | assets/js/saliency_fallback.js:76-88 | entry (x, y) of the (W+1) x (H+1) table is the sum of the map over [0, x) x [0, y), and row 0 and column 0 stay zero |
| IntegralImage.PrefixEdges | assets/js/saliency_fallback.js:77 | row 0 and column 0 of the table are zero |
| IntegralImage.RowsNonNegative | assets/js/saliency_fallback.js:76-88 | a map of non-negative values has non-negative rectangle sums |
| IntegralImage.Read | assets/js/saliency_fallback.js:95-98 | a read inside the table gives its entry, and a read outside gives `undefined` |
| IntegralImage.SumAreaDefined | assets/js/saliency_fallback.js:90-100 | `sumArea` is a number exactly when all four corner reads fall inside the table |
| IntegralImage.TableCorner | assets/js/saliency_fallback.js:90-100 | reading the table at a corner gives the prefix sum up to that corner |
| IntegralImage.RectFromPrefixes | assets/js/saliency_fallback.js:94-99 | by inclusion and exclusion, a rectangle's sum comes from the four prefix sums at its corners |
| IntegralImage.SumAreaCorrect | assets/js/saliency_fallback.js:90-100 | over the table of a map, `sumArea` is that map's sum over any rectangle inside the image |
| IntegralImage.BelowTableIsNaN | assets/js/saliency_fallback.js:90-100 | a query whose bottom edge lies below the table reads past its end, so the sum is NaN |
| Horizon.Trunc | assets/js/horizon_detector.js:76 | truncation toward zero, as the `%` operator uses |
| Horizon.JsRem | assets/js/horizon_detector.js:76 | the JavaScript remainder has the sign of its dividend, and lies in [0, m) for a non-negative one |
| Horizon.JsRemShift | assets/js/horizon_detector.js:76 | the remainder differs from the dividend by a whole number of `m` |
| Horizon.FoldAngle | assets/js/horizon_detector.js:75-77 | for any atan2 output the folded angle lies in (-90, 90] |
| Horizon.FoldAngleShift | assets/js/horizon_detector.js:75-77 | the folded angle is the gradient direction turned by whole half turns |
| Horizon.Alignment | assets/js/horizon_detector.js:78 | the alignment lies in [0, 1] and is 1 exactly for a level edge |
| Horizon.Weight | assets/js/horizon_detector.js:79 | the weight lies in [0, magnitude], equals it for a level edge and is below it otherwise |
| Horizon.MaskTop | assets/js/horizon_detector.js:65 | the band's top row lies in [0, H] |
| Horizon.MaskBottom | assets/js/horizon_detector.js:66 | the band's bottom row lies between its top and H |
| Horizon.SampleAt | assets/js/horizon_detector.js:70-82 | a pixel pushes at most one sample, recorded at its own index |
| Horizon.BandSamplesFromBand | assets/js/horizon_detector.js:68-84 | only pixels in rows [floor(0.2H), floor(0.8H)) and columns [1, W-1) with magnitude at least 48 contribute, each with its folded angle and a positive weight |
| Horizon.CollectPixel | assets/js/horizon_detector.js:70-82 | one pixel appends its angle and weight exactly when it is sampled |
| Horizon.CollectColumns | assets/js/horizon_detector.js:69-83 | the inner loop collects exactly the row's samples, in column order |
| Horizon.CollectRow | assets/js/horizon_detector.js:69-83 | one turn of the outer loop appends the row's samples to those of the earlier rows |
| Horizon.CollectSamples | assets/js/horizon_detector.js:63-84 | the pushed angles and weights are those of the band's samples, in loop order |
| Horizon.WeightedAverage | assets/js/horizon_detector.js:37-46 | the accumulator loop gives the weighted mean, and 0 for zero total weight |
| Horizon.WeightedMeanBounds | assets/js/horizon_detector.js:37-46 | with non-negative weights the weighted mean lies between the least and the greatest value, and is 0 when the weights sum to 0 |
| Horizon.HorizonConfidence | assets/js/horizon_detector.js:87 | the confidence lies in [0, 1] |
| Horizon.LineThroughFacts | assets/js/horizon_detector.js:89-97 | the line's endpoints are symmetric about the centre and `length` apart |
| Horizon.EstimateHorizon | assets/js/horizon_detector.js:48-100 | a zero-sized image gives angle 0, confidence 0 and the level midline; otherwise the angle is the weighted mean of the sampled angles, in [-90, 90], the confidence is min(1, Σweights / (W·H·22)) and lies in [0, 1], and the line has length max(W, H) and is centred on the image |
| PageHelpers.ScaleDimensions | assets/js/main.js:622-631 | the size is kept when the longer side fits; otherwise the longer side (the height for a square or portrait image) becomes `maxSize` and the other side is the aspect-preserving length rounded to within half a pixel |
| PageHelpers.FitShorter | assets/js/main.js:628-630 | the shorter side, rounded, lies in [0, maxSize] within half a pixel of `maxSize * shorter / longer` |
| PageHelpers.U16 | assets/js/main.js:646 | `getUint16` is defined exactly when both bytes lie in the buffer, and gives a 16-bit value |
| PageHelpers.U32 | assets/js/main.js:657 | `getUint32` is defined exactly when all four bytes lie in the buffer |
| PageHelpers.App1Step | assets/js/main.js:654-670 | when the APP1 branch moves on, the next marker lies at least 10 bytes further |
| PageHelpers.SegmentStep | assets/js/main.js:652-675 | a turn of the marker loop that continues moves on by at least 2 bytes, so the loop ends |
| PageHelpers.ReadApp1 | assets/js/main.js:654-670 | the APP1 branch with its loop over the IFD entries yields the reference step |
| PageHelpers.GetExifOrientation | assets/js/main.js:642-681 | the marker loop yields the reference orientation, a 16-bit value |
| PageHelpers.ScanMarkersFacts | assets/js/main.js:649-680 | whatever the marker loop returns is 1 or a 16-bit value read eight bytes past an orientation entry |
| PageHelpers.ExifOrientationRange | assets/js/main.js:642-681 | the orientation is 1 or the value eight bytes past an orientation (0x0112) entry, read in the entry's byte order |
| PageHelpers.NotJpegIsUpright | assets/js/main.js:646-648 | a file that does not start with FF D8 has orientation 1 |
| PageHelpers.NonExifApp1IsUpright | assets/js/main.js:657-659 | a JPEG whose first APP1 block is not labelled `Exif` has orientation 1 |
| PageHelpers.OrientedSize | assets/js/main.js:689-737 | orientations 5 to 8 swap the canvas's sides and the others keep them |
| PageHelpers.TransformMatchesExif | assets/js/main.js:689-737 | every case's canvas calls compose to the mapping the EXIF standard gives that orientation |
| PageHelpers.OrientationInsideCanvas | assets/js/main.js:689-739 | every orientation draws each point of the image onto the canvas |
| PageHelpers.OrientationCorners | assets/js/main.js:689-739 | every orientation sends the image's corners exactly onto the canvas's corners |
| PageHelpers.StatusBadge | assets/js/main.js:215-233 | the state's key, or the loading key for an unknown state; the `ready` class exactly for ready, local and cloud, the `error` class exactly for error |
| PageHelpers.BadgeKeys | assets/js/main.js:219-227 | every badge shows one of the five status texts, and a ready badge shows a ready or cloud text |

## Left out

- Page and UI work in assets/js/main.js (guides, canvas rendering, translation, metric panels, the DOM writes of `updateStatusBadge` and `updateAiPanel`, event listeners, downloads): presentation only, with no logic beyond what the helpers model.
- File reading (`FileReader`, `createImageBitmap`, image elements): I/O. `readFileAsArrayBuffer` hands the parser a prefix of at most 128 KiB; the model takes that byte prefix as the parameter of `PageHelpers.GetExifOrientation`.
- service-worker.js and console logging: cache plumbing and diagnostics only.
- `improveImage`, `rotateCanvas`, `applySubtlePerspective` and `drawSaliencyHeatmap`: canvas drawing and resampling, whose pixels come from the browser's `drawImage`.
- `CompositionEngine.analyse` and `renderCandidate`: thin wrappers that call canvas code and then the modelled `computeMetrics`, `estimateSaliency` and `estimateHorizon`. The detector results they collect are a parameter of `CompositionMetrics.ComputeMetrics`.
- The `blur(2px)` copy used by `applyLocalContrast`: canvas filtering. The blurred buffer is a parameter of `Adjustments.ApplyLocalContrast`.
- Float32 storage and `Uint8ClampedArray` round-on-store: the model computes with exact reals and stores the clamped real value, without the rounding the typed array applies on store. `Math.hypot`, `atan2`, `sqrt`, `pow`, `cos` and `sin` are fields of the `Ops` record, constrained only by the range facts the code relies on.
- The saliency result's `gradX`/`gradY` arrays: they are computed by `Saliency.ConvolveSobel` but not returned by `Saliency.EstimateSaliency`, since no caller in the core reads them from the result.
- Timing (`performance.now`, `latency`, `lastInference` timestamps), `getStatus`, the `lastError` message text and the `modelUrl`/`modelFormat`/`modelVersion` options: diagnostics that no decision depends on.
- Worker message passing (`_postToWorker` id matching, error events, a worker that never answers) and the worker's `terminate` message: concurrency. Worker, cloud `fetch`, ONNX and TF.js outcomes are parameters of the controller and worker methods.
- The localisation lookup of the badge text: `PageHelpers.StatusBadge` stops at the translation key and the CSS classes.
- The `drawImage` call of `orientImageSource`: `PageHelpers.OrientedSize` and `PageHelpers.OrientCalls` give the canvas size and the exact transform of each case, with the ±90° and 180° trig taken as exact 0/±1 and the size taken from `naturalWidth`/`naturalHeight` as given.
- CompositionMetrics.ComputeMetrics: requires width > 0 and height >= 2, because the source divides by the pixel count and by the sampled row count and yields NaN metrics otherwise.
- CompositionStats.AnalyseColorBalance: requires a whole number of RGBA pixels, as every caller passes a canvas buffer.
- Candidates.CandidateFeatures: requires a non-empty image and crop, because the source divides by both and yields NaN features otherwise.
- ContentBounds.Refine: states only that the refined box is non-empty and inside the canvas, not which rows and columns the four `while` loops stop on.
- PageHelpers.ScaleDimensions: requires maxSize > 0; every call in the page passes a positive constant.
