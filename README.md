# FlowAngle geometric analysis and parameter exploration, in Dafny

FlowAngle draws a regular polygon whose sides are replaced by cubic Bézier
"flow" curves. `GeometricAnalyzer` (geometric_analysis.js) samples those
curves, finds where they cross, splits the figure into an outer region or a
center region plus one petal per side, and fits the largest inscribed
rectangle and ellipse into each region. `ParameterSpaceExplorer`
(parameter_explorer.js) turns an analysis into a metrics record, flags
degenerate shapes, classifies a set of configurations into extremes and
archetypes, and lists the novel ones.

This project models that core. Coordinates, areas and scores are Dafny
`real`s: exact rationals, so the geometric identities hold exactly. Anything
the source computes with `Math.sqrt`, `Math.atan2`, `Math.cos`/`Math.sin` or
`Math.PI` enters as a parameter: `sqrt`, the `atan2` used for the polar
sort, a `Trig(pi, cos, sin)` record for the ellipse samples, and the grid of
candidate points for the center region.

Modules, in dependency order:

- `Wrappers`: `Option`.
- `Seqs`: `Filter`, `Sum`, `MinOf`/`MaxOf`, and the subsequence relation.
- `Geometry`: points, cross product, squared distance, bounding box,
  centroid, shoelace area, ray casting.
- `Bezier`: curve sampling and control points.
- `Intersections`: segment intersection, per-pair deduplication, all pairs.
- `Sorting`: a stable insertion sort by a real key, standing for `Array.prototype.sort`.
- `Hull`: pivot choice and the Graham-scan stack sweep.
- `Inscribed`: the rectangle and ellipse grid searches over a shared
  first-strict-maximum skeleton.
- `Regions`: the outer, center and petal region definitions.
- `Analyzer`: the `GeometricAnalyzer` class, with its `curves`,
  `intersections` and `regions` fields.
- `Metrics`: the `calculateMetrics` area pass, scores and `checkDegenerate`.
- `Classify`: extremes, archetype filtering, sorting and top-10 truncation.
- `Explorer`: the `ParameterSpaceExplorer` class, with its `discoveries`
  map, the novelty listing and the reason tables.

Each imperative routine of the source is a method that is proved against a
specification function, and the lemmas state what the source promises about
that function. Examples of such promises: the running maxima keep the first
strict maximum; deduplicated crossings are 3 apart; the hull turns left at
every retained triple.

## Model

| member | source | states |
|---|---|---|
| Geometry.SqDist | geometric_analysis.js:193-197 | The squared distance is non-negative and 0 for equal points; dedup compares it against 3² instead of taking a square root |
| Geometry.BoundingBox | geometric_analysis.js:415-424 | The box is all zeros for no points; otherwise it contains every point, and each of its four bounds is attained by some point |
| Geometry.BoxOrdered | geometric_analysis.js:415-424 | For a non-empty input minX ≤ maxX and minY ≤ maxY |
| Geometry.CentroidInBox | geometric_analysis.js:398-424 | The centroid (the mean of the points) of a non-empty set lies inside its bounding box |
| Geometry.CalculatePolygonArea | geometric_analysis.js:383-393 | The shoelace loop returns the closed-polygon area `PolygonArea`; it is ≥ 0 and exactly 0 for fewer than 3 points |
| Geometry.TriangleArea | geometric_analysis.js:383-393 | The area of a triangle is half the absolute cross product of its corners |
| Geometry.PolygonAreaRotate | geometric_analysis.js:383-393 | The area does not depend on which vertex the polygon starts at |
| Geometry.IsPointInPolygon | geometric_analysis.js:367-378 | The toggling loop computes the parity predicate `PointInPolygon`; an empty polygon gives false |
| Geometry.ParityOfCount | geometric_analysis.js:367-378 | The toggled flag equals "the number of crossed edges is odd" |
| Geometry.CrossingXBetween | geometric_analysis.js:373-374 | The division happens only on a straddling edge (yi ≠ yj), and the crossing abscissa lies between the edge's endpoints |
| Geometry.StraddleCountEven | geometric_analysis.js:367-378 | Round a closed polygon, the number of edges that straddle a horizontal line is even |
| Geometry.SomeCrossing | geometric_analysis.js:367-378 | A point reported inside has at least one crossed edge |
| Geometry.InsideWithinBox | geometric_analysis.js:367-424 | A point reported inside lies within the polygon's bounding box (minX ≤ x < maxX, minY ≤ y < maxY) |
| Bezier.SampleCurve | geometric_analysis.js:85-101 | Exactly samples+1 points; point i carries t = i/samples; the first point is (p0, t=0) and the last is (p1, t=1); t strictly increases within [0, 1] |
| Bezier.CurveEnds | geometric_analysis.js:85-101 | The cubic Bernstein form evaluates to p0 at t=0 and p1 at t=1 |
| Bezier.ParameterPair | geometric_analysis.js:87-88 | For i < j ≤ n, 0 ≤ i/n < j/n ≤ 1 |
| Bezier.BernsteinWeights | geometric_analysis.js:89-96 | The four Bernstein weights sum to 1 and are non-negative on [0, 1] |
| Bezier.ControlPoint | geometric_analysis.js:54-57 | `v + (apex − v)·flowFactor` is collinear with v and the apex; it is v at flowFactor 0 and the apex at 1 |
| Bezier.FlatCurveOnChord | geometric_analysis.js:54-66 | At flowFactor 0 every curve point lies on the chord between the two vertices |
| Intersections.LineSegmentIntersection | geometric_analysis.js:167-188 | None when \|denominator\| < 1e-10; a returned point lies on both segments, at parameters t and u in [0, 1] |
| Intersections.CommonPoint | geometric_analysis.js:167-188 | For a non-zero denominator, p1 + t(p2−p1) and p3 + u(p4−p3) are the same point |
| Intersections.HitOnBoth | geometric_analysis.js:167-188 | When t and u lie in [0, 1], the reported point is on both segments |
| Intersections.IntersectionFound | geometric_analysis.js:167-188 | Conversely, two non-parallel segments that share a point give that point (completeness) |
| Intersections.DiagonalsCrossAtCenter | geometric_analysis.js:167-188 | (0,0)-(10,10) against (0,10)-(10,0) gives (5,5) |
| Intersections.DedupSeparated | geometric_analysis.js:144-156 | Retained intersections of one pair are pairwise at distance ≥ 3 |
| Intersections.DedupCovers | geometric_analysis.js:144-156 | Every found hit lies within distance 3 of some retained intersection |
| Intersections.DedupSubseq | geometric_analysis.js:144-156 | The retained list is a subsequence of the hits in discovery order |
| Intersections.DedupKeepsFirst | geometric_analysis.js:144-156 | The first hit is always retained (first found wins) |
| Intersections.DedupThresholdExamples | geometric_analysis.js:144-156 | A hit at distance 1 is dropped, and one at distance 5 is kept |
| Intersections.FindCurvePairIntersections | geometric_analysis.js:126-162 | The nested segment loops with dedup compute `PairIntersections` (deduplicated hits in scan order) |
| Intersections.PairIntersectionsTagged | geometric_analysis.js:126-162 | Every retained intersection is a candidate hit tagged with the pair's two curve indices |
| Intersections.FindCurveIntersections | geometric_analysis.js:106-121 | The pair loops concatenate the per-pair lists with no cross-pair dedup (`AllIntersections`) |
| Intersections.AllIntersectionsTagged | geometric_analysis.js:106-121 | For well-indexed curves every intersection has curve1Index < curve2Index < number of curves |
| Intersections.FewCurvesNoIntersections | geometric_analysis.js:106-121 | Fewer than two curves give no intersections |
| Sorting.SortByKeyCorrect | parameter_explorer.js:346-356 | The sort's result is ordered by the key and is a permutation of its input. Elements with equal keys keep their input order (`Array.prototype.sort` is stable) |
| Sorting.SortByKeyStable | parameter_explorer.js:346-356 | For any one key value, the elements carrying it appear in the result in the same order as in the input |
| Hull.PivotIsLowest | geometric_analysis.js:433-438 | The pivot is an input point with maximal y, ties broken by minimal x |
| Hull.ConvexHull | geometric_analysis.js:429-461 | The stack sweep computes `HullOf`: the input for fewer than 3 points, otherwise the scan over the angle-sorted points |
| Hull.PopNonLeftProps | geometric_analysis.js:449-455 | Popping leaves a non-empty prefix of the stack that still turns left, whose top turns strictly left towards the new point |
| Hull.ScanProps | geometric_analysis.js:447-458 | The sweep keeps ≥ 2 points; its first point is the first sorted point (never popped), and its last point is the last sorted point. Every retained triple has crossProduct > 0, and the hull is a subsequence of the sorted input |
| Hull.HullProps | geometric_analysis.js:429-461 | The same, stated for `convexHull` on ≥ 3 points; every hull point is an input point |
| Hull.SmallHullIsInput | geometric_analysis.js:430 | Fewer than 3 points are returned unchanged |
| Inscribed.BestFitIsFirstMaximum | geometric_analysis.js:562-567 | The strict `>` running maximum dominates every fitting candidate, and its result is the first fitting candidate of maximal positive area |
| Inscribed.BestFitNone | geometric_analysis.js:543-567 | No result exactly when no fitting candidate has positive area |
| Inscribed.IsRectangleInPolygon | geometric_analysis.js:578-588 | True exactly when all four corners pass `isPointInPolygon` |
| Inscribed.FindLargestInscribedRectangle | geometric_analysis.js:537-573 | The double loop computes `LargestRectangle`; it is null for fewer than 3 boundary points |
| Inscribed.RectSearchProps | geometric_analysis.js:549-570 | The search result is one of the 18×18 candidates, fits and has positive area; no fitting candidate is larger |
| Inscribed.LargestRectangleProps | geometric_analysis.js:537-588 | A returned rectangle fits, is centred on the centroid, and has area = width·height with width and height > 0, each at most 0.95 of the box. It lies inside the bounding box. It is the first fitting candidate, in loop order, of largest area: every earlier fitting candidate is strictly smaller, because only `area > maxArea` replaces the best |
| Inscribed.RectSearchFirst | geometric_analysis.js:562-567 | For any containment test, the rectangle found is a candidate at some index i of the search, and every fitting candidate before i has strictly smaller area |
| Inscribed.RatioTie | geometric_analysis.js:549-567 | Equal areas do occur: ratios (0.10, 0.30) and (0.15, 0.20) give candidates of the same area, so the tie rule decides between them |
| Inscribed.LargestRectangleIsLargest | geometric_analysis.js:537-573 | Every fitting grid candidate has area ≤ the returned one (0 if none) |
| Inscribed.IsEllipseInPolygon | geometric_analysis.js:517-532 | True exactly when all 16 boundary samples pass `isPointInPolygon` |
| Inscribed.FindLargestInscribedEllipse | geometric_analysis.js:473-512 | The triple loop computes `LargestEllipse`; it is null for fewer than 3 boundary points |
| Inscribed.LargestEllipseProps | geometric_analysis.js:473-532 | A returned ellipse fits and is centred on the centroid. Its semi-axes are positive and at most half the box's sides, its rotation is in [0, π), and its 16 samples lie in the box |
| Inscribed.LargestEllipseIsLargest | geometric_analysis.js:473-512 | Every fitting candidate over the 9×9×8 grid has area ≤ the returned one |
| Inscribed.EllipseSearchFirst | geometric_analysis.js:495-506 | For any containment test, the ellipse found is a candidate at some index i of the search, and every fitting candidate before i has strictly smaller area |
| Inscribed.LargestEllipseFirst | geometric_analysis.js:473-512 | A returned ellipse is the first fitting candidate, in loop order, of largest area: every earlier fitting candidate is strictly smaller |
| Regions.RegionsWithoutCrossings | geometric_analysis.js:202-237 | With no intersections there is exactly one `outer` region, id 0. Its boundary is every curve's samples minus the last, concatenated, and it carries that polygon's area, centroid and inscribed rectangle |
| Regions.RegionsWithCrossings | geometric_analysis.js:242-261 | With intersections there is at most one `center` region (id 0), followed by petals in index order with id = index+1 and petalIndex = index |
| Regions.CenterPresent | geometric_analysis.js:281-294 | The center region is emitted exactly when the grid yields more than 3 points inside all curves |
| Regions.PetalReported | geometric_analysis.js:300-352 | Petal p is emitted exactly when its sampled offset points number more than 3 |
| Regions.CenterBoundaryInside | geometric_analysis.js:266-295 | Every center boundary point is a grid point of the first curve's box that lies inside all curves |
| Regions.PetalPointsBound | geometric_analysis.js:307-308 | Only every 5th sample contributes, so a petal has at most ⌈k/5⌉ points |
| Regions.SquaredLengthPositive | geometric_analysis.js:311-313 | dx² + dy² is positive exactly when the step (dx, dy) is non-zero |
| Regions.PetalOffsetPresent | geometric_analysis.js:309-331 | A sample yields an offset point exactly when the next sample is a different point; for a sample paired with itself, `len` is 0 and nothing is pushed |
| Regions.LastSampleAddsNothing | geometric_analysis.js:307-331 | The last sample is paired with itself (`Math.min(i + 1, length - 1)`), so it adds no point even when its index is a multiple of 5 |
| Regions.PetalOffsetInward | geometric_analysis.js:319-330 | The offset point never moves away from the global center (its displacement has a non-negative dot product with the direction to the center) |
| Regions.PetalsLayout | geometric_analysis.js:255-260 | The petal list has at most k entries, in index order, each tagged with its index |
| Regions.PetalPresent | geometric_analysis.js:255-260 | Petal p is present exactly when `extractPetalRegion` returns one for curve p |
| Regions.AddShapesKeeps | geometric_analysis.js:231-234 | Adding shapes changes no id, type, boundary, area or centroid; it sets each region's largest inscribed ellipse and rectangle |
| Analyzer.GeometricAnalyzer.constructor | geometric_analysis.js:7-11 | All three lists start empty |
| Analyzer.GeometricAnalyzer.AnalyzeFlowAngle | geometric_analysis.js:16-80 | The curves are built from vertices and apexes, the intersections are those of all curve pairs, and the regions are identified from them. The returned record holds the three new fields |
| Analyzer.CurvesChain | geometric_analysis.js:54-66 | Curve i is indexed i, has 101 samples and starts at vertex i; its last sample is the next curve's first (a closed chain) |
| Analyzer.FlowAngleIntersectionsOrdered | geometric_analysis.js:70 | Every intersection of an analysis has curve1Index < curve2Index < number of sides |
| Analyzer.FlowAngleOutlineSize | geometric_analysis.js:207-209 | The combined outline has 100 points per side |
| Analyzer.GeometricAnalyzer.IdentifyRegions | geometric_analysis.js:202-237 | Resets `regions` and fills it with `IdentifiedRegions` for the current curves and intersections |
| Analyzer.GeometricAnalyzer.AddInscribedShapes | geometric_analysis.js:231-234 | The regions become `AddShapes` of the old regions |
| Analyzer.GeometricAnalyzer.IdentifyRegionsByTopology | geometric_analysis.js:242-261 | Appends the optional center region and then the petals to `regions` |
| Analyzer.GeometricAnalyzer.AppendPetals | geometric_analysis.js:255-260 | Appends the petal of each index below sides, in order |
| Analyzer.GeometricAnalyzer.ExtractCenterRegion | geometric_analysis.js:266-295 | Computes `CenterRegion`: grid points inside all curves; with more than 3, the hull as a `center` region |
| Analyzer.GeometricAnalyzer.ExtractPetalRegion | geometric_analysis.js:300-352 | Computes `PetalRegion`: offset points from every 5th sample; with more than 3, the hull as a `petal` region |
| Analyzer.GeometricAnalyzer.VisitSample | geometric_analysis.js:307-331 | One pass of the sampling loop extends the petal points of samples 0..i-1 to those of 0..i: sample i contributes only when i is a multiple of 5, and is paired with sample min(i + 1, length - 1) |
| Analyzer.GeometricAnalyzer.OffsetStep | geometric_analysis.js:310-331 | One sample's inward offset point is `PetalOffset`, so it is present exactly when the next sample is a different point (`Regions.PetalOffsetPresent`) and it never moves away from the center (`Regions.PetalOffsetInward`) |
| Analyzer.GeometricAnalyzer.OffsetTowards | geometric_analysis.js:319-329 | The point 20 units along the normal, flipped to face the global center, is `OffsetAlong`, which never moves away from the center (`Regions.OffsetAlongInward`) |
| Analyzer.GeometricAnalyzer.IsPointInAllCurves | geometric_analysis.js:357-362 | True exactly when the point is inside every curve's sample polygon |
| Metrics.MinBound | parameter_explorer.js:99-133 | `Math.min` against a start of Infinity: finite, at most both arguments, and equal to one of them |
| Metrics.CalculateAreaMetrics | parameter_explorer.js:120-149 | The `forEach` and the two follow-up branches compute `AreaMetricsOf` |
| Metrics.AccumulateTotal | parameter_explorer.js:120-121 | The total area is the sum of all region areas |
| Metrics.AccumulatePetals | parameter_explorer.js:130-131 | The petal areas are those of the petal regions, in region order |
| Metrics.AccumulateLargest | parameter_explorer.js:132 | The largest petal area is max(0, max of the petal areas), and 0 without petals |
| Metrics.AccumulateSmallest | parameter_explorer.js:133 | The smallest petal area is the minimum of the petal areas, and Infinity without petals |
| Metrics.AccumulateCenter | parameter_explorer.js:123-129 | The center area and inscribed ratio come from the last center region |
| Metrics.AreaMetricsCorrect | parameter_explorer.js:120-149 | All area fields together. Dominance is center/total when total > 0, else 0. The variance is the population variance with ≥ 2 petals, else 0, and it is ≥ 0 |
| Metrics.SquaredDeviationsNonNegative | parameter_explorer.js:145-147 | The summed squared deviations are ≥ 0 |
| Metrics.CenterDominanceBounded | parameter_explorer.js:137-140 | With non-negative region areas the center dominance lies in [0, 1] |
| Metrics.RegularityInUnit | parameter_explorer.js:151-155 | Regularity lies in [0, 1], and is 1 exactly when there are petals of positive size with zero spread |
| Metrics.ComplexityScore | parameter_explorer.js:160-171 | The expected layout scores 0.3: no crossings, sides+1 regions and perfect regularity |
| Metrics.ComplexityGrowsWithIntersections | parameter_explorer.js:163-171 | More intersections on the same polygon give a strictly higher complexity |
| Metrics.SimplicityScore | parameter_explorer.js:173-179 | In [0, 1] when dominance, regularity and inscribed ratio are; 1 when all three are 1 |
| Metrics.CheckDegenerate | parameter_explorer.js:228-256 | Returns true exactly when one of the ordered tests holds: collapsed, exploded, no_regions, infinite_folding. The reason of the first such test is written, and nothing else changes |
| Metrics.CollapsedExample | parameter_explorer.js:229-235 | Size 600 with total area 1000 is `collapsed` |
| Metrics.NoRegionsUnreachable | parameter_explorer.js:228-247 | For a non-zero size `no_regions` is never reported: zero regions give area 0, which is already `collapsed` |
| Metrics.CalculateMetrics | parameter_explorer.js:87-185 | Builds the record `MetricsOf`: counts, area metrics, regularity, complexity, simplicity, the degeneracy flag and reason |
| Classify.ClassifyConfigurations | parameter_explorer.js:261-364 | Computes `ClassifyOf`: n, the input length, the extremes and the ranked archetype lists |
| Classify.FindExtremes | parameter_explorer.js:283-310 | The `forEach` computes `ExtremesOf` |
| Classify.Challenge | parameter_explorer.js:287-289 | One update: the candidate replaces the holder only on a strictly larger key; afterwards there is a holder, and its key never decreases |
| Classify.TrackedIsFirstMax | parameter_explorer.js:283-310 | An extreme is null exactly for an empty input; otherwise it is the first configuration with the largest key |
| Classify.ExtremesMaxima | parameter_explorer.js:283-310 | The same for maxComplexity, maxSimplicity, maxCenterDominance, maxRoundness and maxRegularity |
| Classify.ExtremesCorrect | parameter_explorer.js:299-301 | minCenterDominance is null exactly for an empty input; otherwise it is the first configuration with the smallest dominance |
| Classify.CollectArchetypes | parameter_explorer.js:313-344 | Each archetype list is the input filtered by that archetype's thresholds, in input order |
| Classify.Top | parameter_explorer.js:357-361 | `slice(0, 10)`: a prefix of at most 10 entries, the whole list when it is shorter |
| Classify.TopOfSortedMembers | parameter_explorer.js:346-361 | A truncated sorted filter has min(10, matches) entries, all input members passing the filter, sorted by the key |
| Classify.TopOfSortedBest | parameter_explorer.js:346-361 | A passing configuration left out of the top 10 ranks no better than any kept one |
| Classify.RankedProps | parameter_explorer.js:313-361 | Each archetype list holds at most 10 configurations, each from the input and meeting the thresholds. The list is sorted by the archetype's metric, and none left out ranks better |
| Classify.ClassificationArchetypes | parameter_explorer.js:261-364 | The classification records n and totalConfigurations = input length, and its archetype lists obey the above |
| Explorer.NoveltyReason | parameter_explorer.js:406-416 | The table string for a known extreme key, the default string exactly otherwise |
| Explorer.ArchetypeReason | parameter_explorer.js:421-430 | The table string for a known archetype key, the default string exactly otherwise |
| Explorer.NoveltiesInOrder | parameter_explorer.js:379-398 | A listing has at most one entry per key, and its types follow the key order |
| Explorer.NoveltiesExact | parameter_explorer.js:379-398 | An entry is listed exactly when its key's value is present, with that key as type and the key's reason |
| Explorer.NovelListingOrder | parameter_explorer.js:369-401 | The novel list is the present extremes in key order, then the first entry of each non-empty archetype in key order; at most 11 entries |
| Explorer.NovelListingReasons | parameter_explorer.js:379-398 | Every listed entry carries its table reason, never the default |
| Explorer.ParameterSpaceExplorer.constructor | parameter_explorer.js:7-11 | No discoveries at start |
| Explorer.ParameterSpaceExplorer.RecordDiscoveries | parameter_explorer.js:76-81 | Classifies the configurations and stores the result under n, leaving other entries as they were |
| Explorer.ParameterSpaceExplorer.GetNovelConfigurations | parameter_explorer.js:369-401 | null for an unexplored n; otherwise the novel listing of the stored classification, with at most 11 entries |

## Left out

- Floating point: every coordinate, area and score is an exact real, so rounding, `NaN` and `Infinity` are not modelled, with one exception. `smallestPetalArea` starts at `Infinity`, modelled by a `Bound` value.
- Float-stepped loops are integer-indexed with the counts IEEE doubles give:
  - rectangle ratios a/20 for a = 2..19 (18 values; the 19th float step is just above 1.0);
  - ellipse ratios k/10 for k = 2..10 (9 values; the last float value is 0.9999999999999999, modelled as 1);
  - rotations m·π/8 for m = 0..7.
- `Math.sqrt`, `Math.atan2`, `Math.cos`, `Math.sin` and `Math.PI` are parameters, and their exact values are not modelled.
  - In the region code a square root is any function of type `Geometry.Sqrt`: never negative, 0 at 0 and positive at every positive argument.
  - The scores only need it never negative (`Metrics.Root`).
- `distance` is replaced by the squared distance compared against 3², which the source's `distance < 3` test equals for a true square root.
- Vertex placement and apex height (geometric_analysis.js:21-52: cos, sin, tan, sqrt) are inputs. So is the missing zero-chord guard before the division by `perpLength`.
- The polar sort of `convexHull` (geometric_analysis.js:441-445) is the stable key sort applied to an `atan2` parameter; only the sweep's properties are proved.
- `extractCenterRegion`'s float-stepped grid (geometric_analysis.js:272-279) is a parameter mapping the box to its grid points. The source's loop never ends for a box of zero extent; that is not modelled.
- Metrics.Step: the center's inscribed ratio is left unchanged when the center region's area is 0 (the source divides and gets Infinity or NaN).
- Metrics.PerSide: for 0 sides the intersection density is 0, where the source divides by zero. The explorer only runs on polygons.
- `calculateRoundness` (parameter_explorer.js:190-223) is not part of this model. Roundness is an input of `Metrics.CalculateMetrics`, because it rests on square roots of distances.
- Explorer.NoveltyReason, Explorer.ArchetypeReason: keys inherited from `Object.prototype` (such as `toString`) are not modelled; the tables are plain maps.
- `exploreParameterSpace`'s sweep, `Date.now`, `console` output, `exportDiscoveries` and `generateReport` are I/O and formatting; only the final `discoveries.set` is modelled (`RecordDiscoveries`).
- The sweep builds its state with `curveFactor`, while `analyzeFlowAngle` reads `flowFactor`. The model takes `flowFactor` as an input of the analysis and does not join the two files end to end.
- The `analysis` and `timestamp` fields of a configuration, and the explorer's `analyzer` and `currentExploration` fields, are not modelled.
- The source requires `sides` ≤ number of curves for the petal loop (it would read past the curve list otherwise); the model states it as a precondition.
- `Array.prototype.sort` is taken to be stable (as ES2019 requires), with descending comparators `b − a` modelled as an ascending sort on the negated key.
