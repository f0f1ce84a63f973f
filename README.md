# Camera decision layer of the 2023 RoboCup line follower

This project is a Dafny model of the decisions that the camera loop
`cam_loop` in `archive/2023_Old/main/cam.py` makes in each frame, together
with proofs about them. The loop reads the frame through OpenCV. The model
takes the OpenCV results as plain inputs and covers everything the loop
decides from them:

- **Line mask.** Each pixel combines the black, green and blue range masks
  with uint8 wrap-around subtraction and then applies the `< 2` floor. The
  black threshold is chosen from the context. The glare fallback can switch
  to the narrow ramp-down mask. Ramp and obstacle context blank rectangles
  of the mask in place. (module `LineMask`)
- **Turn signs.** Each green sign gets a 4-bit adjacency record. The
  `change_dir` scan reads those records, and its result is mapped to
  `turn_dir`. (`TurnSigns`)
- **Line tracker.**
  - The strict area filter drops small contours.
  - The candidate table has a sentinel row, is ranked by the lowest corner,
    counts the bottom-touching contours, and applies hysteresis on `x_last`.
    (`LineCandidates`)
  - Three points of interest get integer-truncated scores. The best one is
    chosen, and the line angle follows from it. (`PointsOfInterest`)
- **Flags.** The red stop flag, the blue box flag and the box's target
  offsets, and the zone white and black flags. (`Detections`)
- **Ball tracker.** Candidates get a Manhattan continuity distance and a
  penalty for dead balls. The sentinel row, the minimum choice and the
  update of `circle_last` are included. (`BallTracker`)
- **State.** The shared values and the two trackers' state are fields of
  the class `Cam.CamLoop`. Each call to `Step` processes one frame.

Frame size is 448 × 336 (`Common.Width`, `Common.Height`).

How Python's arithmetic is written out:

- `int()` on a float truncates toward zero (`Common.Trunc`).
- `round()` rounds half to even (`Common.RoundHalfEven`), and `round(x, 2)`
  is `Common.Round2`.
- numpy uint8 subtraction wraps modulo 256 (`LineMask.Sub8`).
- `//` with a positive divisor is Dafny's `/`.
- Writing a float into an integer numpy array truncates it. This is why a
  point-of-interest score is the integer square root of the squared distance
  (`PointsOfInterest.FloorSqrt`), or for the boosted top point
  `FloorSqrt(9·d²) / 2`, plus whole-number bonuses.

Behaviours of the code that are easy to misread, which the model follows:

- A sign touching the line at its top and left edges makes `change_dir`
  return `(turn_left, turn_right) = (False, True)`, which means turn
  **right**. Top and right means turn **left**.
- `change_dir` never returns `(True, True)`, so `turn_around` is never
  produced.
- The points of interest are sorted by descending score and the first row
  wins. The additive constants therefore act as bonuses: a pending left
  turn makes the **left** point win whenever all three points lie in the
  frame.
- All blue boxes overwrite the target offsets in turn, so the **last** box
  above 2000 in discovery order sets them, not the largest.
- The line area filter is strict (`area > min_line_size`).
- The angle `int((x − 224) / 224 · 180)` is 0 for x = 223, 224 and 225.
  Its sign matches the sign of x − 224 only when x is at least 2 columns
  from the centre.
- The ball's dead test uses a square region clipped to the frame, not a
  disc.
- The zone white flag `round(mean) > 8` holds exactly when the mean is
  above 8.5.

## Model

| member | source | states |
|---|---|---|
| Common.Trunc | archive/2023_Old/main/cam.py:348 | `int()` of a float truncates toward zero: n ≤ x < n + 1 for x ≥ 0, and n − 1 < x ≤ n below zero |
| Common.TruncMonotone | archive/2023_Old/main/cam.py:348 | truncation preserves order |
| Common.RoundHalfEven | archive/2023_Old/main/cam.py:171 | `round()` gives an integer within 0.5 of x, and the even one on a tie |
| Common.Round2 | archive/2023_Old/main/cam.py:135 | `round(x, 2)` is within 0.005 of x |
| LineMask.Sub8 | archive/2023_Old/main/cam.py:132 | uint8 subtraction stays in [0, 256) and equals a − b or a − b + 256 |
| LineMask.LinePixel | archive/2023_Old/main/cam.py:132-133 | a line-mask pixel is 255 exactly when it is black and neither green nor blue, 2 exactly when it is green and blue but not black, and 0 otherwise |
| LineMask.BlackMax | archive/2023_Old/main/cam.py:115-121 | the black range's upper bound is 65 exactly when line_status is obstacle_avoid, and 80 otherwise |
| LineMask.RowSumBounds | archive/2023_Old/main/cam.py:135 | a row of the mask sums to between 0 and 255 per pixel |
| LineMask.BandSumBounds | archive/2023_Old/main/cam.py:135 | the top band sums to between 0 and 255 per pixel |
| LineMask.TopBandMean | archive/2023_Old/main/cam.py:135 | the rounded top-quarter mean lies in [0, 255] up to the rounding |
| LineMask.CombineLineMask | archive/2023_Old/main/cam.py:132-133 | a fresh mask of the same size, with every pixel given by the per-pixel rule |
| LineMask.BuildLineMask | archive/2023_Old/main/cam.py:132-142 | every pixel follows the per-pixel rule applied to the narrow mask when the glare rule holds (wide mean > 90, rotation none, narrow mean + 60 < wide mean) and to the wide mask otherwise |
| LineMask.Suppressed | archive/2023_Old/main/cam.py:148-160 | a pixel is blanked when ramp-up covers it with the top rectangle, or under obstacle_avoid or obstacle_detected when the obstacle side's rectangle covers it |
| LineMask.SuppressedRegions | archive/2023_Old/main/cam.py:148-160 | ramp up blanks rows 0..201; obstacle left blanks columns 0..313; obstacle right blanks columns 134..447 |
| LineMask.NothingSuppressedWithoutContext | archive/2023_Old/main/cam.py:148-160 | without ramp-up or obstacle context, no pixel is blanked |
| LineMask.FillRect | archive/2023_Old/main/cam.py:149 | a filled rectangle zeroes exactly the pixels it covers, both corners included and clipped to the image; every other pixel keeps its value |
| LineMask.SuppressContext | archive/2023_Old/main/cam.py:148-160 | each pixel is zero if the context blanks it and unchanged otherwise |
| TurnSigns.AdjacencyOf | archive/2023_Old/main/cam.py:213-252 | a sign's record: all four bits clear when its area is at most 3000, otherwise one bit per strip (bottom, top, left, right) whose non-empty reading has a mean above 125 |
| TurnSigns.AdjacencyTable | archive/2023_Old/main/cam.py:208-252 | the table built bit by bit holds each sign's record: all zero for signs of area ≤ 3000, otherwise one bit per strip whose reading exceeds 125 |
| TurnSigns.ChangeDir | archive/2023_Old/main/cam.py:44-53 | the scan never returns (True, True) |
| TurnSigns.ChangeDirFirstDecisive | archive/2023_Old/main/cam.py:44-53 | the scan returns the verdict of the first record with exactly two bits set, top and left or top and right |
| TurnSigns.ChangeDirStraight | archive/2023_Old/main/cam.py:44-53 | the scan returns (False, False) exactly when no record is decisive |
| TurnSigns.TurnOf | archive/2023_Old/main/cam.py:256-263 | (True, False) is left, (False, True) is right, (True, True) is turn_around and (False, False) is straight |
| TurnSigns.TurnDirection | archive/2023_Old/main/cam.py:254-266 | turn_dir is straight with no green contour, and otherwise the mapped verdict of the scan over the signs' records |
| TurnSigns.NeverTurnAround | archive/2023_Old/main/cam.py:254-266 | turn_dir is never turn_around |
| TurnSigns.FirstDecisiveSignDecides | archive/2023_Old/main/cam.py:254-263 | if the first decisive sign touches at top and left, the turn is right; at top and right, the turn is left |
| TurnSigns.StraightUnlessDecisive | archive/2023_Old/main/cam.py:254-266 | turn_dir is straight exactly when no sign is decisive, which includes having no green contour |
| TurnSigns.SmallSignsIgnored | archive/2023_Old/main/cam.py:213 | a sign of area ≤ 3000 never decides |
| LineCandidates.KeepLines | archive/2023_Old/main/cam.py:167-169 | a contour is kept exactly when its area is strictly greater than min_line_size |
| LineCandidates.KeepLinesAppend | archive/2023_Old/main/cam.py:167-169 | the filter keeps discovery order: filtering a concatenation filters each part |
| LineCandidates.RowsUpTo | archive/2023_Old/main/cam.py:275-280 | row i of the table holds contour i's index and its two lowest corners truncated to int, at distance w |
| LineCandidates.BottomCount | archive/2023_Old/main/cam.py:282-283 | off_bottom counts at most one per contour |
| LineCandidates.Insert | archive/2023_Old/main/cam.py:285 | inserting into a ranked table keeps it ranked and adds exactly the one row |
| LineCandidates.Rank | archive/2023_Old/main/cam.py:285 | the sorted table is ranked by the key and is a permutation of its input |
| LineCandidates.RankedHeadIsExtreme | archive/2023_Old/main/cam.py:285 | the leading row of the sorted table is in the table and has the extreme key |
| LineCandidates.HysteresisDistance | archive/2023_Old/main/cam.py:288-293 | the stored distance is the truncated absolute distance between x_last and the row's bottom midpoint |
| LineCandidates.ScoreBottomRows | archive/2023_Old/main/cam.py:288-293 | in place, the first off_bottom rows get their hysteresis distance and the other rows are unchanged |
| LineCandidates.BuildTable | archive/2023_Old/main/cam.py:272-283 | the loop builds the sentinel-first table and counts the bottom-touching contours |
| LineCandidates.SelectCandidate | archive/2023_Old/main/cam.py:272-297 | the chosen row is the one the rank, rescore and re-rank pipeline leads with |
| LineCandidates.Choose | archive/2023_Old/main/cam.py:285-297 | the followed row leads the table ranked by lowest-corner y, or, with more than one bottom-touching contour, the rescored table ranked by distance to x_last |
| LineCandidates.TableRows | archive/2023_Old/main/cam.py:272-280 | each row is the sentinel or the row of a real contour with an index in range, and every row starts at distance w |
| LineCandidates.ChosenIsNearest | archive/2023_Old/main/cam.py:282-297 | with at most one bottom-touching contour, the chosen row has the largest lowest-corner y in the table |
| LineCandidates.SentinelNotChosen | archive/2023_Old/main/cam.py:272-298 | with at most one bottom-touching contour and some real row with y > 0, the chosen row names a real contour |
| LineCandidates.Rescored | archive/2023_Old/main/cam.py:285-293 | the rescored table keeps one row per contour plus the sentinel |
| LineCandidates.ChosenIsClosestToLast | archive/2023_Old/main/cam.py:287-295 | with more than one bottom-touching contour, the chosen row has the smallest distance in the rescored table |
| LineCandidates.TrailingRowsKeepWidth | archive/2023_Old/main/cam.py:287-293 | rows past the first off_bottom keep distance w |
| LineCandidates.ChosenFromBottomRows | archive/2023_Old/main/cam.py:287-295 | if one of the first off_bottom rows is closer than w to x_last, the chosen row is one of those rows |
| LineCandidates.BottomRowsRescored | archive/2023_Old/main/cam.py:288-293 | each of the first off_bottom rows of the rescored table is the ranked row carrying its hysteresis distance |
| PointsOfInterest.MinOf | archive/2023_Old/main/cam.py:303 | `np.amin` is a coordinate of some pixel and no pixel's coordinate is smaller |
| PointsOfInterest.MaxOf | archive/2023_Old/main/cam.py:315 | `np.amax` is a coordinate of some pixel and no pixel's coordinate is larger |
| PointsOfInterest.CountWherePositive | archive/2023_Old/main/cam.py:304 | the extreme coordinate is attained, so the mean is taken over a non-empty selection |
| PointsOfInterest.SumWhereBounds | archive/2023_Old/main/cam.py:305 | the sum over the selected pixels lies between lo·count and hi·count |
| PointsOfInterest.MeanWhereBounds | archive/2023_Old/main/cam.py:305 | the truncated mean of the selected pixels lies between their bounds |
| PointsOfInterest.TruncMeanBounds | archive/2023_Old/main/cam.py:311 | `int(s / n)` of n values in [lo, hi] lies in [lo, hi] |
| PointsOfInterest.TopPoint | archive/2023_Old/main/cam.py:303-305 | the top point's y is the smallest y of the contour, attained by some pixel; its x is the truncated mean x of the pixels on that row |
| PointsOfInterest.LeftPoint | archive/2023_Old/main/cam.py:309-311 | the left point's x is the smallest x of the contour, attained by some pixel; its y is the truncated mean y of the pixels on that column |
| PointsOfInterest.RightPoint | archive/2023_Old/main/cam.py:315-317 | the right point's x is the largest x of the contour, attained by some pixel; its y is the truncated mean y of the pixels on that column |
| PointsOfInterest.Pois | archive/2023_Old/main/cam.py:301-318 | there are three points: top, left and right |
| PointsOfInterest.PoisInFrame | archive/2023_Old/main/cam.py:301-318 | points of a contour in the frame lie in the frame; the top point is on the topmost row, and the left and right points are on the extreme columns |
| PointsOfInterest.FloorSqrt | archive/2023_Old/main/cam.py:326 | r² ≤ n < (r + 1)² |
| PointsOfInterest.FloorSqrtAtMost | archive/2023_Old/main/cam.py:326 | n < (m + 1)² implies a root of at most m |
| PointsOfInterest.BaseScore | archive/2023_Old/main/cam.py:326-329 | the truncated distance to the bottom centre (224, 336), taken 1.5 times for the top point when the rotation is none |
| PointsOfInterest.EdgeBonus | archive/2023_Old/main/cam.py:333-334 | the 2h bonus goes to the left point with x < 44.8 and the right point with x > 403.2 when the top point is not in the top tenth, and to any point with y < 16.8 |
| PointsOfInterest.TurnBonus | archive/2023_Old/main/cam.py:337-340 | the 5w bonus goes to the left point when turn_dir is left and to the right point when it is right |
| PointsOfInterest.PoiScore | archive/2023_Old/main/cam.py:323-342 | the row's score is the base score plus 2h for the edge bonus plus 5w for the turn bonus |
| PointsOfInterest.BaseScoreTruncatesDistance | archive/2023_Old/main/cam.py:326-329 | the base score b is int(d), with b² ≤ d² < (b + 1)², or int(1.5·d) for the top point on level ground, with 4b² ≤ 9d² < 4(b + 1)² |
| PointsOfInterest.ScorePois | archive/2023_Old/main/cam.py:320-342 | in place, each row's score is its point's adjusted score, and the black-top flag comes from the top point |
| PointsOfInterest.PickPoi | archive/2023_Old/main/cam.py:344 | the leading row has the highest score |
| PointsOfInterest.AngleOf | archive/2023_Old/main/cam.py:348 | the line angle is int((x − 224) / 224 · 180), truncated toward zero |
| PointsOfInterest.AngleRange | archive/2023_Old/main/cam.py:347-348 | the angle of a column in the frame lies in [−180, 179] |
| PointsOfInterest.AngleMonotone | archive/2023_Old/main/cam.py:347-348 | the angle is non-decreasing in x |
| PointsOfInterest.AngleSign | archive/2023_Old/main/cam.py:347-348 | the angle is positive exactly for x ≥ 226, negative exactly for x ≤ 222, and zero for 223..225 |
| PointsOfInterest.AngleValue | archive/2023_Old/main/cam.py:347-348 | the angle before truncation, (x − 224) / 224 · 180, equals (x − 224) · 45 / 56 |
| PointsOfInterest.ReachAtMost | archive/2023_Old/main/cam.py:326 | the squared distance from a point in the frame to the bottom centre is at most 224² + 336² = 163072 |
| PointsOfInterest.BaseScoreAtMost | archive/2023_Old/main/cam.py:326-329 | the base score of a point in the frame is at most 605, which is int(1.5 · √163072) |
| PointsOfInterest.ScoreWithoutTurnBonus | archive/2023_Old/main/cam.py:326-335 | without the turn bonus, the score of a point in the frame is between 0 and 605 + 672 |
| PointsOfInterest.Scores | archive/2023_Old/main/cam.py:320-342 | there is one score per point |
| PointsOfInterest.TurnBonusWins | archive/2023_Old/main/cam.py:337-344 | with all points in the frame, a pending left turn makes the left point win and a pending right turn makes the right point win |
| PointsOfInterest.TopBandEarnsBonus | archive/2023_Old/main/cam.py:333-335 | a point with y ≤ 16 gains at least 2h |
| PointsOfInterest.SteerFrom | archive/2023_Old/main/cam.py:301-348 | the target is a highest-scoring point of the contour, and the angle is that point's angle |
| Detections.AnyAbove | archive/2023_Old/main/cam.py:174-183 | the flag is set exactly when some area exceeds the limit (red: 15000; zone black: 10000) |
| Detections.LastBox | archive/2023_Old/main/cam.py:186-204 | returns the last contour above 2000 in discovery order, and exists exactly when some box qualifies |
| Detections.ScanBoxes | archive/2023_Old/main/cam.py:186-204 | box_detected exactly when some box qualifies; the offsets are the last box's centre minus the frame centre; with no box they are unchanged |
| Detections.ZoneWhiteThreshold | archive/2023_Old/main/cam.py:419-422 | `round(mean) > 8` exactly when the mean is above 8.5 |
| BallTracker.BallCandidate | archive/2023_Old/main/cam.py:384-392 | a circle's row: its centre and radius, the Manhattan distance to circle_last plus 448 when it is dead, and alive exactly when it is not dead |
| BallTracker.BallTable | archive/2023_Old/main/cam.py:380-392 | the table has the sentinel plus one row per circle |
| BallTracker.PickBall | archive/2023_Old/main/cam.py:380-396 | the chosen row is in the table and has the smallest distance |
| BallTracker.BallTableRows | archive/2023_Old/main/cam.py:380-392 | each row is the sentinel or the row of some circle |
| BallTracker.SentinelNeverChosen | archive/2023_Old/main/cam.py:380-399 | with centres and circle_last in the frame, every real distance is ≤ 1230 < 2240, so the chosen row is a circle and the new circle_last is in the frame |
| BallTracker.DeadChosenOnlyWhenFar | archive/2023_Old/main/cam.py:384-394 | a dead ball is marked not alive, and it wins only when every live ball is at least 448 further from circle_last |
| Cam.CamLoop.FollowLineStep | archive/2023_Old/main/cam.py:167-355 | the fields the line branch writes and the offsets move from their values before the frame as FollowLineFrame says, reading min_line_size and the rotation before the frame |
| Cam.CamLoop.ZoneStep | archive/2023_Old/main/cam.py:357-438 | the zone fields and the offsets move from their values before the frame as ZoneFrameStep says, reading zone_status before the frame |
| Cam.CamLoop.Step | archive/2023_Old/main/cam.py:113-438 | follow_line and pick-up_box run the line branch in full and leave every zone field alone; zone runs the zone branch in full, leaves every line field alone and reports no line; any other objective changes nothing; the context fields are outside its frame, so they are never written |
| Cam.CamLoop.constructor | archive/2023_Old/main/cam.py:12-37 | shared values and tracker state start at the source's defaults, with x_last = 224 and circle_last = (224, 168) |
| Cam.TurnFromSigns | archive/2023_Old/main/cam.py:206-266 | turn_dir is the scan's verdict on this frame's signs, and never turn_around |
| Cam.TrackLine | archive/2023_Old/main/cam.py:268-355 | with no contour, x_last and the angle keep their values; otherwise x_last moves to the chosen row's bottom midpoint, and the target is a highest-scoring point of the chosen contour with the angle that point's angle, or the outcome reports the sentinel row |
| Cam.ReportFlags | archive/2023_Old/main/cam.py:171-204 | white_mean is the rounded mean; red exactly when some red area exceeds 15000; a box exactly when some blue area exceeds 2000, with the offsets from the last such box, or the offsets before the frame when there is none |
| Cam.FollowLineFrame | archive/2023_Old/main/cam.py:167-355 | the line-following branch from the state before the frame: the flags and offsets as ReportFlags says, turn_dir from the signs, line_detected exactly when some contour is larger than min_line_size, and x_last, the angle and the outcome from the line tracker over those contours |
| Cam.TrackBall | archive/2023_Old/main/cam.py:377-413 | the ball tracker runs exactly when circles exist in find_ball or pickup_ball; it then moves circle_last to a minimum-distance row, takes alive from it and aims the offsets at it, keeping circle_last in the frame when the inputs are; otherwise circle_last, alive and the offsets keep their values; the zone flags are untouched |
| Cam.ZoneFrameStep | archive/2023_Old/main/cam.py:377-438 | the zone branch from the state before the frame: the ball tracker as above, zone_white exactly when the white mean is above 8.5 and zone_black exactly when some zone-black area exceeds 10000 |
| Cam.TrackFrame | archive/2023_Old/main/cam.py:167-355 | turn_dir comes from this frame's signs, line_detected holds exactly when some contour is larger than min_line_size, and the line tracker runs on exactly those contours |

## Left out

- Camera capture (`Picamera2`), and the OpenCV calls `cvtColor`, `inRange`,
  `erode`, `dilate`, `findContours`, `contourArea`, `minAreaRect`,
  `boxPoints`, `boundingRect`, `HoughCircles` and `GaussianBlur`. These are
  library calls. Their results are inputs: range masks as boolean arrays,
  contours as areas plus corners plus boundary pixels, circles already
  rounded to integers.
- Erosion and dilation of the line mask (cam.py:144-145). They sit between
  `LineMask.BuildLineMask` and `LineMask.SuppressContext`, and the model does
  not link the mask to the contours found in it.
- The slice geometry of the four green-sign strips and the ball's square
  region. Their means are given as `Reading` values, where `Empty` stands
  for an empty slice.
- Drawing, text overlays, windows and the `q` key.
- The FPS counter, which depends on wall-clock time.
- The `multiprocessing.Manager` plumbing and the `terminate` flag. Shared
  values are plain fields.
- The unused zone fields: corner angles, exit angle and ball counters.
- The ball mask-out (cam.py:408-411). When the ball tracker runs, every
  circle is blanked, at radius int(1.1·r), in the zone-black and white masks
  before `zone_black` and `zone_white` read them. The model takes the white
  mean and the zone-black areas as inputs already measured on those masks;
  it does not compute them from the circles. The red mask is blanked too, but
  nothing in the zone branch reads it.
- The `@njit` decorator.
- Float `sqrt` and float means are read exactly. The score is the exact
  integer square root, and a mean is the exact quotient of its sum.
- The tie order of numpy's `argsort`. Every table lemma and
  `PointsOfInterest.PickPoi` hold for whichever of the equal-key rows leads.
- LineCandidates.SelectCandidate: the sort is a verified insertion sort
  standing in for numpy's `argsort`, so among equal keys it may lead with a
  different row than numpy.
- Cam.TrackLine: choosing the sentinel raises `IndexError` in the
  source and ends the loop. The model returns `MissingContour` instead, with
  `x_last` already moved to the sentinel's midpoint.
- The `ramp_down` branch of the rectangle blanking (cam.py:151-154) does
  nothing.
