/** The camera loop's decision layer as one object. Its fields are the values
    the loop shares with the planner (the context it reads, the flags and
    angles it writes) and the two pieces of tracker state it carries from
    frame to frame, `x_last` and `circle_last`. Each call of `Step` is one
    frame; the OpenCV results of that frame arrive as a `LineFrame` or a
    `ZoneFrame`. */
module Cam {
  import opened Common
  import LineMask
  import TurnSigns
  import LineCandidates
  import PointsOfInterest
  import Detections
  import BallTracker

  /** What the line-following branch reads from one frame: the contours of
      the cleaned line mask, the green signs, the red contour areas, the blue
      contours and the mean of the white mask. */
  datatype LineFrame = LineFrame(
    lines: seq<LineCandidates.LineContour>,
    signs: seq<TurnSigns.GreenSign>,
    redAreas: seq<real>,
    boxes: seq<Detections.BlueBox>,
    whiteMean: real)

  /** What the zone branch reads from one frame: the Hough circles (`None`
      when the transform finds none), the mean of the white mask and the
      areas of the zone-black contours. Whenever the ball tracker runs, the
      white and zone-black masks are measured after every circle has been
      blanked in them at radius int(1.1 r). */
  datatype ZoneFrame = ZoneFrame(
    circles: Option<seq<BallTracker.Circle>>,
    whiteMean: real,
    blackAreas: seq<real>)

  /** Every contour has at least one boundary pixel. */
  predicate WellFormed(lines: seq<LineCandidates.LineContour>) {
    forall i :: 0 <= i < |lines| ==> |lines[i].points| > 0
  }

  lemma {:induction false} KeptWellFormed(lines: seq<LineCandidates.LineContour>, minSize: int)
    requires WellFormed(lines)
    ensures WellFormed(LineCandidates.KeepLines(lines, minSize))
  {
    var kept := LineCandidates.KeepLines(lines, minSize);
    forall i | 0 <= i < |kept| ensures |kept[i].points| > 0 {
      assert kept[i] in lines;
    }
  }

  /** A steering decision on the chosen contour's pixels: the target is the
      point of interest `poi` among [top, left, right], no point scores
      higher, and the angle is the target's angle. */
  predicate SteersBy(points: seq<Pixel>, rotation: Rotation, turn: TurnDir, poi: nat, target: Pixel, angle: int)
    requires |points| > 0
  {
    var pois := PointsOfInterest.Pois(points);
    var scores := PointsOfInterest.Scores(pois, rotation, turn);
    && poi < 3 && target == pois[poi]
    && (forall j :: 0 <= j < 3 ==> scores[j] <= scores[poi])
    && angle == PointsOfInterest.AngleOf(target.x)
  }

  /** What the line tracker does with the contours that passed the filter,
      from `x_last` before the frame: the new `x_last` is the chosen row's
      midpoint, and the outcome steers by the chosen contour, or reports the
      sentinel. */
  predicate TracksLine(kept: seq<LineCandidates.LineContour>, xLastBefore: real, rotation: Rotation, turn: TurnDir,
                       outcome: LineOutcome, xLastAfter: real, angleBefore: int, angleAfter: int)
    requires WellFormed(kept)
  {
    if |kept| == 0 then outcome == NoLine && xLastAfter == xLastBefore && angleAfter == angleBefore
    else
      var chosen := LineCandidates.Choose(kept, xLastBefore);
      && xLastAfter == LineCandidates.Mid(chosen)
      && if 0 <= chosen.contour < |kept| then
           outcome.Steered? && SteersBy(kept[chosen.contour].points, rotation, turn, outcome.poi, outcome.target, angleAfter)
         else
           outcome == MissingContour && angleAfter == angleBefore
  }

  /** The flags a line-following frame reports: the rounded white mean, red
      when some red contour is above 15000, and a box when some blue contour
      is above 2000, whose last one sets the target offsets (otherwise they
      keep their previous values). */
  predicate FlagsOf(frame: LineFrame, whiteMean: int, red: bool, box: bool, offX: int, offY: int,
                    offXBefore: int, offYBefore: int)
  {
    && whiteMean == RoundHalfEven(frame.whiteMean)
    && (red <==> exists i :: 0 <= i < |frame.redAreas| && frame.redAreas[i] > Detections.RedMinArea)
    && (box <==> Detections.LastBox(frame.boxes).Some?)
    && (box ==> && offX == Detections.OffsetX(frame.boxes[Detections.LastBox(frame.boxes).value])
                && offY == Detections.OffsetY(frame.boxes[Detections.LastBox(frame.boxes).value]))
    && (!box ==> offX == offXBefore && offY == offYBefore)
  }

  /** How the line tracker ends a frame: no line, a steering target (the
      index of the winning point of interest among [top, left, right] and the
      point), or the sentinel row chosen, whose contour index is out of range
      (an `IndexError` in the source). */
  datatype LineOutcome = NoLine | Steered(poi: nat, target: Pixel) | MissingContour

  /** The green-sign step: `turn_dir` from the signs of this frame. */
  method TurnFromSigns(signs: seq<TurnSigns.GreenSign>) returns (turn: TurnDir)
    ensures turn == TurnSigns.TurnDirection(signs)
    ensures turn != TurnAround
  {
    TurnSigns.NeverTurnAround(signs);
    if |signs| > 0 {
      var rows := TurnSigns.AdjacencyTable(signs);
      assert rows == seq(|signs|, i requires 0 <= i < |signs| => TurnSigns.AdjacencyOf(signs[i]));
      turn := TurnSigns.TurnOf(TurnSigns.ChangeDir(rows));
    } else {
      turn := Straight;
    }
  }

  /** The line tracker over the contours that passed the area filter, from
      `x_last` and the angle before the frame: choose the candidate row, move
      `x_last` to its bottom midpoint, and steer towards the best point of
      interest of its contour. */
  method TrackLine(kept: seq<LineCandidates.LineContour>, xLast: real, rotation: Rotation, turn: TurnDir, angle: int)
    returns (outcome: LineOutcome, newXLast: real, newAngle: int)
    requires WellFormed(kept)
    ensures TracksLine(kept, xLast, rotation, turn, outcome, newXLast, angle, newAngle)
  {
    newXLast, newAngle := xLast, angle;
    if |kept| > 0 {
      var chosen := LineCandidates.SelectCandidate(kept, xLast);
      newXLast := LineCandidates.Mid(chosen);
      if 0 <= chosen.contour < |kept| {
        var best, target, a := PointsOfInterest.SteerFrom(kept[chosen.contour].points, rotation, turn);
        newAngle := a;
        outcome := Steered(best, target);
      } else {
        outcome := MissingContour;
      }
    } else {
      outcome := NoLine;
    }
  }

  /** The flags of a line-following frame, from the target offsets before
      it: white mean, red stop and blue box. */
  method ReportFlags(frame: LineFrame, offX: int, offY: int)
    returns (whiteMean: int, red: bool, box: bool, newOffX: int, newOffY: int)
    ensures FlagsOf(frame, whiteMean, red, box, newOffX, newOffY, offX, offY)
  {
    whiteMean := RoundHalfEven(frame.whiteMean);
    red := Detections.AnyAbove(frame.redAreas, Detections.RedMinArea);
    box, newOffX, newOffY := Detections.ScanBoxes(frame.boxes, offX, offY);
  }

  /** The area filter, the green signs and the line tracker of one frame,
      from the context and tracker state before it: `detected` says whether
      any contour is larger than `min_line_size`. */
  method TrackFrame(frame: LineFrame, minSize: int, rotation: Rotation, xLast: real, angle: int)
    returns (outcome: LineOutcome, turn: TurnDir, detected: bool, newXLast: real, newAngle: int)
    requires WellFormed(frame.lines)
    ensures turn == TurnSigns.TurnDirection(frame.signs)
    ensures WellFormed(LineCandidates.KeepLines(frame.lines, minSize))
    ensures detected <==> |LineCandidates.KeepLines(frame.lines, minSize)| > 0
    ensures TracksLine(LineCandidates.KeepLines(frame.lines, minSize), xLast, rotation, turn,
                       outcome, newXLast, angle, newAngle)
  {
    var kept := LineCandidates.KeepLines(frame.lines, minSize);
    KeptWellFormed(frame.lines, minSize);
    turn := TurnFromSigns(frame.signs);
    outcome, newXLast, newAngle := TrackLine(kept, xLast, rotation, turn, angle);
    detected := |kept| > 0;
  }

  /** The results the line-following branch writes and the line tracker's
      state: white mean, red stop, blue box, turn direction, line detected,
      `x_last` and the line angle. */
  datatype LineState = LineState(
    whiteMean: int, red: bool, box: bool, turn: TurnDir, detected: bool, xLast: real, angle: int)

  /** The results the zone branch writes and the ball tracker's state: ball
      detected, `circle_last`, ball alive, zone white and zone black. */
  datatype ZoneState = ZoneState(ballDetected: bool, circleLast: Pixel, alive: bool, white: bool, black: bool)

  /** The target offsets, which both the blue box and the ball tracker set. */
  datatype Offset = Offset(x: int, y: int)

  /** One line-following frame, from the state and offsets before it to the
      ones after it: the flags, the turn of the green signs, `detected` when
      some contour is larger than `min_line_size`, and the line tracker over
      the contours that are. */
  predicate FollowsLineFrame(frame: LineFrame, minSize: int, rotation: Rotation, before: LineState, offsetBefore: Offset,
                             outcome: LineOutcome, after: LineState, offsetAfter: Offset)
    requires WellFormed(frame.lines)
  {
    var kept := LineCandidates.KeepLines(frame.lines, minSize);
    KeptWellFormed(frame.lines, minSize);
    && FlagsOf(frame, after.whiteMean, after.red, after.box, offsetAfter.x, offsetAfter.y, offsetBefore.x, offsetBefore.y)
    && after.turn == TurnSigns.TurnDirection(frame.signs)
    && (after.detected <==> |kept| > 0)
    && TracksLine(kept, before.xLast, rotation, after.turn, outcome, after.xLast, before.angle, after.angle)
  }

  /** The ball tracker on one frame: it runs only while looking for or
      picking up a ball and when circles were found; it then follows the
      candidate of smallest distance from `circle_last`, moves `circle_last`
      to it and aims the target offsets at it. Otherwise the tracker state
      and the offsets stay as they were. The zone flags are not its concern. */
  predicate TracksBall(circles: Option<seq<BallTracker.Circle>>, zoneStatus: ZoneStatus,
                       before: ZoneState, offsetBefore: Offset, after: ZoneState, offsetAfter: Offset)
  {
    && (after.ballDetected <==> circles.Some? && (zoneStatus == FindBall || zoneStatus == PickupBall))
    && (!after.ballDetected ==>
          after.circleLast == before.circleLast && after.alive == before.alive && offsetAfter == offsetBefore)
    && (after.ballDetected ==>
          var table := BallTracker.BallTable(circles.value, before.circleLast);
          && (exists r :: r in table && after.circleLast == Pixel(r.x, r.y) && after.alive == r.alive &&
                (forall s :: s in table ==> r.distance <= s.distance))
          && offsetAfter == Offset(after.circleLast.x - Width / 2, after.circleLast.y - Height / 2))
  }

  /** One zone frame: the ball tracker, then white when the mean of the
      white mask is above 8.5 and black when some zone-black contour is
      larger than 10000. */
  predicate FollowsZoneFrame(frame: ZoneFrame, zoneStatus: ZoneStatus,
                             before: ZoneState, offsetBefore: Offset, after: ZoneState, offsetAfter: Offset)
  {
    && TracksBall(frame.circles, zoneStatus, before, offsetBefore, after, offsetAfter)
    && (after.white <==> frame.whiteMean > 8.5)
    && (after.black <==> exists i :: 0 <= i < |frame.blackAreas| && frame.blackAreas[i] > Detections.ZoneBlackMinArea)
  }

  /** The line-following branch of one frame, from the context, state and
      offsets before it. */
  method FollowLineFrame(frame: LineFrame, minSize: int, rotation: Rotation, before: LineState, offsetBefore: Offset)
    returns (outcome: LineOutcome, after: LineState, offsetAfter: Offset)
    requires WellFormed(frame.lines)
    ensures FollowsLineFrame(frame, minSize, rotation, before, offsetBefore, outcome, after, offsetAfter)
  {
    var mean, red, box, offX, offY := ReportFlags(frame, offsetBefore.x, offsetBefore.y);
    var tracked, turn, detected, x, angle := TrackFrame(frame, minSize, rotation, before.xLast, before.angle);
    outcome := tracked;
    after := LineState(mean, red, box, turn, detected, x, angle);
    offsetAfter := Offset(offX, offY);
  }

  /** The ball tracker of one frame, from the zone state and offsets before it. */
  method TrackBall(circles: Option<seq<BallTracker.Circle>>, zoneStatus: ZoneStatus, before: ZoneState, offsetBefore: Offset)
    returns (after: ZoneState, offsetAfter: Offset)
    ensures TracksBall(circles, zoneStatus, before, offsetBefore, after, offsetAfter)
    ensures after.white == before.white && after.black == before.black
    ensures after.ballDetected && |circles.value| > 0 && InFrame(before.circleLast) &&
            (forall i :: 0 <= i < |circles.value| ==> InFrame(Pixel(circles.value[i].x, circles.value[i].y))) ==>
              InFrame(after.circleLast)
  {
    if circles.Some? && (zoneStatus == FindBall || zoneStatus == PickupBall) {
      var best := BallTracker.PickBall(circles.value, before.circleLast);
      if |circles.value| > 0 && InFrame(before.circleLast) &&
         (forall i :: 0 <= i < |circles.value| ==> InFrame(Pixel(circles.value[i].x, circles.value[i].y))) {
        BallTracker.SentinelNeverChosen(circles.value, before.circleLast, best);
      }
      after := before.(ballDetected := true, circleLast := Pixel(best.x, best.y), alive := best.alive);
      offsetAfter := Offset(best.x - Width / 2, best.y - Height / 2);
    } else {
      after := before.(ballDetected := false);
      offsetAfter := offsetBefore;
    }
  }

  /** The zone branch of one frame: the ball tracker, then the white and
      black flags. */
  method ZoneFrameStep(frame: ZoneFrame, zoneStatus: ZoneStatus, before: ZoneState, offsetBefore: Offset)
    returns (after: ZoneState, offsetAfter: Offset)
    ensures FollowsZoneFrame(frame, zoneStatus, before, offsetBefore, after, offsetAfter)
  {
    after, offsetAfter := TrackBall(frame.circles, zoneStatus, before, offsetBefore);
    Detections.ZoneWhiteThreshold(frame.whiteMean);
    var white := Detections.ZoneWhite(frame.whiteMean);
    var black := Detections.AnyAbove(frame.blackAreas, Detections.ZoneBlackMinArea);
    after := after.(white := white, black := black);
  }

  class CamLoop {
    // Context written by the planner.
    var objective: Objective
    var lineStatus: LineStatus
    var zoneStatus: ZoneStatus
    var rotation: Rotation
    var obstacleDirection: ObstacleSide
    var minLineSize: int
    // Results written by the camera loop.
    var lineAngle: int
    var lineDetected: bool
    var redDetected: bool
    var boxDetected: bool
    var whiteMean: int
    var turnDir: TurnDir
    var zoneWhite: bool
    var zoneBlack: bool
    var zoneBallDetected: bool
    var zoneBallAlive: bool
    var targetOffsetX: int
    var targetOffsetY: int
    // Tracker state carried across frames.
    var xLast: real
    var circleLast: Pixel

    /** The shared values' initial contents and the trackers' starting points
        at the centre of the frame. */
    constructor ()
      ensures objective == FollowLine && lineStatus == LineDetected && zoneStatus == Begin
      ensures rotation == Flat && obstacleDirection == NoSide && minLineSize == 5000
      ensures lineAngle == 0 && !lineDetected && !redDetected && !boxDetected && whiteMean == 0
      ensures turnDir == Straight
      ensures !zoneWhite && !zoneBlack && !zoneBallDetected && !zoneBallAlive
      ensures targetOffsetX == 0 && targetOffsetY == 0
      ensures xLast == (Width / 2) as real && circleLast == Pixel(Width / 2, Height / 2)
    {
      objective := FollowLine;
      lineStatus := LineDetected;
      zoneStatus := Begin;
      rotation := Flat;
      obstacleDirection := NoSide;
      minLineSize := 5000;
      lineAngle := 0;
      lineDetected := false;
      redDetected := false;
      boxDetected := false;
      whiteMean := 0;
      turnDir := Straight;
      zoneWhite := false;
      zoneBlack := false;
      zoneBallDetected := false;
      zoneBallAlive := false;
      targetOffsetX := 0;
      targetOffsetY := 0;
      xLast := (Width / 2) as real;
      circleLast := Pixel(Width / 2, Height / 2);
    }

    function LineSide(): LineState
      reads this
    {
      LineState(whiteMean, redDetected, boxDetected, turnDir, lineDetected, xLast, lineAngle)
    }

    function ZoneSide(): ZoneState
      reads this
    {
      ZoneState(zoneBallDetected, circleLast, zoneBallAlive, zoneWhite, zoneBlack)
    }

    function TargetOffset(): Offset
      reads this
    {
      Offset(targetOffsetX, targetOffsetY)
    }

    /** The line-following branch of one frame; the context it reads
        (`min_line_size`, the rotation) is the value before the frame. */
    method FollowLineStep(frame: LineFrame) returns (outcome: LineOutcome)
      requires WellFormed(frame.lines)
      modifies this`whiteMean, this`redDetected, this`boxDetected, this`targetOffsetX, this`targetOffsetY
      modifies this`turnDir, this`lineDetected, this`xLast, this`lineAngle
      ensures FollowsLineFrame(frame, old(minLineSize), old(rotation), old(LineSide()), old(TargetOffset()),
                               outcome, LineSide(), TargetOffset())
    {
      var after, offset;
      outcome, after, offset := FollowLineFrame(frame, minLineSize, rotation, LineSide(), TargetOffset());
      whiteMean, redDetected, boxDetected, turnDir := after.whiteMean, after.red, after.box, after.turn;
      lineDetected, xLast, lineAngle := after.detected, after.xLast, after.angle;
      targetOffsetX, targetOffsetY := offset.x, offset.y;
      assert LineSide() == after && TargetOffset() == offset;
    }

    /** The zone branch of one frame; it reads `zone_status` as it was
        before the frame. */
    method ZoneStep(frame: ZoneFrame)
      modifies this`zoneBallDetected, this`circleLast, this`zoneBallAlive, this`zoneWhite, this`zoneBlack
      modifies this`targetOffsetX, this`targetOffsetY
      ensures FollowsZoneFrame(frame, old(zoneStatus), old(ZoneSide()), old(TargetOffset()), ZoneSide(), TargetOffset())
    {
      var after, offset := ZoneFrameStep(frame, zoneStatus, ZoneSide(), TargetOffset());
      zoneBallDetected, circleLast, zoneBallAlive := after.ballDetected, after.circleLast, after.alive;
      zoneWhite, zoneBlack := after.white, after.black;
      targetOffsetX, targetOffsetY := offset.x, offset.y;
      assert ZoneSide() == after && TargetOffset() == offset;
    }

    /** One pass of the camera loop: the objective picks the branch. The
        line-following objectives run the line branch and leave the zone side
        alone; the zone objective runs the zone branch and leaves the line
        side alone; other objectives change nothing. The context the planner
        writes is never changed. */
    method Step(lineFrame: LineFrame, zoneFrame: ZoneFrame) returns (outcome: LineOutcome)
      requires WellFormed(lineFrame.lines)
      modifies this`whiteMean, this`redDetected, this`boxDetected, this`targetOffsetX, this`targetOffsetY
      modifies this`turnDir, this`lineDetected, this`xLast, this`lineAngle
      modifies this`zoneBallDetected, this`circleLast, this`zoneBallAlive, this`zoneWhite, this`zoneBlack
      ensures objective == FollowLine || objective == PickUpBox ==>
                && FollowsLineFrame(lineFrame, old(minLineSize), old(rotation), old(LineSide()), old(TargetOffset()),
                                    outcome, LineSide(), TargetOffset())
                && ZoneSide() == old(ZoneSide())
      ensures objective == Zone ==>
                && FollowsZoneFrame(zoneFrame, old(zoneStatus), old(ZoneSide()), old(TargetOffset()),
                                    ZoneSide(), TargetOffset())
                && outcome == NoLine && LineSide() == old(LineSide())
      ensures objective != FollowLine && objective != PickUpBox && objective != Zone ==>
                && outcome == NoLine && LineSide() == old(LineSide()) && ZoneSide() == old(ZoneSide())
                && TargetOffset() == old(TargetOffset())
    {
      if objective == FollowLine || objective == PickUpBox {
        outcome := FollowLineStep(lineFrame);
      } else if objective == Zone {
        ZoneStep(zoneFrame);
        outcome := NoLine;
      } else {
        outcome := NoLine;
      }
    }
  }
}
