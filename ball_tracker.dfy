/** The ball tracker of the evacuation zone. Every Hough circle becomes a
    candidate row [x, y, r, distance, alive] behind a sentinel row; the
    distance is the Manhattan distance of the centre to the previous frame's
    `circle_last`, plus a full frame width when the zone-black mask under the
    circle is mostly set (a dead, black ball). The row with the smallest
    distance is followed. */
module BallTracker {
  import opened Common

  /** A black-mask mean above this marks the ball as dead. */
  const DeadThreshold: real := 150.0

  /** A Hough circle (centre and radius after rounding to integers) and the
      zone-black reading of the clipped square around it. */
  datatype Circle = Circle(x: int, y: int, radius: int, floor: Reading)

  /** A row of the candidate table. */
  datatype BallRow = BallRow(x: int, y: int, radius: int, distance: int, alive: bool)

  /** The first row of the table: [2w, 2h, 2w, 5w, False]. */
  const BallSentinel: BallRow := BallRow(2 * Width, 2 * Height, 2 * Width, 5 * Width, false)

  predicate Dead(c: Circle) {
    Exceeds(c.floor, DeadThreshold)
  }

  function Manhattan(x: int, y: int, last: Pixel): nat {
    (if x >= last.x then x - last.x else last.x - x) + (if y >= last.y then y - last.y else last.y - y)
  }

  /** The row appended for one circle. */
  function BallCandidate(c: Circle, last: Pixel): BallRow {
    BallRow(c.x, c.y, c.radius, Manhattan(c.x, c.y, last) + (if Dead(c) then Width else 0), !Dead(c))
  }

  /** The whole candidate table, sentinel first. */
  function BallTable(circles: seq<Circle>, last: Pixel): (t: seq<BallRow>)
    ensures |t| == |circles| + 1
  {
    [BallSentinel] + seq(|circles|, i requires 0 <= i < |circles| => BallCandidate(circles[i], last))
  }

  /** Builds the table and takes a row of smallest distance (the order among
      equal distances is left open). */
  method PickBall(circles: seq<Circle>, last: Pixel) returns (best: BallRow)
    ensures best in BallTable(circles, last)
    ensures forall r :: r in BallTable(circles, last) ==> best.distance <= r.distance
  {
    var table := [BallSentinel];
    for i := 0 to |circles|
      invariant table == BallTable(circles[..i], last)
    {
      table := table + [BallCandidate(circles[i], last)];
      assert circles[..i + 1][..i] == circles[..i];
    }
    assert circles[..|circles|] == circles;
    best := table[0];
    for i := 1 to |table|
      invariant best in table
      invariant forall j :: 0 <= j < i ==> best.distance <= table[j].distance
    {
      if table[i].distance < best.distance {
        best := table[i];
      }
    }
  }

  /** Rows of the table are the sentinel or the row of some circle. */
  lemma {:induction false} BallTableRows(circles: seq<Circle>, last: Pixel, r: BallRow)
    requires r in BallTable(circles, last)
    ensures r == BallSentinel || exists i :: 0 <= i < |circles| && r == BallCandidate(circles[i], last)
  {
    var t := BallTable(circles, last);
    var k :| 0 <= k < |t| && t[k] == r;
    if k > 0 {
      assert r == BallCandidate(circles[k - 1], last);
    }
  }

  /** With centres and the previous position in the frame, every real row is
      closer than (w-1) + (h-1) + w = 1230 < 5w, so the sentinel is never
      chosen, the chosen row is a circle, and the new `circle_last` stays in
      the frame. */
  lemma {:induction false} SentinelNeverChosen(circles: seq<Circle>, last: Pixel, best: BallRow)
    requires |circles| > 0 && InFrame(last)
    requires forall i :: 0 <= i < |circles| ==> InFrame(Pixel(circles[i].x, circles[i].y))
    requires best in BallTable(circles, last)
    requires forall r :: r in BallTable(circles, last) ==> best.distance <= r.distance
    ensures best != BallSentinel
    ensures exists i :: 0 <= i < |circles| && best == BallCandidate(circles[i], last)
    ensures InFrame(Pixel(best.x, best.y))
  {
    var t := BallTable(circles, last);
    assert t[1] == BallCandidate(circles[0], last);
    assert t[1] in t;
    assert best.distance <= t[1].distance <= 1230;
    BallTableRows(circles, last, best);
  }

  /** A dead ball is followed only when every live ball is at least a frame
      width further from `circle_last` than it is. */
  lemma {:induction false} DeadChosenOnlyWhenFar(circles: seq<Circle>, last: Pixel, k: nat)
    requires k < |circles| && Dead(circles[k])
    requires forall r :: r in BallTable(circles, last) ==> BallCandidate(circles[k], last).distance <= r.distance
    ensures !BallCandidate(circles[k], last).alive
    ensures forall i :: 0 <= i < |circles| && !Dead(circles[i]) ==>
              Manhattan(circles[i].x, circles[i].y, last) >= Manhattan(circles[k].x, circles[k].y, last) + Width
  {
    var t := BallTable(circles, last);
    forall i | 0 <= i < |circles| && !Dead(circles[i])
      ensures Manhattan(circles[i].x, circles[i].y, last) >= Manhattan(circles[k].x, circles[k].y, last) + Width
    {
      assert t[i + 1] == BallCandidate(circles[i], last);
      assert t[i + 1] in t;
    }
  }
}
