/** Shared vocabulary of the camera loop: the frame size, the context enums
    that the planner process writes, region readings, and the Python numeric
    conversions (`int()`, `round()`) the decision layer relies on. */
module Common {

  /** Low-resolution capture size used by the camera loop. */
  const Width: int := 448
  const Height: int := 336

  datatype Objective = FollowLine | Zone | Stop | PickUpBox | Test

  datatype LineStatus =
    | LineDetected | NoLineDetected | GapDetected | GapAvoid
    | ObstacleDetected | ObstacleAvoid

  datatype ZoneStatus = Begin | CheckCorners | TurnCorner | FindBall | PickupBall | FindExit

  /** Pitch context; `Flat` is the source's "none". */
  datatype Rotation = RampUp | RampDown | Flat

  /** Side of a detected obstacle; the source's "n", "l" and "r". */
  datatype ObstacleSide = NoSide | LeftSide | RightSide

  datatype TurnDir = Straight | Left | Right | TurnAround

  datatype Option<T> = None | Some(value: T)

  /** An integer image position (column x, row y). */
  datatype Pixel = Pixel(x: int, y: int)

  predicate InFrame(p: Pixel) {
    0 <= p.x < Width && 0 <= p.y < Height
  }

  /** The mean of a rectangular region of a mask. `Empty` stands for a region
      whose slice has no pixels (numpy gives NaN, which compares false). */
  datatype Reading = Empty | Mean(value: real)

  predicate Exceeds(r: Reading, threshold: real) {
    r.Mean? && r.value > threshold
  }

  function Abs(x: real): (a: real)
    ensures a >= 0.0 && (a == x || a == -x)
  {
    if x < 0.0 then -x else x
  }

  /** Python's `int()` on a float: truncation toward zero. */
  function Trunc(x: real): (n: int)
    ensures x >= 0.0 ==> n >= 0 && n as real <= x < n as real + 1.0
    ensures x < 0.0 ==> n <= 0 && n as real - 1.0 < x <= n as real
  {
    if x >= 0.0 then x.Floor else -((-x).Floor)
  }

  lemma {:induction false} TruncMonotone(x: real, y: real)
    requires x <= y
    ensures Trunc(x) <= Trunc(y)
  {
    if x < 0.0 && y >= 0.0 {
    } else if x >= 0.0 {
      assert Trunc(x) as real <= x <= y < Trunc(y) as real + 1.0;
    } else {
      assert Trunc(x) as real - 1.0 < x <= y <= Trunc(y) as real;
    }
  }

  /** Python's `round()` to an integer: to the nearest, ties to even. */
  function RoundHalfEven(x: real): (n: int)
    ensures Abs(n as real - x) <= 0.5
    ensures Abs(n as real - x) == 0.5 ==> n % 2 == 0
  {
    var f := x.Floor;
    var d := x - f as real;
    if d < 0.5 then f
    else if d > 0.5 then f + 1
    else if f % 2 == 0 then f
    else f + 1
  }

  /** Python's `round(x, 2)`, read exactly. */
  function Round2(x: real): (r: real)
    ensures Abs(r - x) <= 0.005
  {
    RoundHalfEven(x * 100.0) as real / 100.0
  }
}
