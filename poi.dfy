/** Steering from the followed contour. Three points of interest are taken
    from the contour's boundary pixels: the top point (mean x of the topmost
    pixels), the left point and the right point (mean y of the leftmost and
    rightmost pixels). Each gets a score: its distance to the bottom centre of
    the frame, boosted for the top point on level ground, plus fixed bonuses,
    truncated to an integer. The highest score wins, and its x gives the line
    angle. */
module PointsOfInterest {
  import opened Common

  datatype Axis = X | Y

  function Coord(p: Pixel, a: Axis): int {
    match a
    case X => p.x
    case Y => p.y
  }

  /** `np.amin` of one coordinate of the contour's pixels. */
  function MinOf(ps: seq<Pixel>, a: Axis): (m: int)
    requires |ps| > 0
    ensures exists i :: 0 <= i < |ps| && Coord(ps[i], a) == m
    ensures forall i :: 0 <= i < |ps| ==> m <= Coord(ps[i], a)
  {
    if |ps| == 1 then Coord(ps[0], a)
    else
      var rest := MinOf(ps[1..], a);
      assert forall i :: 1 <= i < |ps| ==> ps[i] == ps[1..][i - 1];
      if Coord(ps[0], a) <= rest then Coord(ps[0], a) else rest
  }

  /** `np.amax` of one coordinate of the contour's pixels. */
  function MaxOf(ps: seq<Pixel>, a: Axis): (m: int)
    requires |ps| > 0
    ensures exists i :: 0 <= i < |ps| && Coord(ps[i], a) == m
    ensures forall i :: 0 <= i < |ps| ==> Coord(ps[i], a) <= m
  {
    if |ps| == 1 then Coord(ps[0], a)
    else
      var rest := MaxOf(ps[1..], a);
      assert forall i :: 1 <= i < |ps| ==> ps[i] == ps[1..][i - 1];
      if Coord(ps[0], a) >= rest then Coord(ps[0], a) else rest
  }

  /** How many pixels have coordinate `a` equal to v. */
  function CountWhere(ps: seq<Pixel>, a: Axis, v: int): (n: nat)
    ensures n <= |ps|
  {
    if ps == [] then 0
    else CountWhere(ps[..|ps| - 1], a, v) + (if Coord(ps[|ps| - 1], a) == v then 1 else 0)
  }

  /** The sum of coordinate b over the pixels whose coordinate a equals v. */
  function SumWhere(ps: seq<Pixel>, a: Axis, v: int, b: Axis): int {
    if ps == [] then 0
    else SumWhere(ps[..|ps| - 1], a, v, b) + (if Coord(ps[|ps| - 1], a) == v then Coord(ps[|ps| - 1], b) else 0)
  }

  lemma {:induction false} CountWherePositive(ps: seq<Pixel>, a: Axis, i: nat)
    requires i < |ps|
    ensures CountWhere(ps, a, Coord(ps[i], a)) > 0
  {
    if i < |ps| - 1 {
      CountWherePositive(ps[..|ps| - 1], a, i);
    }
  }

  /** The matching pixels' coordinates b lie in [lo, hi], so their sum lies in
      [lo * count, hi * count]. */
  lemma {:induction false} SumWhereBounds(ps: seq<Pixel>, a: Axis, v: int, b: Axis, lo: int, hi: int)
    requires forall i :: 0 <= i < |ps| ==> lo <= Coord(ps[i], b) <= hi
    ensures lo * CountWhere(ps, a, v) <= SumWhere(ps, a, v, b) <= hi * CountWhere(ps, a, v)
  {
    if ps != [] {
      var init := ps[..|ps| - 1];
      assert forall i :: 0 <= i < |init| ==> init[i] == ps[i];
      SumWhereBounds(init, a, v, b, lo, hi);
      var n0 := CountWhere(init, a, v);
      if Coord(ps[|ps| - 1], a) == v {
        MulSucc(lo, n0);
        MulSucc(hi, n0);
      }
    }
  }

  lemma {:induction false} MulSucc(k: int, n: int)
    ensures k * (n + 1) == k * n + k
  {
  }

  /** Dividing bounds lo * n <= s <= hi * n by a positive n. */
  lemma {:induction false} QuotientBounds(s: real, n: real, lo: real, hi: real)
    requires n > 0.0 && lo * n <= s <= hi * n
    ensures lo <= s / n <= hi
  {
    var q := s / n;
    assert (q - lo) * n == s - lo * n;
    assert (hi - q) * n == hi * n - s;
  }

  /** `int(np.mean(...))` of coordinate b over the pixels whose coordinate a is v. */
  function MeanWhere(ps: seq<Pixel>, a: Axis, v: int, b: Axis): int
    requires CountWhere(ps, a, v) > 0
  {
    Trunc(SumWhere(ps, a, v, b) as real / CountWhere(ps, a, v) as real)
  }

  /** The truncated mean of non-negative coordinates lies between their bounds. */
  lemma {:induction false} MeanWhereBounds(ps: seq<Pixel>, a: Axis, v: int, b: Axis, lo: int, hi: int)
    requires CountWhere(ps, a, v) > 0 && 0 <= lo
    requires forall i :: 0 <= i < |ps| ==> lo <= Coord(ps[i], b) <= hi
    ensures lo <= MeanWhere(ps, a, v, b) <= hi
  {
    SumWhereBounds(ps, a, v, b, lo, hi);
    TruncMeanBounds(SumWhere(ps, a, v, b), CountWhere(ps, a, v), lo, hi);
  }

  /** `int(s / n)` of a sum s of n values in [lo, hi], lo >= 0, lies in [lo, hi]. */
  lemma {:induction false} TruncMeanBounds(s: int, n: int, lo: int, hi: int)
    requires n > 0 && 0 <= lo && lo * n <= s <= hi * n
    ensures lo <= Trunc(s as real / n as real) <= hi
  {
    assert (lo * n) as real == lo as real * n as real;
    assert (hi * n) as real == hi as real * n as real;
    QuotientBounds(s as real, n as real, lo as real, hi as real);
    TruncMonotone(lo as real, s as real / n as real);
    TruncMonotone(s as real / n as real, hi as real);
  }

  /** The top point: mean x of the topmost pixels, at the smallest y. */
  function TopPoint(ps: seq<Pixel>): (top: Pixel)
    requires |ps| > 0
    ensures exists i :: 0 <= i < |ps| && ps[i].y == top.y
    ensures forall i :: 0 <= i < |ps| ==> top.y <= ps[i].y
  {
    var yMin := MinOf(ps, Y);
    var i :| 0 <= i < |ps| && Coord(ps[i], Y) == yMin;
    CountWherePositive(ps, Y, i);
    Pixel(MeanWhere(ps, Y, yMin, X), yMin)
  }

  /** The left point: the smallest x, at the mean y of the leftmost pixels. */
  function LeftPoint(ps: seq<Pixel>): (left: Pixel)
    requires |ps| > 0
    ensures exists i :: 0 <= i < |ps| && ps[i].x == left.x
    ensures forall i :: 0 <= i < |ps| ==> left.x <= ps[i].x
  {
    var xMin := MinOf(ps, X);
    var i :| 0 <= i < |ps| && Coord(ps[i], X) == xMin;
    CountWherePositive(ps, X, i);
    Pixel(xMin, MeanWhere(ps, X, xMin, Y))
  }

  /** The right point: the largest x, at the mean y of the rightmost pixels. */
  function RightPoint(ps: seq<Pixel>): (right: Pixel)
    requires |ps| > 0
    ensures exists i :: 0 <= i < |ps| && ps[i].x == right.x
    ensures forall i :: 0 <= i < |ps| ==> ps[i].x <= right.x
  {
    var xMax := MaxOf(ps, X);
    var i :| 0 <= i < |ps| && Coord(ps[i], X) == xMax;
    CountWherePositive(ps, X, i);
    Pixel(xMax, MeanWhere(ps, X, xMax, Y))
  }

  /** The three points in the source's order [top, left, right]. */
  function Pois(ps: seq<Pixel>): (pois: seq<Pixel>)
    requires |ps| > 0
    ensures |pois| == 3
  {
    [TopPoint(ps), LeftPoint(ps), RightPoint(ps)]
  }

  /** A contour whose pixels lie in the frame yields points in the frame; the
      top point is on the top row of the contour, the left and right points
      on its extreme columns. */
  lemma {:induction false} PoisInFrame(ps: seq<Pixel>)
    requires |ps| > 0
    requires forall i :: 0 <= i < |ps| ==> InFrame(ps[i])
    ensures forall k :: 0 <= k < 3 ==> InFrame(Pois(ps)[k])
    ensures forall i :: 0 <= i < |ps| ==> Pois(ps)[0].y <= ps[i].y
    ensures forall i :: 0 <= i < |ps| ==> Pois(ps)[1].x <= ps[i].x <= Pois(ps)[2].x
  {
    assert forall i :: 0 <= i < |ps| ==> 0 <= Coord(ps[i], X) <= Width - 1;
    assert forall i :: 0 <= i < |ps| ==> 0 <= Coord(ps[i], Y) <= Height - 1;
    MeanInFrame(ps, Y, MinOf(ps, Y), X, Width - 1);
    MeanInFrame(ps, X, MinOf(ps, X), Y, Height - 1);
    MeanInFrame(ps, X, MaxOf(ps, X), Y, Height - 1);
  }

  /** The mean over the pixels on an attained row or column is a coordinate in [0, hi]. */
  lemma {:induction false} MeanInFrame(ps: seq<Pixel>, a: Axis, v: int, b: Axis, hi: int)
    requires exists i :: 0 <= i < |ps| && Coord(ps[i], a) == v
    requires forall i :: 0 <= i < |ps| ==> 0 <= Coord(ps[i], b) <= hi
    ensures CountWhere(ps, a, v) > 0 && 0 <= MeanWhere(ps, a, v, b) <= hi
  {
    var i :| 0 <= i < |ps| && Coord(ps[i], a) == v;
    CountWherePositive(ps, a, i);
    MeanWhereBounds(ps, a, v, b, 0, hi);
  }

  /** Doubling a root of n / 4 brackets the root of n. */
  lemma {:induction false} RootStep(n: nat, h: nat)
    requires h * h <= n / 4 < (h + 1) * (h + 1)
    ensures (2 * h) * (2 * h) <= n < (2 * h + 2) * (2 * h + 2)
  {
    Doubled(h);
  }

  /** The integer square root: `int(sqrt(n))` for a non-negative integer n. */
  function FloorSqrt(n: nat): (r: nat)
    ensures r * r <= n < (r + 1) * (r + 1)
  {
    if n == 0 then 0
    else
      var h := FloorSqrt(n / 4);
      RootStep(n, h);
      var r := 2 * h + 1;
      if r * r <= n then
        assert (r + 1) * (r + 1) == (2 * h + 2) * (2 * h + 2);
        r
      else 2 * h
  }

  lemma {:induction false} SquareMonotone(a: nat, b: nat)
    requires a <= b
    ensures a * a <= b * b
  {
    assert a * a <= a * b <= b * b;
  }

  /** The integer square root is the only r with r^2 <= n < (r+1)^2, so an
      n below (m+1)^2 has a root of at most m. */
  lemma {:induction false} FloorSqrtAtMost(n: nat, m: nat)
    requires n < (m + 1) * (m + 1)
    ensures FloorSqrt(n) <= m
  {
    RootAtMost(n, m, FloorSqrt(n));
  }

  lemma {:induction false} RootAtMost(n: nat, m: nat, r: nat)
    requires r * r <= n < (m + 1) * (m + 1)
    ensures r <= m
  {
    if r > m {
      SquareMonotone(m + 1, r);
    }
  }

  /** The squared distance from a point to the frame's bottom centre (224, 336). */
  function SquaredReach(p: Pixel): nat {
    var dx := Width / 2 - p.x;
    var dy := Height - p.y;
    dx * dx + dy * dy
  }

  /** The distance to the bottom centre, made 1.5 times larger for the top
      point on level ground, and truncated. */
  function BaseScore(i: nat, p: Pixel, rotation: Rotation): nat {
    if i == 0 && rotation == Flat then FloorSqrt(9 * SquaredReach(p)) / 2
    else FloorSqrt(SquaredReach(p))
  }

  /** The base score is `int(d)` or `int(1.5 d)` for the real distance d: as
      squares, b^2 <= d^2 < (b+1)^2, and (2b)^2 <= 9 d^2 < (2b+2)^2. */
  lemma {:induction false} BaseScoreTruncatesDistance(i: nat, p: Pixel, rotation: Rotation)
    ensures var b := BaseScore(i, p, rotation);
            var s := SquaredReach(p);
            if i == 0 && rotation == Flat then 4 * (b * b) <= 9 * s < 4 * ((b + 1) * (b + 1))
            else b * b <= s < (b + 1) * (b + 1)
  {
    if i == 0 && rotation == Flat {
      HalfRoot(9 * SquaredReach(p), FloorSqrt(9 * SquaredReach(p)));
    }
  }

  /** Half of a root q of m, rounded down, is the b with 4 b^2 <= m < 4 (b+1)^2. */
  lemma {:induction false} HalfRoot(m: nat, q: nat)
    requires q * q <= m < (q + 1) * (q + 1)
    ensures 4 * ((q / 2) * (q / 2)) <= m < 4 * ((q / 2 + 1) * (q / 2 + 1))
  {
    var b := q / 2;
    SquareMonotone(2 * b, q);
    SquareMonotone(q + 1, 2 * b + 2);
    Doubled(b);
  }

  lemma {:induction false} Doubled(b: int)
    ensures (2 * b) * (2 * b) == 4 * (b * b)
    ensures (2 * b + 2) * (2 * b + 2) == 4 * ((b + 1) * (b + 1))
  {
  }

  /** The top point is near the top edge: y < 0.1 h. */
  predicate BlackTop(top: Pixel) {
    (top.y as real) < Height as real * 0.1
  }

  /** The edge and top-band condition that earns the 2h bonus. */
  predicate EdgeBonus(i: nat, p: Pixel, blackTop: bool) {
    || (i == 1 && (p.x as real) < Width as real * 0.1 && !blackTop)
    || (i == 2 && (p.x as real) > Width as real * 0.9 && !blackTop)
    || (p.y as real) < Height as real * 0.05
  }

  /** The side the planned turn favours earns the 5w bonus. */
  predicate TurnBonus(i: nat, turn: TurnDir) {
    (i == 1 && turn == Left) || (i == 2 && turn == Right)
  }

  /** The score written back into the point's row (an integer array, so the
      float is truncated; the bonuses are whole numbers). */
  function PoiScore(i: nat, p: Pixel, blackTop: bool, rotation: Rotation, turn: TurnDir): int {
    BaseScore(i, p, rotation)
    + (if EdgeBonus(i, p, blackTop) then 2 * Height else 0)
    + (if TurnBonus(i, turn) then 5 * Width else 0)
  }

  /** A point of interest and its score, one row of the `poi` array. */
  datatype PoiRow = PoiRow(score: int, p: Pixel)

  /** Scores the three rows in place, in order; the black-top flag is set
      while scoring the top point and read by the two side points. */
  method ScorePois(rows: array<PoiRow>, rotation: Rotation, turn: TurnDir)
    requires rows.Length == 3
    modifies rows
    ensures forall i :: 0 <= i < 3 ==>
              rows[i] == PoiRow(PoiScore(i, old(rows[i].p), BlackTop(old(rows[0].p)), rotation, turn), old(rows[i].p))
  {
    var blackTop := false;
    for i := 0 to 3
      invariant blackTop == (i > 0 && BlackTop(old(rows[0].p)))
      invariant forall j :: 0 <= j < i ==>
                  rows[j] == PoiRow(PoiScore(j, old(rows[j].p), BlackTop(old(rows[0].p)), rotation, turn), old(rows[j].p))
      invariant forall j :: i <= j < 3 ==> rows[j] == old(rows[j])
    {
      var p := rows[i].p;
      if i == 0 && BlackTop(p) {
        blackTop := true;
      }
      assert blackTop == BlackTop(old(rows[0].p)) by {
        if i == 0 { assert p == old(rows[0].p); }
      }
      rows[i] := PoiRow(PoiScore(i, p, blackTop, rotation, turn), p);
    }
  }

  /** The row sorted first by the descending score order: one with the highest score. */
  method PickPoi(rows: array<PoiRow>) returns (best: nat)
    requires rows.Length > 0
    ensures best < rows.Length
    ensures forall j :: 0 <= j < rows.Length ==> rows[j].score <= rows[best].score
  {
    best := 0;
    for i := 1 to rows.Length
      invariant best < rows.Length
      invariant forall j :: 0 <= j < i ==> rows[j].score <= rows[best].score
    {
      if rows[i].score > rows[best].score {
        best := i;
      }
    }
  }

  /** `int((x - w/2) / (w/2) * 180)`. */
  function AngleOf(x: int): int {
    Trunc((x - Width / 2) as real / (Width / 2) as real * 180.0)
  }

  /** The angle's argument is (x - 224) * 45 / 56. */
  lemma {:induction false} AngleValue(x: int)
    ensures (x - Width / 2) as real / (Width / 2) as real * 180.0 == ((x - Width / 2) * 45) as real / 56.0
  {
    assert Width / 2 == 224;
    var d := (x - 224) as real;
    assert ((x - 224) * 45) as real == d * 45.0;
    assert d / 224.0 * 180.0 == d * 45.0 / 56.0;
  }

  /** The angle of a column in the frame lies in [-180, 179]. */
  lemma {:induction false} AngleRange(x: int)
    requires 0 <= x < Width
    ensures -180 <= AngleOf(x) <= 179
  {
    AngleValue(x);
    var k := (x - Width / 2) * 45;
    assert -10080 <= k <= 10035;
    assert -180.0 <= k as real / 56.0 < 180.0;
  }

  /** Truncation keeps the order of columns. */
  lemma {:induction false} AngleMonotone(x: int, y: int)
    requires x <= y
    ensures AngleOf(x) <= AngleOf(y)
  {
    AngleValue(x);
    AngleValue(y);
    TruncMonotone(((x - Width / 2) * 45) as real / 56.0, ((y - Width / 2) * 45) as real / 56.0);
  }

  /** The angle's sign follows the side of the centre column, except that the
      columns 223 and 225, within one pixel of it, truncate to 0. */
  lemma {:induction false} AngleSign(x: int)
    ensures AngleOf(x) > 0 <==> x >= Width / 2 + 2
    ensures AngleOf(x) < 0 <==> x <= Width / 2 - 2
    ensures AngleOf(x) == 0 <==> Width / 2 - 1 <= x <= Width / 2 + 1
  {
    AngleValue(x);
    var k := (x - Width / 2) * 45;
    var v := k as real / 56.0;
    if x >= Width / 2 + 2 {
      assert k >= 90;
      assert v >= 1.0;
    } else if x <= Width / 2 - 2 {
      assert k <= -90;
      assert v <= -1.0;
    } else {
      assert -45 <= k <= 45;
      assert -1.0 < v < 1.0;
    }
  }

  /** Scores of points in the frame stay below the turn bonus: the base is at
      most int(1.5 * sqrt(224^2 + 336^2)) = 605, and the edge bonus adds 672. */
  lemma {:induction false} ScoreWithoutTurnBonus(i: nat, p: Pixel, blackTop: bool, rotation: Rotation, turn: TurnDir)
    requires InFrame(p) && !TurnBonus(i, turn)
    ensures 0 <= PoiScore(i, p, blackTop, rotation, turn) <= 1277
  {
    BaseScoreAtMost(i, p, rotation);
  }

  /** The base score of a point in the frame is at most 605. */
  lemma {:induction false} BaseScoreAtMost(i: nat, p: Pixel, rotation: Rotation)
    requires InFrame(p)
    ensures BaseScore(i, p, rotation) <= 605
  {
    ReachAtMost(p);
    var s := SquaredReach(p);
    if i == 0 && rotation == Flat {
      FloorSqrtAtMost(9 * s, 1211);
    } else {
      FloorSqrtAtMost(s, 403);
    }
  }

  /** The squared distance of a point in the frame is at most 224^2 + 336^2. */
  lemma {:induction false} ReachAtMost(p: Pixel)
    requires InFrame(p)
    ensures SquaredReach(p) <= 163072
  {
    var dx := Width / 2 - p.x;
    var dy := Height - p.y;
    if dx >= 0 { SquareMonotone(dx, 224); } else { SquareMonotone(-dx, 224); }
    assert dx * dx == (-dx) * (-dx);
    SquareMonotone(dy, 336);
  }

  /** The three scores, with the black-top flag taken from the top point. */
  function Scores(pois: seq<Pixel>, rotation: Rotation, turn: TurnDir): (r: seq<int>)
    requires |pois| == 3
    ensures |r| == 3
  {
    var blackTop := BlackTop(pois[0]);
    [PoiScore(0, pois[0], blackTop, rotation, turn),
     PoiScore(1, pois[1], blackTop, rotation, turn),
     PoiScore(2, pois[2], blackTop, rotation, turn)]
  }

  /** With points in the frame, the planned turn always picks its side: a
      highest-scoring point is the left point when turning left and the right
      point when turning right. */
  lemma {:induction false} TurnBonusWins(pois: seq<Pixel>, rotation: Rotation, turn: TurnDir, best: nat)
    requires |pois| == 3 && forall j :: 0 <= j < 3 ==> InFrame(pois[j])
    requires turn == Left || turn == Right
    requires best < 3 && forall j :: 0 <= j < 3 ==> Scores(pois, rotation, turn)[j] <= Scores(pois, rotation, turn)[best]
    ensures best == if turn == Left then 1 else 2
  {
    var k := if turn == Left then 1 else 2;
    var blackTop := BlackTop(pois[0]);
    var scores := Scores(pois, rotation, turn);
    assert scores[k] >= 5 * Width;
    forall j | 0 <= j < 3 && j != k ensures scores[j] <= 1277 {
      ScoreWithoutTurnBonus(j, pois[j], blackTop, rotation, turn);
    }
  }

  /** A point in the top 5% band always earns the 2h bonus. */
  lemma {:induction false} TopBandEarnsBonus(i: nat, p: Pixel, blackTop: bool, rotation: Rotation, turn: TurnDir)
    requires 0 <= p.y <= 16
    ensures PoiScore(i, p, blackTop, rotation, turn) >= BaseScore(i, p, rotation) + 2 * Height
  {
  }

  /** The steering step: the three points of the followed contour are scored in
      place, a highest-scoring one is taken, and its x gives the angle. */
  method SteerFrom(ps: seq<Pixel>, rotation: Rotation, turn: TurnDir) returns (best: nat, target: Pixel, angle: int)
    requires |ps| > 0
    ensures best < 3 && target == Pois(ps)[best]
    ensures forall j :: 0 <= j < 3 ==> Scores(Pois(ps), rotation, turn)[j] <= Scores(Pois(ps), rotation, turn)[best]
    ensures angle == AngleOf(target.x)
  {
    var pois := Pois(ps);
    var rows := new PoiRow[][PoiRow(0, pois[0]), PoiRow(0, pois[1]), PoiRow(0, pois[2])];
    ScorePois(rows, rotation, turn);
    ghost var scores := Scores(pois, rotation, turn);
    assert rows[0].score == scores[0];
    assert rows[1].score == scores[1];
    assert rows[2].score == scores[2];
    best := PickPoi(rows);
    assert forall j :: 0 <= j < 3 ==> scores[j] <= scores[best] by {
      forall j | 0 <= j < 3 ensures scores[j] <= scores[best] {
        assert rows[j].score <= rows[best].score;
      }
    }
    target := pois[best];
    angle := AngleOf(target.x);
  }
}
