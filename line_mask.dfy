/** The line mask: how the black, green and blue range masks are combined
    per pixel, how the black threshold and the glare fallback are chosen,
    and which rectangles the ramp and obstacle context blank out.
    `cv2.inRange` results are given as boolean arrays (in range or not);
    erosion and dilation happen between BuildLineMask and SuppressContext
    and are not part of this model. */
module LineMask {
  import opened Common

  /** Upper bounds of the black range (all three channels share one value). */
  const FlatBlackMax: int := 80
  const RampUpBlackMax: int := 80
  const RampDownBlackMax: int := 20
  const ObstacleBlackMax: int := 65

  /** Rows of the top band whose mean decides the glare fallback: int(0.25 h). */
  const TopBand: int := 84

  /** The value `cv2.inRange` writes for a pixel. */
  function Level(inside: bool): int {
    if inside then 255 else 0
  }

  /** Subtraction of two uint8 images in numpy: wraps around modulo 256. */
  function Sub8(a: int, b: int): (r: int)
    requires 0 <= a < 256 && 0 <= b < 256
    ensures 0 <= r < 256
    ensures r == a - b || r == a - b + 256
  {
    (a - b) % 256
  }

  /** The denoise floor: values below 2 are forced to zero. */
  function Denoise(v: int): int {
    if v < 2 then 0 else v
  }

  /** One pixel of the line mask: black minus green minus blue, then the floor.
      The wrap-around makes a green-and-blue pixel that is not black survive as 2. */
  function LinePixel(black: bool, green: bool, blue: bool): (v: int)
    ensures v == 255 <==> black && !green && !blue
    ensures v == 2 <==> !black && green && blue
    ensures v == 0 <==> !(black && !green && !blue) && !(!black && green && blue)
  {
    Denoise(Sub8(Sub8(Level(black), Level(green)), Level(blue)))
  }

  /** Upper bound of the black range chosen from the context. */
  function BlackMax(status: LineStatus, rotation: Rotation): (m: int)
    ensures m == ObstacleBlackMax <==> status == ObstacleAvoid
    ensures m == FlatBlackMax <==> status != ObstacleAvoid
  {
    var byPitch := if rotation == RampUp then RampUpBlackMax else FlatBlackMax;
    if status == ObstacleAvoid then ObstacleBlackMax else byPitch
  }

  /** The glare rule: the narrow mask replaces the wide one only when the wide
      mask's top band is bright, the robot is level, and the narrow mask's top
      band is darker by more than 60. */
  predicate PreferNarrow(wideMean: real, narrowMean: real, rotation: Rotation) {
    wideMean > 90.0 && rotation == Flat && narrowMean + 60.0 < wideMean
  }

  predicate SameShape(a: array2<bool>, b: array2<bool>) {
    a.Length0 == b.Length0 && a.Length1 == b.Length1
  }

  predicate FrameShaped(a: array2<bool>) {
    a.Length0 == Height && a.Length1 == Width
  }

  /** Sum of the combined line mask over columns [0, cols) of row r. */
  function RowSum(black: array2<bool>, green: array2<bool>, blue: array2<bool>, r: nat, cols: nat): int
    reads black, green, blue
    requires SameShape(black, green) && SameShape(black, blue)
    requires r < black.Length0 && cols <= black.Length1
  {
    if cols == 0 then 0
    else RowSum(black, green, blue, r, cols - 1)
         + LinePixel(black[r, cols - 1], green[r, cols - 1], blue[r, cols - 1])
  }

  /** Sum of the combined line mask over rows [0, rows) and all columns. */
  function BandSum(black: array2<bool>, green: array2<bool>, blue: array2<bool>, rows: nat): int
    reads black, green, blue
    requires SameShape(black, green) && SameShape(black, blue)
    requires rows <= black.Length0
  {
    if rows == 0 then 0
    else BandSum(black, green, blue, rows - 1) + RowSum(black, green, blue, rows - 1, black.Length1)
  }

  lemma {:induction false} RowSumBounds(black: array2<bool>, green: array2<bool>, blue: array2<bool>, r: nat, cols: nat)
    requires SameShape(black, green) && SameShape(black, blue)
    requires r < black.Length0 && cols <= black.Length1
    ensures 0 <= RowSum(black, green, blue, r, cols) <= 255 * cols
  {
    if cols > 0 {
      RowSumBounds(black, green, blue, r, cols - 1);
    }
  }

  lemma {:induction false} BandSumBounds(black: array2<bool>, green: array2<bool>, blue: array2<bool>, rows: nat)
    requires SameShape(black, green) && SameShape(black, blue)
    requires rows <= black.Length0
    ensures 0 <= BandSum(black, green, blue, rows) <= 255 * rows * black.Length1
  {
    if rows > 0 {
      BandSumBounds(black, green, blue, rows - 1);
      RowSumBounds(black, green, blue, rows - 1, black.Length1);
    }
  }

  /** `round(np.mean(mask[0:84, 0:448]), 2)` of the combined mask. */
  function TopBandMean(black: array2<bool>, green: array2<bool>, blue: array2<bool>): (m: real)
    reads black, green, blue
    requires FrameShaped(black) && FrameShaped(green) && FrameShaped(blue)
    ensures -0.005 <= m <= 255.005
  {
    BandSumBounds(black, green, blue, TopBand);
    Round2(BandSum(black, green, blue, TopBand) as real / (TopBand * Width) as real)
  }

  /** Combines the three range masks pixel by pixel into a fresh line mask. */
  method CombineLineMask(black: array2<bool>, green: array2<bool>, blue: array2<bool>)
    returns (line: array2<int>)
    requires SameShape(black, green) && SameShape(black, blue)
    ensures fresh(line)
    ensures line.Length0 == black.Length0 && line.Length1 == black.Length1
    ensures forall r, c :: 0 <= r < line.Length0 && 0 <= c < line.Length1 ==>
              line[r, c] == LinePixel(black[r, c], green[r, c], blue[r, c])
  {
    line := new int[black.Length0, black.Length1];
    var r := 0;
    while r < black.Length0
      invariant 0 <= r <= black.Length0
      invariant forall i, c :: 0 <= i < r && 0 <= c < line.Length1 ==>
                  line[i, c] == LinePixel(black[i, c], green[i, c], blue[i, c])
    {
      var c := 0;
      while c < black.Length1
        invariant 0 <= c <= black.Length1
        invariant forall i, j :: 0 <= i < r && 0 <= j < line.Length1 ==>
                    line[i, j] == LinePixel(black[i, j], green[i, j], blue[i, j])
        invariant forall j :: 0 <= j < c ==> line[r, j] == LinePixel(black[r, j], green[r, j], blue[r, j])
      {
        line[r, c] := LinePixel(black[r, c], green[r, c], blue[r, c]);
        c := c + 1;
      }
      r := r + 1;
    }
  }

  /** The line mask before morphology: built from the context's black range
      (`wide`), and rebuilt from the narrow ramp-down range when the glare
      rule says so. */
  method BuildLineMask(wide: array2<bool>, narrow: array2<bool>, green: array2<bool>, blue: array2<bool>,
                       rotation: Rotation)
    returns (line: array2<int>)
    requires FrameShaped(wide) && FrameShaped(narrow) && FrameShaped(green) && FrameShaped(blue)
    ensures fresh(line)
    ensures line.Length0 == Height && line.Length1 == Width
    ensures var useNarrow := PreferNarrow(TopBandMean(wide, green, blue), TopBandMean(narrow, green, blue), rotation);
            forall r, c :: 0 <= r < Height && 0 <= c < Width ==>
              line[r, c] == LinePixel(if useNarrow then narrow[r, c] else wide[r, c], green[r, c], blue[r, c])
  {
    line := CombineLineMask(wide, green, blue);
    var wideMean := TopBandMean(wide, green, blue);
    if wideMean > 90.0 && rotation == Flat {
      var line2 := CombineLineMask(narrow, green, blue);
      var narrowMean := TopBandMean(narrow, green, blue);
      if narrowMean + 60.0 < wideMean {
        line := line2;
      }
    }
  }

  /** A filled `cv2.rectangle` from corner (x1, y1) to corner (x2, y2):
      both corners are included. */
  datatype Rect = Rect(x1: int, y1: int, x2: int, y2: int)

  predicate Covers(rect: Rect, r: int, c: int) {
    rect.y1 <= r <= rect.y2 && rect.x1 <= c <= rect.x2
  }

  /** Ramp up: the top 60% of the frame. */
  function RampRect(): Rect {
    Rect(0, 0, Width, Trunc(Height as real * 0.6))
  }

  /** Obstacle on the left: everything left of 70% of the width. */
  function ObstacleLeftRect(): Rect {
    Rect(0, 0, Trunc(Width as real * 0.7), Height)
  }

  /** Obstacle on the right: everything right of 30% of the width. */
  function ObstacleRightRect(): Rect {
    Rect(Trunc(Width as real * 0.3), 0, Width, Height)
  }

  /** Whether the context blanks pixel (r, c) of the line mask. */
  predicate Suppressed(r: int, c: int, rotation: Rotation, status: LineStatus, side: ObstacleSide) {
    || (rotation == RampUp && Covers(RampRect(), r, c))
    || ((status == ObstacleAvoid || status == ObstacleDetected) &&
        ((side == LeftSide && Covers(ObstacleLeftRect(), r, c)) ||
         (side == RightSide && Covers(ObstacleRightRect(), r, c))))
  }

  /** The rectangles in pixel terms: which rows or columns of the frame each one blanks. */
  lemma {:induction false} SuppressedRegions(r: int, c: int)
    requires 0 <= r < Height && 0 <= c < Width
    ensures Covers(RampRect(), r, c) <==> r <= 201
    ensures Covers(ObstacleLeftRect(), r, c) <==> c <= 313
    ensures Covers(ObstacleRightRect(), r, c) <==> c >= 134
  {
    assert Trunc(Height as real * 0.6) == 201;
    assert Trunc(Width as real * 0.7) == 313;
    assert Trunc(Width as real * 0.3) == 134;
  }

  /** Without ramp or obstacle context nothing is blanked. */
  lemma {:induction false} NothingSuppressedWithoutContext(r: int, c: int, rotation: Rotation, status: LineStatus, side: ObstacleSide)
    requires rotation != RampUp
    requires side == NoSide || (status != ObstacleAvoid && status != ObstacleDetected)
    ensures !Suppressed(r, c, rotation, status, side)
  {
  }

  /** Zeroes the pixels of `m` that `rect` covers, clipped to the image. */
  method FillRect(m: array2<int>, rect: Rect)
    modifies m
    ensures forall r, c :: 0 <= r < m.Length0 && 0 <= c < m.Length1 ==>
              m[r, c] == if Covers(rect, r, c) then 0 else old(m[r, c])
  {
    var top := if rect.y1 < 0 then 0 else rect.y1;
    var bottom := if rect.y2 + 1 > m.Length0 then m.Length0 else rect.y2 + 1;
    var left := if rect.x1 < 0 then 0 else rect.x1;
    var right := if rect.x2 + 1 > m.Length1 then m.Length1 else rect.x2 + 1;
    var r := top;
    while r < bottom
      invariant top <= r <= if top <= bottom then bottom else top
      invariant forall i, j :: 0 <= i < m.Length0 && 0 <= j < m.Length1 ==>
                  m[i, j] == if top <= i < r && Covers(rect, i, j) then 0 else old(m[i, j])
    {
      var c := left;
      while c < right
        invariant left <= c <= if left <= right then right else left
        invariant forall i, j :: 0 <= i < m.Length0 && 0 <= j < m.Length1 ==>
                    m[i, j] == if (top <= i < r && Covers(rect, i, j)) || (i == r && left <= j < c) then 0 else old(m[i, j])
      {
        m[r, c] := 0;
        c := c + 1;
      }
      assert forall j :: 0 <= j < m.Length1 ==> (Covers(rect, r, j) <==> left <= j < c);
      r := r + 1;
    }
  }

  /** Blanks the parts of the (morphologically cleaned) line mask that the
      ramp and obstacle context rule out; every other pixel is kept. */
  method SuppressContext(m: array2<int>, rotation: Rotation, status: LineStatus, side: ObstacleSide)
    modifies m
    ensures forall r, c :: 0 <= r < m.Length0 && 0 <= c < m.Length1 ==>
              m[r, c] == if Suppressed(r, c, rotation, status, side) then 0 else old(m[r, c])
  {
    if rotation == RampUp {
      FillRect(m, RampRect());
    }
    if status == ObstacleAvoid || status == ObstacleDetected {
      if side == LeftSide {
        FillRect(m, ObstacleLeftRect());
      } else if side == RightSide {
        FillRect(m, ObstacleRightRect());
      }
    }
  }
}
