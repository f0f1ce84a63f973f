/** Flags raised from contour areas: the red stop marker, the blue box and its
    target offsets on the line-following path, and the white and black flags
    in the evacuation zone. */
module Detections {
  import opened Common

  /** Red contours larger than this stop the robot. */
  const RedMinArea: real := 15000.0
  /** Blue contours larger than this (`min_box_size`) are boxes. */
  const BoxMinArea: real := 2000.0
  /** Zone-black contours larger than this raise the zone black flag. */
  const ZoneBlackMinArea: real := 10000.0
  /** The rounded white-mask mean must exceed this for the zone white flag. */
  const ZoneWhiteMin: int := 8

  /** Scans the areas with a flag that any one above `limit` sets. */
  method AnyAbove(areas: seq<real>, limit: real) returns (found: bool)
    ensures found <==> exists i :: 0 <= i < |areas| && areas[i] > limit
  {
    found := false;
    for i := 0 to |areas|
      invariant found <==> exists j :: 0 <= j < i && areas[j] > limit
    {
      if areas[i] > limit {
        found := true;
      }
    }
  }

  /** A blue contour: its area and its bounding rectangle. */
  datatype BlueBox = BlueBox(area: real, x: int, y: int, w: int, h: int)

  predicate IsBox(b: BlueBox) {
    b.area > BoxMinArea
  }

  /** Offset of the rectangle's centre from the frame centre, with Python's
      floor division (Dafny's `/` agrees with it for a positive divisor). */
  function OffsetX(b: BlueBox): int {
    (b.x + b.w / 2) - Width / 2
  }

  function OffsetY(b: BlueBox): int {
    (b.y + b.h / 2) - Height / 2
  }

  /** The index of the last box in discovery order, if any. */
  function LastBox(boxes: seq<BlueBox>): (r: Option<nat>)
    ensures r.Some? <==> exists i :: 0 <= i < |boxes| && IsBox(boxes[i])
    ensures r.Some? ==> r.value < |boxes| && IsBox(boxes[r.value])
    ensures r.Some? ==> forall j :: r.value < j < |boxes| ==> !IsBox(boxes[j])
  {
    if boxes == [] then None
    else if IsBox(boxes[|boxes| - 1]) then Some(|boxes| - 1)
    else
      var r := LastBox(boxes[..|boxes| - 1]);
      assert forall j :: 0 <= j < |boxes| - 1 ==> boxes[..|boxes| - 1][j] == boxes[j];
      r
  }

  /** The blue-box scan: every box overwrites the target offsets, so the last
      one wins; without a box the offsets keep their previous values. */
  method ScanBoxes(boxes: seq<BlueBox>, offsetX: int, offsetY: int)
    returns (found: bool, newOffsetX: int, newOffsetY: int)
    ensures found <==> LastBox(boxes).Some?
    ensures found ==> && newOffsetX == OffsetX(boxes[LastBox(boxes).value])
                      && newOffsetY == OffsetY(boxes[LastBox(boxes).value])
    ensures !found ==> newOffsetX == offsetX && newOffsetY == offsetY
  {
    found := false;
    newOffsetX, newOffsetY := offsetX, offsetY;
    ghost var last: Option<nat> := None;
    for i := 0 to |boxes|
      invariant last == LastBox(boxes[..i])
      invariant found <==> last.Some?
      invariant found ==> newOffsetX == OffsetX(boxes[last.value]) && newOffsetY == OffsetY(boxes[last.value])
      invariant !found ==> newOffsetX == offsetX && newOffsetY == offsetY
    {
      assert boxes[..i + 1][..i] == boxes[..i];
      if IsBox(boxes[i]) {
        newOffsetX := OffsetX(boxes[i]);
        newOffsetY := OffsetY(boxes[i]);
        found := true;
        last := Some(i);
      }
    }
    assert boxes[..|boxes|] == boxes;
  }

  /** The zone white flag: `round(mean) > 8`, that is, a mean above 8.5 (a
      mean of exactly 8.5 rounds to the even 8). */
  predicate ZoneWhite(whiteMean: real) {
    RoundHalfEven(whiteMean) > ZoneWhiteMin
  }

  lemma {:induction false} ZoneWhiteThreshold(whiteMean: real)
    ensures ZoneWhite(whiteMean) <==> whiteMean > 8.5
  {
  }
}
