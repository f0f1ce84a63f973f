/** Choosing the line contour to follow. Every surviving contour becomes a
    candidate row (contour index, the two lowest corners of its minimum-area
    rectangle, a distance), behind a sentinel row. Rows are ranked by their
    lowest corner, nearest the robot first; when more than one contour
    touches the bottom band, the leading rows are re-ranked by how far their
    bottom midpoint lies from the previous frame's `x_last`. */
module LineCandidates {
  import opened Common

  /** A `cv2.boxPoints` corner (float coordinates). */
  datatype Corner = Corner(x: real, y: real)

  /** A contour of the line mask as the tracker sees it: its area, the two
      corners of its minimum-area rectangle with the largest y (lowest first,
      as the y-descending argsort leaves them) and its boundary pixels. */
  datatype LineContour = LineContour(area: real, lowest: Corner, nextLowest: Corner, points: seq<Pixel>)

  /** A contour touches the bottom when its lowest corner is in the bottom 5%. */
  const BottomBand: real := Height as real * 0.95

  predicate TouchesBottom(c: LineContour) {
    c.lowest.y >= BottomBand
  }

  /** The area filter: only contours strictly larger than `min_line_size` stay. */
  function KeepLines(cs: seq<LineContour>, minSize: int): (kept: seq<LineContour>)
    ensures |kept| <= |cs|
    ensures forall c :: c in kept <==> c in cs && c.area > minSize as real
  {
    if cs == [] then []
    else if cs[0].area > minSize as real then [cs[0]] + KeepLines(cs[1..], minSize)
    else KeepLines(cs[1..], minSize)
  }

  /** The filter keeps discovery order: filtering a concatenation filters each
      part, so the kept list is the input with exactly the small contours
      removed, in place. */
  lemma {:induction false} KeepLinesAppend(a: seq<LineContour>, b: seq<LineContour>, minSize: int)
    ensures KeepLines(a + b, minSize) == KeepLines(a, minSize) + KeepLines(b, minSize)
  {
    if a != [] {
      assert (a + b)[0] == a[0];
      assert (a + b)[1..] == a[1..] + b;
      KeepLinesAppend(a[1..], b, minSize);
    } else {
      assert a + b == b;
    }
  }

  /** A row of the candidate table: [contour, x1, y1, x2, y2, x_distance]. */
  datatype Row = Row(contour: int, x1: int, y1: int, x2: int, y2: int, distance: int)

  /** The first row of the table; its contour index is one past the last contour. */
  function Sentinel(n: nat): Row {
    Row(n, 0, 0, 0, 0, Width)
  }

  /** The row appended for contour i (corner coordinates through `int()`). */
  function CandidateOf(i: nat, c: LineContour): Row {
    Row(i, Trunc(c.lowest.x), Trunc(c.lowest.y), Trunc(c.nextLowest.x), Trunc(c.nextLowest.y), Width)
  }

  /** The rows appended for the first k contours. */
  function RowsUpTo(cs: seq<LineContour>, k: nat): (rows: seq<Row>)
    requires k <= |cs|
    ensures |rows| == k
    ensures forall i :: 0 <= i < k ==> rows[i] == CandidateOf(i, cs[i])
  {
    if k == 0 then [] else RowsUpTo(cs, k - 1) + [CandidateOf(k - 1, cs[k - 1])]
  }

  /** The whole candidate table, sentinel first. */
  function Table(cs: seq<LineContour>): seq<Row> {
    [Sentinel(|cs|)] + RowsUpTo(cs, |cs|)
  }

  /** `off_bottom` after the first k contours. */
  function BottomCount(cs: seq<LineContour>, k: nat): (n: nat)
    requires k <= |cs|
    ensures n <= k
  {
    if k == 0 then 0
    else BottomCount(cs, k - 1) + (if TouchesBottom(cs[k - 1]) then 1 else 0)
  }

  /** The two orders the table is sorted by: lowest corner y descending, and
      distance to `x_last` ascending. */
  datatype Order = ByLowestY | ByDistance

  function Key(r: Row, order: Order): int {
    match order
    case ByLowestY => -r.y1
    case ByDistance => r.distance
  }

  predicate Ranked(s: seq<Row>, order: Order) {
    forall i, j :: 0 <= i < j < |s| ==> Key(s[i], order) <= Key(s[j], order)
  }

  lemma {:induction false} RankedCons(x: Row, rest: seq<Row>, order: Order)
    requires Ranked(rest, order)
    requires rest == [] || Key(x, order) <= Key(rest[0], order)
    ensures Ranked([x] + rest, order)
  {
    var t := [x] + rest;
    forall i, j | 0 <= i < j < |t| ensures Key(t[i], order) <= Key(t[j], order) {
      if i == 0 && j > 1 {
        assert t[j] == rest[j - 1];
        assert Key(rest[0], order) <= Key(rest[j - 1], order);
      }
    }
  }

  function Insert(r: Row, s: seq<Row>, order: Order): (t: seq<Row>)
    requires Ranked(s, order)
    ensures |t| == |s| + 1
    ensures t[0] == r || (|s| > 0 && t[0] == s[0])
    ensures Ranked(t, order)
    ensures multiset(t) == multiset(s) + multiset{r}
  {
    if s == [] || Key(r, order) <= Key(s[0], order) then
      RankedCons(r, s, order);
      [r] + s
    else
      var rest := Insert(r, s[1..], order);
      assert s == [s[0]] + s[1..];
      assert Key(s[0], order) <= Key(rest[0], order);
      RankedCons(s[0], rest, order);
      [s[0]] + rest
  }

  /** The sorted table. The order among equal keys is not specified by the
      properties below; every lemma holds for whichever row leads. */
  function Rank(s: seq<Row>, order: Order): (t: seq<Row>)
    ensures Ranked(t, order)
    ensures multiset(t) == multiset(s)
  {
    if s == [] then []
    else
      assert s == [s[0]] + s[1..];
      Insert(s[0], Rank(s[1..], order), order)
  }

  lemma {:induction false} RankedHeadIsExtreme(s: seq<Row>, order: Order)
    requires |s| > 0
    ensures |Rank(s, order)| == |s|
    ensures Rank(s, order)[0] in s
    ensures forall x :: x in s ==> Key(Rank(s, order)[0], order) <= Key(x, order)
  {
    var t := Rank(s, order);
    assert |t| == |multiset(t)| == |multiset(s)| == |s|;
    assert t[0] in multiset(s);
    forall x | x in s ensures Key(t[0], order) <= Key(x, order) {
      assert x in multiset(t);
      var j :| 0 <= j < |t| && t[j] == x;
    }
  }

  /** The bottom midpoint of a row. */
  function Mid(r: Row): real {
    (r.x1 + r.x2) as real / 2.0
  }

  /** `int(abs(x_last - (x1 + x2) / 2))`. */
  function HysteresisDistance(r: Row, xLast: real): (d: int)
    ensures d >= 0
    ensures d as real <= Abs(xLast - Mid(r)) < d as real + 1.0
  {
    Trunc(Abs(xLast - Mid(r)))
  }

  /** The first k rows get their hysteresis distance; the rest keep theirs. */
  function Rescore(s: seq<Row>, k: nat, xLast: real): seq<Row> {
    seq(|s|, i requires 0 <= i < |s| => if i < k then s[i].(distance := HysteresisDistance(s[i], xLast)) else s[i])
  }

  /** The leading row of the table ranked by lowest corner. */
  function Nearest(cs: seq<LineContour>): Row {
    var ranked := Rank(Table(cs), ByLowestY);
    assert |multiset(ranked)| == |Table(cs)|;
    ranked[0]
  }

  /** The leading row after the k leading rows are re-scored by their
      distance to `x_last` and the table is re-ranked by distance. */
  function Closest(cs: seq<LineContour>, k: nat, xLast: real): Row {
    var ranked := Rank(Table(cs), ByLowestY);
    var reranked := Rank(Rescore(ranked, k, xLast), ByDistance);
    assert |multiset(reranked)| == |multiset(ranked)| == |Table(cs)|;
    reranked[0]
  }

  /** The row the tracker follows. */
  function Choose(cs: seq<LineContour>, xLast: real): Row {
    var k := BottomCount(cs, |cs|);
    if k > 1 then Closest(cs, k, xLast) else Nearest(cs)
  }

  /** Writes the hysteresis distance into the first k rows of the table, in place. */
  method ScoreBottomRows(a: array<Row>, k: nat, xLast: real)
    modifies a
    ensures a[..] == Rescore(old(a[..]), k, xLast)
  {
    var n := if k < a.Length then k else a.Length;
    for i := 0 to n
      invariant forall j :: 0 <= j < i ==> a[j] == old(a[j]).(distance := HysteresisDistance(old(a[j]), xLast))
      invariant forall j :: i <= j < a.Length ==> a[j] == old(a[j])
    {
      var row := a[i];
      a[i] := row.(distance := HysteresisDistance(row, xLast));
    }
  }

  /** Builds the candidate table, sentinel first, and counts the contours
      whose lowest corner touches the bottom band. */
  method BuildTable(cs: seq<LineContour>) returns (candidates: seq<Row>, offBottom: nat)
    ensures candidates == Table(cs)
    ensures offBottom == BottomCount(cs, |cs|)
  {
    candidates := [Sentinel(|cs|)];
    offBottom := 0;
    for conNum := 0 to |cs|
      invariant candidates == [Sentinel(|cs|)] + RowsUpTo(cs, conNum)
      invariant offBottom == BottomCount(cs, conNum)
    {
      candidates := candidates + [CandidateOf(conNum, cs[conNum])];
      if TouchesBottom(cs[conNum]) {
        offBottom := offBottom + 1;
      }
    }
  }

  /** The candidate-table step of the camera loop: build the table and count
      bottom-touching contours, rank, re-rank by distance to `x_last` when
      more than one contour touches the bottom, and take the leading row. */
  method SelectCandidate(cs: seq<LineContour>, xLast: real) returns (chosen: Row)
    ensures chosen == Choose(cs, xLast)
  {
    var candidates, offBottom := BuildTable(cs);
    var ranked := Rank(candidates, ByLowestY);
    assert |multiset(ranked)| == |candidates|;
    if offBottom > 1 {
      var table := new Row[|ranked|](i requires 0 <= i < |ranked| => ranked[i]);
      assert table[..] == ranked;
      ScoreBottomRows(table, offBottom, xLast);
      var reranked := Rank(table[..], ByDistance);
      assert |multiset(reranked)| == table.Length;
      chosen := reranked[0];
    } else {
      chosen := ranked[0];
    }
  }

  /** Rows of the table other than the sentinel name a real contour. */
  lemma {:induction false} TableRows(cs: seq<LineContour>, r: Row)
    requires r in Table(cs)
    ensures r == Sentinel(|cs|) || (0 <= r.contour < |cs| && r == CandidateOf(r.contour, cs[r.contour]))
    ensures r.distance == Width
  {
    if r != Sentinel(|cs|) {
      var i :| 0 <= i < |cs| && RowsUpTo(cs, |cs|)[i] == r;
    }
  }

  /** With at most one bottom-touching contour, the chosen row has the
      largest lowest-corner y of the whole table. */
  lemma {:induction false} ChosenIsNearest(cs: seq<LineContour>, xLast: real)
    requires BottomCount(cs, |cs|) <= 1
    ensures Choose(cs, xLast) in Table(cs)
    ensures forall r :: r in Table(cs) ==> r.y1 <= Choose(cs, xLast).y1
  {
    RankedHeadIsExtreme(Table(cs), ByLowestY);
  }

  /** ... so the sentinel (y = 0) is never chosen while a real row is lower
      in the image (y > 0). */
  lemma {:induction false} SentinelNotChosen(cs: seq<LineContour>, xLast: real, i: nat)
    requires BottomCount(cs, |cs|) <= 1
    requires i < |cs| && Trunc(cs[i].lowest.y) > 0
    ensures 0 <= Choose(cs, xLast).contour < |cs|
    ensures Choose(cs, xLast) == CandidateOf(Choose(cs, xLast).contour, cs[Choose(cs, xLast).contour])
  {
    ChosenIsNearest(cs, xLast);
    assert CandidateOf(i, cs[i]) == RowsUpTo(cs, |cs|)[i];
    assert CandidateOf(i, cs[i]) in Table(cs);
    TableRows(cs, Choose(cs, xLast));
  }

  /** The table ranked by lowest corner and then re-scored, as `Closest` sees it. */
  function Rescored(cs: seq<LineContour>, xLast: real): (s: seq<Row>)
    ensures |s| == |cs| + 1
  {
    var ranked := Rank(Table(cs), ByLowestY);
    assert |multiset(ranked)| == |Table(cs)|;
    Rescore(ranked, BottomCount(cs, |cs|), xLast)
  }

  /** With more than one bottom-touching contour, the chosen row has the
      smallest distance in the re-scored table. */
  lemma {:induction false} ChosenIsClosestToLast(cs: seq<LineContour>, xLast: real)
    requires BottomCount(cs, |cs|) > 1
    ensures Choose(cs, xLast) in Rescored(cs, xLast)
    ensures forall r :: r in Rescored(cs, xLast) ==> Choose(cs, xLast).distance <= r.distance
  {
    var rescored := Rescored(cs, xLast);
    assert Choose(cs, xLast) == Rank(rescored, ByDistance)[0];
    RankedHeadIsExtreme(rescored, ByDistance);
  }

  /** Rows past the k leading ones keep the table's distance, a full width. */
  lemma {:induction false} TrailingRowsKeepWidth(cs: seq<LineContour>, xLast: real, m: nat)
    requires BottomCount(cs, |cs|) <= m < |cs| + 1
    ensures Rescored(cs, xLast)[m].distance == Width
  {
    var ranked := Rank(Table(cs), ByLowestY);
    assert |multiset(ranked)| == |Table(cs)|;
    assert Rescored(cs, xLast)[m] == ranked[m];
    assert ranked[m] in multiset(Table(cs));
    TableRows(cs, ranked[m]);
  }

  /** When one of the k bottom rows lies closer to `x_last` than a full frame
      width, the chosen row is one of the k bottom rows. */
  lemma {:induction false} ChosenFromBottomRows(cs: seq<LineContour>, xLast: real, j: nat)
    requires 1 < BottomCount(cs, |cs|)
    requires j < BottomCount(cs, |cs|) && Rescored(cs, xLast)[j].distance < Width
    ensures exists m :: 0 <= m < BottomCount(cs, |cs|) && Choose(cs, xLast) == Rescored(cs, xLast)[m]
  {
    var rescored := Rescored(cs, xLast);
    ChosenIsClosestToLast(cs, xLast);
    assert rescored[j] in rescored;
    var m :| 0 <= m < |rescored| && rescored[m] == Choose(cs, xLast);
    if m >= BottomCount(cs, |cs|) {
      TrailingRowsKeepWidth(cs, xLast, m);
      assert false;
    }
  }

  /** A bottom row's distance in the re-scored table is its hysteresis distance. */
  lemma {:induction false} BottomRowsRescored(cs: seq<LineContour>, xLast: real, j: nat)
    requires j < BottomCount(cs, |cs|)
    ensures var ranked := Rank(Table(cs), ByLowestY);
            |ranked| == |cs| + 1 &&
            Rescored(cs, xLast)[j] == ranked[j].(distance := HysteresisDistance(ranked[j], xLast))
  {
    var ranked := Rank(Table(cs), ByLowestY);
    assert |multiset(ranked)| == |Table(cs)|;
  }
}
