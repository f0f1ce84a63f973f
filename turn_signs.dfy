/** Turn inference from green turn signs. Each green contour gets a 4-bit
    adjacency record [bottom, top, left, right]: a bit is set when the strip
    of the line mask just outside that edge of the sign's rectangle is
    non-empty and its mean exceeds 125. `ChangeDir` scans the records and the
    result is mapped to `turn_dir`. */
module TurnSigns {
  import opened Common

  /** Contours of at most this area keep an all-zero record. */
  const SignMinArea: real := 3000.0
  /** Mean a strip must exceed for its edge to count as touching the line. */
  const CoverThreshold: real := 125.0

  datatype Adjacency = Adjacency(bottom: bool, top: bool, left: bool, right: bool)

  const NoContact := Adjacency(false, false, false, false)

  /** A green contour: its area and the readings of the four line-mask strips
      beside its rectangle (below, above, left of and right of it). */
  datatype GreenSign = GreenSign(area: real, below: Reading, above: Reading, leftOf: Reading, rightOf: Reading)

  function Bit(b: bool): int {
    if b then 1 else 0
  }

  /** `np.sum` of a record: how many edges touch the line. */
  function Touching(a: Adjacency): int {
    Bit(a.bottom) + Bit(a.top) + Bit(a.left) + Bit(a.right)
  }

  /** The record the loop over green contours leaves for one sign. */
  function AdjacencyOf(s: GreenSign): Adjacency {
    if s.area > SignMinArea then
      Adjacency(Exceeds(s.below, CoverThreshold), Exceeds(s.above, CoverThreshold),
                Exceeds(s.leftOf, CoverThreshold), Exceeds(s.rightOf, CoverThreshold))
    else NoContact
  }

  /** Builds the table of adjacency records in place, bit by bit, starting
      from an all-zero table. */
  method AdjacencyTable(signs: seq<GreenSign>) returns (rows: seq<Adjacency>)
    ensures |rows| == |signs|
    ensures forall i :: 0 <= i < |signs| ==> rows[i] == AdjacencyOf(signs[i])
  {
    var table := new Adjacency[|signs|](_ => NoContact);
    for i := 0 to |signs|
      invariant forall j :: 0 <= j < i ==> table[j] == AdjacencyOf(signs[j])
      invariant forall j :: i <= j < |signs| ==> table[j] == NoContact
    {
      var s := signs[i];
      if s.area > SignMinArea {
        if Exceeds(s.below, CoverThreshold) {
          table[i] := table[i].(bottom := true);
        }
        if Exceeds(s.above, CoverThreshold) {
          table[i] := table[i].(top := true);
        }
        if Exceeds(s.leftOf, CoverThreshold) {
          table[i] := table[i].(left := true);
        }
        if Exceeds(s.rightOf, CoverThreshold) {
          table[i] := table[i].(right := true);
        }
      }
    }
    rows := table[..];
  }

  /** `change_dir`: the first record with exactly two edges set that are top
      and left gives (turn_left, turn_right) = (false, true); top and right
      gives (true, false); other records are skipped. */
  function ChangeDir(rows: seq<Adjacency>): (r: (bool, bool))
    ensures !(r.0 && r.1)
  {
    if rows == [] then (false, false)
    else if Touching(rows[0]) == 2 && rows[0].top && rows[0].left then (false, true)
    else if Touching(rows[0]) == 2 && rows[0].top && rows[0].right then (true, false)
    else ChangeDir(rows[1..])
  }

  /** A record that stops the scan. */
  predicate Decisive(a: Adjacency) {
    Touching(a) == 2 && a.top && (a.left || a.right)
  }

  /** What a decisive record returns. */
  function Verdict(a: Adjacency): (bool, bool) {
    if a.left then (false, true) else (true, false)
  }

  /** The scan returns the verdict of the first decisive record. */
  lemma {:induction false} ChangeDirFirstDecisive(rows: seq<Adjacency>, k: nat)
    requires k < |rows| && Decisive(rows[k])
    requires forall j :: 0 <= j < k ==> !Decisive(rows[j])
    ensures ChangeDir(rows) == Verdict(rows[k])
  {
    if k > 0 {
      assert !Decisive(rows[0]);
      ChangeDirFirstDecisive(rows[1..], k - 1);
    }
  }

  /** The scan answers (false, false) exactly when no record is decisive. */
  lemma {:induction false} ChangeDirStraight(rows: seq<Adjacency>)
    ensures ChangeDir(rows) == (false, false) <==> forall j :: 0 <= j < |rows| ==> !Decisive(rows[j])
  {
    if rows != [] {
      ChangeDirStraight(rows[1..]);
      if !Decisive(rows[0]) {
        assert forall j :: 1 <= j < |rows| ==> rows[j] == rows[1..][j - 1];
      }
    }
  }

  /** The mapping of (turn_left, turn_right) to `turn_dir`. */
  function TurnOf(turn: (bool, bool)): TurnDir {
    var (turnLeft, turnRight) := turn;
    if turnLeft && !turnRight then Left
    else if turnRight && !turnLeft then Right
    else if turnLeft && turnRight then TurnAround
    else Straight
  }

  /** `turn_dir` after the green-sign step of a frame. */
  function TurnDirection(signs: seq<GreenSign>): TurnDir {
    if |signs| == 0 then Straight
    else TurnOf(ChangeDir(seq(|signs|, i requires 0 <= i < |signs| => AdjacencyOf(signs[i]))))
  }

  /** "turn_around" is never produced. */
  lemma {:induction false} NeverTurnAround(signs: seq<GreenSign>)
    ensures TurnDirection(signs) != TurnAround
  {
  }

  /** The first sign whose record is decisive decides the turn: top and left
      touching steers right, top and right touching steers left. */
  lemma {:induction false} FirstDecisiveSignDecides(signs: seq<GreenSign>, k: nat)
    requires k < |signs| && Decisive(AdjacencyOf(signs[k]))
    requires forall j :: 0 <= j < k ==> !Decisive(AdjacencyOf(signs[j]))
    ensures AdjacencyOf(signs[k]).left ==> TurnDirection(signs) == Right
    ensures AdjacencyOf(signs[k]).right ==> TurnDirection(signs) == Left
  {
    var rows := seq(|signs|, i requires 0 <= i < |signs| => AdjacencyOf(signs[i]));
    ChangeDirFirstDecisive(rows, k);
  }

  /** Without a decisive sign (in particular without any green contour), the
      robot goes straight; with one, it turns. */
  lemma {:induction false} StraightUnlessDecisive(signs: seq<GreenSign>)
    ensures TurnDirection(signs) == Straight <==>
            forall j :: 0 <= j < |signs| ==> !Decisive(AdjacencyOf(signs[j]))
  {
    var rows := seq(|signs|, i requires 0 <= i < |signs| => AdjacencyOf(signs[i]));
    ChangeDirStraight(rows);
    assert forall j :: 0 <= j < |signs| ==> rows[j] == AdjacencyOf(signs[j]);
  }

  /** Small signs never take part: their record stays all-zero. */
  lemma {:induction false} SmallSignsIgnored(s: GreenSign)
    requires s.area <= SignMinArea
    ensures !Decisive(AdjacencyOf(s))
  {
  }
}
