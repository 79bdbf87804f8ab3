/**
 * Corner extraction (CVProcess.py, lines 74-77): for each row of the
 * configured direction matrix EXTREME_VECTOR, the contour point whose dot
 * product with that row is largest. The matrix product is followed by an
 * argmax along the point axis, which returns the first maximum, so a tie
 * goes to the point with the lowest index. The number of rows is a
 * configuration value.
 */
module Corners {
  import opened Contours

  /** One row of the direction matrix. */
  datatype Direction = Direction(dx: real, dy: real)

  /** The projection of a point onto a direction row (one entry of the matrix product). */
  function Dot(d: Direction, p: Point): real
  {
    d.dx * (p.x as real) + d.dy * (p.y as real)
  }

  /** k is where argmax lands: a point of maximal projection, and no earlier point ties it. */
  ghost predicate IsFirstArgMax(d: Direction, points: seq<Point>, k: int)
  {
    0 <= k < |points| &&
    (forall j :: 0 <= j < |points| ==> Dot(d, points[j]) <= Dot(d, points[k])) &&
    (forall j :: 0 <= j < k ==> Dot(d, points[j]) < Dot(d, points[k]))
  }

  /** One row of the matrix product: the projections of all points onto a direction. */
  function Projections(d: Direction, points: seq<Point>): (row: seq<real>)
    ensures |row| == |points|
    ensures forall j :: 0 <= j < |points| ==> row[j] == Dot(d, points[j])
  {
    seq(|points|, j requires 0 <= j < |points| => Dot(d, points[j]))
  }

  /** k is the index numpy's argmax returns: a maximum with no equal value before it. */
  ghost predicate IsFirstMax(row: seq<real>, k: int)
  {
    0 <= k < |row| &&
    (forall j :: 0 <= j < |row| ==> row[j] <= row[k]) &&
    (forall j :: 0 <= j < k ==> row[j] < row[k])
  }

  /** argmax of a non-empty row, ties going to the lowest index. */
  function FirstMax(row: seq<real>): (k: nat)
    requires |row| > 0
    ensures IsFirstMax(row, k)
    decreases |row|
  {
    if |row| == 1 then 0
    else
      var best := FirstMax(row[..|row| - 1]);
      if row[|row| - 1] > row[best] then |row| - 1 else best
  }

  /** argmax of the projections of a non-empty point list onto one direction. */
  function ArgMax(d: Direction, points: seq<Point>): (k: nat)
    requires |points| > 0
    ensures IsFirstArgMax(d, points, k)
  {
    var row := Projections(d, points);
    var k := FirstMax(row);
    assert forall j :: 0 <= j < |points| ==> Dot(d, points[j]) == row[j];
    k
  }

  /** arg_extreme_points: one argmax per direction row, in row order. */
  function ArgExtremes(directions: seq<Direction>, points: Outline): (args: seq<nat>)
    ensures |args| == |directions|
    ensures forall i :: 0 <= i < |directions| ==> IsFirstArgMax(directions[i], points, args[i])
  {
    seq(|directions|, i requires 0 <= i < |directions| => ArgMax(directions[i], points))
  }

  /**
   * extreme_points: the contour points the argmaxes select, one per direction
   * row and in row order; each is a point of the contour of maximal projection
   * onto its row.
   */
  function ExtremePoints(directions: seq<Direction>, points: Outline): (corners: seq<Point>)
    ensures |corners| == |directions|
    ensures forall i :: 0 <= i < |directions| ==> corners[i] in points
    ensures forall i, j :: 0 <= i < |directions| && 0 <= j < |points| ==>
              Dot(directions[i], points[j]) <= Dot(directions[i], corners[i])
    ensures forall i :: 0 <= i < |directions| ==> corners[i] == points[ArgExtremes(directions, points)[i]]
  {
    var args := ArgExtremes(directions, points);
    seq(|directions|, i requires 0 <= i < |directions| => points[args[i]])
  }

  /**
   * Tie-breaking is fixed: the two properties of IsFirstArgMax determine the
   * index, so the chosen corner is deterministic for a fixed contour and row.
   */
  lemma ArgMaxDeterministic(d: Direction, points: seq<Point>, k: int)
    requires |points| > 0
    requires IsFirstArgMax(d, points, k)
    ensures k == ArgMax(d, points)
  {
  }

  /** Every corner is a point of maximal projection whose index no earlier tying point precedes. */
  lemma ExtremePointIsFirstMaximum(directions: seq<Direction>, points: Outline, i: nat)
    requires i < |directions|
    ensures exists k :: IsFirstArgMax(directions[i], points, k) && ExtremePoints(directions, points)[i] == points[k]
  {
    var k := ArgExtremes(directions, points)[i];
    assert IsFirstArgMax(directions[i], points, k);
  }

  /** The point list shifted by an offset (the same contour elsewhere in the image). */
  function Translate(points: seq<Point>, o: Point): (moved: seq<Point>)
    ensures |moved| == |points|
  {
    seq(|points|, j requires 0 <= j < |points| => Point(points[j].x + o.x, points[j].y + o.y))
  }

  /** The corner chosen for a row does not depend on where the contour lies in the image. */
  lemma ArgMaxTranslationInvariant(d: Direction, points: seq<Point>, o: Point)
    requires |points| > 0
    ensures ArgMax(d, Translate(points, o)) == ArgMax(d, points)
  {
    var moved := Translate(points, o);
    var k := ArgMax(d, points);
    forall j | 0 <= j < |points|
      ensures Dot(d, moved[j]) == Dot(d, points[j]) + Dot(d, o)
    {
    }
    ArgMaxDeterministic(d, moved, k);
  }

  /** A direction row scaled by a positive factor selects the same corner. */
  lemma ArgMaxScaleInvariant(d: Direction, s: real, points: seq<Point>)
    requires s > 0.0
    requires |points| > 0
    ensures ArgMax(Direction(s * d.dx, s * d.dy), points) == ArgMax(d, points)
  {
    var e := Direction(s * d.dx, s * d.dy);
    var k := ArgMax(d, points);
    forall j | 0 <= j < |points|
      ensures Dot(e, points[j]) <= Dot(e, points[k])
      ensures j < k ==> Dot(e, points[j]) < Dot(e, points[k])
    {
      var gap := Dot(d, points[k]) - Dot(d, points[j]);
      assert Dot(e, points[k]) - Dot(e, points[j]) == s * gap;
      assert gap >= 0.0 ==> s * gap >= 0.0;
      assert gap > 0.0 ==> s * gap > 0.0;
    }
    ArgMaxDeterministic(e, points, k);
  }

  /** Rows are independent: extracting for stacked matrices concatenates the corners. */
  lemma ExtremePointsRowwise(d1: seq<Direction>, d2: seq<Direction>, points: Outline)
    ensures ExtremePoints(d1 + d2, points) == ExtremePoints(d1, points) + ExtremePoints(d2, points)
  {
  }
}
