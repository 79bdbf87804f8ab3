/**
 * Contour selection (CVProcess.py, process_method, lines 49-66): of the
 * contours found in one frame's mask, at most one is promoted to the
 * "good" contour. A contour is promoted only when it is the single one
 * that passes the area floor, the area-to-bounding-box ratio ceiling and
 * the polygon vertex-count window; two or more candidates are ambiguous
 * and none is promoted.
 */
module Contours {
  import opened Optional

  /** An image point in pixel coordinates (OpenCV stores contours as integer points). */
  datatype Point = Point(x: int, y: int)

  /** Width or height of the bounding rectangle of a non-empty contour: at least one pixel. */
  type Extent = n: int | n >= 1 witness 1

  /** The points of a contour; contour extraction never yields an empty one. */
  type Outline = s: seq<Point> | |s| > 0 witness [Point(0, 0)]

  /**
   * A contour together with the measurements the vision library takes of it:
   * its enclosed area, the width and height of its bounding rectangle, and the
   * number of vertices of its polygon approximation (tolerance 1% of its
   * perimeter).
   */
  datatype Contour = Contour(points: Outline, area: real, w: Extent, h: Extent, vertices: nat)

  /** The configured filter thresholds (MIN_TARGET_AREA, MAX_TARGET2RECT_RATIO). */
  datatype Thresholds = Thresholds(minTargetArea: real, maxTarget2RectRatio: real)

  /** The vertex-count window of the notched target polygon. */
  const MIN_VERTICES: nat := 7
  const MAX_VERTICES: nat := 9

  /** Fill ratio of a contour within its bounding rectangle, divided as the source does. */
  function FillRatio(c: Contour): real
  {
    c.area / (c.w as real) / (c.h as real)
  }

  /** The area floor: a contour smaller than the minimum is skipped. */
  predicate AboveAreaFloor(t: Thresholds, c: Contour)
  {
    !(c.area < t.minTargetArea)
  }

  /** The ratio ceiling: a contour that fills its bounding box too much is skipped. */
  predicate BelowFillCeiling(t: Thresholds, c: Contour)
  {
    !(FillRatio(c) > t.maxTarget2RectRatio)
  }

  /** The polygon approximation has an admissible number of vertices. */
  predicate TargetShaped(c: Contour)
  {
    MIN_VERTICES <= c.vertices <= MAX_VERTICES
  }

  /** A contour passes every filter of the selection loop. */
  predicate Qualifies(t: Thresholds, c: Contour)
  {
    AboveAreaFloor(t, c) && BelowFillCeiling(t, c) && TargetShaped(c)
  }

  /** Index k is the one and only qualifying contour. */
  ghost predicate Unique(t: Thresholds, contours: seq<Contour>, k: int)
  {
    0 <= k < |contours| && Qualifies(t, contours[k]) &&
    forall j :: 0 <= j < |contours| && Qualifies(t, contours[j]) ==> j == k
  }

  /** At least two distinct contours qualify. */
  ghost predicate Ambiguous(t: Thresholds, contours: seq<Contour>)
  {
    exists i, j :: 0 <= i < j < |contours| && Qualifies(t, contours[i]) && Qualifies(t, contours[j])
  }

  /** The indices of all qualifying contours. */
  ghost function QualifyingIndices(t: Thresholds, contours: seq<Contour>): set<nat>
  {
    set k: nat | k < |contours| && Qualifies(t, contours[k])
  }

  /**
   * The good contour of a frame, stated without reference to any loop: the
   * index of the only qualifying contour if there is exactly one, else none.
   */
  ghost function GoodContour(t: Thresholds, contours: seq<Contour>): (good: Option<nat>)
    ensures good.Some? ==> Unique(t, contours, good.value)
    ensures good.None? ==> forall k :: !Unique(t, contours, k)
  {
    if exists k :: Unique(t, contours, k) then
      var k :| Unique(t, contours, k);
      Some(k)
    else
      None
  }

  /**
   * The selection loop of process_method. Contours are visited in order;
   * one that fails a filter is skipped; the first qualifying contour becomes
   * the pick; a second qualifying contour resets the pick to none, raises the
   * "two good contours" warning and ends the loop.
   */
  method SelectGoodContour(t: Thresholds, contours: seq<Contour>) returns (good: Option<nat>, ambiguous: bool)
    ensures good == GoodContour(t, contours)
    ensures good.Some? ==> good.value < |contours|
    ensures good.Some? ==> contours[good.value].area >= t.minTargetArea
    ensures good.Some? ==> FillRatio(contours[good.value]) <= t.maxTarget2RectRatio
    ensures good.Some? ==> MIN_VERTICES <= contours[good.value].vertices <= MAX_VERTICES
    ensures ambiguous <==> Ambiguous(t, contours)
    ensures ambiguous ==> good.None?
  {
    good, ambiguous := None, false;
    for i := 0 to |contours|
      invariant !ambiguous
      invariant good.None? ==> forall j :: 0 <= j < i ==> !Qualifies(t, contours[j])
      invariant good.Some? ==> good.value < i && Qualifies(t, contours[good.value])
      invariant good.Some? ==> forall j :: 0 <= j < i && Qualifies(t, contours[j]) ==> j == good.value
    {
      var contour := contours[i];
      if contour.area < t.minTargetArea {
        continue;
      }
      if contour.area / (contour.w as real) / (contour.h as real) > t.maxTarget2RectRatio {
        continue;
      }
      if MIN_VERTICES <= contour.vertices <= MAX_VERTICES {
        if good.Some? {
          AmbiguousHasNoUnique(t, contours, good.value, i);
          good, ambiguous := None, true;
          break;
        }
        good := Some(i);
      }
    }
    if !ambiguous {
      NoPairWithoutBreak(t, contours, good);
    }
  }

  /** Two qualifying contours rule out a unique one. */
  lemma AmbiguousHasNoUnique(t: Thresholds, contours: seq<Contour>, i: nat, j: nat)
    requires i < j < |contours|
    requires Qualifies(t, contours[i]) && Qualifies(t, contours[j])
    ensures Ambiguous(t, contours)
    ensures forall k :: !Unique(t, contours, k)
  {
  }

  /** When the loop ran to the end, at most one contour qualified. */
  lemma NoPairWithoutBreak(t: Thresholds, contours: seq<Contour>, good: Option<nat>)
    requires good.None? ==> forall j :: 0 <= j < |contours| ==> !Qualifies(t, contours[j])
    requires good.Some? ==> good.value < |contours| && Qualifies(t, contours[good.value])
    requires good.Some? ==> forall j :: 0 <= j < |contours| && Qualifies(t, contours[j]) ==> j == good.value
    ensures !Ambiguous(t, contours)
    ensures good == GoodContour(t, contours)
  {
    if good.Some? {
      assert Unique(t, contours, good.value);
    }
  }

  /**
   * "Returns a contour exactly when exactly one contour qualifies", stated
   * with the set of qualifying indices.
   */
  lemma {:induction false} GoodContourIffSingleton(t: Thresholds, contours: seq<Contour>)
    ensures GoodContour(t, contours).Some? <==> |QualifyingIndices(t, contours)| == 1
    ensures GoodContour(t, contours).Some? ==> QualifyingIndices(t, contours) == {GoodContour(t, contours).value}
  {
    var q := QualifyingIndices(t, contours);
    var good := GoodContour(t, contours);
    if good.Some? {
      assert q == {good.value};
    } else if |q| == 1 {
      var k :| k in q;
      assert |q - {k}| == |q| - 1;
      assert q - {k} == {};
      forall j | 0 <= j < |contours| && Qualifies(t, contours[j])
        ensures j == k
      {
        assert j in q && j !in q - {k};
      }
      assert Unique(t, contours, k);
      assert false;
    }
  }

  /** The ratio ceiling in multiplicative form: area <= ratio * w * h. */
  lemma BelowFillCeilingIff(t: Thresholds, c: Contour)
    ensures BelowFillCeiling(t, c) <==> c.area <= t.maxTarget2RectRatio * (c.w as real) * (c.h as real)
  {
  }
}
