/** Points in space and the per-axis tolerance the tracker uses to decide that two points are
    "the same" (`_aboutEquals`, `_is_at_pos` in crazytrajectory/trajectory.py). */
module Positions {

  /** Per-axis tolerance, `ABOUT_TRHESHOLD` in the source. */
  const ABOUT_THRESHOLD: real := 0.1

  /** A point in space (the `x`, `y`, `z` keys of the source's position dictionaries). */
  datatype Point = Point(x: real, y: real, z: real)

  function Abs(r: real): real {
    if r < 0.0 then -r else r
  }

  /** `_aboutEquals`: the two coordinates differ by strictly less than the tolerance, that is
      `b` lies in the open interval of half-width the tolerance around `a`. */
  predicate AboutEquals(a: real, b: real): (r: bool)
    ensures r <==> a - ABOUT_THRESHOLD < b < a + ABOUT_THRESHOLD
  {
    Abs(a - b) < ABOUT_THRESHOLD
  }

  /** `_is_at_pos`: every axis is about equal. A box test, not a distance test. */
  predicate IsAtPos(p: Point, q: Point) {
    AboutEquals(p.x, q.x) && AboutEquals(p.y, q.y) && AboutEquals(p.z, q.z)
  }

  /** Squared Euclidean distance, used only to compare the box test with a distance test. */
  function SquaredDistance(p: Point, q: Point): real {
    (p.x - q.x) * (p.x - q.x) + (p.y - q.y) * (p.y - q.y) + (p.z - q.z) * (p.z - q.z)
  }

  /** The tolerance test holds exactly when `q` lies in the open cube of half-side the
      tolerance centred at `p`. */
  lemma IsAtPosInCube(p: Point, q: Point)
    ensures IsAtPos(p, q) <==> && p.x - ABOUT_THRESHOLD < q.x < p.x + ABOUT_THRESHOLD
                               && p.y - ABOUT_THRESHOLD < q.y < p.y + ABOUT_THRESHOLD
                               && p.z - ABOUT_THRESHOLD < q.z < p.z + ABOUT_THRESHOLD
  {
  }

  lemma IsAtPosSymmetric(p: Point, q: Point)
    ensures IsAtPos(p, q) <==> IsAtPos(q, p)
  {
    assert Abs(p.x - q.x) == Abs(q.x - p.x);
    assert Abs(p.y - q.y) == Abs(q.y - p.y);
    assert Abs(p.z - q.z) == Abs(q.z - p.z);
  }

  /** Reflexive because the tolerance is positive. */
  lemma IsAtPosReflexive(p: Point)
    ensures IsAtPos(p, p)
  {
  }

  /** The check is strict on every axis: being off by the tolerance or more on any single
      axis fails it, however close the other two axes are. */
  lemma IsAtPosFailsOnAnyAxis(p: Point, q: Point)
    requires Abs(p.x - q.x) >= ABOUT_THRESHOLD || Abs(p.y - q.y) >= ABOUT_THRESHOLD
          || Abs(p.z - q.z) >= ABOUT_THRESHOLD
    ensures !IsAtPos(p, q)
  {
  }

  /** An offset of exactly the tolerance along one axis is not "the same point". */
  lemma ExactThresholdIsNotAtPos(p: Point)
    ensures !IsAtPos(p, p.(x := p.x + ABOUT_THRESHOLD))
    ensures !IsAtPos(p, p.(y := p.y + ABOUT_THRESHOLD))
    ensures !IsAtPos(p, p.(z := p.z + ABOUT_THRESHOLD))
  {
  }

  /** Every point strictly inside the Euclidean ball of radius the tolerance passes the box test. */
  lemma BallInsideBox(p: Point, q: Point)
    requires SquaredDistance(p, q) < ABOUT_THRESHOLD * ABOUT_THRESHOLD
    ensures IsAtPos(p, q)
  {
    var dx, dy, dz := p.x - q.x, p.y - q.y, p.z - q.z;
    assert SquaredDistance(p, q) == dx * dx + dy * dy + dz * dz;
    assert 0.0 <= dx * dx && 0.0 <= dy * dy && 0.0 <= dz * dz;
    SquareBelow(dx);
    SquareBelow(dy);
    SquareBelow(dz);
  }

  lemma SquareBelow(d: real)
    requires d * d < ABOUT_THRESHOLD * ABOUT_THRESHOLD
    ensures Abs(d) < ABOUT_THRESHOLD
  {
  }

  /** The converse fails: a diagonal offset passes the box test although its Euclidean length
      exceeds the tolerance. */
  lemma BoxNotBall()
    ensures IsAtPos(Point(0.0, 0.0, 0.0), Point(0.09, 0.09, 0.09))
    ensures SquaredDistance(Point(0.0, 0.0, 0.0), Point(0.09, 0.09, 0.09)) > ABOUT_THRESHOLD * ABOUT_THRESHOLD
  {
  }

  /** Not transitive: two points each within tolerance of a third can be out of tolerance of
      each other, so "the same point" is not an equivalence. */
  lemma IsAtPosNotTransitive()
    ensures IsAtPos(Point(0.0, 0.0, 0.0), Point(0.06, 0.0, 0.0))
    ensures IsAtPos(Point(0.06, 0.0, 0.0), Point(0.12, 0.0, 0.0))
    ensures !IsAtPos(Point(0.0, 0.0, 0.0), Point(0.12, 0.0, 0.0))
  {
  }
}
