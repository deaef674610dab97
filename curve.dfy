/** The flight path from the copter to the landing zone (`_generate_trajectory_curve`,
    crazytrajectory/trajectory.py:67-89): a raised control point midway between the endpoints,
    a quadratic spline through the three control points, sampled at evenly spaced parameters. */
module Curve {
  import opened Positions

  /** Clearance added above the higher endpoint, `HEIGHT` in the source. */
  const HEIGHT: real := 1.0
  /** Number of waypoints on the path, `SET_POINTS` in the source. */
  const SET_POINTS: nat := 10

  /** The three control points handed to the spline fitter. */
  datatype Controls = Controls(start: Point, mid: Point, end: Point)

  /** The spline fitter and evaluator (`splprep` with `k=2` followed by `splev`) as a value:
      the point of the curve through the given controls at a parameter in [0, 1]. */
  type Spline = (Controls, real) -> Point

  function Max(a: real, b: real): real {
    if a < b then b else a
  }

  /** The raised midpoint: halfway between the endpoints in x and y, `HEIGHT` above the higher
      endpoint in z. */
  function Midpoint(start: Point, end: Point): (m: Point)
    ensures m.x - start.x == end.x - m.x && m.y - start.y == end.y - m.y
    ensures m.z >= start.z + HEIGHT && m.z >= end.z + HEIGHT
    ensures m.z == start.z + HEIGHT || m.z == end.z + HEIGHT
    ensures m.z > start.z && m.z > end.z
  {
    Point((start.x + end.x) / 2.0, (start.y + end.y) / 2.0, Max(start.z, end.z) + HEIGHT)
  }

  function ControlsFor(start: Point, end: Point): (c: Controls)
    ensures c.start == start && c.end == end && c.mid == Midpoint(start, end)
  {
    Controls(start, Midpoint(start, end), end)
  }

  /** The `i`-th value of `linspace(0, 1, SET_POINTS)`. */
  function Sample(i: nat): (t: real)
    requires i < SET_POINTS
    ensures 0.0 <= t <= 1.0
    ensures t == 0.0 <==> i == 0
    ensures t == 1.0 <==> i == SET_POINTS - 1
  {
    i as real / (SET_POINTS - 1) as real
  }

  /** Consecutive samples are one ninth apart, so the samples are evenly spaced. */
  lemma SamplesEvenlySpaced(i: nat)
    requires i + 1 < SET_POINTS
    ensures Sample(i + 1) - Sample(i) == 1.0 / (SET_POINTS - 1) as real
  {
  }

  lemma SamplesIncreasing(i: nat, j: nat)
    requires i < j < SET_POINTS
    ensures Sample(i) < Sample(j)
  {
  }

  /** The waypoints the generator yields, in order: the spline through the controls for
      `start` and `end`, evaluated at each sample parameter in turn. */
  method TrajectoryCurve(start: Point, end: Point, fit: Spline) returns (points: seq<Point>)
    ensures |points| == SET_POINTS
    ensures forall i :: 0 <= i < SET_POINTS ==> points[i] == fit(ControlsFor(start, end), Sample(i))
  {
    var controls := Controls(start, Midpoint(start, end), end);
    points := [];
    for i := 0 to SET_POINTS
      invariant |points| == i
      invariant forall j :: 0 <= j < i ==> points[j] == fit(controls, Sample(j))
    {
      points := points + [fit(controls, Sample(i))];
    }
  }
}
