# crazyflie-trajectory, modelled in Dafny

This project models the core of `crazytrajectory/trajectory.py`, the tracker that flies a
Crazyflie copter from where the camera sees it to a landing zone. The tracker works in four
steps:

1. It reads position reports from the camera until it has seen both the copter (id 1) and the
   landing zone (id 0).
2. It fits a quadratic spline through the start, a raised midpoint and the end. It then samples
   the spline at ten evenly spaced parameters to get the waypoints.
3. It follows the copter's reports. Each time the copter comes within tolerance of the current
   target, it pushes the next waypoint to the flight controller. Once the waypoints run out, it
   pushes the landing zone instead.
4. It stops when the copter is within tolerance of the landing zone.

Files and modules:

- `positions.dfy` (`Positions`): points, and the per-axis tolerance test `_is_at_pos`.
- `reports.dfy` (`Reports`): camera messages, `_format_data`, the exceptions a malformed
  message raises, and how a phase ends (`Outcome`).
- `curve.dfy` (`Curve`): the raised midpoint, the `linspace` samples and the waypoint
  generator.
- `tracking.dfy` (`Tracking`): the first loop of `run`, as a step function `Route` and a
  whole-loop function `Ingest`.
- `navigation.dfy` (`Navigation`): the second loop of `run`, as a step function `Step` and a
  whole-loop function `Navigate`.
- `trajectory.dfy` (`Trajectory`): the class `CrazyTrajectory`. Its position fields are those
  of the source. Three fields have no counterpart among the source's fields: `curve` and
  `cursor` stand for the generator that `run` keeps in a local variable, and `fit` stands for
  the SciPy spline fitter. Its sockets and plotter are sequences:
  - the reports still to arrive;
  - the commands pushed so far;
  - the points drawn so far.

  Each loop of `run` is a `while` loop proved equal to the function that specifies it.
- `wrappers.dfy` (`Wrappers`): `Option` and `Result`.

Coordinates are `real`, and the tolerance is exactly 1/10. The spline fitter is a parameter
`fit: (Controls, real) -> Point`. The curve's i-th waypoint is `fit` at the i-th sample `i/9`.

Behaviour worth noting:

- While the positions are being acquired, a copter or landing-zone report whose `pos` or
  `angle` is missing, or whose `pos` has fewer than three components, makes `_format_data`
  raise. The same holds for a copter report during navigation. The run then ends with
  `Crashed`; the report is not skipped. During navigation a landing-zone report is never
  formatted, so it is skipped whatever it holds.
- During navigation, a report without an id makes `data['id']` raise (`Crashed`). Only
  ingestion skips such reports.
- Once the waypoints are exhausted, the command carries the landing-zone record itself, id and
  angle included (`Setpoint.LandingZone`).
- The waypoint at index 0 is never sent as a command. Only the target that follows a reached
  target is sent.

## Model

| member | source | states |
|---|---|---|
| `Positions.AboutEquals` | crazytrajectory/trajectory.py:91-92 | two coordinates are about equal exactly when the second lies strictly inside the interval of half-width 0.1 around the first |
| `Positions.IsAtPosInCube` | crazytrajectory/trajectory.py:94-97 | `_is_at_pos` (the predicate `Positions.IsAtPos`, also behind `_is_at_lz`) holds exactly when the second point lies in the open cube of half-side 0.1 centred at the first |
| `Positions.IsAtPosSymmetric` | crazytrajectory/trajectory.py:94-97 | the tolerance test gives the same answer with its arguments swapped |
| `Positions.IsAtPosReflexive` | crazytrajectory/trajectory.py:91-97 | every point is at its own position, because the tolerance is positive |
| `Positions.IsAtPosFailsOnAnyAxis` | crazytrajectory/trajectory.py:91-97 | an offset of at least the tolerance on any one axis fails the test, whatever the other axes |
| `Positions.ExactThresholdIsNotAtPos` | crazytrajectory/trajectory.py:91-92 | an offset of exactly 0.1 along one axis is not "the same point": the comparison is strict |
| `Positions.BallInsideBox` | crazytrajectory/trajectory.py:94-97 | every point within Euclidean distance 0.1 passes the per-axis test |
| `Positions.BoxNotBall` | crazytrajectory/trajectory.py:94-97 | the test is not a distance test: a diagonal offset of length above 0.1 still passes |
| `Positions.IsAtPosNotTransitive` | crazytrajectory/trajectory.py:94-97 | two points each within tolerance of a third can be out of tolerance of each other |
| `Reports.FormatData` | crazytrajectory/trajectory.py:102-109 | succeeds exactly when id, three pos components and angle are present. It then maps pos[0..2] to x, y, z and copies id and angle. Otherwise it names the first field that cannot be read |
| `Reports.FormatDataEncode` | crazytrajectory/trajectory.py:102-109 | formatting the message a record would be published as gives back that record |
| `Reports.EncodeFormatData` | crazytrajectory/trajectory.py:102-109 | a well-formed three-component message is recovered from its formatted record |
| `Reports.FormatDataIgnoresExtraComponents` | crazytrajectory/trajectory.py:105-107 | pos components after the third are never read |
| `Curve.Midpoint` | crazytrajectory/trajectory.py:73-75 | the midpoint is equidistant from both endpoints in x and y. Its z is HEIGHT above the higher endpoint, so it is strictly above both |
| `Curve.Sample` | crazytrajectory/trajectory.py:82 | the i-th `linspace(0, 1, 10)` value lies in [0, 1]; it is 0 exactly at the first index and 1 exactly at the last |
| `Curve.SamplesEvenlySpaced` | crazytrajectory/trajectory.py:82 | consecutive samples are 1/9 apart |
| `Curve.SamplesIncreasing` | crazytrajectory/trajectory.py:82 | samples strictly increase with their index |
| `Curve.TrajectoryCurve` | crazytrajectory/trajectory.py:77-89 | yields exactly SET_POINTS points, in index order. Point i is the spline through start, the raised midpoint and end, at sample i |
| `Tracking.Route` | crazytrajectory/trajectory.py:33-40 | a missing or unknown id changes no slot. Id 1 sets the copter slot and the last drawn point and leaves the landing-zone slot alone. Id 0 sets only the landing-zone slot. A known id with a malformed report raises |
| `Tracking.Ingest` | crazytrajectory/trajectory.py:31-40 | ends normally exactly when both slots are known. It reads a prefix of the feed, reads nothing when both are known already, and keeps the last drawn point equal to the copter slot |
| `Tracking.ReplayKeepsLatest` | crazytrajectory/trajectory.py:35-38 | after any reports, each slot holds the latest report for its id. A later report for the same id overwrites an earlier one, and slots no report addressed keep their old value |
| `Tracking.IngestStopsAtFirstBothKnown` | crazytrajectory/trajectory.py:31-40 | the loop stops at the first report after which both slots are known: routing any shorter prefix of what it read succeeds and leaves a slot empty |
| `Tracking.IngestDoneIsReplay` | crazytrajectory/trajectory.py:31-40 | when the loop ends normally, its slots are those of routing exactly the reports it read |
| `Tracking.IngestStalledIsReplay` | crazytrajectory/trajectory.py:31-40 | when the reports run out first, the slots are those of routing all of them |
| `Tracking.IngestCrashedIsReplay` | crazytrajectory/trajectory.py:33-38 | when the loop raises, its slots are those of the reports before the last one read, and routing that last one raises the same fault |
| `Tracking.CopterThenLandingZone` | crazytrajectory/trajectory.py:31-38 | a copter report then a landing-zone report: both are known after the second report, not after the first, and nothing further is read |
| `Tracking.UnknownIdIgnored` | crazytrajectory/trajectory.py:39-40 | a report with any other id changes nothing and does not end the loop |
| `Navigation.Target` | crazytrajectory/trajectory.py:50 | `next_pos` for a cursor is a waypoint exactly while the cursor is inside the curve, and then it is the waypoint at that index; past the end it is the landing-zone record |
| `Navigation.Advance` | crazytrajectory/trajectory.py:63 | `next(curve, self.lz_pos)` moves the cursor one step while the curve has a point left and not at all once it is exhausted, so it never passes the end of the curve |
| `Navigation.Step` | crazytrajectory/trajectory.py:54-64 | one report of the second loop. A missing id raises; other objects change nothing and send nothing. A copter report replaces the copter position with its formatted record, or raises as formatting does. The cursor stays or moves one step forward |
| `Navigation.StepCommands` | crazytrajectory/trajectory.py:61-63 | a command is sent exactly when a copter report puts the copter at the current target; it then advances the target and carries the new one, otherwise the target stays |
| `Navigation.StepDraws` | crazytrajectory/trajectory.py:56-59 | the plotter gets the copter point exactly when plotting and the point is out of tolerance of the last one drawn, which it then becomes; otherwise the last drawn point stays |
| `Navigation.Navigate` | crazytrajectory/trajectory.py:52-64 | ends normally exactly when the copter is within tolerance of the landing zone. It reads a prefix of the feed and only appends to the commands and the drawn points |
| `Navigation.NavigateOneReport` | crazytrajectory/trajectory.py:52-64 | away from the landing zone, one report that does not raise moves the loop to the state and outputs that report produces |
| `Navigation.AtLandingZoneReadsNothing` | crazytrajectory/trajectory.py:52 | if the copter is already at the landing zone, no report is read and no command is sent |
| `Navigation.StepSends` | crazytrajectory/trajectory.py:61-64 | a report either sends nothing and keeps the target, or sends exactly the next target and advances to it |
| `Navigation.NavigateHalts` | crazytrajectory/trajectory.py:52-55 | at the landing zone, with no report left, or on a report that raises, the loop changes no state and sends and draws nothing more |
| `Navigation.CursorCountsCommands` | crazytrajectory/trajectory.py:62-63 | the cursor never moves back. It ends as many steps further as commands were sent, capped at the end of the curve |
| `Navigation.CommandsAreSuccessiveTargets` | crazytrajectory/trajectory.py:62-64 | the commands sent are exactly the targets after the starting one, in order: the later waypoints, then the landing zone repeated |
| `Navigation.ExhaustedStaysAtLandingZone` | crazytrajectory/trajectory.py:63 | once the curve is exhausted the cursor stays there, and every command sends the landing zone |
| `Navigation.FirstWaypointNeverSent` | crazytrajectory/trajectory.py:50-64 | starting from the first waypoint, the j-th command carries target j + 1, so the first waypoint is never sent |
| `Navigation.DrawnPointsAreApart` | crazytrajectory/trajectory.py:56-59 | each point handed to the plotter is out of tolerance of the point drawn before it, and the last point drawn is the final last drawn point. Without a plotter, nothing is drawn |
| `Navigation.FlyingThePathArrives` | crazytrajectory/trajectory.py:52-64 | a copter reported exactly on each remaining waypoint and then on the landing zone brings the loop to its normal end |
| `Trajectory.CrazyTrajectory.constructor` | crazytrajectory/trajectory.py:15-28 | every position slot is empty, nothing has been sent or drawn, and the feed is the one given |
| `Trajectory.CrazyTrajectory.RecvJson` | crazytrajectory/trajectory.py:32 | `recv_json` returns the next report of the camera feed and removes it from the feed |
| `Trajectory.CrazyTrajectory.SendJson` | crazytrajectory/trajectory.py:64 | `send_json` appends the command to what the controller has received, and changes nothing else |
| `Trajectory.CrazyTrajectory.AddCopterPoint` | crazytrajectory/trajectory.py:58 | `add_copter_point` appends the point to what the plotter has drawn, and changes nothing else |
| `Trajectory.CrazyTrajectory.AwaitPositions` | crazytrajectory/trajectory.py:31-40 | the loop's outcome, slots and unread feed are those of `Ingest` |
| `Trajectory.CrazyTrajectory.Handle` | crazytrajectory/trajectory.py:54-64 | one report updates the fields, the controller and the plotter as `Step` says, or names the exception it raises |
| `Trajectory.CrazyTrajectory.FollowCurve` | crazytrajectory/trajectory.py:52-65 | the loop's outcome, state, unread feed, sent commands and drawn points are those of `Navigate`. The landing zone and the curve do not change, and the target stays the one the cursor names |
| `Trajectory.CrazyTrajectory.Run` | crazytrajectory/trajectory.py:30-65 | acquires both positions as `Ingest` does. If that ends normally, it builds the SET_POINTS-point curve from those positions, targets its first point and navigates as `Navigate` does from that state, ending with `next_pos` the target at the final cursor. If ingestion does not end normally, the curve, cursor, target, commands and drawn points are left as they were |

## Left out

- ZeroMQ sockets, their context and addresses. Receiving takes the next report of a sequence;
  sending appends to a sequence. When the sequence runs out the model ends with `Stalled`,
  where the program would wait on the socket for ever.
- Threads. `run` is modelled as a sequential method.
- The operator's confirmation prompt between planning and navigation. It changes no state.
- The plotter's `set_endpoints` and `add_trajectory` calls, and the preview generation of the
  curve for them. Both only draw. The copter points the plotter receives are modelled.
- Log output.
- SciPy's `splprep`/`splev` and NumPy's `linspace` numerics. The fitted spline is the
  parameter `fit`, which cannot fail. The model therefore says nothing about how close the
  first and last waypoints are to the endpoints. It also cannot fail on coincident endpoints,
  where the fitter may raise.
- Floating point. Coordinates are exact reals, so rounding near the 0.1 boundary is not
  modelled.
- Non-integer or non-numeric JSON values for `id`, `pos` and `angle`. The model's report
  fields are typed.
- Trajectory.CrazyTrajectory.Run: requires the last drawn point to equal the copter slot. The
  constructor establishes this, and only `run` changes either.
