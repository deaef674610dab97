/** The tracker object `CrazyTrajectory` (crazytrajectory/trajectory.py:13-65). Its sockets
    become fields: the camera feed is the sequence of reports still to arrive, the controller
    socket the sequence of commands pushed so far, and the plotter the sequence of points
    passed to `add_copter_point`. Each loop of `run` is a method proved equal to the function
    that specifies it. */
module Trajectory {
  import opened Wrappers
  import opened Positions
  import opened Reports
  import opened Curve
  import opened Tracking
  import opened Navigation

  class CrazyTrajectory {
    var copterPos: Option<Fix>
    var lzPos: Option<Fix>
    var lastDrawnPos: Option<Fix>
    var nextPos: Option<Setpoint>
    /** The generator of line 49: the points it yields, and the index of the point it yielded
        last (`|curve|` once it is exhausted). */
    var curve: seq<Point>
    var cursor: nat
    /** The camera socket: the reports it has yet to deliver. */
    var feed: seq<Report>
    /** The controller socket: the commands pushed to it. */
    var sent: seq<Command>
    /** The plotter: the copter points handed to it. */
    var drawn: seq<Fix>
    /** Whether a plotter is attached. */
    const plotting: bool
    /** The spline fitter the curve is sampled from. */
    const fit: Spline

    constructor (feed: seq<Report>, plotting: bool, fit: Spline)
      ensures copterPos == None && lzPos == None && lastDrawnPos == None && nextPos == None
      ensures this.feed == feed && sent == [] && drawn == []
      ensures this.plotting == plotting && this.fit == fit
    {
      copterPos, lzPos, lastDrawnPos, nextPos := None, None, None, None;
      curve, cursor := [], 0;
      this.feed, sent, drawn := feed, [], [];
      this.plotting, this.fit := plotting, fit;
    }

    function Slots(): Slots
      reads this
    {
      Tracking.Slots(copterPos, lzPos, lastDrawnPos)
    }

    function PlanNow(): Plan
      requires lzPos.Some?
      reads this
    {
      Plan(curve, lzPos.value, plotting)
    }

    function NavNow(): NavState
      requires copterPos.Some? && lastDrawnPos.Some?
      reads this
    {
      NavState(copterPos.value, lastDrawnPos.value, cursor)
    }

    /** `camera_con.recv_json()`: the next report of the feed. */
    method RecvJson() returns (data: Report)
      requires feed != []
      modifies this`feed
      ensures data == old(feed)[0] && feed == old(feed)[1..]
    {
      data := feed[0];
      feed := feed[1..];
    }

    /** `controller_con.send_json(...)`. */
    method SendJson(command: Command)
      modifies this`sent
      ensures sent == old(sent) + [command]
    {
      sent := sent + [command];
    }

    /** `plotter.add_copter_point(...)`. */
    method AddCopterPoint(point: Fix)
      modifies this`drawn
      ensures drawn == old(drawn) + [point]
    {
      drawn := drawn + [point];
    }

    /** The first loop of `run` (lines 31-40): read reports until both the copter and the
        landing zone are known. */
    method AwaitPositions() returns (outcome: Outcome)
      modifies this`copterPos, this`lzPos, this`lastDrawnPos, this`feed
      ensures var a := Ingest(old(Slots()), old(feed));
              outcome == a.outcome && Slots() == a.slots && feed == a.rest
    {
      while copterPos.None? || lzPos.None?
        invariant Ingest(Slots(), feed) == Ingest(old(Slots()), old(feed))
        decreases |feed|
      {
        if feed == [] {
          // the source blocks on the socket for ever here
          return Stalled;
        }
        ghost var before := Slots();
        var data := RecvJson();
        if data.id.None? {
          // logged as a report missing its id, and skipped
        } else if data.id.value == COPTER_ID {
          var formatted := FormatData(data);
          if formatted.Err? {
            return Crashed(formatted.error);
          }
          copterPos := Some(formatted.value);
          lastDrawnPos := copterPos;
        } else if data.id.value == LZ_ID {
          var formatted := FormatData(data);
          if formatted.Err? {
            return Crashed(formatted.error);
          }
          lzPos := Some(formatted.value);
        } else {
          // logged as an invalid id, and skipped
        }
        assert Route(before, data) == Ok(Slots());
      }
      outcome := Done;
    }

    /** The second loop of `run` (lines 52-64): follow the copter along the curve until it is
        at the landing zone. */
    method FollowCurve() returns (outcome: Outcome)
      requires copterPos.Some? && lzPos.Some? && lastDrawnPos.Some?
      requires nextPos == Some(Target(PlanNow(), cursor))
      modifies this`copterPos, this`lastDrawnPos, this`nextPos, this`cursor, this`feed, this`sent, this`drawn
      ensures lzPos == old(lzPos) && curve == old(curve)
      ensures copterPos.Some? && lastDrawnPos.Some?
      ensures var run := Navigate(old(PlanNow()), old(NavNow()), old(feed), old(sent), old(drawn));
              && outcome == run.outcome && NavNow() == run.final
              && feed == run.rest && sent == run.sent && drawn == run.drawn
      ensures nextPos == Some(Target(PlanNow(), cursor))
    {
      while !IsAtPos(copterPos.value.at, lzPos.value.at)
        invariant copterPos.Some? && lastDrawnPos.Some? && lzPos == old(lzPos) && curve == old(curve)
        invariant nextPos == Some(Target(PlanNow(), cursor))
        invariant Navigate(PlanNow(), NavNow(), feed, sent, drawn)
                  == Navigate(old(PlanNow()), old(NavNow()), old(feed), old(sent), old(drawn))
        decreases |feed|
      {
        if feed == [] {
          // the source blocks on the socket for ever here
          return Stalled;
        }
        ghost var plan, before, feed0, sent0, drawn0 := PlanNow(), NavNow(), feed, sent, drawn;
        var data := RecvJson();
        var fault := Handle(data);
        if fault.Some? {
          return Crashed(fault.value);
        }
        NavigateOneReport(plan, before, feed0, sent0, drawn0);
      }
      outcome := Done;
    }

    /** The body of the second loop for one report (lines 54-64). */
    method Handle(data: Report) returns (fault: Option<Fault>)
      requires copterPos.Some? && lzPos.Some? && lastDrawnPos.Some?
      requires nextPos == Some(Target(PlanNow(), cursor))
      modifies this`copterPos, this`lastDrawnPos, this`nextPos, this`cursor, this`sent, this`drawn
      ensures lzPos == old(lzPos) && curve == old(curve)
      ensures copterPos.Some? && lastDrawnPos.Some?
      ensures nextPos == Some(Target(PlanNow(), cursor))
      ensures var e := Step(old(PlanNow()), old(NavNow()), data);
              && (e.Err? ==> fault == Some(e.error) && NavNow() == old(NavNow())
                             && sent == old(sent) && drawn == old(drawn))
              && (e.Ok? ==> fault == None && NavNow() == e.value.next
                            && sent == old(sent) + e.value.command.ToSeq()
                            && drawn == old(drawn) + e.value.drawn.ToSeq())
    {
      if data.id.None? {
        // `data['id']` raises
        return Some(KeyMissing(IdKey));
      }
      if data.id.value != COPTER_ID {
        return None;
      }
      var formatted := FormatData(data);
      if formatted.Err? {
        return Some(formatted.error);
      }
      copterPos := Some(formatted.value);
      if plotting && !IsAtPos(copterPos.value.at, lastDrawnPos.value.at) {
        AddCopterPoint(copterPos.value);
        lastDrawnPos := copterPos;
      }
      if IsAtPos(copterPos.value.at, nextPos.value.Pos()) {
        // `next(curve, self.lz_pos)`
        if cursor < |curve| {
          cursor := cursor + 1;
        }
        nextPos := Some(if cursor < |curve| then Waypoint(curve[cursor]) else LandingZone(lzPos.value));
        SendJson(SetPoints(nextPos.value));
      }
      fault := None;
    }

    /** `run` (lines 30-65): acquire both positions, generate the curve, take its first point
        as the target, and follow it to the landing zone. The plotter preview and the operator's
        confirmation in between change nothing here. */
    method Run() returns (outcome: Outcome)
      requires lastDrawnPos == copterPos
      modifies this
      ensures var a := Ingest(old(Slots()), old(feed));
              && (!a.outcome.Done? ==>
                    outcome == a.outcome && Slots() == a.slots && feed == a.rest
                    && sent == old(sent) && drawn == old(drawn)
                    && curve == old(curve) && cursor == old(cursor) && nextPos == old(nextPos))
              && (a.outcome.Done? ==>
                    && |curve| == SET_POINTS
                    && (forall i :: 0 <= i < SET_POINTS ==>
                          curve[i] == fit(ControlsFor(a.slots.copter.value.at, a.slots.lz.value.at), Sample(i)))
                    && lzPos == a.slots.lz
                    && copterPos.Some? && lastDrawnPos.Some?
                    && var run := Navigate(Plan(curve, a.slots.lz.value, plotting),
                                           NavState(a.slots.copter.value, a.slots.copter.value, 0),
                                           a.rest, old(sent), old(drawn));
                       && outcome == run.outcome && NavNow() == run.final
                       && feed == run.rest && sent == run.sent && drawn == run.drawn
                       && nextPos == Some(Target(Plan(curve, a.slots.lz.value, plotting), cursor)))
    {
      ghost var a := Ingest(Slots(), feed);
      ghost var sent0, drawn0 := sent, drawn;
      outcome := AwaitPositions();
      if !outcome.Done? {
        return;
      }
      assert copterPos == a.slots.copter && lzPos == a.slots.lz && lastDrawnPos == copterPos;
      curve := TrajectoryCurve(copterPos.value.at, lzPos.value.at, fit);
      cursor := 0;
      nextPos := Some(Waypoint(curve[0]));
      ghost var plan, start := PlanNow(), NavNow();
      assert plan == Plan(curve, a.slots.lz.value, plotting);
      assert start == NavState(a.slots.copter.value, a.slots.copter.value, 0);
      assert feed == a.rest && sent == sent0 && drawn == drawn0;
      outcome := FollowCurve();
    }
  }
}
