/** The second loop of `CrazyTrajectory.run` (crazytrajectory/trajectory.py:49-65): follow the
    copter's reports, step through the waypoints as it reaches each one, and stop once it is at
    the landing zone. */
module Navigation {
  import opened Wrappers
  import opened Positions
  import opened Reports

  /** What `next_pos` holds: a waypoint the generator yielded, or, once the generator is
      exhausted, the landing-zone record itself (`next(curve, self.lz_pos)`), id and angle
      included. */
  datatype Setpoint = Waypoint(p: Point) | LandingZone(fix: Fix) {
    function Pos(): Point {
      match this
      case Waypoint(p) => p
      case LandingZone(fix) => fix.at
    }
  }

  /** The message `{'set-points': next_pos}` pushed to the controller. */
  datatype Command = SetPoints(target: Setpoint)

  /** What stays fixed while navigating: the generated waypoints, the landing zone, and whether
      a plotter is attached. */
  datatype Plan = Plan(curve: seq<Point>, lz: Fix, plotting: bool)

  /** What changes while navigating: `copter_pos`, `last_drawn_pos`, and the generator's
      position, as the index of `next_pos` in the curve (`|curve|` once it is exhausted). */
  datatype NavState = NavState(copter: Fix, lastDrawn: Fix, cursor: nat)

  /** `next_pos` for a cursor: the waypoint at that index while the generator has one, the
      landing zone after. */
  function Target(plan: Plan, cursor: nat): (t: Setpoint)
    ensures t.Waypoint? <==> cursor < |plan.curve|
    ensures cursor < |plan.curve| ==> t == Waypoint(plan.curve[cursor])
    ensures cursor >= |plan.curve| ==> t == LandingZone(plan.lz)
  {
    if cursor < |plan.curve| then Waypoint(plan.curve[cursor]) else LandingZone(plan.lz)
  }

  /** The cursor after one more `next(curve, lz_pos)`: one step on while the generator has a
      point left, never past the end of the curve, and stuck once the curve is exhausted. */
  function Advance(plan: Plan, cursor: nat): (c: nat)
    ensures cursor <= c <= cursor + 1
    ensures cursor <= |plan.curve| ==> c <= |plan.curve|
    ensures cursor < |plan.curve| ==> c == cursor + 1
    ensures cursor >= |plan.curve| ==> c == cursor
  {
    if cursor < |plan.curve| then cursor + 1 else cursor
  }

  /** What one report does: the new state, the command sent (if any) and the point handed to
      the plotter (if any). */
  datatype Effect = Effect(next: NavState, command: Option<Command>, drawn: Option<Fix>)

  /** The body of the second loop for one report. Reading `data['id']` raises when the id is
      missing; reports of any other object are skipped; a copter report replaces the copter
      position, is drawn when it is away from the last drawn point, and advances the target
      when it is at the current one. */
  function Step(plan: Plan, st: NavState, r: Report): (e: Result<Effect, Fault>)
    ensures r.id.None? ==> e == Err(KeyMissing(IdKey))
    ensures r.id.Some? && r.id.value != COPTER_ID ==> e == Ok(Effect(st, None, None))
    ensures r.id == Some(COPTER_ID) ==> (e.Ok? <==> WellFormed(r))
    ensures r.id == Some(COPTER_ID) && e.Err? ==> Err(e.error) == FormatData(r)
    ensures r.id == Some(COPTER_ID) && e.Ok? ==> Ok(e.value.next.copter) == FormatData(r)
    // the cursor never moves back and moves at most one step
    ensures e.Ok? ==> e.value.next.cursor == st.cursor || e.value.next.cursor == st.cursor + 1
  {
    if r.id.None? then Err(KeyMissing(IdKey))
    else if r.id.value != COPTER_ID then Ok(Effect(st, None, None))
    else match FormatData(r)
      case Err(f) => Err(f)
      case Ok(copter) =>
        var draw := plan.plotting && !IsAtPos(copter.at, st.lastDrawn.at);
        var lastDrawn := if draw then copter else st.lastDrawn;
        if IsAtPos(copter.at, Target(plan, st.cursor).Pos()) then
          var cursor := Advance(plan, st.cursor);
          Ok(Effect(NavState(copter, lastDrawn, cursor), Some(SetPoints(Target(plan, cursor))),
                    if draw then Some(copter) else None))
        else
          Ok(Effect(NavState(copter, lastDrawn, st.cursor), None, if draw then Some(copter) else None))
  }

  /** A command is sent exactly when the copter report puts it at the current target, and it
      carries the target after it; otherwise the target stays. */
  lemma StepCommands(plan: Plan, st: NavState, r: Report)
    requires Step(plan, st, r).Ok?
    ensures var e := Step(plan, st, r).value;
            && (e.command.Some? <==>
                  r.id == Some(COPTER_ID) && IsAtPos(e.next.copter.at, Target(plan, st.cursor).Pos()))
            && (e.command.Some? ==>
                  e.next.cursor == Advance(plan, st.cursor)
                  && e.command.value == SetPoints(Target(plan, e.next.cursor)))
            && (e.command.None? ==> e.next.cursor == st.cursor)
  {
  }

  /** The plotter gets the new copter point exactly when a plotter is attached and the point is
      out of tolerance of the last one drawn, which it then becomes. */
  lemma StepDraws(plan: Plan, st: NavState, r: Report)
    requires Step(plan, st, r).Ok?
    ensures var e := Step(plan, st, r).value;
            && (e.drawn.Some? <==>
                  r.id == Some(COPTER_ID) && plan.plotting && !IsAtPos(e.next.copter.at, st.lastDrawn.at))
            && (e.drawn.Some? ==> e.drawn.value == e.next.copter && e.next.lastDrawn == e.next.copter)
            && (e.drawn.None? ==> e.next.lastDrawn == st.lastDrawn)
  {
  }

  /** The result of the second loop: how it ended, the final state, the reports not yet read,
      and everything the controller and the plotter have received. */
  datatype Run = Run(outcome: Outcome, final: NavState, rest: seq<Report>, sent: seq<Command>, drawn: seq<Fix>)

  /** The second loop run over `feed` from `st`, with `sent` and `drawn` already delivered. */
  function Navigate(plan: Plan, st: NavState, feed: seq<Report>, sent: seq<Command>, drawn: seq<Fix>): (run: Run)
    ensures run.outcome.Done? <==> IsAtPos(run.final.copter.at, plan.lz.at)
    ensures |run.rest| <= |feed| && run.rest == feed[|feed| - |run.rest|..]
    ensures run.outcome.Stalled? ==> run.rest == []
    ensures sent <= run.sent && drawn <= run.drawn
    decreases |feed|
  {
    if IsAtPos(st.copter.at, plan.lz.at) then Run(Done, st, feed, sent, drawn)
    else if feed == [] then Run(Stalled, st, [], sent, drawn)
    else match Step(plan, st, feed[0])
      case Err(f) => Run(Crashed(f), st, feed[1..], sent, drawn)
      case Ok(e) => Navigate(plan, e.next, feed[1..], sent + e.command.ToSeq(), drawn + e.drawn.ToSeq())
  }

  /** One turn of the loop: away from the landing zone, a report that does not raise moves the
      loop on to the state and outputs it produces. */
  lemma NavigateOneReport(plan: Plan, st: NavState, feed: seq<Report>, sent: seq<Command>, drawn: seq<Fix>)
    requires !IsAtPos(st.copter.at, plan.lz.at) && feed != [] && Step(plan, st, feed[0]).Ok?
    ensures var e := Step(plan, st, feed[0]).value;
            Navigate(plan, st, feed, sent, drawn)
            == Navigate(plan, e.next, feed[1..], sent + e.command.ToSeq(), drawn + e.drawn.ToSeq())
  {
  }

  function Min(a: nat, b: nat): nat {
    if a < b then a else b
  }

  /** If the copter is already at the landing zone, nothing is read and nothing is sent. */
  lemma AtLandingZoneReadsNothing(plan: Plan, st: NavState, feed: seq<Report>)
    requires IsAtPos(st.copter.at, plan.lz.at)
    ensures Navigate(plan, st, feed, [], []) == Run(Done, st, feed, [], [])
  {
  }

  /** A report either sends nothing and keeps the cursor, or advances the cursor and sends the
      target it advanced to. */
  lemma StepSends(plan: Plan, st: NavState, r: Report)
    requires Step(plan, st, r).Ok?
    ensures var e := Step(plan, st, r).value;
            || (e.command.ToSeq() == [] && e.next.cursor == st.cursor)
            || (e.command.ToSeq() == [SetPoints(Target(plan, Advance(plan, st.cursor)))]
                && e.next.cursor == Advance(plan, st.cursor))
  {
  }

  /** The cursor ends as many steps further as commands were sent, but never past the end of
      the curve: it never moves back, and it moves once per command. */
  lemma {:induction false} CursorCountsCommands(plan: Plan, st: NavState, feed: seq<Report>,
                                                 sent: seq<Command>, drawn: seq<Fix>)
    requires st.cursor <= |plan.curve|
    ensures var run := Navigate(plan, st, feed, sent, drawn);
            run.final.cursor == Min(st.cursor + (|run.sent| - |sent|), |plan.curve|)
    decreases |feed|
  {
    if !IsAtPos(st.copter.at, plan.lz.at) && feed != [] && Step(plan, st, feed[0]).Ok? {
      var e := Step(plan, st, feed[0]).value;
      StepSends(plan, st, feed[0]);
      NavigateOneReport(plan, st, feed, sent, drawn);
      CursorCountsCommands(plan, e.next, feed[1..], sent + e.command.ToSeq(), drawn + e.drawn.ToSeq());
    }
  }

  /** Reference definition of the commands the loop should send: the `k` targets after the
      one at cursor `c`, in order. */
  function TargetsAfter(plan: Plan, c: nat, k: nat): (cmds: seq<Command>)
    ensures |cmds| == k
    ensures forall j :: 0 <= j < k ==> cmds[j] == SetPoints(Target(plan, c + j + 1))
  {
    seq(k, j requires 0 <= j < k => SetPoints(Target(plan, c + j + 1)))
  }

  lemma TargetsAfterAdvance(plan: Plan, c: nat, k: nat)
    requires 0 < k
    ensures TargetsAfter(plan, c, k)
            == [SetPoints(Target(plan, Advance(plan, c)))] + TargetsAfter(plan, Advance(plan, c), k - 1)
  {
    var lhs := TargetsAfter(plan, c, k);
    var rhs := [SetPoints(Target(plan, Advance(plan, c)))] + TargetsAfter(plan, Advance(plan, c), k - 1);
    forall j | 0 <= j < k
      ensures lhs[j] == rhs[j]
    {
      if j > 0 {
        assert rhs[j] == TargetsAfter(plan, Advance(plan, c), k - 1)[j - 1];
      }
    }
  }

  /** The commands sent are exactly the successive targets after the starting one, in order:
      the waypoints after the current one, then the landing zone, repeated. */
  lemma {:induction false} CommandsAreSuccessiveTargets(plan: Plan, st: NavState, feed: seq<Report>,
                                                         sent: seq<Command>, drawn: seq<Fix>)
    ensures var run := Navigate(plan, st, feed, sent, drawn);
            run.sent == sent + TargetsAfter(plan, st.cursor, |run.sent| - |sent|)
    decreases |feed|
  {
    if !IsAtPos(st.copter.at, plan.lz.at) && feed != [] && Step(plan, st, feed[0]).Ok? {
      var e := Step(plan, st, feed[0]).value;
      var sent1 := sent + e.command.ToSeq();
      StepSends(plan, st, feed[0]);
      NavigateOneReport(plan, st, feed, sent, drawn);
      var all := Navigate(plan, e.next, feed[1..], sent1, drawn + e.drawn.ToSeq()).sent;
      CommandsAreSuccessiveTargets(plan, e.next, feed[1..], sent1, drawn + e.drawn.ToSeq());
      if sent1 != sent {
        PrependTarget(plan, st.cursor, sent, all);
      } else {
        assert e.next.cursor == st.cursor;
      }
    } else {
      NavigateHalts(plan, st, feed, sent, drawn);
    }
  }

  /** Sending the target after cursor `c` and then the targets after that one is sending the
      targets after `c`. */
  lemma PrependTarget(plan: Plan, c: nat, sent: seq<Command>, all: seq<Command>)
    requires |sent| < |all|
    requires all == sent + [SetPoints(Target(plan, Advance(plan, c)))]
                    + TargetsAfter(plan, Advance(plan, c), |all| - |sent| - 1)
    ensures all == sent + TargetsAfter(plan, c, |all| - |sent|)
  {
    var k := |all| - |sent|;
    TargetsAfterAdvance(plan, c, k);
    assert sent + [SetPoints(Target(plan, Advance(plan, c)))] + TargetsAfter(plan, Advance(plan, c), k - 1)
           == sent + ([SetPoints(Target(plan, Advance(plan, c)))] + TargetsAfter(plan, Advance(plan, c), k - 1));
  }

  /** At the landing zone, out of reports, or on a report that raises, the loop ends without
      sending, drawing or moving. */
  lemma NavigateHalts(plan: Plan, st: NavState, feed: seq<Report>, sent: seq<Command>, drawn: seq<Fix>)
    requires IsAtPos(st.copter.at, plan.lz.at) || feed == [] || Step(plan, st, feed[0]).Err?
    ensures var run := Navigate(plan, st, feed, sent, drawn);
            run.final == st && run.sent == sent && run.drawn == drawn
  {
  }

  /** Once the generator is exhausted the target stays the landing zone: every later command
      sends the landing-zone record. */
  lemma ExhaustedStaysAtLandingZone(plan: Plan, st: NavState, feed: seq<Report>)
    requires st.cursor == |plan.curve|
    ensures var run := Navigate(plan, st, feed, [], []);
            && run.final.cursor == |plan.curve|
            && forall j :: 0 <= j < |run.sent| ==> run.sent[j] == SetPoints(LandingZone(plan.lz))
  {
    CursorCountsCommands(plan, st, feed, [], []);
    CommandsAreSuccessiveTargets(plan, st, feed, [], []);
  }

  /** Starting at the first waypoint, the first waypoint is never sent: the j-th command
      carries target j + 1. */
  lemma FirstWaypointNeverSent(plan: Plan, st: NavState, feed: seq<Report>)
    requires st.cursor == 0
    ensures var run := Navigate(plan, st, feed, [], []);
            forall j :: 0 <= j < |run.sent| ==> run.sent[j] == SetPoints(Target(plan, j + 1))
  {
    CommandsAreSuccessiveTargets(plan, st, feed, [], []);
  }

  /** The plotter never receives a point within tolerance of the point drawn before it, the
      last point drawn is what `last_drawn_pos` ends as, and without a plotter nothing is drawn. */
  lemma {:induction false} DrawnPointsAreApart(plan: Plan, st: NavState, feed: seq<Report>,
                                                sent: seq<Command>, drawn: seq<Fix>)
    ensures var run := Navigate(plan, st, feed, sent, drawn);
            && (|run.drawn| > |drawn| ==> !IsAtPos(run.drawn[|drawn|].at, st.lastDrawn.at))
            && (forall i :: |drawn| < i < |run.drawn| ==> !IsAtPos(run.drawn[i].at, run.drawn[i - 1].at))
            && run.final.lastDrawn == (if |run.drawn| == |drawn| then st.lastDrawn else run.drawn[|run.drawn| - 1])
            && (!plan.plotting ==> run.drawn == drawn)
    decreases |feed|
  {
    if !IsAtPos(st.copter.at, plan.lz.at) && feed != [] {
      match Step(plan, st, feed[0])
      case Err(_) =>
      case Ok(e) =>
        var sent1 := sent + e.command.ToSeq();
        var drawn1 := drawn + e.drawn.ToSeq();
        DrawnPointsAreApart(plan, e.next, feed[1..], sent1, drawn1);
        var run := Navigate(plan, e.next, feed[1..], sent1, drawn1);
        assert run == Navigate(plan, st, feed, sent, drawn);
        assert drawn1 <= run.drawn;
        if e.drawn.Some? {
          assert run.drawn[|drawn|] == drawn1[|drawn|] == e.drawn.value == e.next.copter == e.next.lastDrawn;
        } else {
          assert drawn1 == drawn;
        }
    }
  }

  /** The report a copter at `p` would publish. */
  function CopterAt(p: Point): (r: Report)
    ensures FormatData(r) == Ok(Fix(COPTER_ID, p, 0.0))
  {
    Encode(Fix(COPTER_ID, p, 0.0))
  }

  /** Reports placing the copter exactly on each of `points` in turn. */
  function Flight(points: seq<Point>): (rs: seq<Report>)
    ensures |rs| == |points|
    ensures forall i :: 0 <= i < |points| ==> rs[i] == CopterAt(points[i])
  {
    seq(|points|, i requires 0 <= i < |points| => CopterAt(points[i]))
  }

  /** A copter that flies exactly onto each remaining waypoint and then onto the landing zone
      brings the loop to its end. */
  lemma {:induction false} FlyingThePathArrives(plan: Plan, st: NavState, sent: seq<Command>, drawn: seq<Fix>)
    requires st.cursor <= |plan.curve|
    ensures Navigate(plan, st, Flight(plan.curve[st.cursor..] + [plan.lz.at]), sent, drawn).outcome == Done
    decreases |plan.curve| - st.cursor
  {
    var path := plan.curve[st.cursor..] + [plan.lz.at];
    var feed := Flight(path);
    if !IsAtPos(st.copter.at, plan.lz.at) {
      var e := Step(plan, st, feed[0]).value;
      assert e.next.copter.at == path[0];
      if st.cursor < |plan.curve| {
        IsAtPosReflexive(plan.curve[st.cursor]);
        assert e.next.cursor == st.cursor + 1;
        assert feed[1..] == Flight(plan.curve[st.cursor + 1..] + [plan.lz.at]) by {
          assert path[1..] == plan.curve[st.cursor + 1..] + [plan.lz.at];
        }
        FlyingThePathArrives(plan, e.next, sent + e.command.ToSeq(), drawn + e.drawn.ToSeq());
      } else {
        IsAtPosReflexive(plan.lz.at);
      }
    }
  }
}
