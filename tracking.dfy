/** The first loop of `CrazyTrajectory.run` (crazytrajectory/trajectory.py:31-40): read reports
    until both the copter and the landing zone have been seen, routing each report by its id. */
module Tracking {
  import opened Wrappers
  import opened Reports

  /** The position slots the first loop fills: `copter_pos`, `lz_pos` and `last_drawn_pos`. */
  datatype Slots = Slots(copter: Option<Fix>, lz: Option<Fix>, lastDrawn: Option<Fix>) {
    /** The loop guard of line 31, negated. */
    predicate BothKnown() {
      copter.Some? && lz.Some?
    }
  }

  /** The slots right after construction. */
  const NO_SLOTS: Slots := Slots(None, None, None)

  /** One iteration of the first loop. A missing or unknown id leaves every slot as it was; a
      copter report sets the copter slot and the last drawn point; a landing-zone report sets
      the landing-zone slot. A known id whose report cannot be formatted raises. */
  function Route(s: Slots, r: Report): (res: Result<Slots, Fault>)
    ensures r.id.None? ==> res == Ok(s)
    ensures r.id.Some? && r.id.value != COPTER_ID && r.id.value != LZ_ID ==> res == Ok(s)
    ensures r.id == Some(COPTER_ID) || r.id == Some(LZ_ID) ==>
              (res.Ok? <==> WellFormed(r)) && (res.Err? ==> Err(res.error) == FormatData(r))
    ensures r.id == Some(COPTER_ID) && res.Ok? ==>
              FormatData(r).Ok? && res.value.copter == Some(FormatData(r).value) && res.value.lastDrawn == res.value.copter
              && res.value.lz == s.lz
    ensures r.id == Some(LZ_ID) && res.Ok? ==>
              FormatData(r).Ok? && res.value.lz == Some(FormatData(r).value) && res.value.copter == s.copter
              && res.value.lastDrawn == s.lastDrawn
  {
    if r.id.None? then Ok(s)
    else if r.id.value == COPTER_ID then
      match FormatData(r)
      case Err(f) => Err(f)
      case Ok(fix) => Ok(s.(copter := Some(fix), lastDrawn := Some(fix)))
    else if r.id.value == LZ_ID then
      match FormatData(r)
      case Err(f) => Err(f)
      case Ok(fix) => Ok(s.(lz := Some(fix)))
    else Ok(s)
  }

  /** Routing every report of `rs` in order, regardless of the loop guard. */
  function Replay(s: Slots, rs: seq<Report>): Result<Slots, Fault>
    decreases |rs|
  {
    if rs == [] then Ok(s)
    else match Route(s, rs[0])
      case Err(f) => Err(f)
      case Ok(s1) => Replay(s1, rs[1..])
  }

  /** Reference definition of a slot's content: the record of the last well-formed report in
      `rs` with the given id, if any. */
  function Latest(rs: seq<Report>, id: int): (f: Option<Fix>)
    ensures f.Some? ==> f.value.id == id
    decreases |rs|
  {
    if rs == [] then None
    else
      var later := Latest(rs[1..], id);
      if later.Some? then later
      else if rs[0].id == Some(id) && FormatData(rs[0]).Ok? then Some(FormatData(rs[0]).value)
      else None
  }

  /** The result of the first loop: how it ended, the slots, and the reports not yet read. */
  datatype Acquisition = Acquisition(outcome: Outcome, slots: Slots, rest: seq<Report>)

  /** The first loop run over the feed `feed` from the slots `s`. */
  function Ingest(s: Slots, feed: seq<Report>): (a: Acquisition)
    ensures a.outcome.Done? <==> a.slots.BothKnown()
    ensures |a.rest| <= |feed| && a.rest == feed[|feed| - |a.rest|..]
    ensures a.outcome.Stalled? ==> a.rest == []
    ensures s.BothKnown() ==> a == Acquisition(Done, s, feed)
    ensures s.lastDrawn == s.copter ==> a.slots.lastDrawn == a.slots.copter
    decreases |feed|
  {
    if s.BothKnown() then Acquisition(Done, s, feed)
    else if feed == [] then Acquisition(Stalled, s, [])
    else match Route(s, feed[0])
      case Err(f) => Acquisition(Crashed(f), s, feed[1..])
      case Ok(s1) => Ingest(s1, feed[1..])
  }

  /** Each slot holds the latest report for its id: a later report for the same id overwrites
      an earlier one, and a slot no report addressed keeps its old content. */
  lemma {:induction false} ReplayKeepsLatest(s: Slots, rs: seq<Report>)
    requires Replay(s, rs).Ok?
    ensures var t := Replay(s, rs).value;
            && t.copter == (if Latest(rs, COPTER_ID).Some? then Latest(rs, COPTER_ID) else s.copter)
            && t.lastDrawn == (if Latest(rs, COPTER_ID).Some? then Latest(rs, COPTER_ID) else s.lastDrawn)
            && t.lz == (if Latest(rs, LZ_ID).Some? then Latest(rs, LZ_ID) else s.lz)
    decreases |rs|
  {
    if rs != [] {
      var s1 := Route(s, rs[0]).value;
      ReplayKeepsLatest(s1, rs[1..]);
    }
  }

  /** The first loop stops at the first report after which both slots are known: no prefix
      of what it read, short of the whole, had both known. */
  lemma {:induction false} IngestStopsAtFirstBothKnown(s: Slots, feed: seq<Report>)
    ensures var a := Ingest(s, feed);
            forall j :: 0 <= j < |feed| - |a.rest| ==>
              Replay(s, feed[..j]).Ok? && !Replay(s, feed[..j]).value.BothKnown()
    decreases |feed|
  {
    var a := Ingest(s, feed);
    if !s.BothKnown() && feed != [] && Route(s, feed[0]).Ok? {
      var s1, tail := Route(s, feed[0]).value, feed[1..];
      IngestStopsAtFirstBothKnown(s1, tail);
      forall j | 0 <= j < |feed| - |a.rest|
        ensures Replay(s, feed[..j]).Ok? && !Replay(s, feed[..j]).value.BothKnown()
      {
        if j == 0 {
          assert feed[..0] == [];
        } else {
          ReplayPrefixStep(s, feed, j);
          assert a == Ingest(s1, tail);
          assert Replay(s, feed[..j]) == Replay(s1, tail[..j - 1]);
        }
      }
    } else if !s.BothKnown() && feed != [] {
      assert |feed| - |a.rest| == 1;
      assert feed[..0] == [];
    }
  }

  /** When the first loop ends normally, its slots are those of routing the reports it read. */
  lemma {:induction false} IngestDoneIsReplay(s: Slots, feed: seq<Report>)
    requires Ingest(s, feed).outcome.Done?
    ensures Replay(s, feed[..|feed| - |Ingest(s, feed).rest|]) == Ok(Ingest(s, feed).slots)
    decreases |feed|
  {
    var a := Ingest(s, feed);
    if s.BothKnown() {
      assert feed[..0] == [];
    } else {
      var s1 := Route(s, feed[0]).value;
      IngestDoneIsReplay(s1, feed[1..]);
      ReplayPrefixStep(s, feed, |feed| - |a.rest|);
    }
  }

  /** When the first loop runs out of reports, its slots are those of routing all of them. */
  lemma {:induction false} IngestStalledIsReplay(s: Slots, feed: seq<Report>)
    requires Ingest(s, feed).outcome.Stalled?
    ensures Replay(s, feed) == Ok(Ingest(s, feed).slots)
    decreases |feed|
  {
    if feed != [] {
      var s1 := Route(s, feed[0]).value;
      IngestStalledIsReplay(s1, feed[1..]);
    }
  }

  /** When the first loop crashes, its slots are those of routing the reports before the last
      one it read, and routing that last one raises the fault it ends with. */
  lemma {:induction false} IngestCrashedIsReplay(s: Slots, feed: seq<Report>)
    requires Ingest(s, feed).outcome.Crashed?
    ensures var a := Ingest(s, feed);
            var k := |feed| - |a.rest|;
            && 0 < k
            && Replay(s, feed[..k - 1]) == Ok(a.slots)
            && Replay(s, feed[..k]) == Err(a.outcome.fault)
    decreases |feed|
  {
    var a := Ingest(s, feed);
    var k := |feed| - |a.rest|;
    match Route(s, feed[0])
    case Err(f) =>
      assert feed[..0] == [];
      ReplayPrefixStep(s, feed, 1);
    case Ok(s1) =>
      IngestCrashedIsReplay(s1, feed[1..]);
      ReplayPrefixStep(s, feed, k);
      ReplayPrefixStep(s, feed, k - 1);
  }

  /** Routing a non-empty prefix is routing its first report, then the rest of the prefix. */
  lemma ReplayPrefixStep(s: Slots, feed: seq<Report>, j: nat)
    requires 1 <= j <= |feed|
    ensures Replay(s, feed[..j]) == match Route(s, feed[0])
                                     case Err(f) => Err(f)
                                     case Ok(s1) => Replay(s1, feed[1..][..j - 1])
  {
    assert feed[..j][0] == feed[0];
    assert feed[..j][1..] == feed[1..][..j - 1];
  }

  /** A copter report followed by a landing-zone report: both are known after the second
      report and not after the first, and nothing further is read. */
  lemma CopterThenLandingZone(c: Fix, l: Fix, later: seq<Report>)
    requires c.id == COPTER_ID && l.id == LZ_ID
    ensures Route(NO_SLOTS, Encode(c)) == Ok(Slots(Some(c), None, Some(c)))
    ensures !Route(NO_SLOTS, Encode(c)).value.BothKnown()
    ensures Ingest(NO_SLOTS, [Encode(c), Encode(l)] + later)
            == Acquisition(Done, Slots(Some(c), Some(l), Some(c)), later)
  {
    FormatDataEncode(c);
    FormatDataEncode(l);
    var feed := [Encode(c), Encode(l)] + later;
    assert feed[1..] == [Encode(l)] + later;
    assert feed[1..][1..] == later;
  }

  /** A report whose id is neither the copter's nor the landing zone's changes nothing. */
  lemma UnknownIdIgnored(s: Slots, r: Report)
    requires r.id.Some? && r.id.value != COPTER_ID && r.id.value != LZ_ID
    ensures Route(s, r) == Ok(s)
    ensures !s.BothKnown() ==> Ingest(s, [r]) == Acquisition(Stalled, s, [])
  {
  }
}
