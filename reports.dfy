/** Position reports as they arrive from the camera feed, and `_format_data`, which flattens one
    into the record the tracker stores (crazytrajectory/trajectory.py:102-109). */
module Reports {
  import opened Wrappers
  import opened Positions

  /** Tracked-object identities on the feed. */
  const COPTER_ID: int := 1
  const LZ_ID: int := 0

  /** A decoded JSON message `{id, pos: [x, y, z], angle}`; any key may be absent. */
  datatype Report = Report(id: Option<int>, pos: Option<seq<real>>, angle: Option<real>)

  /** The flat dictionary `{id, x, y, z, angle}` that `_format_data` builds. */
  datatype Fix = Fix(id: int, at: Point, angle: real)

  /** The message keys `_format_data` reads. */
  datatype Key = IdKey | PosKey | AngleKey

  /** The Python exceptions a malformed message raises: a missing key, or a `pos` list too short. */
  datatype Fault = KeyMissing(key: Key) | IndexOutOfRange(index: nat)

  /** How a phase of the tracker's run ends: normally (both positions known, or the copter at
      the landing zone), by running out of reports (the source would wait forever on the
      socket), or by an exception a malformed report raises. */
  datatype Outcome = Done | Stalled | Crashed(fault: Fault)

  /** Whether `_format_data` can read every field it needs. */
  predicate WellFormed(r: Report) {
    r.id.Some? && r.pos.Some? && |r.pos.value| >= 3 && r.angle.Some?
  }

  /** `_format_data`: the dictionary entries are evaluated in the order id, x, y, z, angle, and
      the first one that cannot be read raises. */
  function FormatData(r: Report): (res: Result<Fix, Fault>)
    ensures res.Ok? <==> WellFormed(r)
    ensures res.Ok? ==> res.value.id == r.id.value && res.value.angle == r.angle.value
    ensures res.Ok? ==> res.value.at.x == r.pos.value[0] && res.value.at.y == r.pos.value[1]
                        && res.value.at.z == r.pos.value[2]
    ensures r.id.None? ==> res == Err(KeyMissing(IdKey))
    ensures r.id.Some? && r.pos.None? ==> res == Err(KeyMissing(PosKey))
    ensures r.id.Some? && r.pos.Some? && |r.pos.value| < 3 ==> res == Err(IndexOutOfRange(|r.pos.value|))
    ensures r.id.Some? && r.pos.Some? && |r.pos.value| >= 3 && r.angle.None? ==> res == Err(KeyMissing(AngleKey))
  {
    if r.id.None? then Err(KeyMissing(IdKey))
    else if r.pos.None? then Err(KeyMissing(PosKey))
    else if |r.pos.value| < 3 then Err(IndexOutOfRange(|r.pos.value|))
    else if r.angle.None? then Err(KeyMissing(AngleKey))
    else Ok(Fix(r.id.value, Point(r.pos.value[0], r.pos.value[1], r.pos.value[2]), r.angle.value))
  }

  /** The message a tracker would publish for a record; the inverse of `FormatData`. */
  function Encode(f: Fix): (r: Report)
    ensures WellFormed(r) && |r.pos.value| == 3
  {
    Report(Some(f.id), Some([f.at.x, f.at.y, f.at.z]), Some(f.angle))
  }

  lemma FormatDataEncode(f: Fix)
    ensures FormatData(Encode(f)) == Ok(f)
  {
  }

  lemma EncodeFormatData(r: Report)
    requires WellFormed(r) && |r.pos.value| == 3
    ensures Encode(FormatData(r).value) == r
  {
    assert [r.pos.value[0], r.pos.value[1], r.pos.value[2]] == r.pos.value;
  }

  /** Components of `pos` after the third are never read. */
  lemma FormatDataIgnoresExtraComponents(r: Report, extra: seq<real>)
    requires r.pos.Some? && |r.pos.value| >= 3
    ensures FormatData(r.(pos := Some(r.pos.value + extra))) == FormatData(r)
  {
  }
}
