/** The serialized snapshot of a record: the eight fields, in the order
    files, passes, failures, skips, assertions, errors, start_time,
    stop_time. Timestamps are written with five fractional digits of a
    second, so a snapshot keeps them only to the nearest ten microseconds
    below. */
module Serialization {
  import opened Wrappers
  import opened Telemetry

  /** Microseconds per unit of the fifth fractional digit of a second. */
  const Resolution: nat := 10

  /** A snapshot; both timestamps are always present. */
  datatype Snapshot = Snapshot(
    files: seq<string>,
    passes: nat,
    failures: nat,
    skips: nat,
    assertions: nat,
    errors: nat,
    startTime: int,
    stopTime: int)

  /** A timestamp that five fractional digits represent exactly. */
  predicate OnGrid(t: int) {
    t % Resolution == 0
  }

  /** The timestamp as written with five fractional digits: the digits past
      the fifth are dropped, so it moves back to the grid point at or below. */
  function Truncate(t: int): (r: int)
    ensures OnGrid(r)
    ensures r <= t < r + Resolution
  {
    t - t % Resolution
  }

  /** The snapshot of a record; a record without both timestamps has none.
      Each snapshot field holds the record field of the same name, the
      timestamps truncated to the grid. */
  function Serialize(d: TelemetryData): (r: Result<Snapshot, Error>)
    ensures r.Ok? <==> d.ElapsedTime().Ok?
    ensures r.Err? ==> r.error == MissingTimestamp
    ensures r.Ok? ==> r.value.files == d.files && r.value.passes == d.passes && r.value.failures == d.failures
    ensures r.Ok? ==> r.value.skips == d.skips && r.value.assertions == d.assertions && r.value.errors == d.errors
    ensures r.Ok? ==> r.value.startTime == Truncate(d.startTime.value) && r.value.stopTime == Truncate(d.stopTime.value)
  {
    if d.startTime.Some? && d.stopTime.Some? then
      Ok(Snapshot(d.files, d.passes, d.failures, d.skips, d.assertions, d.errors,
                  Truncate(d.startTime.value), Truncate(d.stopTime.value)))
    else
      Err(MissingTimestamp)
  }

  /** The record a snapshot describes. */
  function Deserialize(s: Snapshot): (d: TelemetryData)
    ensures d.ElapsedTime().Ok?
  {
    TelemetryData(s.files, s.passes, s.failures, s.skips, s.assertions, s.errors,
                  Some(s.startTime), Some(s.stopTime))
  }

  /** Reading back a record's snapshot restores every field, except that
      each timestamp is truncated to the snapshot's resolution; the record
      comes back unchanged exactly when its timestamps are on the grid. */
  lemma RecordRoundTrip(d: TelemetryData)
    requires Serialize(d).Ok?
    ensures Deserialize(Serialize(d).value)
         == d.(startTime := Some(Truncate(d.startTime.value)), stopTime := Some(Truncate(d.stopTime.value)))
    ensures Deserialize(Serialize(d).value) == d <==> OnGrid(d.startTime.value) && OnGrid(d.stopTime.value)
  {
  }

  /** Writing out the record a snapshot describes gives that snapshot back
      exactly when its timestamps are on the grid, as every snapshot written
      with five fractional digits is. */
  lemma SnapshotRoundTrip(s: Snapshot)
    ensures Serialize(Deserialize(s)) == Ok(s) <==> OnGrid(s.startTime) && OnGrid(s.stopTime)
  {
  }

  /** A snapshot that is read back and written out again does not change. */
  lemma SerializeStable(d: TelemetryData)
    requires Serialize(d).Ok?
    ensures Serialize(Deserialize(Serialize(d).value)) == Serialize(d)
  {
  }
}
