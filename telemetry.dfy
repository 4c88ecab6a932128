/** The test-run telemetry record (`TestBench::Telemetry`): the files a run
    executed, five outcome counters and the run's start and stop times.

    `TelemetryData` is the record as a value, carrying the read-only queries
    (`tests`, `elapsed_time`, `passed?`, `failed?`); `TelemetryRecord` is the
    mutable object the test runner updates in place, one recording call per
    event. Timestamps are integers counted in microseconds. */
module Telemetry {
  import opened Wrappers

  /** Conditions the record's operations report instead of raising. */
  datatype Error = MissingTimestamp | IncompleteTelemetry

  /** The five counters of a record. */
  datatype Counter = Passes | Failures | Skips | Assertions | Errors

  /** The state of one record, fields in the order of its positional constructor. */
  datatype TelemetryData = TelemetryData(
    files: seq<string>,
    passes: nat,
    failures: nat,
    skips: nat,
    assertions: nat,
    errors: nat,
    startTime: Option<int>,
    stopTime: Option<int>)
  {
    /** The value of counter `c`. */
    function Count(c: Counter): nat {
      match c
      case Passes => passes
      case Failures => failures
      case Skips => skips
      case Assertions => assertions
      case Errors => errors
    }

    /** `tests`: the number of tests that ran, whatever their outcome. */
    function Tests(): nat {
      passes + failures + skips
    }

    /** `elapsed_time`: the interval from start to stop, which exists only
        once both timestamps are set. A stop before the start is not
        rejected: the interval is then negative. */
    function ElapsedTime(): (r: Result<int, Error>)
      ensures r.Ok? <==> startTime.Some? && stopTime.Some?
      ensures r.Err? ==> r.error == MissingTimestamp
      ensures r.Ok? ==> startTime.value + r.value == stopTime.value
    {
      if startTime.Some? && stopTime.Some? then
        Ok(stopTime.value - startTime.value)
      else
        Err(MissingTimestamp)
    }

    /** `passed?`: no test failed and no error was raised; skips do not matter. */
    predicate IsPassed() {
      failures == 0 && errors == 0
    }

    /** `failed?`: stated on its own, not as the negation of `passed?`. */
    predicate IsFailed() {
      failures > 0 || errors > 0
    }
  }

  /** A freshly built record: no files, every counter zero, no timestamps. */
  const Empty := TelemetryData([], 0, 0, 0, 0, 0, None, None)

  /** `passed?` and `failed?` partition every record. */
  lemma PassedExactlyWhenNotFailed(d: TelemetryData)
    ensures d.IsPassed() <==> !d.IsFailed()
  {
  }

  /** The events a test run reports to its record, one per recording call. */
  datatype Event =
    | FileExecuted(path: string)
    | TestPassed
    | TestFailed
    | TestSkipped
    | ErrorRaised
    | Asserted

  /** The counter an event increments, if any. */
  function Increments(e: Event): (r: Option<Counter>)
    ensures r.None? <==> e.FileExecuted?
  {
    match e
    case FileExecuted(_) => None
    case TestPassed => Some(Passes)
    case TestFailed => Some(Failures)
    case TestSkipped => Some(Skips)
    case ErrorRaised => Some(Errors)
    case Asserted => Some(Assertions)
  }

  /** The effect of one recording call: `file_executed` appends the path,
      every other call adds one to its own counter. */
  function Record(d: TelemetryData, e: Event): TelemetryData {
    match e
    case FileExecuted(path) => d.(files := d.files + [path])
    case TestPassed => d.(passes := d.passes + 1)
    case TestFailed => d.(failures := d.failures + 1)
    case TestSkipped => d.(skips := d.skips + 1)
    case ErrorRaised => d.(errors := d.errors + 1)
    case Asserted => d.(assertions := d.assertions + 1)
  }

  /** The record after the events `evs`, in order. */
  function Replay(d: TelemetryData, evs: seq<Event>): TelemetryData
    decreases |evs|
  {
    if evs == [] then d else Replay(Record(d, evs[0]), evs[1..])
  }

  /** How many of the events `evs` increment counter `c`. */
  function Occurrences(evs: seq<Event>, c: Counter): nat
    decreases |evs|
  {
    if evs == [] then 0
    else (if Increments(evs[0]) == Some(c) then 1 else 0) + Occurrences(evs[1..], c)
  }

  /** The paths of the `file_executed` events among `evs`, in order. */
  function PathsOf(evs: seq<Event>): seq<string>
    decreases |evs|
  {
    if evs == [] then []
    else (if evs[0].FileExecuted? then [evs[0].path] else []) + PathsOf(evs[1..])
  }

  /** One recording call changes exactly one field: the file list grows by
      the executed path, or the event's counter grows by one. */
  lemma RecordChangesOneField(d: TelemetryData, e: Event)
    ensures Record(d, e).files == d.files + PathsOf([e])
    ensures forall c :: Record(d, e).Count(c) == d.Count(c) + Occurrences([e], c)
    ensures Record(d, e).startTime == d.startTime && Record(d, e).stopTime == d.stopTime
  {
  }

  /** Each counter equals its starting value plus the number of events that
      increment it, and the file list grows by exactly the executed paths:
      counters are independent and additive, and nothing is deduplicated. */
  lemma {:induction false} ReplayCounts(d: TelemetryData, evs: seq<Event>)
    ensures forall c :: Replay(d, evs).Count(c) == d.Count(c) + Occurrences(evs, c)
    ensures Replay(d, evs).files == d.files + PathsOf(evs)
    ensures Replay(d, evs).startTime == d.startTime && Replay(d, evs).stopTime == d.stopTime
    decreases |evs|
  {
    if evs != [] {
      RecordChangesOneField(d, evs[0]);
      ReplayCounts(Record(d, evs[0]), evs[1..]);
      assert [evs[0]][1..] == [];
      forall c ensures Occurrences(evs, c) == Occurrences([evs[0]], c) + Occurrences(evs[1..], c) {
      }
      assert PathsOf(evs) == PathsOf([evs[0]]) + PathsOf(evs[1..]);
    }
  }

  /** A fresh record that saw the events `evs` counts as many tests as there
      were passed, failed and skipped events; errors, assertions and files
      do not contribute. */
  lemma ReplayTests(evs: seq<Event>)
    ensures Replay(Empty, evs).Tests()
         == Occurrences(evs, Passes) + Occurrences(evs, Failures) + Occurrences(evs, Skips)
  {
    ReplayCounts(Empty, evs);
    assert Replay(Empty, evs).passes == Replay(Empty, evs).Count(Passes);
    assert Replay(Empty, evs).failures == Replay(Empty, evs).Count(Failures);
    assert Replay(Empty, evs).skips == Replay(Empty, evs).Count(Skips);
  }

  /** Once a record has failed, no further recording call makes it pass. */
  lemma FailedIsPermanent(d: TelemetryData, evs: seq<Event>)
    requires d.IsFailed()
    ensures Replay(d, evs).IsFailed()
  {
    ReplayCounts(d, evs);
    assert Replay(d, evs).failures == d.Count(Failures) + Occurrences(evs, Failures);
    assert Replay(d, evs).errors == d.Count(Errors) + Occurrences(evs, Errors);
  }

  /** No event among `evs` increments counter `c` exactly when `c` is not
      incremented by any single one of them. */
  lemma {:induction false} OccurrencesZero(evs: seq<Event>, c: Counter)
    ensures Occurrences(evs, c) == 0 <==> forall i | 0 <= i < |evs| :: Increments(evs[i]) != Some(c)
    decreases |evs|
  {
    if evs != [] {
      OccurrencesZero(evs[1..], c);
      assert forall i | 1 <= i < |evs| :: evs[i] == evs[1..][i - 1];
    }
  }

  /** A fresh record passes exactly when no test failed and no error was
      raised among the recorded events. */
  lemma PassedExactlyWithoutFailureEvents(evs: seq<Event>)
    ensures Replay(Empty, evs).IsPassed()
        <==> forall i | 0 <= i < |evs| :: evs[i] != TestFailed && evs[i] != ErrorRaised
  {
    ReplayCounts(Empty, evs);
    OccurrencesZero(evs, Failures);
    OccurrencesZero(evs, Errors);
    assert Replay(Empty, evs).failures == Occurrences(evs, Failures);
    assert Replay(Empty, evs).errors == Occurrences(evs, Errors);
    assert forall e :: Increments(e) == Some(Failures) <==> e == TestFailed;
    assert forall e :: Increments(e) == Some(Errors) <==> e == ErrorRaised;
  }

  /** The mutable record a test run updates in place. */
  class TelemetryRecord {
    var files: seq<string>
    var passes: nat
    var failures: nat
    var skips: nat
    var assertions: nat
    var errors: nat
    var startTime: Option<int>
    var stopTime: Option<int>

    /** The record's current state as a value. */
    function Value(): TelemetryData
      reads this
    {
      TelemetryData(files, passes, failures, skips, assertions, errors, startTime, stopTime)
    }

    /** `Telemetry.build`: an empty record. */
    constructor Build()
      ensures Value() == Empty
    {
      files, passes, failures, skips, assertions, errors := [], 0, 0, 0, 0, 0;
      startTime, stopTime := None, None;
    }

    /** `Telemetry.new(files, passes, failures, skips, assertions, errors,
        start_time, stop_time)`: a record rebuilt from given values. */
    constructor (files: seq<string>, passes: nat, failures: nat, skips: nat,
                 assertions: nat, errors: nat, startTime: Option<int>, stopTime: Option<int>)
      ensures Value() == TelemetryData(files, passes, failures, skips, assertions, errors, startTime, stopTime)
    {
      this.files, this.passes, this.failures := files, passes, failures;
      this.skips, this.assertions, this.errors := skips, assertions, errors;
      this.startTime, this.stopTime := startTime, stopTime;
    }

    /** `file_executed(path)`. */
    method FileExecuted(path: string)
      modifies this
      ensures Value() == Record(old(Value()), Event.FileExecuted(path))
    {
      files := files + [path];
    }

    /** `test_passed`. */
    method TestPassed()
      modifies this
      ensures Value() == Record(old(Value()), Event.TestPassed)
    {
      passes := passes + 1;
    }

    /** `test_failed`. */
    method TestFailed()
      modifies this
      ensures Value() == Record(old(Value()), Event.TestFailed)
    {
      failures := failures + 1;
    }

    /** `test_skipped`. */
    method TestSkipped()
      modifies this
      ensures Value() == Record(old(Value()), Event.TestSkipped)
    {
      skips := skips + 1;
    }

    /** `error_raised`. */
    method ErrorRaised()
      modifies this
      ensures Value() == Record(old(Value()), Event.ErrorRaised)
    {
      errors := errors + 1;
    }

    /** `asserted`. */
    method Asserted()
      modifies this
      ensures Value() == Record(old(Value()), Event.Asserted)
    {
      assertions := assertions + 1;
    }

    /** The attribute writer `passes=`. */
    method SetPasses(n: nat)
      modifies this
      ensures Value() == old(Value()).(passes := n)
    {
      passes := n;
    }

    /** The attribute writer `failures=`. */
    method SetFailures(n: nat)
      modifies this
      ensures Value() == old(Value()).(failures := n)
    {
      failures := n;
    }

    /** The attribute writer `skips=`. */
    method SetSkips(n: nat)
      modifies this
      ensures Value() == old(Value()).(skips := n)
    {
      skips := n;
    }

    /** The attribute writer `start_time=`. */
    method SetStartTime(t: int)
      modifies this
      ensures Value() == old(Value()).(startTime := Some(t))
    {
      startTime := Some(t);
    }

    /** The attribute writer `stop_time=`. */
    method SetStopTime(t: int)
      modifies this
      ensures Value() == old(Value()).(stopTime := Some(t))
    {
      stopTime := Some(t);
    }
  }
}
