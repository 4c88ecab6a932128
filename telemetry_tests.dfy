/** The behaviour the `Telemetry` unit tests exercise, stated for every input
    instead of one sample: each method builds a record, drives it through
    the recording calls of one test and returns what that test inspects. */
module TelemetryTests {
  import opened Wrappers
  import opened Telemetry
  import opened Controls

  /** Recording an executed file leaves exactly that file in a new record. */
  method RecordFileExecuted(path: string) returns (files: seq<string>)
    ensures files == [path]
    ensures path in files
  {
    var telemetry := new TelemetryRecord.Build();
    telemetry.FileExecuted(path);
    files := telemetry.files;
  }

  /** A new record counts one pass after one passed test. */
  method RecordTestPassed() returns (passes: nat)
    ensures passes == 1
  {
    var telemetry := new TelemetryRecord.Build();
    telemetry.TestPassed();
    passes := telemetry.passes;
  }

  /** A new record counts one failure after one failed test. */
  method RecordTestFailed() returns (failures: nat)
    ensures failures == 1
  {
    var telemetry := new TelemetryRecord.Build();
    telemetry.TestFailed();
    failures := telemetry.failures;
  }

  /** A new record counts one error after one raised error. */
  method RecordErrorRaised() returns (errors: nat)
    ensures errors == 1
  {
    var telemetry := new TelemetryRecord.Build();
    telemetry.ErrorRaised();
    errors := telemetry.errors;
  }

  /** A new record counts one skip after one skipped test. */
  method RecordTestSkipped() returns (skips: nat)
    ensures skips == 1
  {
    var telemetry := new TelemetryRecord.Build();
    telemetry.TestSkipped();
    skips := telemetry.skips;
  }

  /** A new record counts one assertion after one assertion. */
  method RecordAsserted() returns (assertions: nat)
    ensures assertions == 1
  {
    var telemetry := new TelemetryRecord.Build();
    telemetry.Asserted();
    assertions := telemetry.assertions;
  }

  /** With the failures, passes and skips assigned, `tests` is their sum
      (1, 2 and 3 give 6); the record's errors and assertions play no part. */
  method CalculateTests(failures: nat, passes: nat, skips: nat) returns (tests: nat)
    ensures tests == failures + passes + skips
    ensures failures == 1 && passes == 2 && skips == 3 ==> tests == 6
  {
    var telemetry := new TelemetryRecord.Build();
    telemetry.SetFailures(failures);
    telemetry.SetPasses(passes);
    telemetry.SetSkips(skips);
    tests := telemetry.Value().Tests();
  }

  /** Once start and stop times are assigned, the elapsed time is their
      difference; the clock fixture's window gives 61.111 seconds. */
  method CalculateElapsedTime(t0: int, t1: int) returns (elapsed: Result<int, Error>)
    ensures elapsed == Ok(t1 - t0)
    ensures t0 == T0 && t1 == T1 ==> elapsed == Ok(ElapsedMicroseconds)
  {
    var telemetry := new TelemetryRecord.Build();
    telemetry.SetStartTime(t0);
    telemetry.SetStopTime(t1);
    elapsed := telemetry.Value().ElapsedTime();
  }

  /** A new record has no elapsed time until both timestamps are assigned. */
  method ElapsedTimeNeedsBothTimestamps(t0: int) returns (before: Result<int, Error>, onlyStart: Result<int, Error>)
    ensures before == Err(MissingTimestamp)
    ensures onlyStart == Err(MissingTimestamp)
  {
    var telemetry := new TelemetryRecord.Build();
    before := telemetry.Value().ElapsedTime();
    telemetry.SetStartTime(t0);
    onlyStart := telemetry.Value().ElapsedTime();
  }
}
