/** Canned telemetry records for tests (`TestBench::Controls::Telemetry`):
    a record for one file that passed, one that failed and one that raised
    an error, the record expected from merging those three, and the
    snapshot of the default example. */
module Controls {
  import opened Wrappers
  import opened Telemetry
  import opened Merging
  import opened Serialization

  /** The clock fixture's start instant, in microseconds. The clock fixture
      itself is not part of this model; any instant on the snapshot grid
      serves. */
  const T0: int := 946_684_800_000_000

  /** The clock fixture's interval, one minute and 1.111 seconds
      (`"1m1.111s"`), in microseconds. */
  const ElapsedMicroseconds: int := 61_111_000

  /** The clock fixture's stop instant. */
  const T1: int := T0 + ElapsedMicroseconds

  /** Stands for `Path.example`, the default file name, which is not part of
      this model. */
  const DefaultPath: string := "some/path.rb"

  /** `Telemetry.example(file, failures:, errors:)`: one file, one pass, one
      skip, eleven assertions, the clock fixture's window; an omitted file,
      failure count or error count takes its default. */
  function Example(file: Option<string>, failures: Option<nat>, errors: Option<nat>): TelemetryData {
    TelemetryData(
      [if file.Some? then file.value else DefaultPath],
      1,
      if failures.Some? then failures.value else 1,
      1,
      11,
      if errors.Some? then errors.value else 1,
      Some(T0),
      Some(T1))
  }

  /** `Telemetry.data(file)`: the snapshot of the default example, with
      timestamps written to five fractional digits. */
  function Data(file: Option<string>): Snapshot {
    Snapshot(
      [if file.Some? then file.value else DefaultPath],
      1, 1, 1, 11, 1,
      Truncate(T0), Truncate(T1))
  }

  const PassedFile: string := "pass.rb"
  const FailedFile: string := "fail.rb"
  const ErrorFile: string := "error.rb"

  /** `Passed.example`: no failures, no errors. */
  const PassedExample := Example(Some(PassedFile), Some(0), Some(0))

  /** `Failed.example`: one failure, no errors. */
  const FailedExample := Example(Some(FailedFile), Some(1), Some(0))

  /** `Error.example`: no failures, one error. */
  const ErrorExample := Example(Some(ErrorFile), Some(0), Some(1))

  /** `Merged.first`, `Merged.second`, `Merged.third`. */
  const MergedFirst := PassedExample
  const MergedSecond := FailedExample
  const MergedThird := ErrorExample

  /** `Merged.example`: the three files in order, the counters summed, and
      the window they all share. */
  const MergedExample := TelemetryData([PassedFile, FailedFile, ErrorFile], 3, 1, 3, 33, 1, Some(T0), Some(T1))

  /** The example has exactly one file (the given one, or the default path),
      one pass, one skip and eleven assertions, and runs from `T0` to `T1`.
      A given failure or error count is kept as it is, zero included;
      an omitted one is one, so without explicit counts it has failed. */
  lemma ExampleShape(file: Option<string>, failures: Option<nat>, errors: Option<nat>)
    ensures |Example(file, failures, errors).files| == 1
    ensures file.Some? ==> Example(file, failures, errors).files == [file.value]
    ensures file.None? ==> Example(file, failures, errors).files == [DefaultPath]
    ensures Example(file, failures, errors).passes == 1 && Example(file, failures, errors).skips == 1
    ensures Example(file, failures, errors).assertions == 11
    ensures Example(file, failures, errors).Tests() == 2 + Example(file, failures, errors).failures
    ensures Example(file, failures, errors).startTime == Some(T0)
    ensures Example(file, failures, errors).stopTime == Some(T1)
    ensures Example(file, failures, errors).ElapsedTime() == Ok(ElapsedMicroseconds)
    ensures failures.Some? ==> Example(file, failures, errors).failures == failures.value
    ensures errors.Some? ==> Example(file, failures, errors).errors == errors.value
    ensures failures.None? ==> Example(file, failures, errors).failures == 1
    ensures errors.None? ==> Example(file, failures, errors).errors == 1
    ensures failures.None? && errors.None? ==> Example(file, failures, errors).IsFailed()
  {
  }

  /** The passed, failed and error examples differ only in their file name
      and in their (failures, errors) pair: (0, 0), (1, 0) and (0, 1). */
  lemma ExamplesDifferOnlyInFileAndOutcome()
    ensures FailedExample == PassedExample.(files := [FailedFile], failures := 1)
    ensures ErrorExample == PassedExample.(files := [ErrorFile], errors := 1)
    ensures (PassedExample.failures, PassedExample.errors) == (0, 0)
  {
  }

  /** `passed?` holds only of the passed example, and `failed?` of the
      failed and error examples: on each, exactly one of the two holds. */
  lemma ExamplesClassified()
    ensures PassedExample.IsPassed() && !FailedExample.IsPassed() && !ErrorExample.IsPassed()
    ensures ErrorExample.IsFailed() && FailedExample.IsFailed() && !PassedExample.IsFailed()
  {
  }

  /** Merging first, second and third gives the merged example. */
  lemma MergedExampleIsMerge()
    ensures Merge([MergedFirst, MergedSecond, MergedThird]) == Ok(MergedExample)
  {
    var rs := [MergedFirst, MergedSecond, MergedThird];
    assert rs[1..] == [MergedSecond, MergedThird];
    assert rs[1..][1..] == [MergedThird];
    var rest := TelemetryData([FailedFile, ErrorFile], 2, 1, 2, 22, 1, Some(T0), Some(T1));
    assert [FailedFile] + [ErrorFile] == [FailedFile, ErrorFile];
    assert Earliest(Some(T0), Some(T0)) == Ok(Some(T0)) && Latest(Some(T1), Some(T1)) == Ok(Some(T1));
    assert Merge(rs[1..]) == Combine(MergedSecond, MergedThird) == Ok(rest);
    assert Merge(rs) == Combine(MergedFirst, rest);
    assert [PassedFile] + [FailedFile, ErrorFile] == [PassedFile, FailedFile, ErrorFile];
  }

  /** The default data snapshot carries the same eight values as the default
      example, in the same order: it is that example's snapshot, and reading
      it back gives the example again. */
  lemma DataIsExampleSnapshot(file: Option<string>)
    ensures Serialize(Example(file, None, None)) == Ok(Data(file))
    ensures Deserialize(Data(file)) == Example(file, None, None)
  {
  }
}
