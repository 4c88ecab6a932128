# Test-run telemetry of TestBench, in Dafny

This project models the telemetry record of the TestBench test framework
(`TestBench::Telemetry`): the list of executed test files, the counters of
passed, failed and skipped tests, assertions and raised errors, and the
start and stop times of a run. It also models the derived queries (`tests`,
`elapsed_time`, `passed?`, `failed?`), the merge of several records into
one, the serialized snapshot, and the canned records of
`TestBench::Controls::Telemetry`.

The implementation of `TestBench::Telemetry` itself is not part of this
model. Its behaviour is taken from its unit tests (`tests/telemetry.rb`) and
from the fixtures that give a merged record and a snapshot
(`lib/test_bench/controls/telemetry.rb`).

Files:

- `wrappers.dfy`: `Option` (Ruby's `nil`) and `Result` (an error value where Ruby would raise).
- `telemetry.dfy`: `TelemetryData` is the record as a value and carries the queries.
  `Event`, `Record` and `Replay` describe what recording calls do.
  The class `TelemetryRecord` is the mutable record; each method is proved against `Record` or a field update.
- `merging.dfy`: `Merge` over a non-empty sequence of records.
  It is proved against reference definitions: concatenated files, summed counters, earliest start, latest stop.
- `serialization.dfy`: the eight-field `Snapshot`, `Serialize` and `Deserialize`, and their round trips.
- `controls.dfy`: the fixtures as constants and functions, with lemmas that they behave as the tests expect.
- `telemetry_tests.dfy`: each recording, `tests` and `elapsed_time` unit test as a method that drives a `TelemetryRecord`, generalised from the test's sample values to all inputs.
  The pass/fail tests run on the fixtures and are the lemma `Controls.ExamplesClassified` in `controls.dfy`.

Timestamps are integers counting microseconds.
A snapshot writes them with five fractional digits of a second (`iso8601(5)`), so it keeps them to ten microseconds.
`Truncate` rounds a timestamp down to that grid.

Choices where the tests and fixtures say nothing:

- `Telemetry.new` with no arguments (tests/telemetry.rb:53) is modelled like `Telemetry.build`: every counter zero, no files, no timestamps.
- `elapsed_time` on a record missing a timestamp returns `Err(MissingTimestamp)`. A stop time before the start time gives a negative interval and is not rejected.
- `passed?` and `failed?` are two independent conditions. `Telemetry.PassedExactlyWhenNotFailed` proves they partition every record.
- Merge: two records that disagree on whether a start time (or a stop time) is set give `Err(IncompleteTelemetry)`. Records that agree merge to the earliest start and the latest stop. The merged fixture only shows records sharing one start and one stop time, so this rule for differing times goes beyond what it pins down.
- `Serialization.Serialize` stands for the record's serializer, whose Ruby code is not part of this model. It chooses that serializing a record without both timestamps gives `Err(MissingTimestamp)`, since the snapshot's timestamps are always written.
- Ruby's `Time` keeps sub-microsecond precision; `iso8601(5)` at lib/test_bench/controls/telemetry.rb:31-32 keeps ten microseconds.

## Model

| member | source | states |
|---|---|---|
| `Telemetry.TelemetryData.ElapsedTime` | tests/telemetry.rb:62-73 | `elapsed_time` is defined exactly when both timestamps are set, and start plus elapsed time equals stop; otherwise it is `MissingTimestamp` |
| `Telemetry.TelemetryData.Tests` | tests/telemetry.rb:52-60 | `tests` is the number of tests that ran; its property is carried by `Telemetry.ReplayTests`, `Merging.MergeTests` and `TelemetryTests.CalculateTests` |
| `Telemetry.TelemetryData.IsPassed` | tests/telemetry.rb:80-84 | `passed?`: no failures and no errors; its property is carried by `Telemetry.PassedExactlyWhenNotFailed`, `Telemetry.PassedExactlyWithoutFailureEvents` and `Controls.ExamplesClassified` |
| `Telemetry.TelemetryData.IsFailed` | tests/telemetry.rb:86-90 | `failed?`: some failure or some error, stated on its own; its property is carried by `Telemetry.PassedExactlyWhenNotFailed`, `Telemetry.FailedIsPermanent` and `Controls.ExamplesClassified` |
| `Telemetry.PassedExactlyWhenNotFailed` | tests/telemetry.rb:75-90 | on every record exactly one of `passed?` and `failed?` holds |
| `Telemetry.RecordChangesOneField` | tests/telemetry.rb:4-50 | one recording call changes exactly one field: `file_executed` appends its path, every other call adds one to its own counter, timestamps stay |
| `Telemetry.ReplayCounts` | tests/telemetry.rb:4-50 | after any sequence of recording calls each counter equals its start value plus the number of calls that increment it, and the files are the old files plus every executed path in order |
| `Telemetry.ReplayTests` | tests/telemetry.rb:52-60 | on a new record `tests` counts the passed, failed and skipped events; errors, assertions and files add nothing |
| `Telemetry.FailedIsPermanent` | tests/telemetry.rb:86-90 | a record that has failed still fails after any further recording calls |
| `Telemetry.PassedExactlyWithoutFailureEvents` | tests/telemetry.rb:75-84 | a new record passes exactly when none of its events is a failed test or a raised error |
| `Telemetry.TelemetryRecord.Build` | tests/telemetry.rb:5 | `Telemetry.build` makes a record with no files, all counters zero and no timestamps |
| `Telemetry.TelemetryRecord.constructor` | lib/test_bench/controls/telemetry.rb:9-18 | positional construction sets files, passes, failures, skips, assertions, errors, start_time, stop_time in that order |
| `Telemetry.TelemetryRecord.FileExecuted` | tests/telemetry.rb:7-9 | `file_executed(path)` appends `path` to `files` and changes nothing else |
| `Telemetry.TelemetryRecord.TestPassed` | tests/telemetry.rb:15-17 | `test_passed` adds one to `passes` and changes nothing else |
| `Telemetry.TelemetryRecord.TestFailed` | tests/telemetry.rb:23-25 | `test_failed` adds one to `failures` and changes nothing else |
| `Telemetry.TelemetryRecord.ErrorRaised` | tests/telemetry.rb:31-33 | `error_raised` adds one to `errors` and changes nothing else |
| `Telemetry.TelemetryRecord.TestSkipped` | tests/telemetry.rb:39-41 | `test_skipped` adds one to `skips` and changes nothing else |
| `Telemetry.TelemetryRecord.Asserted` | tests/telemetry.rb:47-49 | `asserted` adds one to `assertions` and changes nothing else |
| `Telemetry.TelemetryRecord.SetFailures` | tests/telemetry.rb:55 | `failures=` assigns `failures` only |
| `Telemetry.TelemetryRecord.SetPasses` | tests/telemetry.rb:56 | `passes=` assigns `passes` only |
| `Telemetry.TelemetryRecord.SetSkips` | tests/telemetry.rb:57 | `skips=` assigns `skips` only |
| `Telemetry.TelemetryRecord.SetStartTime` | tests/telemetry.rb:69 | `start_time=` sets the start time only |
| `Telemetry.TelemetryRecord.SetStopTime` | tests/telemetry.rb:70 | `stop_time=` sets the stop time only |
| `Merging.Earliest` | lib/test_bench/controls/telemetry.rb:52 | two start times merge to one of them that is no later than either; set and unset do not merge |
| `Merging.Latest` | lib/test_bench/controls/telemetry.rb:53 | two stop times merge to one of them that is no earlier than either; set and unset do not merge |
| `Merging.Combine` | lib/test_bench/controls/telemetry.rb:55-64 | two records merge exactly when they agree on which timestamps are set; the result's files are the first's then the second's, its `tests` is the sum of theirs, and it passes exactly when both passed |
| `Merging.Merge` | lib/test_bench/controls/telemetry.rb:48-77 | the only way a merge fails is `IncompleteTelemetry` |
| `Merging.MergeSucceedsIffAgree` | lib/test_bench/controls/telemetry.rb:52-53 | a merge succeeds exactly when every input or no input has a start time, and likewise for stop times |
| `Merging.MergeConcatenatesFiles` | lib/test_bench/controls/telemetry.rb:50 | the merged files are all the inputs' files in input order |
| `Merging.MergeSumsCounters` | lib/test_bench/controls/telemetry.rb:55-61 | each merged counter is the sum of that counter over the inputs |
| `Merging.MergeTakesEarliestStart` | lib/test_bench/controls/telemetry.rb:52 | the merged start time is one of the inputs' start times and no later than any of them |
| `Merging.MergeTakesLatestStop` | lib/test_bench/controls/telemetry.rb:53 | the merged stop time is one of the inputs' stop times and no earlier than any of them |
| `Merging.MergeOfOne` | lib/test_bench/controls/telemetry.rb:48-65 | one record merges to an equal copy of itself |
| `Merging.MergePassed` | lib/test_bench/controls/telemetry.rb:48-77 | the merge passes exactly when every input passed and fails exactly when some input failed |
| `Merging.MergeTests` | lib/test_bench/controls/telemetry.rb:57-59 | the merge's `tests` is the total of passes, failures and skips over the inputs |
| `Merging.MergeSpansEveryInput` | lib/test_bench/controls/telemetry.rb:62-63 | the merge's elapsed time is at least the elapsed time of every input |
| `Merging.CombineAssociative` | lib/test_bench/controls/telemetry.rb:48-65 | merging two records is associative, failures included |
| `Merging.MergeInGroups` | lib/test_bench/controls/telemetry.rb:48-77 | merging in two groups and then merging the results equals merging everything at once |
| `Serialization.Truncate` | lib/test_bench/controls/telemetry.rb:31-32 | a written timestamp is the grid point of ten microseconds at or just below the timestamp |
| `Serialization.Serialize` | lib/test_bench/controls/telemetry.rb:21-34 | a snapshot exists exactly when both timestamps are set, otherwise `MissingTimestamp`; each snapshot field (files, passes, failures, skips, assertions, errors) holds the record field of the same name, and its timestamps are the record's truncated to the grid; through `Serialization.SnapshotRoundTrip` this fixes `Deserialize`'s field mapping too |
| `Serialization.Deserialize` | lib/test_bench/controls/telemetry.rb:21-34 | a record read from a snapshot has both timestamps set |
| `Serialization.RecordRoundTrip` | lib/test_bench/controls/telemetry.rb:21-34 | reading a snapshot back restores every field, timestamps truncated to the grid; the record is unchanged exactly when its timestamps are on the grid |
| `Serialization.SnapshotRoundTrip` | lib/test_bench/controls/telemetry.rb:21-34 | a snapshot survives reading and writing exactly when its timestamps are on the grid |
| `Serialization.SerializeStable` | lib/test_bench/controls/telemetry.rb:31-32 | writing out a read-back snapshot reproduces it |
| `Controls.Example` | lib/test_bench/controls/telemetry.rb:4-19 | `Telemetry.example`; its shape is carried by `Controls.ExampleShape` |
| `Controls.Data` | lib/test_bench/controls/telemetry.rb:21-34 | `Telemetry.data`; that it is the default example's snapshot is carried by `Controls.DataIsExampleSnapshot` |
| `Controls.PassedExample` | lib/test_bench/controls/telemetry.rb:100-103 | `Passed.example`: the example for `pass.rb` with no failures and no errors; checked by `Controls.ExamplesDifferOnlyInFileAndOutcome` and `Controls.ExamplesClassified` |
| `Controls.FailedExample` | lib/test_bench/controls/telemetry.rb:90-93 | `Failed.example`: the example for `fail.rb` with one failure and no errors; checked by `Controls.ExamplesDifferOnlyInFileAndOutcome` and `Controls.ExamplesClassified` |
| `Controls.ErrorExample` | lib/test_bench/controls/telemetry.rb:80-83 | `Error.example`: the example for `error.rb` with no failures and one error; checked by `Controls.ExamplesDifferOnlyInFileAndOutcome` and `Controls.ExamplesClassified` |
| `Controls.MergedFirst` | lib/test_bench/controls/telemetry.rb:67-69 | `Merged.first` is the passed example; checked by `Controls.MergedExampleIsMerge` |
| `Controls.MergedSecond` | lib/test_bench/controls/telemetry.rb:71-73 | `Merged.second` is the failed example; checked by `Controls.MergedExampleIsMerge` |
| `Controls.MergedThird` | lib/test_bench/controls/telemetry.rb:75-77 | `Merged.third` is the error example; checked by `Controls.MergedExampleIsMerge` |
| `Controls.MergedExample` | lib/test_bench/controls/telemetry.rb:48-65 | `Merged.example`: the three files in order, 3 passes, 1 failure, 3 skips, 33 assertions, 1 error, window `T0` to `T1`; `Controls.MergedExampleIsMerge` proves it is the merge of first, second and third |
| `Controls.ExampleShape` | lib/test_bench/controls/telemetry.rb:4-19 | the example has the given file or else the default path, one pass, one skip, eleven assertions, start `T0` and stop `T1`; a given failure or error count is kept (zero included) and an omitted one is one |
| `Controls.ExamplesDifferOnlyInFileAndOutcome` | lib/test_bench/controls/telemetry.rb:80-108 | the passed, failed and error examples differ only in file and in (failures, errors) = (0,0), (1,0), (0,1) |
| `Controls.ExamplesClassified` | tests/telemetry.rb:75-90 | `passed?` holds of the passed example only, `failed?` of the failed and error examples only |
| `Controls.MergedExampleIsMerge` | lib/test_bench/controls/telemetry.rb:48-77 | merging first, second and third gives the merged example |
| `Controls.DataIsExampleSnapshot` | lib/test_bench/controls/telemetry.rb:21-34 | the data snapshot is the default example's snapshot, same eight values in order, and reads back to the example |
| `TelemetryTests.RecordFileExecuted` | tests/telemetry.rb:4-10 | after `file_executed(path)` a new record's files are exactly `[path]` |
| `TelemetryTests.RecordTestPassed` | tests/telemetry.rb:12-18 | after `test_passed` a new record has one pass |
| `TelemetryTests.RecordTestFailed` | tests/telemetry.rb:20-26 | after `test_failed` a new record has one failure |
| `TelemetryTests.RecordErrorRaised` | tests/telemetry.rb:28-34 | after `error_raised` a new record has one error |
| `TelemetryTests.RecordTestSkipped` | tests/telemetry.rb:36-42 | after `test_skipped` a new record has one skip |
| `TelemetryTests.RecordAsserted` | tests/telemetry.rb:44-50 | after `asserted` a new record has one assertion |
| `TelemetryTests.CalculateTests` | tests/telemetry.rb:52-60 | with failures, passes and skips assigned, `tests` is their sum; 1, 2, 3 give 6 |
| `TelemetryTests.CalculateElapsedTime` | tests/telemetry.rb:62-73 | with start and stop assigned, the elapsed time is stop minus start; the fixture window gives 61.111 s |
| `TelemetryTests.ElapsedTimeNeedsBothTimestamps` | tests/telemetry.rb:62-73 | before both timestamps are assigned the elapsed time is `MissingTimestamp` |

## Left out

- lib/test_bench/test_bench.rb: activation, settings-driven module selection, runner lookup and output wiring are global configuration and reflection, not telemetry logic.
- The JSON text of the snapshot and the ISO-8601 text of its timestamps: the snapshot is a structured value with integer timestamps, and only the five-digit truncation is kept.
- Parsing a snapshot from text, and its failure on a malformed or incomplete snapshot: the structured snapshot always has all eight fields.
- The elapsed time's unit and rendering: the test compares `elapsed_time` with a number of seconds from the clock fixture, while the model gives integer microseconds. The formatter behind the fixture string `"1m1.111s"` is not part of this model.
- `Path.example` and `Clock::Elapsed` are not part of this model: `Controls.DefaultPath` and `Controls.T0` are placeholder values, and `T1` is `T0` plus 61.111 seconds. `T0` is chosen on the ten-microsecond grid; the second half of `Controls.DataIsExampleSnapshot` (reading the data snapshot back gives the example) holds only for such a start instant.
- The attribute writers the tests do not use (`files=`, `assertions=`, `errors=`) and clearing a timestamp back to `nil`.
- The test DSL (`context`, `test`, `assert`), the `Telemetry.toplevel` singleton and its `output`.
- Concurrent use of one record: each record is updated by a single caller.
- A partial record, for example an aborted run with no stop time, has no snapshot in this model: `Serialization.Serialize` gives `Err(MissingTimestamp)` for it.
