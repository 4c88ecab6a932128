/** Merging the records of several runs (for example one per parallel
    worker) into one fresh record: file lists are concatenated in input
    order, counters are summed, and the time window is the earliest start
    to the latest stop. Inputs that disagree on whether a timestamp is set
    cannot be merged. The merged fixture only shows inputs that share one
    window, where the earliest start and latest stop are that window's own
    (`Controls.MergedExampleIsMerge`); the rule for differing windows and for
    mixed unset timestamps goes beyond it. */
module Merging {
  import opened Wrappers
  import opened Telemetry

  /** The earlier of two start times; unset only when both are unset. */
  function Earliest(a: Option<int>, b: Option<int>): (r: Result<Option<int>, Error>)
    ensures r.Ok? <==> a.Some? == b.Some?
    ensures r.Ok? && a.Some? ==> r.value.Some? && r.value.value <= a.value && r.value.value <= b.value
    ensures r.Ok? && a.Some? ==> r.value == a || r.value == b
    ensures r.Ok? && a.None? ==> r.value.None?
  {
    match (a, b)
    case (None, None) => Ok(None)
    case (Some(x), Some(y)) => Ok(Some(if x <= y then x else y))
    case _ => Err(IncompleteTelemetry)
  }

  /** The later of two stop times; unset only when both are unset. */
  function Latest(a: Option<int>, b: Option<int>): (r: Result<Option<int>, Error>)
    ensures r.Ok? <==> a.Some? == b.Some?
    ensures r.Ok? && a.Some? ==> r.value.Some? && a.value <= r.value.value && b.value <= r.value.value
    ensures r.Ok? && a.Some? ==> r.value == a || r.value == b
    ensures r.Ok? && a.None? ==> r.value.None?
  {
    match (a, b)
    case (None, None) => Ok(None)
    case (Some(x), Some(y)) => Ok(Some(if x >= y then x else y))
    case _ => Err(IncompleteTelemetry)
  }

  /** The merge of two records, `a` first. */
  function Combine(a: TelemetryData, b: TelemetryData): (r: Result<TelemetryData, Error>)
    ensures r.Ok? <==> a.startTime.Some? == b.startTime.Some? && a.stopTime.Some? == b.stopTime.Some?
    ensures r.Ok? ==> r.value.files == a.files + b.files
    ensures r.Ok? ==> r.value.Tests() == a.Tests() + b.Tests()
    ensures r.Ok? ==> (r.value.IsPassed() <==> a.IsPassed() && b.IsPassed())
  {
    match (Earliest(a.startTime, b.startTime), Latest(a.stopTime, b.stopTime))
    case (Ok(start), Ok(stop)) =>
      Ok(TelemetryData(
        a.files + b.files,
        a.passes + b.passes,
        a.failures + b.failures,
        a.skips + b.skips,
        a.assertions + b.assertions,
        a.errors + b.errors,
        start, stop))
    case _ => Err(IncompleteTelemetry)
  }

  /** The merge of a non-empty sequence of records; one record merges to an
      equal copy of itself. */
  function Merge(rs: seq<TelemetryData>): (r: Result<TelemetryData, Error>)
    requires |rs| > 0
    ensures r.Err? ==> r.error == IncompleteTelemetry
    decreases |rs|
  {
    if |rs| == 1 then Ok(rs[0])
    else
      match Merge(rs[1..])
      case Err(e) => Err(e)
      case Ok(rest) => Combine(rs[0], rest)
  }

  // Reference definitions the merge is proved against.

  /** Every input's files, in input order. */
  function AllFiles(rs: seq<TelemetryData>): seq<string>
    decreases |rs|
  {
    if rs == [] then [] else rs[0].files + AllFiles(rs[1..])
  }

  /** The sum of counter `c` over the inputs. */
  function Total(rs: seq<TelemetryData>, c: Counter): nat
    decreases |rs|
  {
    if rs == [] then 0 else rs[0].Count(c) + Total(rs[1..], c)
  }

  /** Either every input has a start time or none has, and likewise for stop times. */
  predicate TimestampsAgree(rs: seq<TelemetryData>) {
    && ((forall i | 0 <= i < |rs| :: rs[i].startTime.Some?) || (forall i | 0 <= i < |rs| :: rs[i].startTime.None?))
    && ((forall i | 0 <= i < |rs| :: rs[i].stopTime.Some?) || (forall i | 0 <= i < |rs| :: rs[i].stopTime.None?))
  }

  /** `t` is the earliest start time among the inputs, or unset when none has one. */
  predicate IsEarliestStart(rs: seq<TelemetryData>, t: Option<int>) {
    && (t.None? <==> forall i | 0 <= i < |rs| :: rs[i].startTime.None?)
    && (t.Some? ==> forall i | 0 <= i < |rs| :: rs[i].startTime.Some? && t.value <= rs[i].startTime.value)
    && (t.Some? ==> exists i | 0 <= i < |rs| :: rs[i].startTime == t)
  }

  /** `t` is the latest stop time among the inputs, or unset when none has one. */
  predicate IsLatestStop(rs: seq<TelemetryData>, t: Option<int>) {
    && (t.None? <==> forall i | 0 <= i < |rs| :: rs[i].stopTime.None?)
    && (t.Some? ==> forall i | 0 <= i < |rs| :: rs[i].stopTime.Some? && rs[i].stopTime.value <= t.value)
    && (t.Some? ==> exists i | 0 <= i < |rs| :: rs[i].stopTime == t)
  }

  /** The merge succeeds exactly when the inputs agree on which timestamps
      are set; otherwise it fails with `IncompleteTelemetry`. */
  lemma {:induction false} MergeSucceedsIffAgree(rs: seq<TelemetryData>)
    requires |rs| > 0
    ensures Merge(rs).Ok? <==> TimestampsAgree(rs)
    decreases |rs|
  {
    if |rs| > 1 {
      var tail := rs[1..];
      assert forall i | 1 <= i < |rs| :: rs[i] == tail[i - 1];
      MergeSucceedsIffAgree(tail);
      if Merge(tail).Ok? {
        MergeTakesEarliestStart(tail);
        MergeTakesLatestStop(tail);
      }
    }
  }

  /** The merge's files are every input's files, in input order. */
  lemma {:induction false} MergeConcatenatesFiles(rs: seq<TelemetryData>)
    requires |rs| > 0 && Merge(rs).Ok?
    ensures Merge(rs).value.files == AllFiles(rs)
    decreases |rs|
  {
    var tail := rs[1..];
    if |rs| == 1 {
      assert tail == [];
    } else {
      MergeConcatenatesFiles(tail);
    }
  }

  /** Each counter of the merge is the sum of that counter over the inputs. */
  lemma {:induction false} MergeSumsCounters(rs: seq<TelemetryData>, c: Counter)
    requires |rs| > 0 && Merge(rs).Ok?
    ensures Merge(rs).value.Count(c) == Total(rs, c)
    decreases |rs|
  {
    var tail := rs[1..];
    if |rs| == 1 {
      assert tail == [];
    } else {
      MergeSumsCounters(tail, c);
    }
  }

  /** The merge starts at the earliest start time among the inputs. */
  lemma {:induction false} MergeTakesEarliestStart(rs: seq<TelemetryData>)
    requires |rs| > 0 && Merge(rs).Ok?
    ensures IsEarliestStart(rs, Merge(rs).value.startTime)
    decreases |rs|
  {
    if |rs| > 1 {
      var tail := rs[1..];
      assert forall i | 1 <= i < |rs| :: rs[i] == tail[i - 1];
      MergeTakesEarliestStart(tail);
      var rest := Merge(tail).value;
      var m := Merge(rs).value;
      assert Earliest(rs[0].startTime, rest.startTime) == Ok(m.startTime);
      if m.startTime.Some? {
        var j :| 0 <= j < |tail| && tail[j].startTime == rest.startTime;
        var k := if m.startTime == rs[0].startTime then 0 else j + 1;
        assert rs[k].startTime == m.startTime;
      }
    }
  }

  /** The merge stops at the latest stop time among the inputs. */
  lemma {:induction false} MergeTakesLatestStop(rs: seq<TelemetryData>)
    requires |rs| > 0 && Merge(rs).Ok?
    ensures IsLatestStop(rs, Merge(rs).value.stopTime)
    decreases |rs|
  {
    if |rs| > 1 {
      var tail := rs[1..];
      assert forall i | 1 <= i < |rs| :: rs[i] == tail[i - 1];
      MergeTakesLatestStop(tail);
      var rest := Merge(tail).value;
      var m := Merge(rs).value;
      assert Latest(rs[0].stopTime, rest.stopTime) == Ok(m.stopTime);
      if m.stopTime.Some? {
        var j :| 0 <= j < |tail| && tail[j].stopTime == rest.stopTime;
        var k := if m.stopTime == rs[0].stopTime then 0 else j + 1;
        assert rs[k].stopTime == m.stopTime;
      }
    }
  }

  /** A single record merges to an equal copy of itself. */
  lemma MergeOfOne(d: TelemetryData)
    ensures Merge([d]) == Ok(d)
  {
  }

  /** The merge passes exactly when every input passed, and fails exactly
      when some input failed. */
  lemma {:induction false} MergePassed(rs: seq<TelemetryData>)
    requires |rs| > 0 && Merge(rs).Ok?
    ensures Merge(rs).value.IsPassed() <==> forall i | 0 <= i < |rs| :: rs[i].IsPassed()
    ensures Merge(rs).value.IsFailed() <==> exists i | 0 <= i < |rs| :: rs[i].IsFailed()
    decreases |rs|
  {
    if |rs| > 1 {
      var tail := rs[1..];
      MergePassed(tail);
      assert forall i | 1 <= i < |rs| :: rs[i] == tail[i - 1];
      if exists i | 0 <= i < |rs| :: rs[i].IsFailed() {
        var i :| 0 <= i < |rs| && rs[i].IsFailed();
        if i > 0 {
          assert tail[i - 1].IsFailed();
        }
      }
    }
  }

  /** The merge counts as many tests as all the inputs together. */
  lemma MergeTests(rs: seq<TelemetryData>)
    requires |rs| > 0 && Merge(rs).Ok?
    ensures Merge(rs).value.Tests() == Total(rs, Passes) + Total(rs, Failures) + Total(rs, Skips)
  {
  }

  /** The merge's elapsed time spans the whole window of all inputs, so it is
      at least the elapsed time of each input. */
  lemma MergeSpansEveryInput(rs: seq<TelemetryData>, i: nat)
    requires |rs| > 0 && Merge(rs).Ok? && i < |rs|
    requires Merge(rs).value.ElapsedTime().Ok?
    ensures rs[i].ElapsedTime().Ok?
    ensures rs[i].ElapsedTime().value <= Merge(rs).value.ElapsedTime().value
  {
    MergeTakesEarliestStart(rs);
    MergeTakesLatestStop(rs);
  }

  /** Combines two merge results: both must have succeeded. */
  function CombineResults(a: Result<TelemetryData, Error>, b: Result<TelemetryData, Error>): Result<TelemetryData, Error> {
    if a.Ok? && b.Ok? then Combine(a.value, b.value) else Err(IncompleteTelemetry)
  }

  /** Combining is associative, failures included. */
  lemma CombineAssociative(x: TelemetryData, y: TelemetryData, z: TelemetryData)
    ensures CombineResults(Ok(x), Combine(y, z)) == CombineResults(Combine(x, y), Ok(z))
  {
    assert (x.files + y.files) + z.files == x.files + (y.files + z.files);
  }

  /** Merging a run's records in two groups and then merging the two results
      gives the same record, or the same failure, as merging them all at once. */
  lemma {:induction false} MergeInGroups(a: seq<TelemetryData>, b: seq<TelemetryData>)
    requires |a| > 0 && |b| > 0
    ensures Merge(a + b) == CombineResults(Merge(a), Merge(b))
    decreases |a|
  {
    if |a| == 1 {
      assert (a + b)[1..] == b;
    } else {
      assert (a + b)[1..] == a[1..] + b;
      MergeInGroups(a[1..], b);
      if Merge(a[1..]).Ok? && Merge(b).Ok? {
        CombineAssociative(a[0], Merge(a[1..]).value, Merge(b).value);
      }
    }
  }
}
