/**
 * What `run_all` promises: which days it reports and in which order, when it
 * stops with an error, and what its closing summary says about the days it
 * reports.
 */
module RunAllProperties {
  import opened Prelude
  import opened FileSystem
  import opened Results
  import opened Commands

  // ---------------------------------------------------------------------
  // Which days are reported, whatever each day comes to

  /** A day's results carry that day's number. */
  ghost predicate WellDated(outcome: U8 -> DayOutcome) {
    forall d: U8 :: outcome(d).Finished? ==> outcome(d).result.day == d
  }

  /** Every result gathered after days `1..n` is the result of one of those days that finished. */
  lemma {:induction false} GatherSound(outcome: U8 -> DayOutcome, n: nat)
    requires n <= LastDay && Gather(outcome, n).Ok?
    ensures forall r :: r in Gather(outcome, n).value ==>
              exists d: U8 :: 1 <= d <= n && outcome(d) == Finished(r)
  {
    if n > 0 {
      GatherSound(outcome, n - 1);
    }
  }

  /** With results that carry their day, the results come in increasing day order, each within `1..n`. */
  lemma {:induction false} GatherAscending(outcome: U8 -> DayOutcome, n: nat)
    requires n <= LastDay && Gather(outcome, n).Ok? && WellDated(outcome)
    ensures var rs := Gather(outcome, n).value;
            && (forall i :: 0 <= i < |rs| ==> 1 <= rs[i].day <= n)
            && (forall i, j :: 0 <= i < j < |rs| ==> rs[i].day < rs[j].day)
  {
    if n > 0 {
      GatherAscending(outcome, n - 1);
      var prev := Gather(outcome, n - 1).value;
      var rs := Gather(outcome, n).value;
      if rs != prev {
        assert rs == prev + [outcome(n).result] && rs[|prev|].day == n;
        assert forall i :: 0 <= i < |prev| ==> rs[i] == prev[i];
      }
    }
  }

  /** With results that carry their day, each gathered result is what its own day finished with. */
  lemma GatherReported(outcome: U8 -> DayOutcome, n: nat)
    requires n <= LastDay && Gather(outcome, n).Ok? && WellDated(outcome)
    ensures var rs := Gather(outcome, n).value;
            && (forall i :: 0 <= i < |rs| ==> 1 <= rs[i].day <= n && outcome(rs[i].day) == Finished(rs[i]))
            && (forall i, j :: 0 <= i < j < |rs| ==> rs[i].day < rs[j].day)
  {
    var rs := Gather(outcome, n).value;
    GatherSound(outcome, n);
    GatherAscending(outcome, n);
    forall i | 0 <= i < |rs|
      ensures outcome(rs[i].day) == Finished(rs[i])
    {
      assert rs[i] in rs;
    }
  }

  /** Every day among `1..n` that finished has its result gathered. */
  lemma {:induction false} GatherComplete(outcome: U8 -> DayOutcome, n: nat, d: U8)
    requires n <= LastDay && Gather(outcome, n).Ok?
    requires 1 <= d <= n && outcome(d).Finished?
    ensures outcome(d).result in Gather(outcome, n).value
  {
    if d < n {
      GatherComplete(outcome, n - 1, d);
    }
  }

  /** Days `1..n` are all gone through exactly when none of their processes fails to start. */
  lemma {:induction false} GatherOkIff(outcome: U8 -> DayOutcome, n: nat)
    requires n <= LastDay
    ensures Gather(outcome, n).Ok? <==> forall d: U8 :: 1 <= d <= n ==> !outcome(d).LaunchFailure?
  {
    if n > 0 {
      GatherOkIff(outcome, n - 1);
      if Gather(outcome, n - 1).Err? {
        var d: U8 :| 1 <= d <= n - 1 && outcome(d).LaunchFailure?;
      }
    }
  }

  /** The error names the first day whose process could not be started. */
  lemma {:induction false} GatherErrFirst(outcome: U8 -> DayOutcome, n: nat)
    requires n <= LastDay && Gather(outcome, n).Err?
    ensures var d := Gather(outcome, n).error.day;
            && 1 <= d <= n && outcome(d).LaunchFailure?
            && forall e: U8 :: 1 <= e < d ==> !outcome(e).LaunchFailure?
  {
    if Gather(outcome, n - 1).Err? {
      GatherErrFirst(outcome, n - 1);
    } else {
      GatherOkIff(outcome, n - 1);
    }
  }

  /** Looking a day up in `Outcomes` is its pass of the loop. */
  lemma OutcomesAt(s: FsState, year: U16, release: bool, run: seq<string> -> Launch,
                   parseFloat: string -> Option<real>)
    ensures forall d: U8 :: Outcomes(s, year, release, run, parseFloat)(d) == Outcome(s, year, release, run, parseFloat, d)
  {
  }

  /** `run_all`'s passes carry their day's number into the results. */
  lemma OutcomesWellDated(s: FsState, year: U16, release: bool, run: seq<string> -> Launch,
                          parseFloat: string -> Option<real>)
    ensures WellDated(Outcomes(s, year, release, run, parseFloat))
  {
    forall d: U8 | Outcome(s, year, release, run, parseFloat, d).Finished?
      ensures Outcome(s, year, release, run, parseFloat, d).result.day == d
    {
      OutcomeCases(s, year, release, run, parseFloat, d);
    }
  }

  /** A day's total time is the sum of the part times read from its output, whichever were found. */
  lemma DayTotalOfParsedTimes(day: U8, stdout: string, parseFloat: string -> Option<real>)
    ensures DayResultOf(day, stdout, parseFloat).TotalTime()
            == Sum(Present([ParsePartSpec(stdout, "Part 1", parseFloat).1, ParsePartSpec(stdout, "Part 2", parseFloat).1]))
  {
    TotalTimeSumsPresentTimes(DayResultOf(day, stdout, parseFloat));
  }

  // ---------------------------------------------------------------------
  // The summary

  lemma {:induction false} SumBounds(ts: seq<real>, lo: real, hi: real)
    requires forall i :: 0 <= i < |ts| ==> lo <= ts[i] <= hi
    ensures lo * (|ts| as real) <= Sum(ts) <= hi * (|ts| as real)
  {
    if ts != [] {
      SumBounds(ts[..|ts| - 1], lo, hi);
    }
  }

  /** A mean of `n` values lies between any lower and upper bound of theirs. */
  lemma MeanBetween(lo: real, hi: real, total: real, average: real, n: real)
    requires n > 0.0 && lo * n <= total <= hi * n && average * n == total
    ensures lo <= average <= hi
  {
    assert (lo - average) * n <= 0.0;
    assert (average - hi) * n <= 0.0;
  }

  /** The fastest day of the summary is the first one with the least total time. */
  lemma SummarizeFastest(rs: seq<DayResult>)
    requires rs != []
    ensures exists k :: 0 <= k < |rs| && Summarize(rs).value.fastest == rs[k]
                        && (forall j :: 0 <= j < |rs| ==> rs[k].TotalTime() <= rs[j].TotalTime())
                        && (forall j :: 0 <= j < k ==> rs[j].TotalTime() > rs[k].TotalTime())
  {
    var k := FirstMinIndex(Totals(rs));
    assert Summarize(rs).value.fastest == rs[k];
  }

  /** The slowest day of the summary is the last one with the greatest total time. */
  lemma SummarizeSlowest(rs: seq<DayResult>)
    requires rs != []
    ensures exists k :: 0 <= k < |rs| && Summarize(rs).value.slowest == rs[k]
                        && (forall j :: 0 <= j < |rs| ==> rs[j].TotalTime() <= rs[k].TotalTime())
                        && (forall j :: k < j < |rs| ==> rs[j].TotalTime() < rs[k].TotalTime())
  {
    var k := LastMaxIndex(Totals(rs));
    assert Summarize(rs).value.slowest == rs[k];
  }

  lemma MeanOfBounded(ts: seq<real>, lo: real, hi: real)
    requires ts != []
    requires forall i :: 0 <= i < |ts| ==> lo <= ts[i]
    requires forall i :: 0 <= i < |ts| ==> ts[i] <= hi
    ensures lo <= Mean(Sum(ts), |ts|) <= hi
  {
    SumBounds(ts, lo, hi);
    MeanBetween(lo, hi, Sum(ts), Mean(Sum(ts), |ts|), |ts| as real);
  }

  /** The average lies between the fastest and the slowest day's time. */
  lemma SummarizeAverageBetween(rs: seq<DayResult>)
    requires rs != []
    ensures Summarize(rs).value.fastest.TotalTime() <= Summarize(rs).value.average <= Summarize(rs).value.slowest.TotalTime()
  {
    var ts := Totals(rs);
    var sm := Summarize(rs).value;
    var lo, hi := ts[FirstMinIndex(ts)], ts[LastMaxIndex(ts)];
    assert sm.fastest.TotalTime() == lo && sm.slowest.TotalTime() == hi;
    assert sm.average == Mean(Sum(ts), |ts|);
    MeanOfBounded(ts, lo, hi);
  }

  /** Two days with the same total time: the first is the fastest, the second the slowest. */
  lemma SummarizeTieExample()
    ensures var rs := [DayResult(3, Some("a"), Some(1.0), None, None), DayResult(7, None, None, Some("b"), Some(1.0))];
            var sm := Summarize(rs).value;
            sm.completed == 2 && sm.total == 2.0 && sm.average == 1.0 && sm.fastest.day == 3 && sm.slowest.day == 7
  {
    var rs := [DayResult(3, Some("a"), Some(1.0), None, None), DayResult(7, None, None, Some("b"), Some(1.0))];
    var ts := Totals(rs);
    assert ts == [1.0, 1.0] && ts[..1] == [1.0] && [1.0][..0] == [];
    assert FirstMinIndex(ts) == 0 && LastMaxIndex(ts) == 1;
    assert Sum(ts) == 2.0;
  }

  // ---------------------------------------------------------------------
  // The whole command

  /**
   * `run_all` ends with an error exactly when some day's process cannot be
   * started, and then names the first such day; otherwise it reports, in
   * increasing day order, exactly the days whose directory exists and whose
   * process exited with success, each with the results its output shows, and
   * has a summary exactly when there is at least one such day.
   */
  lemma RunAllOutcome(s: FsState, year: U16, release: bool, run: seq<string> -> Launch,
                      parseFloat: string -> Option<real>)
    ensures var r := RunAllSpec(s, year, release, run, parseFloat);
            && (r.Err? <==> exists d: U8 :: 1 <= d <= LastDay && Outcome(s, year, release, run, parseFloat, d).LaunchFailure?)
            && (r.Err? ==> && 1 <= r.error.day <= LastDay
                           && Outcome(s, year, release, run, parseFloat, r.error.day).LaunchFailure?
                           && forall e: U8 :: 1 <= e < r.error.day ==> !Outcome(s, year, release, run, parseFloat, e).LaunchFailure?)
  {
    var o := Outcomes(s, year, release, run, parseFloat);
    OutcomesAt(s, year, release, run, parseFloat);
    GatherOkIff(o, LastDay);
    assert RunAllSpec(s, year, release, run, parseFloat).Err? == Gather(o, LastDay).Err?;
    if Gather(o, LastDay).Err? {
      GatherErrFirst(o, LastDay);
      assert RunAllSpec(s, year, release, run, parseFloat).error == Gather(o, LastDay).error;
    }
  }

  /**
   * When `run_all` succeeds, each day it reports lies in `1..LastDay` and is
   * one whose directory exists and whose process exited with success, with
   * the results its output shows; and the days come in increasing order.
   */
  lemma RunAllReportSound(s: FsState, year: U16, release: bool, run: seq<string> -> Launch,
                          parseFloat: string -> Option<real>)
    requires RunAllSpec(s, year, release, run, parseFloat).Ok?
    ensures var days := RunAllSpec(s, year, release, run, parseFloat).value.days;
            && (forall i :: 0 <= i < |days| ==>
                  1 <= days[i].day <= LastDay && Outcome(s, year, release, run, parseFloat, days[i].day) == Finished(days[i]))
            && (forall i, j :: 0 <= i < j < |days| ==> days[i].day < days[j].day)
  {
    var o := Outcomes(s, year, release, run, parseFloat);
    assert RunAllSpec(s, year, release, run, parseFloat).value.days == Gather(o, LastDay).value;
    OutcomesWellDated(s, year, release, run, parseFloat);
    GatherReported(o, LastDay);
    OutcomesAt(s, year, release, run, parseFloat);
  }

  /** When `run_all` succeeds, every day whose process exited with success is reported. */
  lemma RunAllReportComplete(s: FsState, year: U16, release: bool, run: seq<string> -> Launch,
                             parseFloat: string -> Option<real>, d: U8)
    requires RunAllSpec(s, year, release, run, parseFloat).Ok?
    requires 1 <= d <= LastDay && Outcome(s, year, release, run, parseFloat, d).Finished?
    ensures Outcome(s, year, release, run, parseFloat, d).result in RunAllSpec(s, year, release, run, parseFloat).value.days
  {
    var o := Outcomes(s, year, release, run, parseFloat);
    assert RunAllSpec(s, year, release, run, parseFloat).value.days == Gather(o, LastDay).value;
    GatherComplete(o, LastDay, d);
  }

  /** When `run_all` succeeds, it has a summary exactly when some day's process exited with success. */
  lemma RunAllSummaryPresent(s: FsState, year: U16, release: bool, run: seq<string> -> Launch,
                             parseFloat: string -> Option<real>)
    requires RunAllSpec(s, year, release, run, parseFloat).Ok?
    ensures RunAllSpec(s, year, release, run, parseFloat).value.summary.None?
            <==> forall d: U8 :: 1 <= d <= LastDay ==> !Outcome(s, year, release, run, parseFloat, d).Finished?
  {
    var rep := RunAllSpec(s, year, release, run, parseFloat).value;
    if rep.days == [] {
      forall d: U8 | 1 <= d <= LastDay && Outcome(s, year, release, run, parseFloat, d).Finished?
        ensures false
      {
        RunAllReportComplete(s, year, release, run, parseFloat, d);
      }
    } else {
      RunAllReportSound(s, year, release, run, parseFloat);
      assert Outcome(s, year, release, run, parseFloat, rep.days[0].day).Finished?;
    }
  }
}
