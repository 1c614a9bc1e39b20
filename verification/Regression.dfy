/** The release gate over evaluation suites: src/agent_runtime/evals/regression.py. */
module Regression {
  import opened Wrappers
  import opened Rounding

  datatype GraderResult = GraderResult(graderName: string, passed: bool)

  datatype Trial = Trial(graderResults: seq<GraderResult>, durationMs: real, stepCount: int)

  /** One result of a grader, with its trial's figures. */
  datatype Entry = Entry(passed: bool, duration: real, steps: int)

  datatype MetricSummary = MetricSummary(metricName: string, passRate: real, avgDurationMs: real, avgSteps: real)

  datatype Reason =
    | Stable
    | FellBelowBaseline(metric: string, baseline: real, candidate: real)
    | BelowRequired(metric: string, candidate: real)

  datatype Scorecard = Scorecard(
    isImprovement: bool,
    regressionDetected: bool,
    reason: Reason,
    baselineMetrics: map<string, MetricSummary>,
    candidateMetrics: map<string, MetricSummary>)

  const DEFAULT_HARD_METRICS := ["security_policy_grader", "trajectory_sequence_grader"]

  // ----- Aggregation -----

  /** A grader's results within one trial. */
  function ResultsIn(results: seq<GraderResult>, t: Trial, name: string): seq<Entry> {
    if results == [] then []
    else
      var last := results[|results| - 1];
      ResultsIn(results[..|results| - 1], t, name) +
      if last.graderName == name then [Entry(last.passed, t.durationMs, t.stepCount)] else []
  }

  /** A grader's results over the whole suite. */
  function EntriesOf(trials: seq<Trial>, name: string): seq<Entry> {
    if trials == [] then []
    else
      var last := trials[|trials| - 1];
      EntriesOf(trials[..|trials| - 1], name) + ResultsIn(last.graderResults, last, name)
  }

  function Fails(entries: seq<Entry>): nat {
    if entries == [] then 0 else Fails(entries[..|entries| - 1]) + if entries[|entries| - 1].passed then 0 else 1
  }

  function Total(entries: seq<Entry>, measure: Entry -> real): real {
    if entries == [] then 0.0 else Total(entries[..|entries| - 1], measure) + measure(entries[|entries| - 1])
  }

  function Passed(e: Entry): real {
    if e.passed then 1.0 else 0.0
  }

  function Duration(e: Entry): real {
    e.duration
  }

  function Steps(e: Entry): real {
    e.steps as real
  }

  function Average(entries: seq<Entry>, measure: Entry -> real, scale: int): real
    requires entries != [] && scale > 0
  {
    RoundTo(Total(entries, measure) / |entries| as real, scale)
  }

  function Summarize(name: string, entries: seq<Entry>): MetricSummary
    requires entries != []
  {
    MetricSummary(name, Average(entries, Passed, 10000), Average(entries, Duration, 100), Average(entries, Steps, 100))
  }

  /** A summary for exactly the graders that reported anything. */
  ghost predicate Summarizes(trials: seq<Trial>, summary: map<string, MetricSummary>) {
    && (forall name :: name in summary <==> EntriesOf(trials, name) != [])
    && (forall name | name in summary :: summary[name] == Summarize(name, EntriesOf(trials, name)))
  }

  function Listed(data: map<string, seq<Entry>>, name: string): seq<Entry> {
    if name in data then data[name] else []
  }

  lemma NoResults(t: Trial)
    ensures forall name :: ResultsIn([], t, name) == []
  {
  }

  lemma NextResult(results: seq<GraderResult>, t: Trial, name: string, j: nat)
    requires j < |results|
    ensures ResultsIn(results[..j + 1], t, name) ==
            ResultsIn(results[..j], t, name) +
            if results[j].graderName == name then [Entry(results[j].passed, t.durationMs, t.stepCount)] else []
  {
    assert results[..j + 1][..j] == results[..j];
  }

  method CollectTrial(t: Trial, before: map<string, seq<Entry>>) returns (data: map<string, seq<Entry>>)
    requires forall name | name in before :: before[name] != []
    ensures forall name | name in data :: data[name] != []
    ensures forall name :: Listed(data, name) == Listed(before, name) + ResultsIn(t.graderResults, t, name)
  {
    hide ResultsIn;
    var results := t.graderResults;
    data := before;
    NoResults(t);
    for j := 0 to |results|
      invariant forall name | name in data :: data[name] != []
      invariant forall name :: Listed(data, name) == Listed(before, name) + ResultsIn(results[..j], t, name)
    {
      var r := results[j];
      ghost var was := data;
      data := data[r.graderName := Listed(data, r.graderName) + [Entry(r.passed, t.durationMs, t.stepCount)]];
      forall name
        ensures Listed(data, name) == Listed(before, name) + ResultsIn(results[..j + 1], t, name)
      {
        NextResult(results, t, name, j);
        assert Listed(was, name) == Listed(before, name) + ResultsIn(results[..j], t, name);
      }
    }
    assert results[..|results|] == results;
  }

  lemma NothingListed()
    ensures forall name :: Listed(map[], name) == EntriesOf([], name)
  {
  }

  lemma NextTrial(trials: seq<Trial>, i: nat)
    requires i < |trials|
    ensures forall name :: EntriesOf(trials[..i + 1], name) ==
                           EntriesOf(trials[..i], name) + ResultsIn(trials[i].graderResults, trials[i], name)
  {
    assert trials[..i + 1][..i] == trials[..i];
  }

  method CollectSuite(trials: seq<Trial>) returns (graderData: map<string, seq<Entry>>)
    ensures forall name | name in graderData :: graderData[name] != []
    ensures forall name :: Listed(graderData, name) == EntriesOf(trials, name)
  {
    hide ResultsIn, EntriesOf, Listed;
    graderData := map[];
    NothingListed();
    for i := 0 to |trials|
      invariant forall name | name in graderData :: graderData[name] != []
      invariant forall name :: Listed(graderData, name) == EntriesOf(trials[..i], name)
    {
      NextTrial(trials, i);
      graderData := CollectTrial(trials[i], graderData);
    }
    assert trials[..|trials|] == trials;
  }

  method AggregateSuite(trials: seq<Trial>) returns (summary: map<string, MetricSummary>)
    ensures Summarizes(trials, summary)
  {
    hide Summarize, EntriesOf;
    var graderData := CollectSuite(trials);
    summary := map[];
    var todo := graderData.Keys;
    while todo != {}
      invariant todo <= graderData.Keys && summary.Keys == graderData.Keys - todo
      invariant forall name | name in summary :: summary[name] == Summarize(name, graderData[name])
    {
      var name :| name in todo;
      summary := summary[name := Summarize(name, graderData[name])];
      todo := todo - {name};
    }
    forall name
      ensures name in summary <==> EntriesOf(trials, name) != []
      ensures name in summary ==> graderData[name] == EntriesOf(trials, name)
    {
      assert Listed(graderData, name) == EntriesOf(trials, name);
    }
  }

  // ----- The gate -----

  /** The complaint about one metric, if any. A fall below the baseline is reported first. */
  function Complaint(metric: string, base: map<string, MetricSummary>, cand: map<string, MetricSummary>): Reason {
    if metric in base && metric in cand && cand[metric].passRate < base[metric].passRate then
      FellBelowBaseline(metric, base[metric].passRate, cand[metric].passRate)
    else if metric in cand && cand[metric].passRate < 1.0 then BelowRequired(metric, cand[metric].passRate)
    else Stable
  }

  function Decision(hard: seq<string>, base: map<string, MetricSummary>, cand: map<string, MetricSummary>): Reason {
    if hard == [] then Stable
    else if !Complaint(hard[0], base, cand).Stable? then Complaint(hard[0], base, cand)
    else Decision(hard[1..], base, cand)
  }

  class RegressionReporter {
    const hardMetrics: seq<string>

    /** No list and an empty list both mean the default. */
    constructor (hardMetrics: Option<seq<string>>)
      ensures hardMetrics.GetOr([]) == [] ==>
                this.hardMetrics == ["security_policy_grader", "trajectory_sequence_grader"]
      ensures hardMetrics.GetOr([]) != [] ==> Some(this.hardMetrics) == hardMetrics
    {
      this.hardMetrics := if hardMetrics.GetOr([]) == [] then DEFAULT_HARD_METRICS else hardMetrics.value;
    }

    method GenerateReport(baseline: seq<Trial>, candidate: seq<Trial>) returns (r: Scorecard)
      ensures Summarizes(baseline, r.baselineMetrics) && Summarizes(candidate, r.candidateMetrics)
      ensures r.reason == Decision(hardMetrics, r.baselineMetrics, r.candidateMetrics)
      ensures r.regressionDetected == !r.reason.Stable? && r.isImprovement == r.reason.Stable?
    {
      hide Summarizes;
      var base := AggregateSuite(baseline);
      var cand := AggregateSuite(candidate);
      var regressionDetected, reason := false, Stable;
      var i := 0;
      while i < |hardMetrics|
        invariant i <= |hardMetrics|
        invariant !regressionDetected && reason == Stable
        invariant Decision(hardMetrics, base, cand) == Decision(hardMetrics[i..], base, cand)
      {
        var metric := hardMetrics[i];
        if metric in base && metric in cand && cand[metric].passRate < base[metric].passRate {
          regressionDetected := true;
          reason := FellBelowBaseline(metric, base[metric].passRate, cand[metric].passRate);
          break;
        }
        if metric in cand && cand[metric].passRate < 1.0 {
          regressionDetected := true;
          reason := BelowRequired(metric, cand[metric].passRate);
          break;
        }
        i := i + 1;
      }
      r := Scorecard(!regressionDetected, regressionDetected, reason, base, cand);
    }
  }

  // ----- The rounding bound -----

  lemma {:induction false} PassesAndFails(entries: seq<Entry>)
    ensures Total(entries, Passed) == (|entries| - Fails(entries)) as real && Fails(entries) <= |entries|
  {
    if entries != [] {
      PassesAndFails(entries[..|entries| - 1]);
    }
  }

  lemma NearestReaches(y: real, scale: int)
    requires scale % 2 == 0
    ensures Nearest(y) < scale <==> y < scale as real - 0.5
    ensures y <= scale as real ==> Nearest(y) <= scale
  {
  }

  /** Rounding to whole units never exceeds one for a ratio that does not, and reaches it from half a unit below. */
  lemma RoundReachesOne(x: real, scale: int)
    requires scale > 0 && scale % 2 == 0
    ensures RoundTo(x, scale) < 1.0 <==> Times(x, scale as real) < scale as real - 0.5
    ensures x <= 1.0 ==> RoundTo(x, scale) <= 1.0
  {
    var unit := scale as real;
    var y := Times(x, unit);
    NearestReaches(y, scale);
    var n := Nearest(y);
    ScaleKeepsOrder(unit, n as real, unit);
    ScaleKeepsOrder(n as real, unit, unit);
    assert unit / unit == 1.0;
    if x <= 1.0 {
      TimesIsMonotone(x, 1.0, unit);
      assert Times(1.0, unit) == unit;
    }
  }

  lemma RateTimes(x: real, y: real)
    requires y > 0.0
    ensures Times(x / y, y) == x && Times(1.0, y) == y && Times(0.99995, y) == 0.99995 * y
  {
  }

  lemma TimesOrder(x: real, y: real, factor: real)
    requires factor > 0.0
    ensures x <= y <==> Times(x, factor) <= Times(y, factor)
  {
    ScaleKeepsOrder(x, y, factor);
  }

  lemma RateIs(rate: real, passes: nat, count: nat)
    requires 0 < count && passes <= count && rate == passes as real / count as real
    ensures rate <= 1.0
    ensures rate * 10000.0 < 9999.5 <==> 20000 * (count - passes) > count
  {
    hide Times;
    var c, p := count as real, passes as real;
    RateTimes(p, c);
    TimesOrder(rate, 1.0, c);
    TimesOrder(0.99995, rate, c);
    assert 0.99995 * c <= p <==> 19999 * count <= 20000 * passes;
  }

  lemma TimesIs(x: real, factor: real)
    ensures Times(x, factor) == x * factor
  {
  }

  lemma RatioBelowOneIff(passes: nat, count: nat)
    requires 0 < count && passes <= count
    ensures RoundTo(passes as real / count as real, 10000) < 1.0 <==> 20000 * (count - passes) > count
    ensures RoundTo(passes as real / count as real, 10000) <= 1.0
  {
    hide RoundTo, Times;
    var rate := passes as real / count as real;
    RoundReachesOne(rate, 10000);
    TimesIs(rate, 10000.0);
    RateIs(rate, passes, count);
  }

  /** A rounded pass rate is below one exactly when more than one in 20000 results failed. */
  lemma RateBelowOneIff(entries: seq<Entry>)
    requires entries != []
    ensures Average(entries, Passed, 10000) < 1.0 <==> 20000 * Fails(entries) > |entries|
    ensures Average(entries, Passed, 10000) <= 1.0
  {
    hide RoundTo, Times, Total, Fails;
    PassesAndFails(entries);
    RatioBelowOneIff(|entries| - Fails(entries), |entries|);
  }

  // ----- The verdict -----

  /** Too many of the candidate's results for this metric failed. */
  predicate Offends(candidate: seq<Trial>, metric: string) {
    20000 * Fails(EntriesOf(candidate, metric)) > |EntriesOf(candidate, metric)|
  }

  lemma ComplaintIff(metric: string, baseline: seq<Trial>, candidate: seq<Trial>, base: map<string, MetricSummary>,
                     cand: map<string, MetricSummary>)
    requires Summarizes(baseline, base) && Summarizes(candidate, cand)
    ensures Complaint(metric, base, cand).Stable? <==> !Offends(candidate, metric)
  {
    hide EntriesOf, Average;
    if metric in cand {
      RateBelowOneIff(EntriesOf(candidate, metric));
    }
    if metric in base {
      RateBelowOneIff(EntriesOf(baseline, metric));
    }
  }

  /** The verdict depends on the candidate alone: there is a regression exactly when, for some hard metric, more than
      one in 20000 of the candidate's results failed. */
  lemma {:induction false} VerdictIff(hard: seq<string>, baseline: seq<Trial>, candidate: seq<Trial>,
                                      base: map<string, MetricSummary>, cand: map<string, MetricSummary>)
    requires Summarizes(baseline, base) && Summarizes(candidate, cand)
    ensures Decision(hard, base, cand).Stable? <==> forall metric | metric in hard :: !Offends(candidate, metric)
  {
    hide Summarizes, Offends, Complaint;
    if hard != [] {
      ComplaintIff(hard[0], baseline, candidate, base, cand);
      VerdictIff(hard[1..], baseline, candidate, base, cand);
      assert hard == [hard[0]] + hard[1..];
    }
  }

  /** The complaint that is reported is the one about the first offending metric. */
  lemma {:induction false} ReportsFirstOffender(hard: seq<string>, baseline: seq<Trial>, candidate: seq<Trial>,
                                                base: map<string, MetricSummary>, cand: map<string, MetricSummary>)
      returns (i: nat)
    requires Summarizes(baseline, base) && Summarizes(candidate, cand)
    requires !Decision(hard, base, cand).Stable?
    ensures i < |hard| && Offends(candidate, hard[i]) && (forall j | 0 <= j < i :: !Offends(candidate, hard[j]))
    ensures Decision(hard, base, cand) == Complaint(hard[i], base, cand)
  {
    hide Summarizes, Offends, Complaint;
    ComplaintIff(hard[0], baseline, candidate, base, cand);
    if Complaint(hard[0], base, cand).Stable? {
      i := ReportsFirstOffender(hard[1..], baseline, candidate, base, cand);
      i := i + 1;
    } else {
      i := 0;
    }
  }

  predicate AllPassed(entries: seq<Entry>) {
    forall i | 0 <= i < |entries| :: entries[i].passed
  }

  lemma {:induction false} NoFails(entries: seq<Entry>)
    ensures Fails(entries) == 0 <==> AllPassed(entries)
  {
    if entries != [] {
      NoFails(entries[..|entries| - 1]);
    }
  }

  /** Below 20000 results per hard metric the rounding hides nothing: the gate opens exactly when every result of
      every hard metric passed. */
  lemma SmallSuitesAreExact(hard: seq<string>, baseline: seq<Trial>, candidate: seq<Trial>,
                            base: map<string, MetricSummary>, cand: map<string, MetricSummary>)
    requires Summarizes(baseline, base) && Summarizes(candidate, cand)
    requires forall metric | metric in hard :: |EntriesOf(candidate, metric)| < 20000
    ensures Decision(hard, base, cand).Stable? <==>
            forall metric | metric in hard :: AllPassed(EntriesOf(candidate, metric))
  {
    hide Summarizes, EntriesOf, Fails, AllPassed, Decision;
    VerdictIff(hard, baseline, candidate, base, cand);
    forall metric | metric in hard
      ensures Offends(candidate, metric) <==> !AllPassed(EntriesOf(candidate, metric))
    {
      NoFails(EntriesOf(candidate, metric));
    }
  }

  /** No baseline can change a verdict, only its reason. */
  lemma BaselineIsIrrelevant(hard: seq<string>, a: seq<Trial>, b: seq<Trial>, candidate: seq<Trial>,
                             inA: map<string, MetricSummary>, inB: map<string, MetricSummary>,
                             cand: map<string, MetricSummary>)
    requires Summarizes(a, inA) && Summarizes(b, inB) && Summarizes(candidate, cand)
    ensures Decision(hard, inA, cand).Stable? == Decision(hard, inB, cand).Stable?
  {
    hide Summarizes, Offends, Decision;
    VerdictIff(hard, a, candidate, inA, cand);
    VerdictIff(hard, b, candidate, inB, cand);
  }

  // ----- What the figures and the reason say -----

  /** Result j of trial i is one of this grader, and this is its entry. */
  predicate Reports(trials: seq<Trial>, name: string, at: (nat, nat), e: Entry) {
    && at.0 < |trials| && at.1 < |trials[at.0].graderResults|
    && var t := trials[at.0]; var r := t.graderResults[at.1];
       r.graderName == name && e == Entry(r.passed, t.durationMs, t.stepCount)
  }

  predicate Before(a: (nat, nat), b: (nat, nat)) {
    a.0 < b.0 || (a.0 == b.0 && a.1 < b.1)
  }

  ghost predicate EntriesAt(trials: seq<Trial>, name: string, entries: seq<Entry>, at: seq<(nat, nat)>) {
    && |entries| == |at|
    && (forall i | 0 <= i < |at| :: Reports(trials, name, at[i], entries[i]))
    && (forall i, j | 0 <= i < j < |at| :: Before(at[i], at[j]))
  }

  /** Every result of this grader has an entry. */
  ghost predicate Complete(trials: seq<Trial>, name: string, at: seq<(nat, nat)>) {
    forall i: nat, j: nat | i < |trials| && j < |trials[i].graderResults| ::
      trials[i].graderResults[j].graderName == name ==> (i, j) in at
  }

  lemma {:induction false} ResultsAt(results: seq<GraderResult>, t: Trial, name: string, trials: seq<Trial>, i: nat)
      returns (at: seq<(nat, nat)>)
    requires i < |trials| && trials[i] == t && results <= t.graderResults
    ensures EntriesAt(trials, name, ResultsIn(results, t, name), at)
    ensures forall a | a in at :: a.0 == i && a.1 < |results|
    ensures forall j: nat | j < |results| :: results[j].graderName == name ==> (i, j) in at
  {
    if results == [] {
      at := [];
    } else {
      var n := |results| - 1;
      var before := ResultsAt(results[..n], t, name, trials, i);
      at := before + if results[n].graderName == name then [(i, n)] else [];
      assert forall k | 0 <= k < |before| :: before[k] in before;
    }
  }

  lemma Extended(trials: seq<Trial>, name: string, entries: seq<Entry>, at: seq<(nat, nat)>)
    requires trials != [] && EntriesAt(trials[..|trials| - 1], name, entries, at)
    ensures EntriesAt(trials, name, entries, at)
    ensures forall a | a in at :: a.0 < |trials| - 1
  {
    forall i | 0 <= i < |at|
      ensures Reports(trials, name, at[i], entries[i]) && at[i].0 < |trials| - 1
    {
      assert Reports(trials[..|trials| - 1], name, at[i], entries[i]);
    }
  }

  lemma Joined(trials: seq<Trial>, name: string, a: seq<Entry>, b: seq<Entry>, at: seq<(nat, nat)>,
               more: seq<(nat, nat)>)
    requires EntriesAt(trials, name, a, at) && EntriesAt(trials, name, b, more)
    requires forall x, y | x in at && y in more :: x.0 < y.0
    ensures EntriesAt(trials, name, a + b, at + more)
  {
    hide Reports;
    forall i, j | 0 <= i < j < |at + more|
      ensures Before((at + more)[i], (at + more)[j])
    {
      if i < |at| <= j {
        assert at[i] in at && more[j - |at|] in more;
      }
    }
  }

  /** The entries of a grader are its results in the order of the trials, each with the figures of its own trial, and
      none is left out or taken twice. */
  lemma {:induction false} EntriesAreResults(trials: seq<Trial>, name: string) returns (at: seq<(nat, nat)>)
    ensures EntriesAt(trials, name, EntriesOf(trials, name), at) && Complete(trials, name, at)
  {
    hide ResultsIn, Reports;
    if trials == [] {
      at := [];
    } else {
      var n := |trials| - 1;
      var last := trials[n];
      var before := EntriesAreResults(trials[..n], name);
      var more := ResultsAt(last.graderResults, last, name, trials, n);
      Extended(trials, name, EntriesOf(trials[..n], name), before);
      Joined(trials, name, EntriesOf(trials[..n], name), ResultsIn(last.graderResults, last, name), before, more);
      at := before + more;
      forall i: nat, j: nat | i < |trials| && j < |trials[i].graderResults|
        ensures trials[i].graderResults[j].graderName == name ==> (i, j) in at
      {
        if i < n {
          assert trials[..n][i] == trials[i];
        }
      }
    }
  }

  lemma {:induction false} TotalAdds(a: seq<Entry>, b: seq<Entry>, measure: Entry -> real)
    ensures Total(a + b, measure) == Total(a, measure) + Total(b, measure)
    ensures forall e :: Total([e], measure) == measure(e)
  {
    forall e
      ensures Total([e], measure) == measure(e)
    {
      assert [e][..0] == [];
    }
    if b == [] {
      assert a + b == a;
    } else {
      TotalAdds(a, b[..|b| - 1], measure);
      assert (a + b)[..|a + b| - 1] == a + b[..|b| - 1];
    }
  }

  lemma {:induction false} SameTotal(entries: seq<Entry>, f: Entry -> real, g: Entry -> real)
    requires forall e :: f(e) == g(e)
    ensures Total(entries, f) == Total(entries, g)
  {
    if entries != [] {
      SameTotal(entries[..|entries| - 1], f, g);
    }
  }

  /** The three figures of a summary are the mean pass rate, duration and number of steps, each within half a unit of
      its last digit: four digits of the first and two of the others. */
  lemma SummaryIs(name: string, entries: seq<Entry>)
    requires entries != []
    ensures var m := Summarize(name, entries); var n := |entries| as real;
            && m.metricName == name
            && -0.5 <= m.passRate * 10000.0 - (|entries| - Fails(entries)) as real / n * 10000.0 <= 0.5
            && -0.5 <= m.avgDurationMs * 100.0 - Total(entries, (e: Entry) => e.duration) / n * 100.0 <= 0.5
            && -0.5 <= m.avgSteps * 100.0 - Total(entries, (e: Entry) => e.steps as real) / n * 100.0 <= 0.5
  {
    hide RoundTo, Total, Fails;
    PassesAndFails(entries);
    SameTotal(entries, Duration, (e: Entry) => e.duration);
    SameTotal(entries, Steps, (e: Entry) => e.steps as real);
    RoundIsNear(Total(entries, Passed) / |entries| as real, 10000);
    RoundIsNear(Total(entries, Duration) / |entries| as real, 100);
    RoundIsNear(Total(entries, Steps) / |entries| as real, 100);
  }

  function Rate(trials: seq<Trial>, metric: string): real
    requires EntriesOf(trials, metric) != []
  {
    var entries := EntriesOf(trials, metric);
    RoundTo((|entries| - Fails(entries)) as real / |entries| as real, 10000)
  }

  /** A complaint names its metric and the candidate's rate, and it is about the baseline, whose rate it then names,
      exactly when that rate is higher. */
  lemma ReasonIs(metric: string, baseline: seq<Trial>, candidate: seq<Trial>, base: map<string, MetricSummary>,
                 cand: map<string, MetricSummary>)
    requires Summarizes(baseline, base) && Summarizes(candidate, cand) && Offends(candidate, metric)
    ensures EntriesOf(candidate, metric) != []
    ensures var worse := EntriesOf(baseline, metric) != [] && Rate(baseline, metric) > Rate(candidate, metric);
            Complaint(metric, base, cand) ==
            if worse then FellBelowBaseline(metric, Rate(baseline, metric), Rate(candidate, metric))
            else BelowRequired(metric, Rate(candidate, metric))
  {
    hide EntriesOf, RoundTo, Total, Fails;
    var c, b := EntriesOf(candidate, metric), EntriesOf(baseline, metric);
    NoFails(c);
    PassesAndFails(c);
    PassesAndFails(b);
    RateBelowOneIff(c);
  }
}
