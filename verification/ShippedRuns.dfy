/** The candidates that generate_spec_node itself builds, run against the registry it ships with. */
module ShippedRuns {
  import opened Wrappers
  import opened ModelSpecs
  import opened Diagnostics
  import opened Compilation
  import opened Repairs
  import opened MacroGraph
  import opened GraphTheorems
  import opened GraphVerdicts
  import Text

  const LOCAL_DATA_REGISTRY := map[
    "monthly_sales.csv" := DatasetMeta(120, Known(Monthly)),
    "short_series.csv" := DatasetMeta(15, Known(Monthly))]

  const LEAKY := "Potential future data leakage."

  const COMPLIANT := "Compliant analytical rationale."

  /** The deterministic extraction of a candidate from a query. */
  function CandidateFor(lower: string -> string, query: string): (spec: ModelSpec)
    ensures SchemaValid(spec)
  {
    var q := lower(query);
    ModelSpec("1.0",
              SeriesRef(if Text.Contains(q, "short") then "short_series.csv" else "monthly_sales.csv",
                        "revenue", Monthly),
              [],
              Arima(if Text.Contains(q, "high_order") then 4 else 1, 0, 4, None),
              BacktestSpec(6, 60, 3, [Rmse]),
              6,
              false,
              if Text.Contains(q, "leakage") then LEAKY else COMPLIANT)
  }

  /** What the model needs to know about `str.lower`: its value on the four literals of the node. */
  predicate LowersLiterals(lower: string -> string) {
    && lower(LEAKY) == "potential future data leakage."
    && lower(COMPLIANT) == "compliant analytical rationale."
    && lower("short_series.csv") == "short_series.csv"
    && lower("monthly_sales.csv") == "monthly_sales.csv"
  }

  lemma LeakyScans()
    ensures Text.Contains("potential future data leakage.", "leak")
  {
    assert "leak" <= "potential future data leakage."[22..];
  }

  lemma NoOccurrence(hay: string, needle: string)
    requires |needle| >= 3
    requires forall i | 0 <= i < |hay| - 2 ::
               hay[i] != needle[0] || hay[i + 1] != needle[1] || hay[i + 2] != needle[2]
    ensures !Text.Contains(hay, needle)
  {
    forall i | 0 <= i <= |hay|
      ensures !(needle <= hay[i..])
    {
      if i + 2 < |hay| {
        assert hay[i..][0] == hay[i] && hay[i..][1] == hay[i + 1] && hay[i..][2] == hay[i + 2];
      }
    }
  }

  lemma CompliantScans()
    ensures !Text.Contains("compliant analytical rationale.", "leak")
    ensures !Text.Contains("compliant analytical rationale.", "test_set")
  {
    hide Text.Contains;
    NoOccurrence("compliant analytical rationale.", "leak");
    NoOccurrence("compliant analytical rationale.", "test_set");
  }

  lemma NameScans()
    ensures !Text.Contains("short_series.csv", "../") && !Text.Contains("short_series.csv", "/etc/")
    ensures !Text.Contains("monthly_sales.csv", "../") && !Text.Contains("monthly_sales.csv", "/etc/")
  {
    hide Text.Contains;
    NoOccurrence("short_series.csv", "../");
    NoOccurrence("short_series.csv", "/etc/");
    NoOccurrence("monthly_sales.csv", "../");
    NoOccurrence("monthly_sales.csv", "/etc/");
  }

  lemma LiteralScans(lower: string -> string)
    requires LowersLiterals(lower)
    ensures Text.Contains(lower(LEAKY), "leak")
    ensures !Text.Contains(lower(COMPLIANT), "leak") && !Text.Contains(lower(COMPLIANT), "test_set")
    ensures forall id | id in LOCAL_DATA_REGISTRY ::
              !Text.Contains(lower(id), "../") && !Text.Contains(lower(id), "/etc/")
  {
    hide Text.Contains;
    LeakyScans();
    CompliantScans();
    NameScans();
  }

  /** Whatever the query, the shipped graph ends, and it fails exactly for the queries that mention leakage. */
  lemma ShippedRunsEnd(query: string, lower: string -> string, planIds: nat -> string)
    requires LowersLiterals(lower)
    ensures var w := Setting(Environment(LOCAL_DATA_REGISTRY, lower), CandidateFor(lower, query), planIds);
            var leaky := Text.Contains(lower(query), "leakage");
            var last := 1 + Nodes(w.env, w.candidate);
            && last == (if leaky then 3 else
                        4 + (if Text.Contains(lower(query), "short") then 2 else 0)
                          + (if Text.Contains(lower(query), "high_order") then 3 else 0))
            && EndsAt(w, last)
            && (if leaky then Run(w, last).status.Failed? else Run(w, last).status.Completed?)
  {
    hide Run, Text.Contains, PlanFor, ExecutePlanStep;
    LiteralScans(lower);
    var w := Setting(Environment(LOCAL_DATA_REGISTRY, lower), CandidateFor(lower, query), planIds);
    ExactTermination(w);
    Verdict(w, 1 + Nodes(w.env, w.candidate));
  }

  /** A short series completes although its sample is still too short: the contracted window draws the trailing
      warning, and routing looks at nothing but the last finding. */
  lemma ShortSampleIsMasked(query: string, lower: string -> string, planIds: nat -> string)
    requires LowersLiterals(lower)
    requires Text.Contains(lower(query), "short") && !Text.Contains(lower(query), "leakage")
    ensures var w := Setting(Environment(LOCAL_DATA_REGISTRY, lower), CandidateFor(lower, query), planIds);
            exists n ::
              EndsAt(w, n) && Run(w, n).status.Completed? && Reports(Run(w, n).diagnostics, InsufficientSample)
  {
    hide Run, Text.Contains, PlanFor, ExecutePlanStep, Findings, Reports;
    var w := Setting(Environment(LOCAL_DATA_REGISTRY, lower), CandidateFor(lower, query), planIds);
    var n := 1 + Nodes(w.env, w.candidate);
    ShippedRunsEnd(query, lower, planIds);
    LiteralScans(lower);
    CompletedWithErrorIff(w, n);
  }

  /** A declared frequency that differs from the registry's is reported as repairable, but nothing repairs it:
      with nothing else wrong the graph never ends. */
  lemma FrequencyMismatchCycles(w: Setting, n: nat)
    requires Registered(w.env, w.candidate) && !FrequencyOk(w.env, w.candidate)
    requires !Blocked(w.env, w.candidate) && !w.candidate.model.Arima?
    ensures !EndsAt(w, n)
  {
    hide Run, Blocked;
    ExactTermination(w);
  }

  /** The bound of nine nodes is reached: thirty rows, a window of sixty and a divergent order. */
  lemma NineNodesReached(planIds: nat -> string)
    ensures var env := Environment(map["d" := DatasetMeta(30, Known(Monthly))], s => s);
            var spec := ModelSpec("1.0", SeriesRef("d", "c", Monthly), [], Arima(4, 0, 4, None),
                                  BacktestSpec(6, 60, 3, []), 6, false, "r");
            EndsAt(Setting(env, spec, planIds), 9) && forall n: nat | n < 9 :: !EndsAt(Setting(env, spec, planIds), n)
  {
    hide Run;
    var env := Environment(map["d" := DatasetMeta(30, Known(Monthly))], s => s);
    var spec := ModelSpec("1.0", SeriesRef("d", "c", Monthly), [], Arima(4, 0, 4, None),
                          BacktestSpec(6, 60, 3, []), 6, false, "r");
    assert |env.lower("r")| == 1 && |env.lower("d")| == 1;
    assert !Blocked(env, spec);
    ExactTermination(Setting(env, spec, planIds));
  }
}
