/** Domain validation and static analysis: src/agent_runtime/scientific/{validators,static_analysis}.py. */
module Diagnostics {
  import opened Wrappers
  import opened ModelSpecs
  import Text

  datatype Stage = DomainValidation | StaticAnalysis | Execution

  datatype Severity = ERROR | WARNING

  datatype Code =
    | DatasetNotFound
    | FrequencyMismatch
    | InvalidSeasonalPeriod
    | SchemaValidationFailure
    | ModelComplexityExcessive
    | InsufficientSample
    | LeakageDetected
    | UnauthorizedOperation
    | BacktestWindowInvalid
    | ArimaNonConvergence

  datatype Evidence =
    | NoEvidence
    | RequestedDataset(id: string)
    | Frequencies(declared: Frequency, actual: ActualFrequency)
    | EtsSeasonal(seasonal: Component)
    | Order(p: int, d: int, q: int)
    | Complexity(parameters: int)
    | SampleSize(actualRows: int, requiredRows: int)
    | LeakFlag
    | PathInjection(path: string)
    | HorizonAgainstWindow(horizon: int, window: int)

  datatype Diagnostic = Diagnostic(
    stage: Stage,
    severity: Severity,
    code: Code,
    repairable: bool,
    evidence: Evidence)

  /** A registry entry carries a free-form frequency, which may be none of the four a spec can declare. */
  datatype ActualFrequency = Known(frequency: Frequency) | Unknown(name: string)

  datatype DatasetMeta = DatasetMeta(rows: int, frequency: ActualFrequency)

  /** What a run depends on besides its spec: the dataset registry and Python's `str.lower`. */
  datatype Environment = Environment(registry: map<string, DatasetMeta>, lower: string -> string)

  predicate Blocks(d: Diagnostic) {
    d.severity.ERROR? && !d.repairable
  }

  // ----- The conditions under which each diagnostic is raised -----

  predicate Registered(env: Environment, spec: ModelSpec) {
    spec.target.datasetId in env.registry
  }

  predicate FrequencyOk(env: Environment, spec: ModelSpec)
    requires Registered(env, spec)
  {
    env.registry[spec.target.datasetId].frequency == Known(spec.target.frequency)
  }

  /** `not spec.model.seasonal_period`: absent or zero. */
  predicate EtsOk(spec: ModelSpec) {
    spec.model.Ets? && spec.model.seasonal.Additive? ==>
      spec.model.seasonalPeriod.Some? && spec.model.seasonalPeriod.value != 0
  }

  predicate OrderOk(spec: ModelSpec) {
    spec.model.Arima? ==> spec.model.p >= 0 && spec.model.d >= 0 && spec.model.q >= 0
  }

  predicate TooComplex(spec: ModelSpec) {
    spec.model.Arima? && spec.model.p + spec.model.q > 12
  }

  function RequiredRows(spec: ModelSpec): int {
    spec.backtest.initialWindow + spec.backtest.horizon
  }

  predicate SampleOk(env: Environment, spec: ModelSpec)
    requires Registered(env, spec)
  {
    env.registry[spec.target.datasetId].rows >= RequiredRows(spec)
  }

  predicate Leaks(env: Environment, spec: ModelSpec) {
    var r := env.lower(spec.rationale);
    Text.Contains(r, "leak") || Text.Contains(r, "test_set")
  }

  predicate UnsafePath(env: Environment, spec: ModelSpec) {
    var id := env.lower(spec.target.datasetId);
    Text.Contains(id, "../") || Text.Contains(id, "/etc/")
  }

  /** `forecast_horizon > initial_window * 0.5`, in exact arithmetic. */
  predicate WindowStrained(spec: ModelSpec) {
    spec.model.Arima? && 2 * spec.forecastHorizon > spec.backtest.initialWindow
  }

  // ----- The diagnostics themselves -----

  function When(raised: bool, d: Diagnostic): seq<Diagnostic> {
    if raised then [d] else []
  }

  function MissingDataset(spec: ModelSpec): Diagnostic {
    Diagnostic(DomainValidation, ERROR, DatasetNotFound, false, RequestedDataset(spec.target.datasetId))
  }

  function WrongFrequency(spec: ModelSpec, meta: DatasetMeta): Diagnostic {
    Diagnostic(DomainValidation, ERROR, FrequencyMismatch, true, Frequencies(spec.target.frequency, meta.frequency))
  }

  function SeasonalGap(spec: ModelSpec): Diagnostic {
    Diagnostic(DomainValidation, ERROR, InvalidSeasonalPeriod, true,
               if spec.model.Ets? then EtsSeasonal(spec.model.seasonal) else NoEvidence)
  }

  function NegativeOrder(spec: ModelSpec): Diagnostic {
    Diagnostic(DomainValidation, ERROR, SchemaValidationFailure, true,
               if spec.model.Arima? then Order(spec.model.p, spec.model.d, spec.model.q) else NoEvidence)
  }

  function Overparameterized(spec: ModelSpec): Diagnostic {
    Diagnostic(DomainValidation, WARNING, ModelComplexityExcessive, true,
               if spec.model.Arima? then Complexity(spec.model.p + spec.model.q) else NoEvidence)
  }

  function ShortSample(spec: ModelSpec, rows: int): Diagnostic {
    Diagnostic(DomainValidation, ERROR, InsufficientSample, true, SampleSize(rows, RequiredRows(spec)))
  }

  const Leak := Diagnostic(StaticAnalysis, ERROR, LeakageDetected, false, LeakFlag)

  function PathEscape(env: Environment, spec: ModelSpec): Diagnostic {
    Diagnostic(StaticAnalysis, ERROR, UnauthorizedOperation, false, PathInjection(env.lower(spec.target.datasetId)))
  }

  function StrainedWindow(spec: ModelSpec): Diagnostic {
    Diagnostic(StaticAnalysis, WARNING, BacktestWindowInvalid, true,
               HorizonAgainstWindow(spec.forecastHorizon, spec.backtest.initialWindow))
  }

  /** All domain violations, in the order in which the validator reports them. */
  function DomainFindings(env: Environment, spec: ModelSpec): seq<Diagnostic> {
    if !Registered(env, spec) then
      [MissingDataset(spec)]
    else
      var meta := env.registry[spec.target.datasetId];
      When(!FrequencyOk(env, spec), WrongFrequency(spec, meta))
      + When(!EtsOk(spec), SeasonalGap(spec))
      + When(!OrderOk(spec), NegativeOrder(spec))
      + When(TooComplex(spec), Overparameterized(spec))
      + When(!SampleOk(env, spec), ShortSample(spec, meta.rows))
  }

  function StaticFindings(env: Environment, spec: ModelSpec): seq<Diagnostic> {
    When(Leaks(env, spec), Leak)
    + When(UnsafePath(env, spec), PathEscape(env, spec))
    + When(WindowStrained(spec), StrainedWindow(spec))
  }

  function Findings(env: Environment, spec: ModelSpec): seq<Diagnostic> {
    DomainFindings(env, spec) + StaticFindings(env, spec)
  }

  /** The domain validator: a list grown by guarded appends, with an early return for a missing dataset. */
  method ValidateSpec(env: Environment, spec: ModelSpec) returns (diagnostics: seq<Diagnostic>)
    ensures diagnostics == DomainFindings(env, spec)
  {
    diagnostics := [];
    var datasetId := spec.target.datasetId;
    if datasetId !in env.registry {
      diagnostics := diagnostics + [MissingDataset(spec)];
      return;
    }
    var meta := env.registry[datasetId];
    if Known(spec.target.frequency) != meta.frequency {
      diagnostics := diagnostics + [WrongFrequency(spec, meta)];
    }
    if spec.model.Ets? {
      if spec.model.seasonal != Absent && (spec.model.seasonalPeriod.None? || spec.model.seasonalPeriod.value == 0) {
        diagnostics := diagnostics + [SeasonalGap(spec)];
      }
    }
    if spec.model.Arima? {
      if spec.model.p < 0 || spec.model.d < 0 || spec.model.q < 0 {
        diagnostics := diagnostics + [NegativeOrder(spec)];
      }
      var paramComplexity := spec.model.p + spec.model.q;
      if paramComplexity > 12 {
        diagnostics := diagnostics + [Overparameterized(spec)];
      }
    }
    var requiredMinWindow := spec.backtest.initialWindow + spec.backtest.horizon;
    if meta.rows < requiredMinWindow {
      diagnostics := diagnostics + [ShortSample(spec, meta.rows)];
    }
  }

  /** The static analyzer: leakage, then unsafe paths, then the trailing warning. */
  method AnalyzeSpec(env: Environment, spec: ModelSpec) returns (diagnostics: seq<Diagnostic>)
    ensures diagnostics == StaticFindings(env, spec)
  {
    diagnostics := [];
    var rationaleLower := env.lower(spec.rationale);
    if Text.Contains(rationaleLower, "leak") || Text.Contains(rationaleLower, "test_set") {
      diagnostics := diagnostics + [Leak];
    }
    var datasetId := env.lower(spec.target.datasetId);
    if Text.Contains(datasetId, "../") || Text.Contains(datasetId, "/etc/") {
      diagnostics := diagnostics + [PathEscape(env, spec)];
    }
    if spec.model.Arima? && spec.forecastHorizon * 2 > spec.backtest.initialWindow {
      diagnostics := diagnostics + [StrainedWindow(spec)];
    }
  }

  predicate Reports(diagnostics: seq<Diagnostic>, code: Code) {
    exists i | 0 <= i < |diagnostics| :: diagnostics[i].code == code
  }

  /** A spec is rejected outright exactly when it leaks, escapes its directory or names no dataset. */
  predicate Blocked(env: Environment, spec: ModelSpec) {
    Leaks(env, spec) || UnsafePath(env, spec) || !Registered(env, spec)
  }

  /** The condition that each code stands for. Without a dataset, nothing else about the domain can be said. */
  predicate Raised(env: Environment, spec: ModelSpec, code: Code) {
    var id := spec.target.datasetId;
    var rationale, path := env.lower(spec.rationale), env.lower(id);
    match code
    case DatasetNotFound => id !in env.registry
    case FrequencyMismatch => id in env.registry && env.registry[id].frequency != Known(spec.target.frequency)
    case InvalidSeasonalPeriod =>
      id in env.registry && spec.model.Ets? && spec.model.seasonal.Additive? && spec.model.seasonalPeriod.GetOr(0) == 0
    case SchemaValidationFailure =>
      id in env.registry && spec.model.Arima? && (spec.model.p < 0 || spec.model.d < 0 || spec.model.q < 0)
    case ModelComplexityExcessive => id in env.registry && spec.model.Arima? && spec.model.p + spec.model.q > 12
    case InsufficientSample =>
      id in env.registry && env.registry[id].rows < spec.backtest.initialWindow + spec.backtest.horizon
    case LeakageDetected => Text.Contains(rationale, "leak") || Text.Contains(rationale, "test_set")
    case UnauthorizedOperation => Text.Contains(path, "../") || Text.Contains(path, "/etc/")
    case BacktestWindowInvalid => spec.model.Arima? && 2 * spec.forecastHorizon > spec.backtest.initialWindow
    case ArimaNonConvergence => false
  }

  lemma ReportsOne(x: Diagnostic, code: Code)
    ensures Reports([x], code) <==> x.code == code
  {
    assert [x][0] == x;
  }

  lemma ReportsWhen(a: bool, x: Diagnostic, code: Code)
    ensures Reports(When(a, x), code) <==> a && x.code == code
  {
    assert a ==> When(a, x)[0] == x;
  }

  lemma ReportsConcat(x: seq<Diagnostic>, y: seq<Diagnostic>, code: Code)
    ensures Reports(x + y, code) <==> Reports(x, code) || Reports(y, code)
  {
    if Reports(x, code) {
      var i :| 0 <= i < |x| && x[i].code == code;
      assert (x + y)[i].code == code;
    }
    if Reports(y, code) {
      var i :| 0 <= i < |y| && y[i].code == code;
      assert (x + y)[|x| + i].code == code;
    }
  }

  lemma ReportsThree(a: bool, x: Diagnostic, b: bool, y: Diagnostic, c: bool, z: Diagnostic, code: Code)
    ensures Reports(When(a, x) + When(b, y) + When(c, z), code) <==>
            (a && x.code == code) || (b && y.code == code) || (c && z.code == code)
  {
    ReportsWhen(a, x, code);
    ReportsWhen(b, y, code);
    ReportsWhen(c, z, code);
    ReportsConcat(When(a, x), When(b, y), code);
    ReportsConcat(When(a, x) + When(b, y), When(c, z), code);
  }

  lemma ReportsFive(a: bool, x: Diagnostic, b: bool, y: Diagnostic, c: bool, z: Diagnostic,
                    d: bool, u: Diagnostic, e: bool, v: Diagnostic, code: Code)
    ensures Reports(When(a, x) + When(b, y) + When(c, z) + When(d, u) + When(e, v), code) <==>
            (a && x.code == code) || (b && y.code == code) || (c && z.code == code)
            || (d && u.code == code) || (e && v.code == code)
  {
    ReportsThree(a, x, b, y, c, z, code);
    ReportsWhen(d, u, code);
    ReportsWhen(e, v, code);
    ReportsConcat(When(a, x) + When(b, y) + When(c, z), When(d, u), code);
    ReportsConcat(When(a, x) + When(b, y) + When(c, z) + When(d, u), When(e, v), code);
  }

  /** Nothing is masked and nothing is invented: a code is reported exactly when its own condition holds. */
  lemma FindingsComplete(env: Environment, spec: ModelSpec, code: Code)
    ensures Reports(Findings(env, spec), code) <==> Raised(env, spec, code)
  {
    hide Reports, When, Text.Contains;
    ReportsThree(Leaks(env, spec), Leak, UnsafePath(env, spec), PathEscape(env, spec),
                 WindowStrained(spec), StrainedWindow(spec), code);
    ReportsConcat(DomainFindings(env, spec), StaticFindings(env, spec), code);
    if Registered(env, spec) {
      var meta := env.registry[spec.target.datasetId];
      ReportsFive(!FrequencyOk(env, spec), WrongFrequency(spec, meta), !EtsOk(spec), SeasonalGap(spec),
                  !OrderOk(spec), NegativeOrder(spec), TooComplex(spec), Overparameterized(spec),
                  !SampleOk(env, spec), ShortSample(spec, meta.rows), code);
    } else {
      ReportsOne(MissingDataset(spec), code);
    }
  }

  /** A missing dataset, leakage and an unsafe path cannot be repaired; of the others two are mere warnings. The
      findings carry the figures that they are about. */
  predicate Flagged(env: Environment, spec: ModelSpec, d: Diagnostic) {
    var fatal := d.code.DatasetNotFound? || d.code.LeakageDetected? || d.code.UnauthorizedOperation?;
    var mild := d.code.ModelComplexityExcessive? || d.code.BacktestWindowInvalid?;
    var static_ := d.code.LeakageDetected? || d.code.UnauthorizedOperation? || d.code.BacktestWindowInvalid?;
    && d.repairable == !fatal
    && d.severity == (if mild then WARNING else ERROR)
    && d.stage == (if static_ then StaticAnalysis else DomainValidation)
    && (d.code.DatasetNotFound? ==> d.evidence == RequestedDataset(spec.target.datasetId))
    && (d.code.InsufficientSample? ==>
          && spec.target.datasetId in env.registry
          && d.evidence == SampleSize(env.registry[spec.target.datasetId].rows,
                                      spec.backtest.initialWindow + spec.backtest.horizon))
    && (d.code.BacktestWindowInvalid? ==>
          d.evidence == HorizonAgainstWindow(spec.forecastHorizon, spec.backtest.initialWindow))
  }

  ghost predicate AllFlagged(env: Environment, spec: ModelSpec, ds: seq<Diagnostic>) {
    forall i | 0 <= i < |ds| :: Flagged(env, spec, ds[i])
  }

  lemma FlaggedWhen(env: Environment, spec: ModelSpec, raised: bool, d: Diagnostic)
    requires raised ==> Flagged(env, spec, d)
    ensures AllFlagged(env, spec, When(raised, d))
  {
  }

  lemma FlaggedConcat(env: Environment, spec: ModelSpec, x: seq<Diagnostic>, y: seq<Diagnostic>)
    requires AllFlagged(env, spec, x) && AllFlagged(env, spec, y)
    ensures AllFlagged(env, spec, x + y)
  {
    hide Flagged;
  }

  lemma MissingIsFlagged(env: Environment, spec: ModelSpec)
    ensures AllFlagged(env, spec, [MissingDataset(spec)])
  {
  }

  lemma DomainIsFlagged(env: Environment, spec: ModelSpec)
    ensures AllFlagged(env, spec, DomainFindings(env, spec))
  {
    hide FrequencyOk, EtsOk, OrderOk, TooComplex, SampleOk, When, AllFlagged;
    if Registered(env, spec) {
      var meta := env.registry[spec.target.datasetId];
      FlaggedWhen(env, spec, !FrequencyOk(env, spec), WrongFrequency(spec, meta));
      FlaggedWhen(env, spec, !EtsOk(spec), SeasonalGap(spec));
      FlaggedWhen(env, spec, !OrderOk(spec), NegativeOrder(spec));
      FlaggedWhen(env, spec, TooComplex(spec), Overparameterized(spec));
      FlaggedWhen(env, spec, !SampleOk(env, spec), ShortSample(spec, meta.rows));
      var a, b := When(!FrequencyOk(env, spec), WrongFrequency(spec, meta)), When(!EtsOk(spec), SeasonalGap(spec));
      var c, d := When(!OrderOk(spec), NegativeOrder(spec)), When(TooComplex(spec), Overparameterized(spec));
      FlaggedConcat(env, spec, a, b);
      FlaggedConcat(env, spec, a + b, c);
      FlaggedConcat(env, spec, a + b + c, d);
      FlaggedConcat(env, spec, a + b + c + d, When(!SampleOk(env, spec), ShortSample(spec, meta.rows)));
    } else {
      MissingIsFlagged(env, spec);
    }
  }

  lemma StaticIsFlagged(env: Environment, spec: ModelSpec)
    ensures AllFlagged(env, spec, StaticFindings(env, spec))
  {
    hide Leaks, UnsafePath, WindowStrained, When, AllFlagged;
    var a, b := When(Leaks(env, spec), Leak), When(UnsafePath(env, spec), PathEscape(env, spec));
    FlaggedWhen(env, spec, Leaks(env, spec), Leak);
    FlaggedWhen(env, spec, UnsafePath(env, spec), PathEscape(env, spec));
    FlaggedWhen(env, spec, WindowStrained(spec), StrainedWindow(spec));
    FlaggedConcat(env, spec, a, b);
    FlaggedConcat(env, spec, a + b, When(WindowStrained(spec), StrainedWindow(spec)));
  }

  lemma FindingsAreFlagged(env: Environment, spec: ModelSpec, i: nat)
    requires i < |Findings(env, spec)|
    ensures Flagged(env, spec, Findings(env, spec)[i])
  {
    hide Flagged, DomainFindings, StaticFindings;
    DomainIsFlagged(env, spec);
    StaticIsFlagged(env, spec);
    FlaggedConcat(env, spec, DomainFindings(env, spec), StaticFindings(env, spec));
  }

  predicate Fatal(code: Code) {
    code.DatasetNotFound? || code.LeakageDetected? || code.UnauthorizedOperation?
  }

  lemma BlockingFindings(env: Environment, spec: ModelSpec)
    ensures (exists i | 0 <= i < |Findings(env, spec)| :: Blocks(Findings(env, spec)[i])) <==> Blocked(env, spec)
  {
    hide Findings, Text.Contains;
    var f := Findings(env, spec);
    forall i: nat | i < |f|
      ensures Blocks(f[i]) <==> Fatal(f[i].code)
    {
      FindingsAreFlagged(env, spec, i);
    }
    forall code
      ensures Reports(f, code) <==> Raised(env, spec, code)
    {
      FindingsComplete(env, spec, code);
    }
    if Blocked(env, spec) {
      var code := if !Registered(env, spec) then DatasetNotFound
                  else if Leaks(env, spec) then LeakageDetected else UnauthorizedOperation;
      assert Raised(env, spec, code);
      var i: nat :| i < |f| && f[i].code == code;
      assert Blocks(f[i]);
    }
    if i: nat :| i < |f| && Blocks(f[i]) {
      assert Reports(f, f[i].code);
    }
  }
}
