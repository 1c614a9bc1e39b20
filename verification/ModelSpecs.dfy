/** The intermediate representation of src/agent_runtime/scientific/modelspec.py. */
module ModelSpecs {
  import opened Wrappers

  datatype Frequency = Daily | Weekly | Monthly | Quarterly

  datatype SeriesRef = SeriesRef(datasetId: string, column: string, frequency: Frequency)

  datatype TransformationKind = Identity | Log | Difference | SeasonalDifference

  datatype TransformationSpec =
    TransformationSpec(kind: TransformationKind, order: int, seasonalPeriod: Option<int>)

  datatype Metric = Mae | Rmse | Mape

  datatype BacktestSpec =
    BacktestSpec(horizon: int, initialWindow: int, stepSize: int, metrics: seq<Metric>)

  datatype Component = Absent | Additive

  /** The discriminated union over `family`. */
  datatype Model =
    | SeasonalNaive(period: int)
    | Ets(trend: Component, seasonal: Component, seasonalPeriod: Option<int>)
    | Arima(p: int, d: int, q: int, seasonalOrder: Option<(int, int, int, int)>)
  {
    function Family(): string {
      match this
      case SeasonalNaive(_) => "seasonal_naive"
      case Ets(_, _, _) => "ets"
      case Arima(_, _, _, _) => "arima"
    }
  }

  datatype ModelSpec = ModelSpec(
    specVersion: string,
    target: SeriesRef,
    transformations: seq<TransformationSpec>,
    model: Model,
    backtest: BacktestSpec,
    forecastHorizon: int,
    requireHumanApproval: bool,
    rationale: string)

  predicate PositiveIfGiven(n: Option<int>) {
    n.Some? ==> n.value > 0
  }

  /** The field bounds that the schema enforces when a spec is constructed. */
  predicate SchemaValid(spec: ModelSpec) {
    && 0 < spec.backtest.horizon <= 60
    && 0 < spec.backtest.initialWindow
    && 0 < spec.backtest.stepSize
    && 0 < spec.forecastHorizon <= 60
    && (forall t | t in spec.transformations :: 0 <= t.order <= 3 && PositiveIfGiven(t.seasonalPeriod))
    && match spec.model
       case SeasonalNaive(period) => 0 < period
       case Ets(_, _, period) => PositiveIfGiven(period)
       case Arima(_, _, _, _) => true
  }
}
