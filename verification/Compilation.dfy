/** Plans and their execution: src/agent_runtime/scientific/{compiler,executor}.py. */
module Compilation {
  import opened Wrappers
  import opened ModelSpecs
  import D = Diagnostics
  import Text

  datatype Parameters =
    | LoadDataset(datasetId: string, column: string)
    | ApplyTransformations(transforms: seq<TransformationSpec>)
    | Fit(model: Model, backtest: BacktestSpec)
    | Forecast(horizon: int)

  datatype ExecutionStep = ExecutionStep(
    stepId: string,
    operation: string,
    parameters: Parameters,
    dependsOn: seq<string>,
    timeoutSeconds: nat,
    idempotencyKey: string,
    expectedArtifactOutput: string)

  datatype ExecutionPlan = ExecutionPlan(
    planId: string,
    specVersion: string,
    steps: seq<ExecutionStep>,
    artifactOutputs: seq<string>,
    requiresHumanApproval: bool)

  const TIMEOUT: nat := 20

  function LoadStep(spec: ModelSpec, planId: string): ExecutionStep {
    ExecutionStep("step_1_load_" + Text.Take(spec.target.datasetId, 6), "load_dataset",
                  LoadDataset(spec.target.datasetId, spec.target.column), [], TIMEOUT,
                  "idem_" + planId + "_load", "artifacts/" + planId + "/raw_series.pkl")
  }

  function TransformStep(spec: ModelSpec, planId: string): ExecutionStep {
    ExecutionStep("step_2_transform", "apply_transformations",
                  ApplyTransformations(spec.transformations), [LoadStep(spec, planId).stepId], TIMEOUT,
                  "idem_" + planId + "_trans", "artifacts/" + planId + "/stationary_series.pkl")
  }

  function FitStep(spec: ModelSpec, planId: string): ExecutionStep {
    ExecutionStep("step_3_fit_" + spec.model.Family(), "fit_" + spec.model.Family(),
                  Fit(spec.model, spec.backtest), [TransformStep(spec, planId).stepId], TIMEOUT,
                  "idem_" + planId + "_fit", "artifacts/" + planId + "/fitted_metrics.json")
  }

  function ForecastStep(spec: ModelSpec, planId: string): ExecutionStep {
    ExecutionStep("step_4_forecast", "generate_forecast",
                  Forecast(spec.forecastHorizon), [FitStep(spec, planId).stepId], TIMEOUT,
                  "idem_" + planId + "_fore", "artifacts/" + planId + "/forecast_report.csv")
  }

  function Artifacts(steps: seq<ExecutionStep>): seq<string> {
    seq(|steps|, i requires 0 <= i < |steps| => steps[i].expectedArtifactOutput)
  }

  function PlanFor(spec: ModelSpec, planId: string): (plan: ExecutionPlan)
    ensures plan.planId == planId && |plan.steps| == |plan.artifactOutputs| == 4
  {
    var steps := [LoadStep(spec, planId), TransformStep(spec, planId),
                  FitStep(spec, planId), ForecastStep(spec, planId)];
    ExecutionPlan(planId, spec.specVersion, steps, Artifacts(steps), spec.requireHumanApproval)
  }

  /** The compiler: four appends, then the plan. `planId` stands for the fresh uuid-based identifier. */
  method CompilePlan(spec: ModelSpec, planId: string) returns (plan: ExecutionPlan)
    ensures plan == PlanFor(spec, planId)
  {
    var steps: seq<ExecutionStep> := [];
    var load := LoadStep(spec, planId);
    steps := steps + [load];
    var transform := TransformStep(spec, planId);
    steps := steps + [transform];
    var fit := FitStep(spec, planId);
    steps := steps + [fit];
    var forecast := ForecastStep(spec, planId);
    steps := steps + [forecast];
    plan := ExecutionPlan(planId, spec.specVersion, steps, Artifacts(steps), spec.requireHumanApproval);
  }

  /** Every step depends only on steps before it, and the identifiers and keys that name steps are distinct. */
  ghost predicate DependencyOrdered(plan: ExecutionPlan) {
    && (forall i, dep | 0 <= i < |plan.steps| && dep in plan.steps[i].dependsOn ::
          exists j | 0 <= j < i :: plan.steps[j].stepId == dep)
    && (forall i, j | 0 <= i < j < |plan.steps| ::
          && plan.steps[i].stepId != plan.steps[j].stepId
          && plan.steps[i].idempotencyKey != plan.steps[j].idempotencyKey
          && plan.steps[i].expectedArtifactOutput != plan.steps[j].expectedArtifactOutput)
  }

  lemma SamePrefix(prefix: string, x: string, y: string)
    ensures prefix + x == prefix + y ==> x == y
  {
    assert (prefix + x)[|prefix|..] == x && (prefix + y)[|prefix|..] == y;
  }

  lemma PlanIsDependencyOrdered(spec: ModelSpec, planId: string)
    ensures DependencyOrdered(PlanFor(spec, planId))
  {
    var steps := PlanFor(spec, planId).steps;
    forall i, dep | 0 <= i < |steps| && dep in steps[i].dependsOn
      ensures exists j | 0 <= j < i :: steps[j].stepId == dep
    {
      assert steps[i - 1].stepId == dep;
    }
    var keys := ["_load", "_trans", "_fit", "_fore"];
    var outs := ["/raw_series.pkl", "/stationary_series.pkl", "/fitted_metrics.json", "/forecast_report.csv"];
    forall i, j | 0 <= i < j < |steps|
      ensures && steps[i].stepId != steps[j].stepId
              && steps[i].idempotencyKey != steps[j].idempotencyKey
              && steps[i].expectedArtifactOutput != steps[j].expectedArtifactOutput
    {
      assert steps[i].stepId[5] != steps[j].stepId[5];
      assert keys[i][1] != keys[j][1] || keys[i][2] != keys[j][2];
      assert outs[i][1] != outs[j][1] || outs[i][2] != outs[j][2];
      SamePrefix("idem_" + planId, keys[i], keys[j]);
      SamePrefix("artifacts/" + planId, outs[i], outs[j]);
    }
  }

  /** What every compiled plan consists of: which operation each step names, which fields of the spec it carries, what
      it depends on and produces, and that the plan lists exactly these products, in step order. */
  lemma PlanContents(spec: ModelSpec, planId: string)
    ensures var plan := PlanFor(spec, planId);
            var steps := plan.steps;
            && |steps| == 4 && |plan.artifactOutputs| == 4
            && plan.planId == planId && plan.specVersion == spec.specVersion
            && plan.requiresHumanApproval == spec.requireHumanApproval
            && steps[0].operation == "load_dataset"
            && steps[0].parameters == LoadDataset(spec.target.datasetId, spec.target.column)
            && steps[1].operation == "apply_transformations"
            && steps[1].parameters == ApplyTransformations(spec.transformations)
            && steps[2].operation == "fit_" + spec.model.Family()
            && steps[2].parameters == Fit(spec.model, spec.backtest)
            && steps[3].operation == "generate_forecast" && steps[3].parameters == Forecast(spec.forecastHorizon)
            && (forall i | 0 <= i < 4 ::
                  && steps[i].timeoutSeconds == 20
                  && steps[i].dependsOn == (if i == 0 then [] else [steps[i - 1].stepId])
                  && plan.artifactOutputs[i] == steps[i].expectedArtifactOutput)
            && plan.artifactOutputs[0] == "artifacts/" + planId + "/raw_series.pkl"
            && plan.artifactOutputs[1] == "artifacts/" + planId + "/stationary_series.pkl"
            && plan.artifactOutputs[2] == "artifacts/" + planId + "/fitted_metrics.json"
            && plan.artifactOutputs[3] == "artifacts/" + planId + "/forecast_report.csv"
  {
  }

  // ----- The deterministic executor -----

  datatype StepOutcome =
    | Succeeded
    | NumericalFailure(code: D.Code)
    | Fatal(code: D.Code)

  /** The executor's allowlist. */
  const APPROVED := {"load_dataset", "apply_transformations", "fit_arima", "generate_forecast"}

  /** `params.get("model_spec", {}).get("order", (0, 0, 0))`. */
  function OrderOf(parameters: Parameters): (int, int, int) {
    if parameters.Fit? && parameters.model.Arima? then
      (parameters.model.p, parameters.model.d, parameters.model.q)
    else
      (0, 0, 0)
  }

  function ExecuteFitArima(parameters: Parameters): StepOutcome {
    var (p, _, q) := OrderOf(parameters);
    if p + q > 5 then NumericalFailure(D.ArimaNonConvergence) else Succeeded
  }

  function ExecutePlanStep(step: ExecutionStep): StepOutcome {
    if step.operation !in APPROVED then Fatal(D.UnauthorizedOperation)
    else if step.operation == "fit_arima" then ExecuteFitArima(step.parameters)
    else Succeeded
  }

  predicate Diverges(spec: ModelSpec) {
    spec.model.Arima? && spec.model.p + spec.model.q > 5
  }

  /** What fitting any compiled plan does: only ARIMA is approved, and it converges up to combined order five. */
  lemma FitOutcome(spec: ModelSpec, planId: string)
    ensures ExecutePlanStep(PlanFor(spec, planId).steps[2]) ==
            if !spec.model.Arima? then Fatal(D.UnauthorizedOperation)
            else if Diverges(spec) then NumericalFailure(D.ArimaNonConvergence)
            else Succeeded
  {
    var operation := PlanFor(spec, planId).steps[2].operation;
    if !spec.model.Arima? {
      assert operation[..4] == "fit_";
      assert operation[4] != 'a';
      assert "load_dataset"[0] != 'f' && "apply_transformations"[0] != 'f' && "generate_forecast"[0] != 'f';
      assert "fit_arima"[4] == 'a';
    } else {
      assert operation == "fit_arima";
    }
  }
}
