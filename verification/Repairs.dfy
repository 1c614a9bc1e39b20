/** The bounded repair engine: src/agent_runtime/scientific/repairs.py. */
module Repairs {
  import opened Numbers
  import opened Wrappers
  import opened ModelSpecs
  import opened Diagnostics
  import Compilation
  import Text

  /** The parameter diff that a repair records. */
  datatype Changes =
    | OrderChange(oldOrder: (int, int, int), newOrder: (int, int, int))
    | WindowChange(oldWindow: int, newWindow: int)

  datatype RepairProposal = RepairProposal(
    repairId: string,
    code: Code,
    changes: Changes,
    attemptNumber: nat)

  /** `diagnostic.evidence.get("actual_rows", 20)`. */
  function ActualRows(evidence: Evidence): int {
    match evidence
    case SampleSize(rows, _) => rows
    case _ => 20
  }

  function ContractedWindow(spec: ModelSpec, rows: int): int {
    Max(10, rows - spec.backtest.horizon - 2)
  }

  function WithWindow(spec: ModelSpec, window: int): ModelSpec {
    spec.(backtest := spec.backtest.(initialWindow := window))
  }

  function WithOrder(spec: ModelSpec, order: (int, int, int)): ModelSpec
    requires spec.model.Arima?
  {
    spec.(model := Arima(order.0, order.1, order.2, spec.model.seasonalOrder))
  }

  /** The change a repair of this diagnostic makes, if there is a strategy for it. */
  function Strategy(spec: ModelSpec, diagnostic: Diagnostic): Option<Changes> {
    if diagnostic.code.ArimaNonConvergence? && spec.model.Arima? then
      Some(OrderChange((spec.model.p, spec.model.d, spec.model.q), (1, spec.model.d, 1)))
    else if diagnostic.code.InsufficientSample? then
      Some(WindowChange(spec.backtest.initialWindow, ContractedWindow(spec, ActualRows(diagnostic.evidence))))
    else
      None
  }

  /** A repair happens exactly when the budget allows it, the diagnostic permits it and a strategy exists. */
  function Attempt(maxAttempts: int, used: nat, spec: ModelSpec, diagnostic: Diagnostic): Option<RepairProposal> {
    if used + 1 > maxAttempts || !diagnostic.repairable then None
    else match Strategy(spec, diagnostic)
      case None => None
      case Some(changes) =>
        var prefix := if changes.OrderChange? then "rep_arima_non_convergence_" else "rep_sample_";
        Some(RepairProposal(prefix + Text.Decimal(used + 1), diagnostic.code, changes, used + 1))
  }

  // ----- Reading the log -----

  /** An order change concerns ARIMA models only; any other model is left as it is. */
  function Redo(changes: Changes, spec: ModelSpec): ModelSpec {
    match changes
    case OrderChange(_, order) => if spec.model.Arima? then WithOrder(spec, order) else spec
    case WindowChange(_, window) => WithWindow(spec, window)
  }

  function Undo(changes: Changes, spec: ModelSpec): ModelSpec {
    match changes
    case OrderChange(order, _) => if spec.model.Arima? then WithOrder(spec, order) else spec
    case WindowChange(window, _) => WithWindow(spec, window)
  }

  /** The spec that a log of repairs leads to from `spec`. */
  function RedoAll(spec: ModelSpec, log: seq<RepairProposal>): ModelSpec {
    if log == [] then spec else Redo(log[|log| - 1].changes, RedoAll(spec, log[..|log| - 1]))
  }

  /** The spec that a log of repairs came from, undoing the latest first. */
  function UndoAll(spec: ModelSpec, log: seq<RepairProposal>): ModelSpec
    decreases |log|
  {
    if log == [] then spec else UndoAll(Undo(log[|log| - 1].changes, spec), log[..|log| - 1])
  }

  class BoundedRepairEngine {
    const maxAttempts: int
    var repairHistory: seq<RepairProposal>

    constructor (maxAttempts: int)
      ensures this.maxAttempts == maxAttempts && repairHistory == []
    {
      this.maxAttempts := maxAttempts;
      repairHistory := [];
    }

    /** `None` leaves the history alone; a repaired spec comes with the proposal that turns `spec` into it. */
    method AttemptAutoRepair(spec: ModelSpec, diagnostic: Diagnostic) returns (fixed: Option<ModelSpec>)
      modifies this`repairHistory
      ensures match Attempt(maxAttempts, |old(repairHistory)|, spec, diagnostic)
              case None => fixed.None? && repairHistory == old(repairHistory)
              case Some(proposal) =>
                && repairHistory == old(repairHistory) + [proposal]
                && fixed == Some(Redo(proposal.changes, spec))
    {
      var currentAttempt := |repairHistory| + 1;
      if currentAttempt > maxAttempts {
        return None;
      }
      if !diagnostic.repairable {
        return None;
      }
      if diagnostic.code == ArimaNonConvergence && spec.model.Arima? {
        var oldOrder := (spec.model.p, spec.model.d, spec.model.q);
        var newOrder := (1, spec.model.d, 1);
        var proposal := RepairProposal("rep_arima_non_convergence_" + Text.Decimal(currentAttempt), diagnostic.code,
                                       OrderChange(oldOrder, newOrder), currentAttempt);
        repairHistory := repairHistory + [proposal];
        var updatedSpec := spec;
        updatedSpec := updatedSpec.(model := Arima(1, spec.model.d, 1, spec.model.seasonalOrder));
        return Some(updatedSpec);
      }
      if diagnostic.code == InsufficientSample {
        var actualRows := ActualRows(diagnostic.evidence);
        var newWindow := Max(10, actualRows - spec.backtest.horizon - 2);
        var proposal := RepairProposal("rep_sample_" + Text.Decimal(currentAttempt), diagnostic.code,
                                       WindowChange(spec.backtest.initialWindow, newWindow), currentAttempt);
        repairHistory := repairHistory + [proposal];
        var updatedSpec := spec;
        updatedSpec := updatedSpec.(backtest := updatedSpec.backtest.(initialWindow := newWindow));
        return Some(updatedSpec);
      }
      return None;
    }
  }

  /** When a repair is made, and what it leaves: a first-order model with the same differencing, or a window that
      spares two rows beside the horizon, but never fewer than ten. */
  lemma AttemptIs(maxAttempts: int, used: nat, spec: ModelSpec, diagnostic: Diagnostic)
    ensures var a := Attempt(maxAttempts, used, spec, diagnostic);
            && (a.Some? <==>
                  && used < maxAttempts && diagnostic.repairable
                  && (|| (diagnostic.code.ArimaNonConvergence? && spec.model.Arima?)
                      || diagnostic.code.InsufficientSample?))
            && (a.Some? ==> a.value.attemptNumber == used + 1 && a.value.code == diagnostic.code)
            && (a.Some? && diagnostic.code.ArimaNonConvergence? ==>
                  && a.value.repairId == "rep_arima_non_convergence_" + Text.Decimal(used + 1)
                  && Redo(a.value.changes, spec) ==
                     spec.(model := Arima(1, spec.model.d, 1, spec.model.seasonalOrder)))
            && (a.Some? && diagnostic.code.InsufficientSample? ==>
                  && a.value.repairId == "rep_sample_" + Text.Decimal(used + 1)
                  && var window := Redo(a.value.changes, spec).backtest.initialWindow;
                     && Redo(a.value.changes, spec) ==
                        spec.(backtest := spec.backtest.(initialWindow := window))
                     && window >= 10
                     && (diagnostic.evidence.SampleSize? ==>
                           && window + spec.backtest.horizon + 2 >= diagnostic.evidence.actualRows
                           && (window > 10 ==> window + spec.backtest.horizon + 2 == diagnostic.evidence.actualRows)))
  {
    hide Text.Decimal;
  }

  // ----- What a single repair achieves -----

  function SampleRepaired(env: Environment, spec: ModelSpec): ModelSpec
    requires Registered(env, spec)
  {
    WithWindow(spec, ContractedWindow(spec, env.registry[spec.target.datasetId].rows))
  }

  function OrderRepaired(spec: ModelSpec): ModelSpec
    requires spec.model.Arima?
  {
    WithOrder(spec, (1, spec.model.d, 1))
  }

  /** A finding that makes a spec inadmissible, as opposed to a warning. */
  predicate IsDomainError(code: Code) {
    code in {DatasetNotFound, FrequencyMismatch, InvalidSeasonalPeriod, SchemaValidationFailure, InsufficientSample}
  }

  /** Contracting the window cures a short sample exactly when ten rows are left after the horizon.
      It shrinks the window exactly when the window was above ten, and repeating it changes nothing. */
  lemma SampleRepairArithmetic(env: Environment, spec: ModelSpec)
    requires Registered(env, spec) && !SampleOk(env, spec)
    ensures var fixed := SampleRepaired(env, spec);
            var rows := env.registry[spec.target.datasetId].rows;
            && (SampleOk(env, fixed) <==> rows - spec.backtest.horizon >= 10)
            && (fixed.backtest.initialWindow < spec.backtest.initialWindow <==> spec.backtest.initialWindow > 10)
            && (SampleOk(env, fixed) ==> fixed.backtest.initialWindow < spec.backtest.initialWindow)
            && SampleRepaired(env, fixed) == fixed
  {
  }

  /** Neither repair introduces a domain error or leaves the schema; the order repair always cures divergence. */
  lemma RepairsDoNoHarm(env: Environment, spec: ModelSpec, code: Code)
    requires Registered(env, spec) && IsDomainError(code)
    ensures !SampleOk(env, spec) && Raised(env, SampleRepaired(env, spec), code) ==> Raised(env, spec, code)
    ensures SchemaValid(spec) ==> SchemaValid(SampleRepaired(env, spec))
    ensures spec.model.Arima? ==>
              && !Compilation.Diverges(OrderRepaired(spec))
              && (Raised(env, OrderRepaired(spec), code) ==> Raised(env, spec, code))
              && (SchemaValid(spec) ==> SchemaValid(OrderRepaired(spec)))
  {
  }
}
