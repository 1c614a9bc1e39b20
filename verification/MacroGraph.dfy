/** The scientific workflow: src/agent_runtime/graph/{state,nodes,edges,builder}.py. */
module MacroGraph {
  import opened Wrappers
  import opened ModelSpecs
  import opened D = Diagnostics
  import opened Compilation
  import opened Repairs

  datatype Node = GenerateSpec | ValidateSpec | CompileAndExecute | RepairSpec | FinalizeReport | End

  datatype Status = Created | Running | Completed | Failed

  datatype EventKind =
    | ModelSpecGenerated
    | SpecValidationCompleted(errorsFound: nat)
    | PlanCompiledAndExecuted
    | NumericalFailureCaptured(code: Code)
    | RepairSkippedNoErrors
    | SpecRepairedAndDegraded(proposalId: string)
    | RepairQuotaExhaustedEscalated
    | WorkflowFinalized

  datatype TraceEvent = TraceEvent(kind: EventKind, node: Node, step: nat)

  /** "Bounded Repair Engine exhausted at attempt n." */
  datatype GraphError = RepairExhausted(attempt: nat)

  datatype Report = FailureReport | ApprovalReport(artifact: string, repairRecords: nat)

  datatype GraphState = GraphState(
    next: Node,
    spec: Option<ModelSpec>,
    plan: Option<ExecutionPlan>,
    diagnostics: seq<Diagnostic>,
    history: seq<RepairProposal>,
    attempts: nat,
    status: Status,
    errors: seq<GraphError>,
    trace: seq<TraceEvent>,
    finalAnswer: Option<Report>)

  /** What a node returns. `None` leaves a field alone; the three logs are appended to. */
  datatype Updates = Updates(
    spec: Option<ModelSpec>,
    plan: Option<Option<ExecutionPlan>>,
    diagnostics: Option<seq<Diagnostic>>,
    history: seq<RepairProposal>,
    attempts: Option<nat>,
    status: Option<Status>,
    errors: seq<GraphError>,
    trace: seq<TraceEvent>,
    finalAnswer: Option<Report>)

  const NOTHING := Updates(None, None, None, [], None, None, [], [], None)

  /** The state reducers: append for history, errors and trace, override for everything else. */
  function Merge(s: GraphState, u: Updates): GraphState {
    GraphState(
      s.next,
      if u.spec.Some? then u.spec else s.spec,
      u.plan.GetOr(s.plan),
      u.diagnostics.GetOr(s.diagnostics),
      s.history + u.history,
      u.attempts.GetOr(s.attempts),
      u.status.GetOr(s.status),
      s.errors + u.errors,
      s.trace + u.trace,
      if u.finalAnswer.Some? then u.finalAnswer else s.finalAnswer)
  }

  /** Everything a run depends on: the environment, the candidate that is generated, and the plan ids drawn. */
  datatype Setting = Setting(env: Environment, candidate: ModelSpec, planIds: nat -> string)

  const MAX_REPAIRS := 2

  // ----- The nodes -----

  function Generate(w: Setting, s: GraphState): Updates {
    NOTHING.(spec := Some(w.candidate), plan := Some(None), status := Some(Running),
             trace := [TraceEvent(ModelSpecGenerated, GenerateSpec, |s.trace|)])
  }

  function Validate(w: Setting, s: GraphState): Updates
    requires s.spec.Some?
  {
    var findings := Findings(w.env, s.spec.value);
    NOTHING.(diagnostics := Some(findings),
             trace := [TraceEvent(SpecValidationCompleted(|findings|), ValidateSpec, |s.trace|)])
  }

  function ExecutionFailure(code: Code): Diagnostic {
    Diagnostic(Execution, ERROR, code, true, NoEvidence)
  }

  function CompileAndRun(w: Setting, s: GraphState): Updates
    requires s.spec.Some?
  {
    var plan := PlanFor(s.spec.value, w.planIds(|s.trace|));
    var compiled := NOTHING.(plan := Some(Some(plan)),
                             trace := [TraceEvent(PlanCompiledAndExecuted, CompileAndExecute, |s.trace|)]);
    match ExecutePlanStep(plan.steps[2])
    case NumericalFailure(code) =>
      compiled.(diagnostics := Some([ExecutionFailure(code)]),
                trace := compiled.trace +
                  [TraceEvent(NumericalFailureCaptured(code), CompileAndExecute, |s.trace| + 1)])
    case _ => compiled
  }

  function Repair(s: GraphState): Updates
    requires s.spec.Some?
  {
    if s.diagnostics == [] then
      NOTHING.(trace := [TraceEvent(RepairSkippedNoErrors, RepairSpec, |s.trace|)])
    else
      match Attempt(MAX_REPAIRS, |s.history|, s.spec.value, s.diagnostics[|s.diagnostics| - 1])
      case None =>
        NOTHING.(status := Some(Failed), errors := [RepairExhausted(s.attempts + 1)],
                 trace := [TraceEvent(RepairQuotaExhaustedEscalated, RepairSpec, |s.trace|)])
      case Some(proposal) =>
        NOTHING.(spec := Some(Redo(proposal.changes, s.spec.value)), attempts := Some(s.attempts + 1),
                 history := [proposal], diagnostics := Some([]),
                 trace := [TraceEvent(SpecRepairedAndDegraded(proposal.repairId), RepairSpec, |s.trace|)])
  }

  predicate HasBlocking(diagnostics: seq<Diagnostic>) {
    exists i | 0 <= i < |diagnostics| :: Blocks(diagnostics[i])
  }

  function Finalize(s: GraphState): Updates {
    var event := TraceEvent(WorkflowFinalized, FinalizeReport, |s.trace|);
    if s.status.Failed? || s.errors != [] || HasBlocking(s.diagnostics) then
      NOTHING.(finalAnswer := Some(FailureReport), status := Some(Failed), trace := [event])
    else
      var artifact :=
        if s.plan.Some? && s.plan.value.artifactOutputs != [] then
          s.plan.value.artifactOutputs[|s.plan.value.artifactOutputs| - 1]
        else "storage://null";
      NOTHING.(finalAnswer := Some(ApprovalReport(artifact, |s.history|)), status := Some(Completed), trace := [event])
  }

  // ----- The edges -----

  /** Route on the most recent diagnostic alone. */
  function DecideNext(diagnostics: seq<Diagnostic>): Node {
    if diagnostics == [] then CompileAndExecute
    else
      var latest := diagnostics[|diagnostics| - 1];
      if latest.severity.ERROR? && !latest.repairable then FinalizeReport
      else if latest.severity.ERROR? && latest.repairable then RepairSpec
      else CompileAndExecute
  }

  function DecideAfterExecution(diagnostics: seq<Diagnostic>): Node {
    if diagnostics != [] && diagnostics[|diagnostics| - 1].severity.ERROR? then RepairSpec else FinalizeReport
  }

  // ----- The transition relation -----

  predicate Ready(s: GraphState) {
    s.next.GenerateSpec? || s.spec.Some?
  }

  /** One node execution: run the node, merge its updates, follow the outgoing edge. */
  function Step(w: Setting, s: GraphState): (t: GraphState)
    requires Ready(s)
    ensures Ready(t)
  {
    match s.next
    case GenerateSpec => Merge(s, Generate(w, s)).(next := ValidateSpec)
    case ValidateSpec => var t := Merge(s, Validate(w, s)); t.(next := DecideNext(t.diagnostics))
    case CompileAndExecute => var t := Merge(s, CompileAndRun(w, s)); t.(next := DecideAfterExecution(t.diagnostics))
    case RepairSpec => Merge(s, Repair(s)).(next := ValidateSpec)
    case FinalizeReport => Merge(s, Finalize(s)).(next := End)
    case End => s
  }

  const START := GraphState(GenerateSpec, None, None, [], [], 0, Created, [], [], None)

  /** The state after n node executions. */
  function Run(w: Setting, n: nat): (s: GraphState)
    ensures Ready(s)
  {
    if n == 0 then START else Step(w, Run(w, n - 1))
  }

  // ----- The node bodies that work by updating things -----

  method ValidateSpecNode(w: Setting, s: GraphState) returns (u: Updates)
    requires s.spec.Some?
    ensures u == Validate(w, s)
  {
    var domain := D.ValidateSpec(w.env, s.spec.value);
    var static_ := D.AnalyzeSpec(w.env, s.spec.value);
    var all := domain + static_;
    u := NOTHING.(diagnostics := Some(all),
                  trace := [TraceEvent(SpecValidationCompleted(|all|), ValidateSpec, |s.trace|)]);
  }

  method CompileAndExecuteNode(w: Setting, s: GraphState) returns (u: Updates)
    requires s.spec.Some?
    ensures u == CompileAndRun(w, s)
  {
    var plan := CompilePlan(s.spec.value, w.planIds(|s.trace|));
    var outcome := ExecutePlanStep(plan.steps[2]);
    u := NOTHING.(plan := Some(Some(plan)),
                  trace := [TraceEvent(PlanCompiledAndExecuted, CompileAndExecute, |s.trace|)]);
    if outcome.NumericalFailure? {
      var diagnostic := Diagnostic(Execution, ERROR, outcome.code, true, NoEvidence);
      u := u.(diagnostics := Some([diagnostic]));
      u := u.(trace := u.trace +
                [TraceEvent(NumericalFailureCaptured(diagnostic.code), CompileAndExecute, |s.trace| + 1)]);
    }
  }

  /** A fresh engine is loaded with the recorded history, one proposal at a time, before it is asked to repair. */
  method RepairSpecNode(s: GraphState) returns (u: Updates)
    requires s.spec.Some?
    ensures u == Repair(s)
  {
    if s.diagnostics == [] {
      return NOTHING.(trace := [TraceEvent(RepairSkippedNoErrors, RepairSpec, |s.trace|)]);
    }
    var diagnostic := s.diagnostics[|s.diagnostics| - 1];
    var engine := new BoundedRepairEngine(MAX_REPAIRS);
    for i := 0 to |s.history|
      invariant engine.repairHistory == s.history[..i]
    {
      engine.repairHistory := engine.repairHistory + [s.history[i]];
    }
    var fixed := engine.AttemptAutoRepair(s.spec.value, diagnostic);
    if fixed.None? {
      return NOTHING.(status := Some(Failed), errors := [RepairExhausted(s.attempts + 1)],
                      trace := [TraceEvent(RepairQuotaExhaustedEscalated, RepairSpec, |s.trace|)]);
    }
    var latest := engine.repairHistory[|engine.repairHistory| - 1];
    u := NOTHING.(spec := fixed, attempts := Some(s.attempts + 1), history := [latest], diagnostics := Some([]),
                  trace := [TraceEvent(SpecRepairedAndDegraded(latest.repairId), RepairSpec, |s.trace|)]);
  }

  // ----- The graph builder -----

  datatype Router = OnDiagnostics | AfterExecution

  datatype Topology = Topology(
    nodes: set<Node>,
    entry: Option<Node>,
    edges: map<Node, Node>,
    routers: map<Node, Router>,
    targets: map<Node, set<Node>>)

  const EMPTY_TOPOLOGY := Topology({}, None, map[], map[], map[])

  /** The object that the builder's calls register nodes and edges on. */
  class Workflow {
    var topology: Topology

    constructor ()
      ensures topology == EMPTY_TOPOLOGY
    {
      topology := EMPTY_TOPOLOGY;
    }

    method AddNode(n: Node)
      modifies this
      ensures topology == old(topology).(nodes := old(topology).nodes + {n})
    {
      topology := topology.(nodes := topology.nodes + {n});
    }

    method SetEntry(n: Node)
      modifies this
      ensures topology == old(topology).(entry := Some(n))
    {
      topology := topology.(entry := Some(n));
    }

    method AddEdge(from: Node, to: Node)
      modifies this
      ensures topology == old(topology).(edges := old(topology).edges[from := to])
    {
      topology := topology.(edges := topology.edges[from := to]);
    }

    method AddConditionalEdges(from: Node, router: Router, to: set<Node>)
      modifies this
      ensures topology == old(topology).(routers := old(topology).routers[from := router],
                                         targets := old(topology).targets[from := to])
    {
      topology := topology.(routers := topology.routers[from := router], targets := topology.targets[from := to]);
    }
  }

  const MACRO_TOPOLOGY := Topology(
    {GenerateSpec, ValidateSpec, CompileAndExecute, RepairSpec, FinalizeReport},
    Some(GenerateSpec),
    map[GenerateSpec := ValidateSpec, RepairSpec := ValidateSpec, FinalizeReport := End],
    map[ValidateSpec := OnDiagnostics, CompileAndExecute := AfterExecution],
    map[ValidateSpec := {RepairSpec, CompileAndExecute, FinalizeReport},
        CompileAndExecute := {RepairSpec, FinalizeReport}])

  method CreateMacroAgentGraph() returns (g: Workflow)
    ensures fresh(g) && g.topology == MACRO_TOPOLOGY
  {
    g := new Workflow();
    g.AddNode(GenerateSpec);
    g.AddNode(ValidateSpec);
    g.AddNode(CompileAndExecute);
    g.AddNode(RepairSpec);
    g.AddNode(FinalizeReport);
    g.SetEntry(GenerateSpec);
    g.AddEdge(GenerateSpec, ValidateSpec);
    g.AddConditionalEdges(ValidateSpec, OnDiagnostics, {RepairSpec, CompileAndExecute, FinalizeReport});
    g.AddEdge(RepairSpec, ValidateSpec);
    g.AddConditionalEdges(CompileAndExecute, AfterExecution, {RepairSpec, FinalizeReport});
    g.AddEdge(FinalizeReport, End);
  }

  /** The node that follows `from` once it has left `diagnostics` behind, read off the registered edges.
      There is none when `from` has two ways out, or when its router answers with an unregistered target. */
  function Follow(g: Topology, from: Node, diagnostics: seq<Diagnostic>): Option<Node> {
    if from in g.edges && from !in g.routers then Some(g.edges[from])
    else if from !in g.edges && from in g.routers && from in g.targets then
      var chosen := match g.routers[from]
                    case OnDiagnostics => DecideNext(diagnostics)
                    case AfterExecution => DecideAfterExecution(diagnostics);
      if chosen in g.targets[from] then Some(chosen) else None
    else None
  }

  /** The built graph has exactly one way on from each registered node, and it is the way `Step` takes. */
  lemma StepFollowsTopology(w: Setting, s: GraphState)
    requires Ready(s) && !s.next.End?
    ensures MACRO_TOPOLOGY.entry == Some(START.next) && s.next in MACRO_TOPOLOGY.nodes
    ensures Follow(MACRO_TOPOLOGY, s.next, Step(w, s).diagnostics) == Some(Step(w, s).next)
  {
    hide Findings, PlanFor, ExecutePlanStep, Attempt, Redo;
    var t := Step(w, s).diagnostics;
    assert DecideNext(t) in {RepairSpec, CompileAndExecute, FinalizeReport};
    assert DecideAfterExecution(t) in {RepairSpec, FinalizeReport};
  }
}
