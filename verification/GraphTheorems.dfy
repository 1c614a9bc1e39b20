/** What every run of the scientific workflow keeps, when it ends, and with which verdict. */
module GraphTheorems {
  import opened Wrappers
  import opened ModelSpecs
  import opened Diagnostics
  import opened Compilation
  import opened Repairs
  import opened MacroGraph

  // ----- The invariant of reachable states -----

  /** Repairs touch the window and the ARIMA p and q, and nothing else. */
  predicate SameExceptRepairs(a: ModelSpec, b: ModelSpec) {
    && a.(model := b.model, backtest := b.backtest) == b
    && WithWindow(a, b.backtest.initialWindow).backtest == b.backtest
    && match a.model
       case Arima(_, d, _, seasonal) => b.model.Arima? && b.model.d == d && b.model.seasonalOrder == seasonal
       case _ => b.model == a.model
  }

  predicate Route(w: Setting, spec: ModelSpec, target: Node) {
    DecideNext(Findings(w.env, spec)) == target
  }

  predicate Audited(w: Setting, spec: ModelSpec, history: seq<RepairProposal>) {
    && RedoAll(w.candidate, history) == spec
    && UndoAll(spec, history) == w.candidate
    && forall i | 0 <= i < |history| :: history[i].attemptNumber == i + 1
  }

  /** The state holds the plan of the spec, under the id drawn when the plan was compiled: its event is the last one
      before the report, and the report's own event follows it at the end. */
  predicate Planned(w: Setting, s: GraphState, spec: ModelSpec) {
    var back := if s.next.End? then 2 else 1;
    |s.trace| >= back && s.plan == Some(PlanFor(spec, w.planIds(|s.trace| - back)))
  }

  /** Where the diagnostics came from, given the node that reads them next. */
  predicate Provenance(w: Setting, s: GraphState)
    requires s.spec.Some?
  {
    var spec := s.spec.value;
    var findings := Findings(w.env, spec);
    match s.next
    case GenerateSpec => false
    case ValidateSpec => true
    case CompileAndExecute => s.diagnostics == findings && Route(w, spec, CompileAndExecute)
    case RepairSpec =>
      || (s.diagnostics == findings && Route(w, spec, RepairSpec))
      || (&& s.diagnostics == [ExecutionFailure(ArimaNonConvergence)]
          && Route(w, spec, CompileAndExecute) && Diverges(spec))
    case _ =>
      && s.diagnostics == findings
      && (|| Route(w, spec, FinalizeReport)
          || (Route(w, spec, CompileAndExecute) && !Diverges(spec) && Planned(w, s, spec)))
  }

  predicate Invariant(w: Setting, s: GraphState) {
    && (s.next.GenerateSpec? ==> s == START)
    && (!s.next.GenerateSpec? ==>
          && s.spec.Some?
          && Provenance(w, s)
          && Audited(w, s.spec.value, s.history)
          && SameExceptRepairs(w.candidate, s.spec.value))
    && s.attempts == |s.history| <= MAX_REPAIRS
    && (forall i | 0 <= i < |s.trace| :: s.trace[i].step == i)
    && (s.status.Completed? ==> s.next.End?)
  }

  lemma AttemptChanges(used: nat, spec: ModelSpec, diagnostic: Diagnostic)
    ensures var a := Attempt(MAX_REPAIRS, used, spec, diagnostic);
            a.Some? ==>
              && used < MAX_REPAIRS && a.value.attemptNumber == used + 1
              && Undo(a.value.changes, Redo(a.value.changes, spec)) == spec
              && SameExceptRepairs(spec, Redo(a.value.changes, spec))
  {
  }

  lemma AuditExtends(w: Setting, spec: ModelSpec, history: seq<RepairProposal>, proposal: RepairProposal)
    requires Audited(w, spec, history)
    requires proposal.attemptNumber == |history| + 1
    requires Undo(proposal.changes, Redo(proposal.changes, spec)) == spec
    ensures Audited(w, Redo(proposal.changes, spec), history + [proposal])
  {
    var log := history + [proposal];
    assert log[..|log| - 1] == history;
  }

  // One node at a time.

  lemma GenerateKeepsInvariant(w: Setting, s: GraphState)
    requires s.next.GenerateSpec? && Invariant(w, s)
    ensures Invariant(w, Step(w, s))
  {
    hide Findings, PlanFor, Redo, Undo;
  }

  lemma ValidateKeepsInvariant(w: Setting, s: GraphState)
    requires s.next.ValidateSpec? && Invariant(w, s)
    ensures Invariant(w, Step(w, s))
  {
    hide Findings, PlanFor, Audited, SameExceptRepairs;
    assert s.history + [] == s.history;
  }

  lemma CompileKeepsInvariant(w: Setting, s: GraphState)
    requires s.next.CompileAndExecute? && Invariant(w, s)
    ensures Invariant(w, Step(w, s))
  {
    hide Findings, PlanFor, ExecutePlanStep, Audited, SameExceptRepairs;
    assert s.history + [] == s.history;
    FitOutcome(s.spec.value, w.planIds(|s.trace|));
  }

  lemma RepairKeepsInvariant(w: Setting, s: GraphState)
    requires s.next.RepairSpec? && Invariant(w, s)
    ensures Invariant(w, Step(w, s))
  {
    hide Findings, PlanFor, Attempt, Redo, Undo, Audited;
    assert s.history + [] == s.history;
    if s.diagnostics != [] {
      var diagnostic := s.diagnostics[|s.diagnostics| - 1];
      AttemptChanges(|s.history|, s.spec.value, diagnostic);
      var a := Attempt(MAX_REPAIRS, |s.history|, s.spec.value, diagnostic);
      if a.Some? {
        AuditExtends(w, s.spec.value, s.history, a.value);
      }
    }
  }

  lemma FinalizeKeepsInvariant(w: Setting, s: GraphState)
    requires s.next.FinalizeReport? && Invariant(w, s)
    ensures Invariant(w, Step(w, s))
  {
    hide Findings, PlanFor, Audited, SameExceptRepairs;
    assert s.history + [] == s.history;
  }

  lemma StepKeepsInvariant(w: Setting, s: GraphState, t: GraphState)
    requires Ready(s) && Invariant(w, s) && t == Step(w, s)
    ensures Invariant(w, t)
  {
    hide Invariant, Merge;
    match s.next
    case GenerateSpec => GenerateKeepsInvariant(w, s);
    case ValidateSpec => ValidateKeepsInvariant(w, s);
    case CompileAndExecute => CompileKeepsInvariant(w, s);
    case RepairSpec => RepairKeepsInvariant(w, s);
    case FinalizeReport => FinalizeKeepsInvariant(w, s);
    case End =>
  }

  /** Every reachable state: a gap-free trace, a counted and bounded history, and a log that is a complete,
      invertible account of how the current spec came from the generated one. */
  lemma {:induction false} ReachableInvariant(w: Setting, n: nat)
    ensures Invariant(w, Run(w, n))
  {
    hide Findings, PlanFor, ExecutePlanStep, Attempt, Step, Provenance, Audited;
    if n > 0 {
      ReachableInvariant(w, n - 1);
      StepKeepsInvariant(w, Run(w, n - 1), Run(w, n));
    }
  }

  // ----- When a run ends -----

  /** A visit to the repair node that the engine turns down. */
  predicate Refusal(s: GraphState) {
    && s.next.RepairSpec? && s.spec.Some? && s.diagnostics != []
    && Attempt(MAX_REPAIRS, |s.history|, s.spec.value, s.diagnostics[|s.diagnostics| - 1]).None?
  }

  /** Whether a run at the validator gets to the end, and if so after how many nodes and with which spec. */
  datatype Fate = Ends(nodes: nat, final: ModelSpec) | Cycles

  function After(nodes: nat, fate: Fate): Fate {
    match fate
    case Ends(more, final) => Ends(nodes + more, final)
    case Cycles => Cycles
  }

  function FateOf(env: Environment, spec: ModelSpec, used: nat): Fate
    decreases MAX_REPAIRS - used
  {
    var findings := Findings(env, spec);
    var route := DecideNext(findings);
    if route.FinalizeReport? then Ends(2, spec)
    else if route.RepairSpec? then
      match Attempt(MAX_REPAIRS, used, spec, findings[|findings| - 1])
      case None => Cycles
      case Some(p) => After(2, FateOf(env, Redo(p.changes, spec), used + 1))
    else if !Diverges(spec) then Ends(3, spec)
    else
      match Attempt(MAX_REPAIRS, used, spec, ExecutionFailure(ArimaNonConvergence))
      case None => Cycles
      case Some(p) => After(3, FateOf(env, Redo(p.changes, spec), used + 1))
  }

  /** A run at the validator. */
  predicate AtValidator(w: Setting, n: nat) {
    Run(w, n).next.ValidateSpec?
  }

  predicate EndsAt(w: Setting, n: nat) {
    Run(w, n).next.End?
  }

  predicate RefusedAt(w: Setting, n: nat) {
    Refusal(Run(w, n))
  }

  /** Being refused once means cycling through validate, (compile,) repair for ever with the same spec and history. */
  predicate InCycle(w: Setting, spec: ModelSpec, used: nat, s: GraphState) {
    && s.spec == Some(spec) && |s.history| == used
    && FateOf(w.env, spec, used).Cycles?
    && (|| (&& Route(w, spec, RepairSpec)
            && Attempt(MAX_REPAIRS, used, spec, Findings(w.env, spec)[|Findings(w.env, spec)| - 1]).None?
            && (s.next.ValidateSpec? || (s.next.RepairSpec? && s.diagnostics == Findings(w.env, spec))))
        || (&& Route(w, spec, CompileAndExecute) && Diverges(spec)
            && Attempt(MAX_REPAIRS, used, spec, ExecutionFailure(ArimaNonConvergence)).None?
            && (|| s.next.ValidateSpec? || s.next.CompileAndExecute?
                || (s.next.RepairSpec? && s.diagnostics == [ExecutionFailure(ArimaNonConvergence)]))))
  }

  lemma CycleGoesOn(w: Setting, spec: ModelSpec, used: nat, s: GraphState)
    requires Ready(s) && InCycle(w, spec, used, s)
    ensures InCycle(w, spec, used, Step(w, s))
  {
    hide Findings, PlanFor, ExecutePlanStep, Attempt;
    FitOutcome(spec, w.planIds(|s.trace|));
  }

  lemma {:induction false} CycleForever(w: Setting, spec: ModelSpec, used: nat, n: nat, m: nat)
    requires InCycle(w, spec, used, Run(w, n)) && n <= m
    ensures InCycle(w, spec, used, Run(w, m)) && !EndsAt(w, m)
    decreases m - n
  {
    hide Findings, Step;
    if n < m {
      CycleGoesOn(w, spec, used, Run(w, n));
      CycleForever(w, spec, used, n + 1, m);
    }
  }

  // One node at a time, from the validator on.

  predicate Holds(s: GraphState, next: Node, spec: ModelSpec, used: nat, diagnostics: seq<Diagnostic>) {
    s.next == next && s.spec == Some(spec) && |s.history| == used && s.diagnostics == diagnostics
  }

  lemma AfterValidation(w: Setting, n: nat)
    requires AtValidator(w, n)
    ensures var s := Run(w, n);
            s.spec.Some? &&
            var findings := Findings(w.env, s.spec.value);
            Holds(Run(w, n + 1), DecideNext(findings), s.spec.value, |s.history|, findings)
  {
    hide Findings;
    ReachableInvariant(w, n);
  }

  lemma AfterCompilation(w: Setting, n: nat, spec: ModelSpec, used: nat, findings: seq<Diagnostic>)
    requires Holds(Run(w, n), CompileAndExecute, spec, used, findings) && DecideNext(findings) == CompileAndExecute
    ensures if Diverges(spec) then Holds(Run(w, n + 1), RepairSpec, spec, used, [ExecutionFailure(ArimaNonConvergence)])
            else Holds(Run(w, n + 1), FinalizeReport, spec, used, findings)
  {
    hide PlanFor, ExecutePlanStep;
    FitOutcome(spec, w.planIds(|Run(w, n).trace|));
  }

  lemma AfterRepair(w: Setting, n: nat, spec: ModelSpec, used: nat, diagnostics: seq<Diagnostic>)
    requires Holds(Run(w, n), RepairSpec, spec, used, diagnostics) && diagnostics != []
    ensures var a := Attempt(MAX_REPAIRS, used, spec, diagnostics[|diagnostics| - 1]);
            && (RefusedAt(w, n) <==> a.None?)
            && match a
               case None => Holds(Run(w, n + 1), ValidateSpec, spec, used, diagnostics)
               case Some(p) => Holds(Run(w, n + 1), ValidateSpec, Redo(p.changes, spec), used + 1, [])
  {
    hide Attempt, Redo;
  }

  ghost predicate EndsUnrefused(w: Setting, n: nat, k: nat, final: ModelSpec) {
    && EndsAt(w, n + k) && Run(w, n + k).spec == Some(final)
    && (forall m | n <= m < n + k :: !EndsAt(w, m))
    && (forall m | n <= m <= n + k :: !RefusedAt(w, m))
  }

  ghost predicate CyclesRefused(w: Setting, n: nat) {
    (exists m | n <= m :: RefusedAt(w, m)) && forall m | n <= m :: !EndsAt(w, m)
  }

  lemma AfterFinalization(w: Setting, n: nat)
    requires Run(w, n).next.FinalizeReport?
    ensures EndsAt(w, n + 1) && Run(w, n + 1).spec == Run(w, n).spec
  {
  }

  /** A fate reached `gap` unrefused nodes later is the fate from here. */
  lemma Later(w: Setting, n: nat, gap: nat, fate: Fate)
    requires match fate
             case Ends(k, final) => EndsUnrefused(w, n + gap, k, final)
             case Cycles => CyclesRefused(w, n + gap)
    requires forall m | n <= m < n + gap :: !RefusedAt(w, m) && !EndsAt(w, m)
    ensures match fate
            case Ends(k, final) => EndsUnrefused(w, n, gap + k, final)
            case Cycles => CyclesRefused(w, n)
  {
    hide Run, Refusal;
    match fate
    case Ends(k, _) =>
      assert n + (gap + k) == n + gap + k;
    case Cycles =>
      var m :| n + gap <= m && RefusedAt(w, m);
  }

  lemma Refused(w: Setting, n: nat, r: nat, spec: ModelSpec, used: nat)
    requires AtValidator(w, n) && n < r && RefusedAt(w, r)
    requires InCycle(w, spec, used, Run(w, n))
    ensures CyclesRefused(w, n)
  {
    hide Run, Refusal, InCycle;
    forall m | n <= m
      ensures !EndsAt(w, m)
    {
      CycleForever(w, spec, used, n, m);
    }
  }

  /** The run agrees with its fate: either it ends after exactly the computed number of nodes, with the
      computed spec and without a refusal, or it is refused and never ends. */
  lemma {:induction false} FateIsRun(w: Setting, n: nat, spec: ModelSpec, used: nat)
    requires AtValidator(w, n) && Run(w, n).spec == Some(spec) && |Run(w, n).history| == used <= MAX_REPAIRS
    ensures match FateOf(w.env, spec, used)
            case Ends(k, final) => EndsUnrefused(w, n, k, final)
            case Cycles => CyclesRefused(w, n)
    decreases MAX_REPAIRS - used
  {
    hide Findings, Attempt, Redo, Run, Step, ExecutionFailure;
    var findings := Findings(w.env, spec);
    AfterValidation(w, n);
    var route := DecideNext(findings);
    if route.FinalizeReport? {
      AfterFinalization(w, n + 1);
      assert EndsUnrefused(w, n, 2, spec);
    } else if route.RepairSpec? {
      AfterRepair(w, n + 1, spec, used, findings);
      var a := Attempt(MAX_REPAIRS, used, spec, findings[|findings| - 1]);
      if a.None? {
        Refused(w, n, n + 1, spec, used);
      } else {
        AttemptChanges(used, spec, findings[|findings| - 1]);
        FateIsRun(w, n + 2, Redo(a.value.changes, spec), used + 1);
        Later(w, n, 2, FateOf(w.env, Redo(a.value.changes, spec), used + 1));
      }
    } else {
      AfterCompilation(w, n + 1, spec, used, findings);
      if !Diverges(spec) {
        AfterFinalization(w, n + 2);
        assert EndsUnrefused(w, n, 3, spec);
      } else {
        var failure := [ExecutionFailure(ArimaNonConvergence)];
        AfterRepair(w, n + 2, spec, used, failure);
        var a := Attempt(MAX_REPAIRS, used, spec, failure[0]);
        if a.None? {
          Refused(w, n, n + 2, spec, used);
        } else {
          AttemptChanges(used, spec, failure[0]);
          FateIsRun(w, n + 3, Redo(a.value.changes, spec), used + 1);
          Later(w, n, 3, FateOf(w.env, Redo(a.value.changes, spec), used + 1));
        }
      }
    }
  }
}
