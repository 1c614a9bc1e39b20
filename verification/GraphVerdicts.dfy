/** Exactly which specs reach the end of the workflow, after how many nodes, and with which verdict. */
module GraphVerdicts {
  import opened Wrappers
  import opened ModelSpecs
  import opened Diagnostics
  import opened Compilation
  import opened Repairs
  import opened MacroGraph
  import opened GraphTheorems

  // ----- The guard, in terms of the spec and the registry alone -----

  /** What is left to object to once the sample is long enough. An excessive order masks the other order checks,
      and the repair that follows resets p and q but keeps d. */
  predicate Admissible(env: Environment, spec: ModelSpec)
    requires Registered(env, spec)
  {
    FrequencyOk(env, spec) && EtsOk(spec) && (if TooComplex(spec) then spec.model.d >= 0 else OrderOk(spec))
  }

  /** The spec after the one sample repair that can help. */
  function Contracted(env: Environment, spec: ModelSpec): ModelSpec
    requires Registered(env, spec)
  {
    if SampleOk(env, spec) then spec else SampleRepaired(env, spec)
  }

  /** The specs whose run reaches the end. A blocked spec ends in failure; a strained window puts a warning last,
      which hides every error before it; anything else must be admissible on a sample that can be made to fit. */
  predicate Finishes(env: Environment, spec: ModelSpec) {
    || Blocked(env, spec)
    || WindowStrained(spec)
    || WindowStrained(Contracted(env, spec))
    || (SampleOk(env, Contracted(env, spec)) && Admissible(env, spec))
  }

  /** The nodes a finishing run executes from its first validation on. */
  function Nodes(env: Environment, spec: ModelSpec): nat {
    if Blocked(env, spec) && !WindowStrained(spec) then 2
    else 3 + (if !WindowStrained(spec) && !SampleOk(env, spec) then 2 else 0) + (if Diverges(spec) then 3 else 0)
  }

  /** The spec that a finishing run reports on: at most one contraction, then at most one order reduction. */
  function Final(env: Environment, spec: ModelSpec): ModelSpec {
    if Blocked(env, spec) && !WindowStrained(spec) then spec
    else
      var sized := if WindowStrained(spec) then spec else Contracted(env, spec);
      if Diverges(sized) then OrderRepaired(sized) else sized
  }

  // ----- The last finding, which alone decides the route -----

  function Last(findings: seq<Diagnostic>): Option<Diagnostic> {
    if findings == [] then None else Some(findings[|findings| - 1])
  }

  function Latest(env: Environment, spec: ModelSpec): Option<Diagnostic> {
    if WindowStrained(spec) then Some(StrainedWindow(spec))
    else if UnsafePath(env, spec) then Some(PathEscape(env, spec))
    else if Leaks(env, spec) then Some(Leak)
    else if !Registered(env, spec) then Some(MissingDataset(spec))
    else if !SampleOk(env, spec) then Some(ShortSample(spec, env.registry[spec.target.datasetId].rows))
    else if TooComplex(spec) then Some(Overparameterized(spec))
    else if !OrderOk(spec) then Some(NegativeOrder(spec))
    else if !EtsOk(spec) then Some(SeasonalGap(spec))
    else if !FrequencyOk(env, spec) then Some(WrongFrequency(spec, env.registry[spec.target.datasetId]))
    else None
  }

  lemma LastConcat(x: seq<Diagnostic>, y: seq<Diagnostic>)
    ensures Last(x + y) == if y == [] then Last(x) else Last(y)
  {
    if y == [] {
      assert x + y == x;
    }
  }

  lemma LastWhen(x: seq<Diagnostic>, raised: bool, d: Diagnostic)
    ensures Last(x + When(raised, d)) == if raised then Some(d) else Last(x)
  {
    LastConcat(x, When(raised, d));
  }

  lemma LastDomain(env: Environment, spec: ModelSpec)
    ensures Last(DomainFindings(env, spec)) ==
            if !Registered(env, spec) then Some(MissingDataset(spec))
            else if !SampleOk(env, spec) then Some(ShortSample(spec, env.registry[spec.target.datasetId].rows))
            else if TooComplex(spec) then Some(Overparameterized(spec))
            else if !OrderOk(spec) then Some(NegativeOrder(spec))
            else if !EtsOk(spec) then Some(SeasonalGap(spec))
            else if !FrequencyOk(env, spec) then Some(WrongFrequency(spec, env.registry[spec.target.datasetId]))
            else None
  {
    hide SampleOk, TooComplex, OrderOk, EtsOk, FrequencyOk, SeasonalGap, NegativeOrder, Overparameterized;
    if Registered(env, spec) {
      var meta := env.registry[spec.target.datasetId];
      var a := When(!FrequencyOk(env, spec), WrongFrequency(spec, meta));
      var b := When(!EtsOk(spec), SeasonalGap(spec));
      var c := When(!OrderOk(spec), NegativeOrder(spec));
      var d := When(TooComplex(spec), Overparameterized(spec));
      LastWhen(a, !EtsOk(spec), SeasonalGap(spec));
      LastWhen(a + b, !OrderOk(spec), NegativeOrder(spec));
      LastWhen(a + b + c, TooComplex(spec), Overparameterized(spec));
      LastWhen(a + b + c + d, !SampleOk(env, spec), ShortSample(spec, meta.rows));
    }
  }

  lemma LatestIsLast(env: Environment, spec: ModelSpec)
    ensures Last(Findings(env, spec)) == Latest(env, spec)
  {
    hide WindowStrained, UnsafePath, Leaks, SampleOk, TooComplex, OrderOk, EtsOk, FrequencyOk;
    LastDomain(env, spec);
    var domain := DomainFindings(env, spec);
    var a := When(Leaks(env, spec), Leak);
    var b := When(UnsafePath(env, spec), PathEscape(env, spec));
    var c := When(WindowStrained(spec), StrainedWindow(spec));
    assert Findings(env, spec) == domain + a + b + c;
    LastWhen(domain, Leaks(env, spec), Leak);
    LastWhen(domain + a, UnsafePath(env, spec), PathEscape(env, spec));
    LastWhen(domain + a + b, WindowStrained(spec), StrainedWindow(spec));
  }

  /** The route out of the validator, read off the spec. */
  function RouteOf(env: Environment, spec: ModelSpec): Node {
    if WindowStrained(spec) then CompileAndExecute
    else if Blocked(env, spec) then FinalizeReport
    else if !SampleOk(env, spec) then RepairSpec
    else if TooComplex(spec) then CompileAndExecute
    else if OrderOk(spec) && EtsOk(spec) && FrequencyOk(env, spec) then CompileAndExecute
    else RepairSpec
  }

  /** The repair that answers the route to the repair node: only a short sample has a strategy. */
  lemma RouteIs(env: Environment, spec: ModelSpec, used: nat)
    ensures var findings := Findings(env, spec);
            && DecideNext(findings) == RouteOf(env, spec)
            && (RouteOf(env, spec).RepairSpec? ==>
                  && findings != []
                  && var a := Attempt(MAX_REPAIRS, used, spec, findings[|findings| - 1]);
                     && (a.Some? <==> used < MAX_REPAIRS && !SampleOk(env, spec))
                     && (a.Some? ==> Redo(a.value.changes, spec) == SampleRepaired(env, spec)))
  {
    hide Findings, WindowStrained, UnsafePath, Leaks, SampleOk, TooComplex, OrderOk, EtsOk, FrequencyOk;
    LatestIsLast(env, spec);
  }

  lemma OrderRepairIs(spec: ModelSpec, used: nat)
    requires Diverges(spec)
    ensures var a := Attempt(MAX_REPAIRS, used, spec, ExecutionFailure(ArimaNonConvergence));
            && (a.Some? <==> used < MAX_REPAIRS)
            && (a.Some? ==> Redo(a.value.changes, spec) == OrderRepaired(spec))
  {
  }

  // ----- The fate in closed form -----

  /** An order repair leaves every other condition as it was. */
  lemma OrderRepairKeeps(env: Environment, spec: ModelSpec)
    requires spec.model.Arima?
    ensures var fixed := OrderRepaired(spec);
            && !Diverges(fixed) && !TooComplex(fixed)
            && (Blocked(env, fixed) <==> Blocked(env, spec)) && (WindowStrained(fixed) <==> WindowStrained(spec))
            && (Registered(env, fixed) <==> Registered(env, spec))
            && (OrderOk(fixed) <==> spec.model.d >= 0) && EtsOk(fixed)
            && (Registered(env, spec) ==>
                  && (SampleOk(env, fixed) <==> SampleOk(env, spec))
                  && (FrequencyOk(env, fixed) <==> FrequencyOk(env, spec)))
  {
  }

  lemma SampleRepairKeeps(env: Environment, spec: ModelSpec)
    requires Registered(env, spec)
    ensures var fixed := SampleRepaired(env, spec);
            && (Blocked(env, fixed) <==> Blocked(env, spec)) && Registered(env, fixed)
            && (Diverges(fixed) <==> Diverges(spec)) && (TooComplex(fixed) <==> TooComplex(spec))
            && (Admissible(env, fixed) <==> Admissible(env, spec))
            && SampleRepaired(env, fixed) == fixed
  {
  }

  predicate Settled(env: Environment, spec: ModelSpec) {
    Blocked(env, spec) || WindowStrained(spec) || SampleOk(env, spec)
  }

  lemma FateConverging(env: Environment, spec: ModelSpec, used: nat)
    requires Settled(env, spec) && !Diverges(spec) && used <= MAX_REPAIRS
    ensures FateOf(env, spec, used) ==
            if Blocked(env, spec) && !WindowStrained(spec) then Ends(2, spec)
            else if WindowStrained(spec) || (FrequencyOk(env, spec) && EtsOk(spec) && OrderOk(spec)) then Ends(3, spec)
            else Cycles
  {
    hide Findings, WindowStrained, Blocked, SampleOk, OrderOk, EtsOk, FrequencyOk, DecideNext, Attempt;
    RouteIs(env, spec, used);
  }

  lemma BlockedOrKnown(env: Environment, spec: ModelSpec)
    ensures Blocked(env, spec) || Registered(env, spec)
  {
  }

  lemma FateSettled(env: Environment, spec: ModelSpec, used: nat)
    requires Settled(env, spec) && used < MAX_REPAIRS
    ensures FateOf(env, spec, used) ==
            if Blocked(env, spec) && !WindowStrained(spec) then Ends(2, spec)
            else if WindowStrained(spec) || Admissible(env, spec) then
              if Diverges(spec) then Ends(6, OrderRepaired(spec)) else Ends(3, spec)
            else Cycles
  {
    hide Findings, WindowStrained, Blocked, SampleOk, FrequencyOk, DecideNext, Attempt, OrderRepaired, ExecutionFailure;
    if !Diverges(spec) {
      FateConverging(env, spec, used);
    } else {
      RouteIs(env, spec, used);
      BlockedOrKnown(env, spec);
      OrderRepairIs(spec, used);
      OrderRepairKeeps(env, spec);
      FateConverging(env, OrderRepaired(spec), used + 1);
    }
  }

  lemma FateInClosedForm(env: Environment, spec: ModelSpec)
    ensures FateOf(env, spec, 0) == if Finishes(env, spec) then Ends(Nodes(env, spec), Final(env, spec)) else Cycles
  {
    hide Findings, WindowStrained, Blocked, EtsOk, FrequencyOk, OrderOk, TooComplex, DecideNext, Attempt, Admissible,
         SampleRepaired, SampleOk;
    BlockedOrKnown(env, spec);
    if Settled(env, spec) {
      FateSettled(env, spec, 0);
    } else {
      var fixed := SampleRepaired(env, spec);
      RouteIs(env, spec, 0);
      SampleRepairKeeps(env, spec);
      if Settled(env, fixed) {
        FateSettled(env, fixed, 1);
      } else {
        RouteIs(env, fixed, 1);
        RouteIs(env, fixed, 2);
      }
    }
  }

  // ----- The main theorems -----

  lemma RunStarts(w: Setting)
    ensures AtValidator(w, 1) && Run(w, 1).spec == Some(w.candidate) && |Run(w, 1).history| == 0
    ensures !EndsAt(w, 0) && !RefusedAt(w, 0)
  {
    assert Run(w, 1) == Step(w, Run(w, 0));
  }

  lemma {:induction false} EndStays(w: Setting, n: nat, m: nat)
    requires EndsAt(w, n) && n <= m
    ensures Run(w, m) == Run(w, n)
    decreases m - n
  {
    hide Merge, Finalize, Repair, CompileAndRun, Validate, Generate;
    if n < m {
      EndStays(w, n, m - 1);
    }
  }

  lemma AtMostEight(env: Environment, spec: ModelSpec)
    requires Finishes(env, spec)
    ensures Nodes(env, spec) <= 8
  {
    hide Blocked, WindowStrained, SampleOk, Diverges;
    BlockedOrKnown(env, spec);
  }

  lemma EndedExactly(w: Setting, last: nat, final: ModelSpec)
    requires last > 0 && EndsUnrefused(w, 1, last - 1, final) && !RefusedAt(w, 0)
    ensures EndsAt(w, last) && forall n :: !RefusedAt(w, n)
  {
    hide Run;
    forall n: nat | last < n
      ensures !RefusedAt(w, n)
    {
      EndStays(w, last, n);
    }
  }

  /** For every candidate and every registry: the run ends if and only if the candidate passes the guard, if and
      only if no repair is ever refused; and then it ends after exactly `1 + Nodes`, at most nine, node executions,
      with exactly the spec `Final`. */
  lemma ExactTermination(w: Setting)
    ensures (exists n :: EndsAt(w, n)) <==> Finishes(w.env, w.candidate)
    ensures (forall n :: !RefusedAt(w, n)) <==> Finishes(w.env, w.candidate)
    ensures Finishes(w.env, w.candidate) ==>
              var last := 1 + Nodes(w.env, w.candidate);
              && last <= 9 && EndsAt(w, last) && Run(w, last).spec == Some(Final(w.env, w.candidate))
              && forall n: nat | n < last :: !EndsAt(w, n)
  {
    hide Finishes, Nodes, Final, Run, FateOf;
    RunStarts(w);
    FateIsRun(w, 1, w.candidate, 0);
    FateInClosedForm(w.env, w.candidate);
    if Finishes(w.env, w.candidate) {
      var last := 1 + Nodes(w.env, w.candidate);
      AtMostEight(w.env, w.candidate);
      EndedExactly(w, last, Final(w.env, w.candidate));
    }
  }

  /** As long as nothing was refused there are no errors, and only the last node sets a verdict. */
  predicate Clean(s: GraphState) {
    && s.errors == []
    && if s.next.End? then
         if HasBlocking(s.diagnostics) then s.status.Failed? && s.finalAnswer == Some(FailureReport)
         else
           && s.status.Completed?
           && s.plan.Some? && s.plan.value.artifactOutputs != []
           && s.finalAnswer == Some(ApprovalReport(
                s.plan.value.artifactOutputs[|s.plan.value.artifactOutputs| - 1], |s.history|))
       else s.status.Created? || s.status.Running?
  }

  /** A spec that is sent straight to the report has a blocking finding, namely the last one. */
  lemma NothingToBlock(env: Environment, spec: ModelSpec)
    ensures DecideNext(Findings(env, spec)).FinalizeReport? ==> HasBlocking(Findings(env, spec))
  {
    hide Findings;
    var f := Findings(env, spec);
    if DecideNext(f).FinalizeReport? {
      assert Blocks(f[|f| - 1]);
    }
  }

  lemma StepStaysClean(w: Setting, s: GraphState)
    requires Ready(s) && Invariant(w, s) && Clean(s) && !Refusal(s)
    ensures Clean(Step(w, s))
  {
    hide Findings, PlanFor, ExecutePlanStep, Attempt, Redo, Audited;
    if s.next.FinalizeReport? && !HasBlocking(s.diagnostics) {
      NothingToBlock(w.env, s.spec.value);
      assert |s.plan.value.artifactOutputs| == 4;
    }
  }

  lemma {:induction false} CleanUnlessRefused(w: Setting, n: nat)
    requires forall m: nat | m < n :: !RefusedAt(w, m)
    ensures Clean(Run(w, n))
  {
    hide Step, Invariant, HasBlocking;
    if n > 0 {
      CleanUnlessRefused(w, n - 1);
      ReachableInvariant(w, n - 1);
      assert !RefusedAt(w, n - 1);
      StepStaysClean(w, Run(w, n - 1));
    }
  }

  /** At the end the status is `failed` exactly when the generated spec leaks, escapes or names no dataset, even if
      a trailing warning let it be compiled or repairs happened on the way. A completed run holds the plan of its
      final spec; an ARIMA plan was fitted within combined order five, but any other family was refused by the
      executor and completes all the same. */
  lemma Verdict(w: Setting, n: nat)
    requires EndsAt(w, n)
    ensures var s := Run(w, n);
            && s.spec.Some?
            && (if Blocked(w.env, w.candidate) then s.status.Failed? && s.finalAnswer == Some(FailureReport)
                else
                  && s.status.Completed?
                  && |s.trace| >= 2 && s.plan.Some?
                  && var planId := w.planIds(|s.trace| - 2);
                  && s.plan.value == PlanFor(s.spec.value, planId)
                  && s.finalAnswer ==
                     Some(ApprovalReport("artifacts/" + planId + "/forecast_report.csv", |s.history|))
                  && ExecutePlanStep(s.plan.value.steps[2]) ==
                     (if w.candidate.model.Arima? then Succeeded else Fatal(UnauthorizedOperation))
                  && (w.candidate.model.Arima? ==> s.spec.value.model.Arima? && !Diverges(s.spec.value)))
  {
    hide Findings, Run, ExecutePlanStep, Finishes, Nodes, Audited, DecideNext, PlanFor, WithWindow, Text.Contains;
    ExactTermination(w);
    CleanUnlessRefused(w, n);
    ReachableInvariant(w, n);
    var s := Run(w, n);
    var spec := s.spec.value;
    BlockingFindings(w.env, spec);
    NothingToBlock(w.env, spec);
    if s.status.Completed? {
      FitOutcome(spec, s.plan.value.planId);
      PlanContents(spec, s.plan.value.planId);
    }
  }

  /** A spec that is sent to compilation and then converges: strained, or free of domain errors. */
  lemma ConvergedIsStrainedOrSound(env: Environment, spec: ModelSpec)
    requires !Blocked(env, spec) && !Diverges(spec)
    requires DecideNext(Findings(env, spec)).CompileAndExecute?
    ensures WindowStrained(spec) || (FrequencyOk(env, spec) && EtsOk(spec) && OrderOk(spec) && SampleOk(env, spec))
  {
    hide Findings, DecideNext, WindowStrained, Blocked, SampleOk, OrderOk, EtsOk, FrequencyOk, Attempt;
    RouteIs(env, spec, 0);
  }

  /** Nothing is left of a domain error that is not reported: which codes of a sound spec are raised. */
  lemma DomainErrorsRaised(env: Environment, spec: ModelSpec)
    requires Registered(env, spec)
    ensures (exists code :: IsDomainError(code) && Raised(env, spec, code)) <==>
            !(FrequencyOk(env, spec) && EtsOk(spec) && OrderOk(spec) && SampleOk(env, spec))
  {
    if !FrequencyOk(env, spec) {
      assert Raised(env, spec, FrequencyMismatch);
    }
    if !EtsOk(spec) {
      assert Raised(env, spec, InvalidSeasonalPeriod);
    }
    if !OrderOk(spec) {
      assert Raised(env, spec, SchemaValidationFailure);
    }
    if !SampleOk(env, spec) {
      assert Raised(env, spec, InsufficientSample);
    }
  }

  lemma NotBlocking(env: Environment, spec: ModelSpec)
    ensures HasBlocking(Findings(env, spec)) <==> Blocked(env, spec)
  {
    hide Findings, Blocked, Blocks;
    BlockingFindings(env, spec);
  }

  /** The end of a run that completed: it reports the findings of the closed-form final spec. */
  lemma CompletedReports(w: Setting, n: nat)
    requires EndsAt(w, n) && Run(w, n).status.Completed?
    ensures var final := Final(w.env, w.candidate);
            && Run(w, n).spec == Some(final) && Run(w, n).diagnostics == Findings(w.env, final)
            && !Blocked(w.env, final)
            && (WindowStrained(final) || (&& FrequencyOk(w.env, final) && EtsOk(final)
                                          && OrderOk(final) && SampleOk(w.env, final)))
  {
    hide Findings, Run, ExecutePlanStep, Finishes, Nodes, Final, Audited, DecideNext, PlanFor, Blocked, Diverges,
         WindowStrained, FrequencyOk, EtsOk, OrderOk, SampleOk, SameExceptRepairs, HasBlocking;
    ExactTermination(w);
    ReachableInvariant(w, n);
    CleanUnlessRefused(w, n);
    var last := 1 + Nodes(w.env, w.candidate);
    EndStays(w, last, n);
    var spec := Run(w, n).spec.value;
    NothingToBlock(w.env, spec);
    NotBlocking(w.env, spec);
    ConvergedIsStrainedOrSound(w.env, spec);
  }

  /** What a completed run leaves unsaid: it reports a domain error exactly when the final spec, which the candidate
      and the registry determine beforehand, has a strained window besides: the warning about it comes last and
      hides whatever else is wrong. */
  lemma CompletedWithErrorIff(w: Setting, n: nat)
    requires EndsAt(w, n) && Run(w, n).status.Completed?
    ensures var final := Final(w.env, w.candidate);
            && Registered(w.env, final)
            && (forall code | IsDomainError(code) ::
                  Reports(Run(w, n).diagnostics, code) <==> WindowStrained(final) && Raised(w.env, final, code))
            && ((exists code :: IsDomainError(code) && Reports(Run(w, n).diagnostics, code)) <==>
                && WindowStrained(final)
                && !(&& FrequencyOk(w.env, final) && EtsOk(final) && OrderOk(final) && SampleOk(w.env, final)))
  {
    hide Findings, Run, Final, IsDomainError, Raised, Reports, WindowStrained, FrequencyOk, EtsOk, OrderOk, SampleOk;
    CompletedReports(w, n);
    var final := Final(w.env, w.candidate);
    DomainErrorsRaised(w.env, final);
    forall code
      ensures Reports(Run(w, n).diagnostics, code) <==> Raised(w.env, final, code)
    {
      FindingsComplete(w.env, final, code);
    }
  }

  lemma LeavesStart(w: Setting, n: nat)
    requires n > 0
    ensures !Run(w, n).next.GenerateSpec?
  {
    hide Findings, Merge, Finalize, Repair, CompileAndRun, Validate, Generate;
  }

  /** The audit law on its own: replaying the log from the generated spec gives the current spec, undoing it gives
      the generated one back, attempts are numbered without a gap, and no trace index is skipped. */
  lemma RepairLogIsAudit(w: Setting, n: nat)
    requires n > 0
    ensures var s := Run(w, n);
            && s.spec == Some(RedoAll(w.candidate, s.history))
            && UndoAll(RedoAll(w.candidate, s.history), s.history) == w.candidate
            && s.attempts == |s.history| <= 2
            && (forall i | 0 <= i < |s.history| :: s.history[i].attemptNumber == i + 1)
            && (forall i | 0 <= i < |s.trace| :: s.trace[i].step == i)
            && SameExceptRepairs(w.candidate, RedoAll(w.candidate, s.history))
  {
    hide Findings, Step, Provenance, RedoAll, UndoAll, SameExceptRepairs;
    ReachableInvariant(w, n);
    LeavesStart(w, n);
  }

  // ----- The trace -----

  /** The events that one node execution adds: its own, and a second one when the fit fails. */
  predicate Recorded(w: Setting, s: GraphState, t: GraphState, events: seq<TraceEvent>)
    requires s.next.GenerateSpec? || s.spec.Some?
  {
    && t.trace == s.trace + events
    && (forall i | 0 <= i < |events| :: events[i].node == s.next && events[i].step == |s.trace| + i)
    && match s.next
       case GenerateSpec => |events| == 1 && events[0].kind == ModelSpecGenerated
       case ValidateSpec => |events| == 1 && events[0].kind == SpecValidationCompleted(|t.diagnostics|)
       case CompileAndExecute =>
         && |events| == (if Diverges(s.spec.value) then 2 else 1) && events[0].kind == PlanCompiledAndExecuted
         && (Diverges(s.spec.value) ==> events[1].kind == NumericalFailureCaptured(ArimaNonConvergence))
       case RepairSpec =>
         && |events| == 1
         && (if t.history != s.history then
               && |t.history| == |s.history| + 1 && t.errors == s.errors && t.diagnostics == []
               && events[0].kind == SpecRepairedAndDegraded(t.history[|s.history|].repairId)
             else
               && t.errors == s.errors + [RepairExhausted(|s.history| + 1)] && t.status.Failed?
               && events[0].kind == RepairQuotaExhaustedEscalated)
       case FinalizeReport => |events| == 1 && events[0].kind == WorkflowFinalized
       case End => events == []
  }

  lemma AddsEvents(s: GraphState, u: Updates)
    ensures Merge(s, u).trace == s.trace + u.trace && Merge(s, u).errors == s.errors + u.errors
    ensures Merge(s, u).history == s.history + u.history
    ensures Merge(s, u).diagnostics == u.diagnostics.GetOr(s.diagnostics)
    ensures Merge(s, u).status == u.status.GetOr(s.status)
  {
  }

  lemma CompileIsRecorded(w: Setting, s: GraphState)
    requires s.next.CompileAndExecute? && s.spec.Some?
    ensures Recorded(w, s, Step(w, s), CompileAndRun(w, s).trace)
  {
    hide PlanFor, ExecutePlanStep, DecideAfterExecution;
    FitOutcome(s.spec.value, w.planIds(|s.trace|));
    AddsEvents(s, CompileAndRun(w, s));
  }

  lemma RepairIsRecorded(w: Setting, s: GraphState)
    requires s.next.RepairSpec? && s.spec.Some? && s.diagnostics != [] && s.attempts == |s.history|
    ensures Recorded(w, s, Step(w, s), Repair(s).trace)
  {
    hide Attempt, Redo;
    AddsEvents(s, Repair(s));
    assert |s.history + Repair(s).history| == |s.history| + |Repair(s).history|;
    assert s.history + [] == s.history && s.errors + [] == s.errors;
  }

  lemma NodeIsRecorded(w: Setting, s: GraphState) returns (events: seq<TraceEvent>)
    requires Ready(s) && (s.next.RepairSpec? ==> s.diagnostics != [] && s.attempts == |s.history|)
    ensures Recorded(w, s, Step(w, s), events)
  {
    hide Findings, PlanFor, ExecutePlanStep, Attempt, Redo, DecideNext;
    match s.next
    case GenerateSpec => events := Generate(w, s).trace;
    case ValidateSpec => events := Validate(w, s).trace;
    case CompileAndExecute =>
      events := CompileAndRun(w, s).trace;
      CompileIsRecorded(w, s);
    case RepairSpec =>
      events := Repair(s).trace;
      RepairIsRecorded(w, s);
    case FinalizeReport => events := Finalize(s).trace;
    case End =>
      events := [];
      assert s.trace + [] == s.trace;
  }

  lemma RepairHasFindings(w: Setting, n: nat)
    ensures var s := Run(w, n); s.next.RepairSpec? ==> s.diagnostics != [] && s.attempts == |s.history|
  {
    hide Run, Findings, PlanFor, Audited, SameExceptRepairs, Planned;
    ReachableInvariant(w, n);
  }

  lemma NextState(w: Setting, n: nat)
    ensures Run(w, n + 1) == Step(w, Run(w, n))
  {
    hide Step;
  }

  /** In every run, each node execution records what it did, under its own name and at its own place. */
  lemma StepIsRecorded(w: Setting, n: nat) returns (events: seq<TraceEvent>)
    ensures Recorded(w, Run(w, n), Run(w, n + 1), events)
  {
    hide Run, Recorded, Step;
    RepairHasFindings(w, n);
    events := NodeIsRecorded(w, Run(w, n));
    NextState(w, n);
  }
}
