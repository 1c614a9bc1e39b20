/** What every run of the job protocol guarantees: verdicts, cancellation, bounded work. */
module JobTheorems {
  import opened Wrappers
  import opened JobStore
  import opened JobProtocol

  predicate Settled(status: Status) {
    status.Succeeded? || status.Failed? || status.Cancelled?
  }

  predicate Uncancelled(events: seq<Event>, id: string) {
    forall i | 0 <= i < |events| :: events[i] != RequestCancel(id)
  }

  /** The executions of job k in flight. */
  function InFlight(s: System, k: nat): nat
    requires k < |s.db|
  {
    s.cores[s.db[k].id]
  }

  // ----- Settled jobs -----

  /** A settled job with nothing in flight keeps its record, unless its cancellation is requested. */
  lemma {:induction false} SettledStays(s: System, events: seq<Event>, k: nat)
    requires Invariant(s) && Possible(s, events) && k < |s.db|
    requires Settled(s.db[k].status) && InFlight(s, k) == 0 && Uncancelled(events, s.db[k].id)
    ensures var t := After(s, events); k < |t.db| && t.db[k] == s.db[k] && InFlight(t, k) == 0
    decreases |events|
  {
    hide Invariant, Apply, Enabled;
    if events != [] {
      assert events[0] != RequestCancel(s.db[k].id);
      Projects(s, events[0], k);
      StepKeepsInvariant(s, events[0]);
      SettledStays(Apply(s, events[0]), events[1..], k);
    }
  }

  lemma NotRunning(s: System, k: nat)
    requires Invariant(s) && k < |s.db| && InFlight(s, k) == 0
    ensures !s.db[k].status.Running?
  {
  }

  /** A job that is neither queued nor in flight is never executed again, whatever happens. */
  lemma {:induction false} IdleNeverRuns(s: System, events: seq<Event>, k: nat)
    requires Invariant(s) && Possible(s, events) && k < |s.db|
    requires !s.db[k].status.Queued? && InFlight(s, k) == 0
    ensures var t := After(s, events);
            && k < |t.db| && InFlight(t, k) == 0 && t.db[k].attempts == s.db[k].attempts
            && !t.db[k].status.Queued? && !t.db[k].status.Running?
    decreases |events|
  {
    hide Invariant, Apply, Enabled;
    if events != [] {
      Projects(s, events[0], k);
      StepKeepsInvariant(s, events[0]);
      IdleNeverRuns(Apply(s, events[0]), events[1..], k);
    } else {
      NotRunning(s, k);
    }
  }

  ghost predicate StaysCancelled(s: System, k: nat)
    requires k < |s.db|
  {
    forall events | Possible(s, events) && Uncancelled(events, s.db[k].id) ::
      k < |After(s, events).db| && After(s, events).db[k].status.Cancelled?
  }

  lemma RunOfOne(s: System, e: Event)
    requires Enabled(s, e)
    ensures Possible(s, [e]) && After(s, [e]) == Apply(s, e)
  {
    assert [e][1..] == [];
  }

  /** The end of an execution decides its job's status. */
  lemma FinishOverwrites(s: System, k: nat)
    requires Invariant(s) && k < |s.db| && InFlight(s, k) > 0
    ensures var t := Apply(s, CoreFinish(s.db[k].id));
            && |t.db| == |s.db| && t.db[k] == Concluded(s.db[k])
            && (t.db[k].status.Cancelled? <==> s.db[k].status.CancelRequested?)
  {
    hide First;
    IdIsUnique(s.db, k);
  }

  /** A cancellation is final exactly when no execution of the job is in flight: one that is overwrites it. */
  lemma CancelledIsFinalIff(s: System, k: nat)
    requires Invariant(s) && k < |s.db| && s.db[k].status.Cancelled?
    ensures StaysCancelled(s, k) <==> InFlight(s, k) == 0
  {
    hide Apply, Invariant, Possible, After;
    if InFlight(s, k) == 0 {
      forall events | Possible(s, events) && Uncancelled(events, s.db[k].id)
        ensures k < |After(s, events).db| && After(s, events).db[k].status.Cancelled?
      {
        SettledStays(s, events, k);
      }
    } else {
      var e := CoreFinish(s.db[k].id);
      RunOfOne(s, e);
      FinishOverwrites(s, k);
      assert Uncancelled([e], s.db[k].id);
    }
  }

  // ----- Verdicts without cancellation -----

  /** What is known of a job whose cancellation was never requested. */
  predicate Honest(job: Job, cores: nat) {
    && 0 <= job.attempts <= Budget(job)
    && match job.status
       case Queued => cores == 0 && job.attempts < Budget(job) && (job.attempts > 0 ==> job.forceFail)
       case Running => cores == 1 && job.attempts >= 1 && (!job.forceFail ==> job.attempts == 1)
       case Succeeded => cores == 0 && !job.forceFail && job.attempts == 1 && job.result == Some(ArtifactOf(job.id))
       case Failed => cores == 0 && job.forceFail && job.attempts == Budget(job) && job.error == Some(TRANSIENT)
       case _ => false
  }

  predicate HonestExcept(s: System, ids: set<string>) {
    forall k | 0 <= k < |s.db| && s.db[k].id !in ids :: Honest(s.db[k], InFlight(s, k))
  }

  function CancelledIds(events: seq<Event>): set<string> {
    if events == [] then {}
    else (if events[0].RequestCancel? then {events[0].id} else {}) + CancelledIds(events[1..])
  }

  lemma LocalStepKeepsHonest(a: Job, m: nat, b: Job, n: nat, e: Event)
    requires Honest(a, m) && LocalStep(a, m, b, n, e) && e != RequestCancel(a.id)
    ensures Honest(b, n)
  {
  }

  lemma OnlySubmitGrows(s: System, e: Event)
    requires Invariant(s) && Enabled(s, e)
    ensures var t := Apply(s, e);
            || |t.db| == |s.db|
            || (e.Submit? && t.db == s.db + [e.job] && t.cores[e.job.id] == 0 && Honest(e.job, 0))
  {
    hide AllJobsOk, DistinctKeys, Known, First;
    match e
    case Submit(job) => SubmitAppends(s, job);
    case RequestCancel(_) =>
    case Poll =>
    case CoreFinish(_) =>
  }

  lemma StepKeepsHonest(s: System, e: Event, ids: set<string>)
    requires Invariant(s) && Enabled(s, e) && HonestExcept(s, ids)
    ensures HonestExcept(Apply(s, e), ids + CancelledIds([e]))
  {
    hide Invariant, Apply, Honest, LocalStep;
    var t := Apply(s, e);
    OnlySubmitGrows(s, e);
    forall k | 0 <= k < |t.db| && t.db[k].id !in ids + CancelledIds([e])
      ensures Honest(t.db[k], InFlight(t, k))
    {
      if k < |s.db| {
        Projects(s, e, k);
        LocalStepKeepsHonest(s.db[k], InFlight(s, k), t.db[k], InFlight(t, k), e);
      }
    }
  }

  lemma {:induction false} RunKeepsHonest(s: System, events: seq<Event>, ids: set<string>)
    requires Invariant(s) && Possible(s, events) && HonestExcept(s, ids)
    ensures HonestExcept(After(s, events), ids + CancelledIds(events))
    decreases |events|
  {
    hide Invariant, Apply, Enabled, HonestExcept;
    if events == [] {
      assert ids + CancelledIds(events) == ids;
    } else {
      StepKeepsHonest(s, events[0], ids);
      StepKeepsInvariant(s, events[0]);
      RunKeepsHonest(Apply(s, events[0]), events[1..], ids + CancelledIds([events[0]]));
      assert [events[0]][1..] == [];
      assert ids + CancelledIds([events[0]]) + CancelledIds(events[1..]) == ids + CancelledIds(events);
    }
  }

  /** In every run, a job nobody asked to cancel succeeds only on its single attempt and with its artifact, fails
      only when its computation fails and its whole budget is spent, and is in flight exactly while it runs. */
  lemma UncancelledVerdict(s: System, events: seq<Event>, k: nat)
    requires Start(s) && Possible(s, events) && k < |After(s, events).db|
    requires After(s, events).db[k].id !in CancelledIds(events)
    ensures var job := After(s, events).db[k];
            && (InFlight(After(s, events), k) == if job.status.Running? then 1 else 0)
            && (job.status.Succeeded? ==> !job.forceFail && job.attempts == 1 && job.result == Some(ArtifactOf(job.id)))
            && (job.status.Failed? ==> job.forceFail && job.attempts == Budget(job) && job.error == Some(TRANSIENT))
            && !job.status.CancelRequested? && !job.status.Cancelled?
  {
    hide Possible, After;
    assert HonestExcept(s, {});
    RunKeepsHonest(s, events, {});
    assert {} + CancelledIds(events) == CancelledIds(events);
    assert Honest(After(s, events).db[k], InFlight(After(s, events), k));
  }

  // ----- Conservation of executions -----

  function Sum(db: seq<Job>, measure: Job -> int): int {
    if db == [] then 0 else measure(db[0]) + Sum(db[1..], measure)
  }

  lemma {:induction false} SumUpdate(db: seq<Job>, measure: Job -> int, i: nat, job: Job)
    requires i < |db|
    ensures Sum(db[i := job], measure) == Sum(db, measure) + measure(job) - measure(db[i])
  {
    if i > 0 {
      SumUpdate(db[1..], measure, i - 1, job);
      assert db[i := job][1..] == db[1..][i - 1 := job];
    } else {
      assert db[i := job][1..] == db[1..];
    }
  }

  lemma {:induction false} SumAppend(db: seq<Job>, measure: Job -> int, job: Job)
    ensures Sum(db + [job], measure) == Sum(db, measure) + measure(job)
  {
    if db == [] {
      assert db + [job] == [job] && [job][1..] == [];
    } else {
      SumAppend(db[1..], measure, job);
      assert (db + [job])[1..] == db[1..] + [job];
    }
  }

  lemma {:induction false} SumBound(db: seq<Job>, small: Job -> int, large: Job -> int)
    requires forall i | 0 <= i < |db| :: small(db[i]) <= large(db[i])
    ensures Sum(db, small) <= Sum(db, large)
  {
    if db != [] {
      SumBound(db[1..], small, large);
    }
  }

  function Attempts(job: Job): int {
    job.attempts
  }

  function Zero(job: Job): int {
    0
  }

  lemma {:induction false} SumZero(db: seq<Job>)
    ensures Sum(db, Zero) == 0
  {
    if db != [] {
      SumZero(db[1..]);
    }
  }

  predicate Dispatches(s: System, e: Event) {
    e.Poll? && NextQueued(Acknowledged(s.db)).Some?
  }

  /** The executions that a run starts. */
  function Executions(s: System, events: seq<Event>): nat
    requires Possible(s, events)
    decreases |events|
  {
    if events == [] then 0
    else (if Dispatches(s, events[0]) then 1 else 0) + Executions(Apply(s, events[0]), events[1..])
  }

  /** The executions that a run ends. */
  function Conclusions(events: seq<Event>): nat {
    if events == [] then 0 else (if events[0].CoreFinish? then 1 else 0) + Conclusions(events[1..])
  }

  lemma AcknowledgeCounts(s: System, measure: Job -> int)
    requires DistinctIds(s.db)
    ensures var t := Acknowledge(s); var i := First(s.db, HasStatus(CancelRequested));
            && t.cores == s.cores
            && Sum(t.db, measure) == Sum(s.db, measure) +
                 if i < |s.db| then measure(Moved(s.db[i], Cancelled, None, Some(CANCELLED))) - measure(s.db[i]) else 0
  {
    hide First, Sum;
    var i := First(s.db, HasStatus(CancelRequested));
    if i < |s.db| {
      SumUpdate(s.db, measure, i, Moved(s.db[i], Cancelled, None, Some(CANCELLED)));
    }
  }

  lemma ClaimCounts(s: System, measure: Job -> int)
    ensures var t := Claim(s); var i := First(s.db, HasStatus(Queued));
            && |t.cores| == |s.cores| + (if i < |s.db| then 1 else 0)
            && Sum(t.db, measure) == Sum(s.db, measure) +
                 if i < |s.db| then measure(Attempted(s.db[i])) - measure(s.db[i]) else 0
  {
    hide First, Sum;
    var i := First(s.db, HasStatus(Queued));
    if i < |s.db| {
      SumUpdate(s.db, measure, i, Attempted(s.db[i]));
    }
  }

  lemma FinishCounts(s: System, id: string, measure: Job -> int) returns (i: nat)
    requires Invariant(s) && id in s.cores
    ensures var t := Apply(s, CoreFinish(id));
            && |t.cores| == |s.cores| - 1 && i < |s.db|
            && Sum(t.db, measure) == Sum(s.db, measure) + measure(Concluded(s.db[i])) - measure(s.db[i])
  {
    hide First, Sum, Concluded;
    assert Known(s.db, id);
    i := First(s.db, HasId(id));
    SumUpdate(s.db, measure, i, Concluded(s.db[i]));
  }

  lemma CancelCounts(s: System, id: string, measure: Job -> int)
    ensures var t := Apply(s, RequestCancel(id)); var i := First(s.db, HasId(id));
            && t.cores == s.cores
            && Sum(t.db, measure) == Sum(s.db, measure) +
                 if i < |s.db| then measure(Moved(s.db[i], CancelRequested, None, None)) - measure(s.db[i]) else 0
  {
    hide First, Sum;
    var i := First(s.db, HasId(id));
    if i < |s.db| {
      SumUpdate(s.db, measure, i, Moved(s.db[i], CancelRequested, None, None));
    }
  }

  lemma StepConserves(s: System, e: Event)
    requires Invariant(s) && Enabled(s, e)
    ensures var t := Apply(s, e);
            && Sum(t.db, Attempts) == Sum(s.db, Attempts) + (if Dispatches(s, e) then 1 else 0)
            && |t.cores| + (if e.CoreFinish? then 1 else 0) == |s.cores| + (if Dispatches(s, e) then 1 else 0)
  {
    hide Sum, First, AllJobsOk, DistinctKeys, Known, Acknowledged, Claimed, Submitted, Updated, Finished;
    match e
    case Submit(job) =>
      SubmitAppends(s, job);
      SumAppend(s.db, Attempts, job);
    case RequestCancel(id) => CancelCounts(s, id, Attempts);
    case Poll =>
      AcknowledgeCounts(s, Attempts);
      ClaimCounts(Acknowledge(s), Attempts);
    case CoreFinish(id) => var _ := FinishCounts(s, id, Attempts);
  }

  /** Executions are conserved: each one started is in flight until it ends, and is one counted attempt. */
  lemma {:induction false} ExecutionsAreConserved(s: System, events: seq<Event>)
    requires Invariant(s) && Possible(s, events)
    ensures var t := After(s, events);
            && Sum(t.db, Attempts) == Sum(s.db, Attempts) + Executions(s, events)
            && |t.cores| + Conclusions(events) == |s.cores| + Executions(s, events)
    decreases |events|
  {
    hide Invariant, Apply, Enabled, Sum, Dispatches;
    if events != [] {
      StepConserves(s, events[0]);
      StepKeepsInvariant(s, events[0]);
      ExecutionsAreConserved(Apply(s, events[0]), events[1..]);
    }
  }

  /** No interleaving executes more often than the attempt budgets of the jobs in the store add up to. */
  lemma ExecutionsAreBounded(s: System, events: seq<Event>)
    requires Start(s) && Possible(s, events)
    ensures Conclusions(events) <= Executions(s, events) <= Sum(After(s, events).db, Budget)
  {
    hide Possible, After, Sum;
    var t := After(s, events);
    ExecutionsAreConserved(s, events);
    RunKeepsInvariant(s, events);
    assert forall i | 0 <= i < |t.db| :: JobOk(t.db[i], t.cores[t.db[i].id]);
    SumBound(t.db, Attempts, Budget);
    SumZero(s.db);
    SumBound(s.db, Attempts, Zero);
    SumBound(s.db, Zero, Attempts);
  }

  // ----- The worker drains the store -----

  predicate Pending(status: Status) {
    status.Queued? || status.CancelRequested?
  }

  /** An event of the worker that gets something done. */
  predicate Productive(s: System, e: Event) {
    || (e.Poll? && exists i | 0 <= i < |s.db| :: Pending(s.db[i].status))
    || (e.CoreFinish? && e.id in s.cores)
  }

  function Effort(job: Job): int {
    2 * (Budget(job) - job.attempts) + if job.status.CancelRequested? then 1 else 0
  }

  /** What is left to do: two steps for each attempt in the budgets, one for each cancellation to confirm and one for
      each execution in flight. */
  function Work(s: System): int {
    Sum(s.db, Effort) + |s.cores|
  }

  lemma AcknowledgeReplacesNothing(s: System)
    requires First(s.db, HasStatus(CancelRequested)) == |s.db|
    ensures Acknowledge(s) == s
  {
  }

  lemma ProductiveLowersWork(s: System, e: Event)
    requires Invariant(s) && Productive(s, e)
    ensures Work(Apply(s, e)) < Work(s)
  {
    hide Sum, First, AllJobsOk, DistinctKeys, Known, Acknowledged, Claimed, Finished;
    if e.Poll? {
      AcknowledgeCounts(s, Effort);
      ClaimCounts(Acknowledge(s), Effort);
      if First(s.db, HasStatus(CancelRequested)) == |s.db| {
        AcknowledgeReplacesNothing(s);
        assert First(s.db, HasStatus(Queued)) < |s.db|;
      }
    } else {
      var _ := FinishCounts(s, e.id, Effort);
    }
  }

  lemma WorkIsNatural(s: System)
    requires Invariant(s)
    ensures Work(s) >= 0
  {
    hide Sum;
    assert forall i | 0 <= i < |s.db| :: JobOk(s.db[i], s.cores[s.db[i].id]);
    SumZero(s.db);
    SumBound(s.db, Zero, Effort);
  }

  /** The events of the worker and its executions. */
  predicate WorkerOnly(events: seq<Event>) {
    forall i | 0 <= i < |events| :: events[i].Poll? || events[i].CoreFinish?
  }

  /** The events of a run that get something done. */
  function Accomplished(s: System, events: seq<Event>): nat
    requires Possible(s, events)
    decreases |events|
  {
    if events == [] then 0
    else (if Productive(s, events[0]) then 1 else 0) + Accomplished(Apply(s, events[0]), events[1..])
  }

  /** A poll that finds nothing to do changes nothing. */
  lemma IdlePollStays(s: System)
    requires !Productive(s, Poll)
    ensures Apply(s, Poll) == s
  {
    hide First;
    assert First(s.db, HasStatus(CancelRequested)) == |s.db|;
    assert Acknowledge(s) == s;
    assert First(s.db, HasStatus(Queued)) == |s.db|;
    assert s.cores + multiset{} == s.cores;
  }

  lemma UnproductiveIsPoll(s: System, e: Event)
    requires Enabled(s, e) && (e.Poll? || e.CoreFinish?) && !Productive(s, e)
    ensures e == Poll
  {
  }

  /** Left to itself, the worker gets only so much done, however often it polls... */
  lemma {:induction false} WorkerStops(s: System, events: seq<Event>)
    requires Invariant(s) && Possible(s, events) && WorkerOnly(events)
    ensures Accomplished(s, events) <= Accomplished(s, events) + Work(After(s, events)) <= Work(s)
    decreases |events|
  {
    hide Invariant, Apply, Work, Productive;
    WorkIsNatural(s);
    if events != [] {
      if Productive(s, events[0]) {
        ProductiveLowersWork(s, events[0]);
      } else {
        UnproductiveIsPoll(s, events[0]);
        IdlePollStays(s);
      }
      StepKeepsInvariant(s, events[0]);
      WorkerStops(Apply(s, events[0]), events[1..]);
    }
  }

  /** ... and when there is nothing left to get done, every job is settled and nothing is in flight. */
  lemma QuietMeansSettled(s: System)
    requires Invariant(s)
    ensures (forall e :: !Productive(s, e)) <==>
            s.cores == multiset{} && forall k | 0 <= k < |s.db| :: Settled(s.db[k].status)
  {
    hide DistinctIds, DistinctKeys;
    if forall e :: !Productive(s, e) {
      forall id
        ensures id !in s.cores
      {
        assert !Productive(s, CoreFinish(id));
      }
      assert !Productive(s, Poll);
      forall k | 0 <= k < |s.db|
        ensures Settled(s.db[k].status)
      {
        assert !Pending(s.db[k].status);
        assert s.db[k].id !in s.cores;
      }
    }
  }

  // ----- Submission -----

  /** A submission leaves every earlier record alone exactly when its idempotency key is known or its id is new: the
      clock that ids are drawn from must not give the same millisecond twice. */
  lemma SubmissionIsSafeIff(db: seq<Job>, job: Job)
    ensures db <= Submitted(db, job) <==> First(db, HasKey(job.key)) < |db| || First(db, HasId(job.id)) == |db|
  {
    hide First;
  }
}
