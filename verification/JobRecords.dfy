/** What a job record says of its history, in every run of the job protocol, cancelled or not. */
module JobRecords {
  import opened Wrappers
  import opened JobStore
  import opened JobProtocol
  import opened JobTheorems

  /** The result is the artifact of a completed computation; the error is the reason of a cancellation that was asked
      for, or of a failure with no attempts left. Without a cancellation the two never outlive the status they belong
      to. */
  predicate Told(job: Job, cores: nat, asked: bool) {
    && (cores > 0 ==> job.attempts > 0)
    && (job.result.Some? ==>
          && !job.forceFail && job.attempts > 0
          && job.result.value ==
             JobResult("ARIMA rolling done.", "art_" + job.id, "storage://macro/processed_" + job.id + ".csv"))
    && (job.error.Some? ==>
          || (asked && job.error.value == "Cancelled gracefully by human request.")
          || (job.forceFail && job.attempts >= job.maxAttempts && job.attempts > 0
              && job.error.value == "Transient math convergence error."))
    && (job.status.Succeeded? ==> job.result.Some?)
    && (job.status.Failed? ==> job.error == Some("Transient math convergence error.") && job.forceFail)
    && (job.status.Cancelled? ==> job.error == Some("Cancelled gracefully by human request."))
    && (!asked ==> && Honest(job, cores)
                   && (job.result.Some? <==> job.status.Succeeded?)
                   && (job.error.Some? <==> job.status.Failed?))
  }

  predicate AllTold(s: System, ids: set<string>) {
    forall k | 0 <= k < |s.db| :: Told(s.db[k], InFlight(s, k), s.db[k].id in ids)
  }

  predicate Blank(db: seq<Job>) {
    forall k | 0 <= k < |db| :: db[k].result == None && db[k].error == None
  }

  lemma LocalStepTells(a: Job, m: nat, b: Job, n: nat, e: Event, asked: bool, askedNow: bool)
    requires Told(a, m, asked) && JobOk(a, m) && LocalStep(a, m, b, n, e)
    requires asked ==> askedNow
    requires e == RequestCancel(a.id) ==> askedNow
    ensures Told(b, n, askedNow)
    ensures a.result.Some? ==> b.result == a.result
    ensures a.error.Some? ==> b.error.Some?
  {
    if !askedNow {
      LocalStepKeepsHonest(a, m, b, n, e);
    }
  }

  lemma SubmittedIsBlank(s: System, e: Event)
    requires Enabled(s, e) && e.Submit?
    ensures e.job.result == None && e.job.error == None && e.job.status.Queued?
  {
  }

  lemma NewIsTold(job: Job, asked: bool)
    requires Honest(job, 0) && job.status.Queued? && job.result == None && job.error == None
    ensures Told(job, 0, asked)
  {
  }

  lemma StepTells(s: System, e: Event, ids: set<string>)
    requires Invariant(s) && Enabled(s, e) && AllTold(s, ids)
    ensures AllTold(Apply(s, e), ids + CancelledIds([e]))
  {
    hide Apply, Honest, LocalStep, Told, JobOk, DistinctIds, DistinctKeys, Known, Enabled;
    var t := Apply(s, e);
    OnlySubmitGrows(s, e);
    forall k | 0 <= k < |t.db|
      ensures Told(t.db[k], InFlight(t, k), t.db[k].id in ids + CancelledIds([e]))
    {
      if k < |s.db| {
        Projects(s, e, k);
        LocalStepTells(s.db[k], InFlight(s, k), t.db[k], InFlight(t, k), e, s.db[k].id in ids,
                       s.db[k].id in ids + CancelledIds([e]));
      } else {
        SubmittedIsBlank(s, e);
        NewIsTold(e.job, t.db[k].id in ids + CancelledIds([e]));
      }
    }
  }

  lemma {:induction false} RunTells(s: System, events: seq<Event>, ids: set<string>)
    requires Invariant(s) && Possible(s, events) && AllTold(s, ids)
    ensures AllTold(After(s, events), ids + CancelledIds(events))
    decreases |events|
  {
    hide Invariant, Apply, Enabled, AllTold;
    if events == [] {
      assert ids + CancelledIds(events) == ids;
    } else {
      StepTells(s, events[0], ids);
      StepKeepsInvariant(s, events[0]);
      RunTells(Apply(s, events[0]), events[1..], ids + CancelledIds([events[0]]));
      assert [events[0]][1..] == [];
      assert ids + CancelledIds([events[0]]) + CancelledIds(events[1..]) == ids + CancelledIds(events);
    }
  }

  /** In every state of every run, each record tells its history. */
  lemma RecordsTell(s: System, events: seq<Event>, k: nat)
    requires Start(s) && Blank(s.db) && Possible(s, events) && k < |After(s, events).db|
    ensures var t := After(s, events); Told(t.db[k], InFlight(t, k), t.db[k].id in CancelledIds(events))
  {
    hide Possible, After;
    assert AllTold(s, {});
    RunTells(s, events, {});
    assert {} + CancelledIds(events) == CancelledIds(events);
  }

  /** A result, once there, is never changed or withdrawn, whatever is cancelled; an error is never withdrawn. */
  lemma {:induction false} ResultsAreFinal(s: System, events: seq<Event>, k: nat, ids: set<string>)
    requires Invariant(s) && AllTold(s, ids) && Possible(s, events) && k < |s.db|
    ensures var t := After(s, events);
            && k < |t.db|
            && (s.db[k].result.Some? ==> t.db[k].result == s.db[k].result)
            && (s.db[k].error.Some? ==> t.db[k].error.Some?)
    decreases |events|
  {
    hide Apply, Enabled, Told, LocalStep, JobOk, DistinctIds, DistinctKeys, Known;
    if events != [] {
      var t := Apply(s, events[0]);
      Projects(s, events[0], k);
      LocalStepTells(s.db[k], InFlight(s, k), t.db[k], InFlight(t, k), events[0], s.db[k].id in ids, true);
      StepTells(s, events[0], ids);
      StepKeepsInvariant(s, events[0]);
      ResultsAreFinal(t, events[1..], k, ids + CancelledIds([events[0]]));
    }
  }
}
