/** The job store, the polling worker, the executions in flight and the outside callers, interleaved at the worker's
    `await` points: src/agent_runtime/jobs/{worker,store}.py. */
module JobProtocol {
  import opened Wrappers
  import opened JobStore

  /** `cores` has one element for every execution in flight. */
  datatype System = System(db: seq<Job>, cores: multiset<string>)

  datatype Event =
    | Submit(job: Job)
    | RequestCancel(id: string)
    | Poll
    | CoreFinish(id: string)

  predicate Known(db: seq<Job>, id: string) {
    exists i | 0 <= i < |db| :: db[i].id == id
  }

  /** New jobs are drawn a fresh id. A cancellation may be requested at any time for any id. */
  predicate Enabled(s: System, e: Event) {
    match e
    case Submit(job) => job == NewJob(job.id, job.jobType, job.key, job.forceFail) && !Known(s.db, job.id)
    case RequestCancel(_) => true
    case Poll => true
    case CoreFinish(id) => id in s.cores
  }

  function Acknowledge(s: System): System {
    s.(db := Acknowledged(s.db))
  }

  function Claim(s: System): System {
    System(Claimed(s.db), s.cores + match NextQueued(s.db) case Some(id) => multiset{id} case None => multiset{})
  }

  function Apply(s: System, e: Event): System
    requires Enabled(s, e)
  {
    match e
    case Submit(job) => s.(db := Submitted(s.db, job))
    case RequestCancel(id) => s.(db := Updated(s.db, id, CancelRequested, None, None))
    case Poll => Claim(Acknowledge(s))
    case CoreFinish(id) => System(Finished(s.db, id), s.cores - multiset{id})
  }

  predicate Possible(s: System, events: seq<Event>)
    decreases |events|
  {
    events == [] || (Enabled(s, events[0]) && Possible(Apply(s, events[0]), events[1..]))
  }

  function After(s: System, events: seq<Event>): System
    requires Possible(s, events)
    decreases |events|
  {
    if events == [] then s else After(Apply(s, events[0]), events[1..])
  }

  // ----- The invariant -----

  function Budget(job: Job): int {
    if job.maxAttempts < 1 then 1 else job.maxAttempts
  }

  /** One job and its executions in flight. */
  predicate JobOk(job: Job, cores: nat) {
    && cores + (if job.status.Queued? then 1 else 0) <= 1
    && (job.status.Running? ==> cores == 1)
    && 0 <= job.attempts <= Budget(job)
    && (job.status.Queued? ==> job.attempts < Budget(job))
  }

  predicate DistinctKeys(db: seq<Job>) {
    forall i, j | 0 <= i < j < |db| :: db[i].key != db[j].key
  }

  predicate AllJobsOk(s: System) {
    forall i | 0 <= i < |s.db| :: JobOk(s.db[i], s.cores[s.db[i].id])
  }

  ghost predicate Invariant(s: System) {
    && DistinctIds(s.db)
    && DistinctKeys(s.db)
    && AllJobsOk(s)
    && forall id | id in s.cores :: Known(s.db, id)
  }

  /** A store of jobs that have not been tried, with any attempt limits, and nothing in flight. */
  ghost predicate Start(s: System) {
    && DistinctIds(s.db)
    && DistinctKeys(s.db)
    && s.cores == multiset{}
    && forall i | 0 <= i < |s.db| :: s.db[i].status.Queued? && s.db[i].attempts == 0
  }

  predicate SameIdentity(a: Job, b: Job) {
    && a.id == b.id && a.key == b.key && a.jobType == b.jobType
    && a.forceFail == b.forceFail && a.maxAttempts == b.maxAttempts
  }

  predicate OthersKept(cores: multiset<string>, after: multiset<string>, id: string) {
    after[id := 0] == cores[id := 0]
  }

  lemma OthersKeptAt(cores: multiset<string>, after: multiset<string>, id: string, other: string)
    requires OthersKept(cores, after, id) && other != id
    ensures after[other] == cores[other]
  {
    assert after[other] == after[id := 0][other] && cores[other] == cores[id := 0][other];
  }

  /** Every step but a submission replaces one record, and at most one step in flight of that same job. */
  lemma Replace(s: System, i: nat, job: Job, cores: multiset<string>)
    requires Invariant(s) && i < |s.db| && SameIdentity(s.db[i], job) && JobOk(job, cores[job.id])
    requires OthersKept(s.cores, cores, job.id)
    ensures Invariant(System(s.db[i := job], cores))
  {
    hide JobOk;
    var t := System(s.db[i := job], cores);
    forall k | 0 <= k < |t.db|
      ensures JobOk(t.db[k], t.cores[t.db[k].id])
    {
      if k != i {
        OthersKeptAt(s.cores, cores, job.id, s.db[k].id);
      }
    }
    forall id | id in cores
      ensures Known(t.db, id)
    {
      if id != job.id {
        OthersKeptAt(s.cores, cores, job.id, id);
        var k :| 0 <= k < |s.db| && s.db[k].id == id;
        assert t.db[k].id == id;
      } else {
        assert t.db[i].id == id;
      }
    }
  }

  // ----- What a step does to one job -----

  /** The changes that one event can make to a job and its executions in flight. */
  predicate LocalStep(a: Job, m: nat, b: Job, n: nat, e: Event) {
    || (b == a && n == m && (e.CoreFinish? ==> e.id != a.id))
    || (e == RequestCancel(a.id) && b == Moved(a, CancelRequested, None, None) && n == m)
    || (e.Poll? && a.status.CancelRequested? && b == Moved(a, Cancelled, None, Some(CANCELLED)) && n == m)
    || (e.Poll? && a.status.Queued? && b == Attempted(a) && n == m + 1)
    || (e == CoreFinish(a.id) && m > 0 && b == Concluded(a) && n == m - 1)
  }

  lemma LocalStepKeepsJobOk(a: Job, m: nat, b: Job, n: nat, e: Event)
    requires JobOk(a, m) && LocalStep(a, m, b, n, e)
    ensures JobOk(b, n) && SameIdentity(a, b) && a.attempts <= b.attempts
  {
  }

  /** The system after an event that replaces job i. */
  predicate Replaces(s: System, t: System, i: nat, e: Event) {
    && i < |s.db| == |t.db|
    && t.db == s.db[i := t.db[i]]
    && LocalStep(s.db[i], s.cores[s.db[i].id], t.db[i], t.cores[s.db[i].id], e)
    && OthersKept(s.cores, t.cores, s.db[i].id)
  }

  lemma ReplacesKeepsInvariant(s: System, t: System, i: nat, e: Event)
    requires Invariant(s) && Replaces(s, t, i, e)
    ensures Invariant(t)
  {
    hide LocalStep, JobOk;
    LocalStepKeepsJobOk(s.db[i], s.cores[s.db[i].id], t.db[i], t.cores[s.db[i].id], e);
    Replace(s, i, t.db[i], t.cores);
  }

  lemma AcknowledgeReplaces(s: System) returns (i: nat)
    requires DistinctIds(s.db)
    ensures if i == |s.db| then Acknowledge(s) == s else Replaces(s, Acknowledge(s), i, Poll)
    ensures i == First(s.db, HasStatus(CancelRequested))
  {
    hide First;
    i := First(s.db, HasStatus(CancelRequested));
  }

  lemma ClaimReplaces(s: System) returns (i: nat)
    requires DistinctIds(s.db)
    ensures if i == |s.db| then Claim(s) == s
            else Replaces(s, Claim(s), i, Poll) && Claim(s).cores == s.cores + multiset{s.db[i].id}
    ensures i == First(s.db, HasStatus(Queued))
  {
    hide First;
    i := First(s.db, HasStatus(Queued));
  }

  lemma FinishReplaces(s: System, id: string) returns (i: nat)
    requires Invariant(s) && id in s.cores
    ensures Replaces(s, Apply(s, CoreFinish(id)), i, CoreFinish(id)) && s.db[i].id == id
  {
    hide First, Concluded;
    assert Known(s.db, id);
    i :| i < |s.db| && s.db[i].id == id;
    IdIsUnique(s.db, i);
  }

  lemma CancelReplaces(s: System, id: string) returns (i: nat)
    requires DistinctIds(s.db)
    ensures if i == |s.db| then Apply(s, RequestCancel(id)) == s && !Known(s.db, id)
            else Replaces(s, Apply(s, RequestCancel(id)), i, RequestCancel(id)) && s.db[i].id == id
  {
    hide First;
    i := First(s.db, HasId(id));
  }

  lemma Append(s: System, job: Job)
    requires Invariant(s) && JobOk(job, 0) && !Known(s.db, job.id)
    requires forall i | 0 <= i < |s.db| :: s.db[i].key != job.key
    ensures Invariant(System(s.db + [job], s.cores)) && s.cores[job.id] == 0
  {
    hide JobOk;
    var db := s.db + [job];
    assert job.id !in s.cores;
    forall id | id in s.cores
      ensures Known(db, id)
    {
      var k :| 0 <= k < |s.db| && s.db[k].id == id;
      assert db[k].id == id;
    }
  }

  lemma SubmitAppends(s: System, job: Job)
    requires Invariant(s) && Enabled(s, Submit(job))
    ensures Invariant(Apply(s, Submit(job)))
    ensures Apply(s, Submit(job)).db == if First(s.db, HasKey(job.key)) < |s.db| then s.db else s.db + [job]
    ensures s.cores[job.id] == 0
  {
    hide First, DistinctIds, DistinctKeys, AllJobsOk;
    assert First(s.db, HasId(job.id)) == |s.db|;
    assert s.cores[job.id] == 0 by {
      assert job.id !in s.cores;
    }
    if First(s.db, HasKey(job.key)) == |s.db| {
      Append(s, job);
      assert Apply(s, Submit(job)) == System(s.db + [job], s.cores);
    } else {
      assert Apply(s, Submit(job)) == s;
    }
  }

  /** One job in flight or queued at most, attempts within budget, one job for every idempotency key: always. */
  lemma StepKeepsInvariant(s: System, e: Event)
    requires Invariant(s) && Enabled(s, e)
    ensures Invariant(Apply(s, e))
  {
    hide Replaces, AllJobsOk, DistinctKeys, Claimed, Acknowledged, Submitted, Updated, Finished, Known;
    match e
    case Submit(job) => SubmitAppends(s, job);
    case RequestCancel(id) =>
      var i := CancelReplaces(s, id);
      if i != |s.db| {
        ReplacesKeepsInvariant(s, Apply(s, e), i, e);
      }
    case Poll =>
      var i := AcknowledgeReplaces(s);
      var mid := Acknowledge(s);
      if i != |s.db| {
        ReplacesKeepsInvariant(s, mid, i, e);
      }
      var k := ClaimReplaces(mid);
      if k != |mid.db| {
        ReplacesKeepsInvariant(mid, Claim(mid), k, e);
      }
    case CoreFinish(id) =>
      var i := FinishReplaces(s, id);
      ReplacesKeepsInvariant(s, Apply(s, e), i, e);
  }

  lemma {:induction false} RunKeepsInvariant(s: System, events: seq<Event>)
    requires Invariant(s) && Possible(s, events)
    ensures Invariant(After(s, events))
    decreases |events|
  {
    hide Invariant, Apply, Enabled;
    if events != [] {
      StepKeepsInvariant(s, events[0]);
      RunKeepsInvariant(Apply(s, events[0]), events[1..]);
    }
  }

  /** In every state that any interleaving reaches, each job is queued or in flight at most once, has used no more
      attempts than its budget, and is the only job with its idempotency key. */
  lemma ReachableIsSafe(s: System, events: seq<Event>)
    requires Start(s) && Possible(s, events)
    ensures var t := After(s, events);
            && DistinctKeys(t.db)
            && forall i | 0 <= i < |t.db| ::
                 var c := t.cores[t.db[i].id];
                 && c + (if t.db[i].status.Queued? then 1 else 0) <= 1
                 && (t.db[i].status.Running? ==> c == 1)
                 && t.db[i].attempts <= Budget(t.db[i])
  {
    hide Possible, After;
    RunKeepsInvariant(s, events);
    var t := After(s, events);
    assert forall i | 0 <= i < |t.db| :: JobOk(t.db[i], t.cores[t.db[i].id]);
  }

  // ----- Following one job through a run -----

  lemma ReplacesElsewhere(s: System, t: System, i: nat, e: Event, k: nat)
    requires DistinctIds(s.db) && Replaces(s, t, i, e) && k < |s.db| && k != i
    ensures t.db[k] == s.db[k] && t.cores[s.db[k].id] == s.cores[s.db[k].id] && s.db[k].id != s.db[i].id
  {
    hide LocalStep;
    OthersKeptAt(s.cores, t.cores, s.db[i].id, s.db[k].id);
  }

  lemma ReplacesLocally(s: System, t: System, i: nat, e: Event, k: nat)
    requires DistinctIds(s.db) && Replaces(s, t, i, e) && k < |s.db| && (e.CoreFinish? ==> e.id == s.db[i].id)
    ensures LocalStep(s.db[k], s.cores[s.db[k].id], t.db[k], t.cores[s.db[k].id], e)
  {
    if k != i {
      hide Concluded, Moved;
      ReplacesElsewhere(s, t, i, e, k);
    }
  }

  lemma Unmoved(a: Job, m: nat, e: Event)
    requires e.Submit? || e.RequestCancel? || e.Poll?
    ensures LocalStep(a, m, a, m, e)
  {
  }

  lemma LengthsAgree(s: System, t: System, i: nat, e: Event)
    requires Replaces(s, t, i, e)
    ensures i < |s.db| == |t.db|
  {
  }

  lemma Renames(s: System, t: System, k: nat, e: Event)
    requires k < |s.db| == |t.db| && LocalStep(s.db[k], s.cores[s.db[k].id], t.db[k], t.cores[s.db[k].id], e)
    ensures t.db[k].id == s.db[k].id
  {
  }

  lemma Combine(a: Job, l: nat, b: Job, m: nat, c: Job, n: nat)
    requires LocalStep(a, l, b, m, Poll) && LocalStep(b, m, c, n, Poll)
    ensures LocalStep(a, l, c, n, Poll)
  {
  }

  /** The job that a poll acknowledges is not the one that it claims. */
  lemma PollProjects(s: System, k: nat)
    requires Invariant(s) && k < |s.db|
    ensures var t := Apply(s, Poll);
            && |s.db| == |t.db| && t.db[k].id == s.db[k].id
            && LocalStep(s.db[k], s.cores[s.db[k].id], t.db[k], t.cores[s.db[k].id], Poll)
  {
    hide AllJobsOk, DistinctKeys, Known, Replaces, Claimed, Acknowledged, LocalStep;
    var mid := Acknowledge(s);
    var t := Claim(mid);
    var i := AcknowledgeReplaces(s);
    if i != |s.db| {
      LengthsAgree(s, mid, i, Poll);
      ReplacesLocally(s, mid, i, Poll, k);
      Renames(s, mid, k, Poll);
      ReplacesKeepsInvariant(s, mid, i, Poll);
    }
    var j := ClaimReplaces(mid);
    if j != |mid.db| {
      LengthsAgree(mid, t, j, Poll);
      ReplacesLocally(mid, t, j, Poll, k);
      Renames(mid, t, k, Poll);
      if i != |s.db| {
        Combine(s.db[k], s.cores[s.db[k].id], mid.db[k], mid.cores[s.db[k].id], t.db[k], t.cores[s.db[k].id]);
      }
    } else if i == |s.db| {
      Unmoved(s.db[k], s.cores[s.db[k].id], Poll);
    }
  }

  /** An event acts on every job of the store by a local step, and never loses or renames one. */
  lemma Projects(s: System, e: Event, k: nat)
    requires Invariant(s) && Enabled(s, e) && k < |s.db|
    ensures var t := Apply(s, e);
            && k < |s.db| <= |t.db| && t.db[k].id == s.db[k].id
            && LocalStep(s.db[k], s.cores[s.db[k].id], t.db[k], t.cores[s.db[k].id], e)
  {
    hide Replaces, AllJobsOk, DistinctKeys, Claimed, Acknowledged, Submitted, Updated, Finished, Known, LocalStep;
    var t := Apply(s, e);
    match e
    case Submit(job) =>
      SubmitAppends(s, job);
      Unmoved(s.db[k], s.cores[s.db[k].id], e);
    case RequestCancel(id) =>
      var i := CancelReplaces(s, id);
      if i != |s.db| {
        LengthsAgree(s, t, i, e);
        ReplacesLocally(s, t, i, e, k);
        Renames(s, t, k, e);
      } else {
        Unmoved(s.db[k], s.cores[s.db[k].id], e);
      }
    case CoreFinish(id) =>
      var i := FinishReplaces(s, id);
      LengthsAgree(s, t, i, e);
      ReplacesLocally(s, t, i, e, k);
      Renames(s, t, k, e);
    case Poll => PollProjects(s, k);
  }
}
