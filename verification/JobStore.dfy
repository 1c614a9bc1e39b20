/** Long-running jobs: src/agent_runtime/jobs/{models,store,worker}.py. */
module JobStore {
  import opened Wrappers

  datatype Status = Queued | Running | Succeeded | Failed | CancelRequested | Cancelled

  datatype JobResult = JobResult(summary: string, artifactId: string, uri: string)

  /** A job record as a value. Of the payload only the flag that makes the computation fail matters. */
  datatype Job = Job(
    id: string,
    jobType: string,
    key: string,
    forceFail: bool,
    status: Status,
    result: Option<JobResult>,
    error: Option<string>,
    attempts: int,
    maxAttempts: int)

  const DEFAULT_MAX_ATTEMPTS := 3

  const CANCELLED := "Cancelled gracefully by human request."

  const TRANSIENT := "Transient math convergence error."

  function NewJob(id: string, jobType: string, key: string, forceFail: bool): Job {
    Job(id, jobType, key, forceFail, Queued, None, None, 0, DEFAULT_MAX_ATTEMPTS)
  }

  function ArtifactOf(id: string): JobResult {
    JobResult("ARIMA rolling done.", "art_" + id, "storage://macro/processed_" + id + ".csv")
  }

  // ----- The store as a value: the records in the order of the dictionary -----

  /** The position of the first job that matches, or the number of jobs. */
  function First(db: seq<Job>, matches: Job -> bool): (i: nat)
    ensures i <= |db| && (i < |db| ==> matches(db[i]))
    ensures forall k | 0 <= k < i :: !matches(db[k])
  {
    if db == [] || matches(db[0]) then 0 else First(db[1..], matches) + 1
  }

  function HasId(id: string): Job -> bool {
    (job: Job) => job.id == id
  }

  function HasKey(key: string): Job -> bool {
    (job: Job) => job.key == key
  }

  function HasStatus(status: Status): Job -> bool {
    (job: Job) => job.status == status
  }

  predicate DistinctIds(db: seq<Job>) {
    forall i, j | 0 <= i < j < |db| :: db[i].id != db[j].id
  }

  /** `db[job.id] = job`: a new entry goes last, an existing one keeps its place. */
  function Put(db: seq<Job>, job: Job): seq<Job> {
    var i := First(db, HasId(job.id));
    if i < |db| then db[i := job] else db + [job]
  }

  function Submitted(db: seq<Job>, job: Job): seq<Job> {
    if First(db, HasKey(job.key)) < |db| then db else Put(db, job)
  }

  function Moved(job: Job, status: Status, result: Option<JobResult>, error: Option<string>): Job {
    job.(status := status,
         result := if result.Some? then result else job.result,
         error := if error.Some? then error else job.error)
  }

  function Updated(db: seq<Job>, id: string, status: Status, result: Option<JobResult>, error: Option<string>):
    seq<Job>
  {
    var i := First(db, HasId(id));
    if i < |db| then db[i := Moved(db[i], status, result, error)] else db
  }

  // ----- The worker's atomic sections on the store's value -----

  /** Confirm the first requested cancellation. */
  function Acknowledged(db: seq<Job>): seq<Job> {
    var i := First(db, HasStatus(CancelRequested));
    if i < |db| then db[i := Moved(db[i], Cancelled, None, Some(CANCELLED))] else db
  }

  function Attempted(job: Job): Job {
    job.(status := Running, attempts := job.attempts + 1)
  }

  /** Start the first queued job. */
  function Claimed(db: seq<Job>): seq<Job> {
    var i := First(db, HasStatus(Queued));
    if i < |db| then db[i := Attempted(db[i])] else db
  }

  function NextQueued(db: seq<Job>): Option<string> {
    var i := First(db, HasStatus(Queued));
    if i < |db| then Some(db[i].id) else None
  }

  /** What the end of one execution makes of its job. */
  function Concluded(job: Job): Job {
    if job.status.CancelRequested? then Moved(job, Cancelled, None, Some(CANCELLED))
    else if !job.forceFail then Moved(job, Succeeded, Some(ArtifactOf(job.id)), None)
    else if job.attempts < job.maxAttempts then Moved(job, Queued, None, None)
    else Moved(job, Failed, None, Some(TRANSIENT))
  }

  function Finished(db: seq<Job>, id: string): seq<Job> {
    var i := First(db, HasId(id));
    if i < |db| then db[i := Concluded(db[i])] else db
  }

  // ----- The objects -----

  class JobRecord {
    const id: string
    const jobType: string
    const key: string
    const forceFail: bool
    var status: Status
    var result: Option<JobResult>
    var error: Option<string>
    var attempts: int
    var maxAttempts: int

    function View(): Job
      reads this
    {
      Job(id, jobType, key, forceFail, status, result, error, attempts, maxAttempts)
    }

    constructor (id: string, jobType: string, key: string, forceFail: bool)
      ensures View() == NewJob(id, jobType, key, forceFail)
    {
      this.id, this.jobType, this.key, this.forceFail := id, jobType, key, forceFail;
      status, result, error, attempts, maxAttempts := Queued, None, None, 0, DEFAULT_MAX_ATTEMPTS;
    }
  }

  function Views(records: seq<JobRecord>): seq<Job>
    reads records
  {
    seq(|records|, i requires 0 <= i < |records| reads records => records[i].View())
  }

  lemma FirstIs(db: seq<Job>, matches: Job -> bool, i: nat)
    requires i <= |db| && (i < |db| ==> matches(db[i]))
    requires (forall k | 0 <= k < i :: !matches(db[k])) || (forall k | 0 <= k < |db| && k != i :: !matches(db[k]))
    ensures First(db, matches) == i
  {
  }

  lemma PutKeepsIds(db: seq<Job>, job: Job)
    requires DistinctIds(db)
    ensures DistinctIds(Put(db, job))
  {
  }

  class SQLiteJobStore {
    var db: seq<JobRecord>

    function Contents(): seq<Job>
      reads this, db
    {
      Views(db)
    }

    ghost predicate Valid()
      reads this, db
    {
      DistinctIds(Contents())
    }

    constructor ()
      ensures Valid() && Contents() == []
    {
      db := [];
    }

    /** The record that already has this idempotency key, or else a new one under an id drawn from the clock. */
    method SubmitJob(jobType: string, key: string, forceFail: bool, jobId: string) returns (job: JobRecord)
      requires Valid()
      modifies this
      ensures Valid() && job in db && job.key == key
      ensures Contents() == Submitted(old(Contents()), NewJob(jobId, jobType, key, forceFail))
      ensures var i := First(old(Contents()), HasKey(key));
              if i < |old(db)| then job == old(db)[i] && db == old(db)
              else fresh(job) && job.View() == Job(jobId, jobType, key, forceFail, Queued, None, None, 0, 3)
    {
      hide First;
      ghost var before := Contents();
      for i := 0 to |db|
        invariant forall k | 0 <= k < i :: db[k].key != key
      {
        if db[i].key == key {
          assert First(before, HasKey(key)) == i by { FirstIs(before, HasKey(key), i); }
          return db[i];
        }
      }
      FirstIs(before, HasKey(key), |db|);
      job := new JobRecord(jobId, jobType, key, forceFail);
      assert Views(db) == before;
      var at := First(Contents(), HasId(jobId));
      PutKeepsIds(before, job.View());
      if at < |db| {
        db := db[at := job];
        assert db[at] == job;
      } else {
        db := db + [job];
        assert db[|db| - 1] == job;
      }
      assert Contents() == Put(before, job.View());
    }

    method GetJob(id: string) returns (job: JobRecord?)
      ensures var i := First(Contents(), HasId(id)); job == if i < |db| then db[i] else null
    {
      var i := First(Contents(), HasId(id));
      job := if i < |db| then db[i] else null;
    }

    method UpdateJobStatus(id: string, status: Status, result: Option<JobResult>, error: Option<string>)
      returns (job: JobRecord?)
      requires Valid()
      modifies db
      ensures Valid() && Contents() == Updated(old(Contents()), id, status, result, error)
      ensures var i := First(old(Contents()), HasId(id)); job == if i < |db| then db[i] else null
    {
      hide First;
      ghost var before := Contents();
      job := GetJob(id);
      if job != null {
        job.status := status;
        if result.Some? {
          job.result := result;
        }
        if error.Some? {
          job.error := error;
        }
      }
      assert Contents() == Updated(before, id, status, result, error);
    }

    method FetchNext(status: Status) returns (job: JobRecord?)
      ensures var i := First(Contents(), HasStatus(status)); job == if i < |db| then db[i] else null
    {
      for i := 0 to |db|
        invariant forall k | 0 <= k < i :: db[k].status != status
      {
        if db[i].status == status {
          FirstIs(Contents(), HasStatus(status), i);
          return db[i];
        }
      }
      FirstIs(Contents(), HasStatus(status), |db|);
      return null;
    }
  }

  lemma IdIsUnique(db: seq<Job>, i: nat)
    requires DistinctIds(db) && i < |db|
    ensures First(db, HasId(db[i].id)) == i
  {
    FirstIs(db, HasId(db[i].id), i);
  }

  lemma FirstIsTheRecord(records: seq<JobRecord>, job: JobRecord)
    requires DistinctIds(Views(records)) && job in records
    ensures var i := First(Views(records), HasId(job.id)); i < |records| && records[i] == job
  {
    var i :| 0 <= i < |records| && records[i] == job;
    IdIsUnique(Views(records), i);
  }

  lemma UpdatedAt(db: seq<Job>, i: nat, status: Status, result: Option<JobResult>, error: Option<string>)
    requires DistinctIds(db) && i < |db|
    ensures Updated(db, db[i].id, status, result, error) == db[i := Moved(db[i], status, result, error)]
  {
    IdIsUnique(db, i);
  }

  lemma ClaimIs(db: seq<Job>, i: nat)
    requires i == First(db, HasStatus(Queued)) < |db|
    ensures var running := db[i := Moved(db[i], Running, None, None)];
            running[i := running[i].(attempts := running[i].attempts + 1)] == Claimed(db)
  {
  }

  lemma OneRecordEach(records: seq<JobRecord>, i: nat)
    requires DistinctIds(Views(records)) && i < |records|
    ensures forall k | 0 <= k < |records| && k != i :: records[k] != records[i]
  {
    forall k | 0 <= k < |records| && k != i
      ensures records[k] != records[i]
    {
      assert Views(records)[k].id != Views(records)[i].id;
    }
  }

  class AsyncMacroJobWorker {
    const store: SQLiteJobStore

    constructor (store: SQLiteJobStore)
      ensures this.store == store
    {
      this.store := store;
    }

    method AcknowledgeCancellation()
      requires store.Valid()
      modifies store.db
      ensures store.Valid() && store.db == old(store.db)
      ensures store.Contents() == Acknowledged(old(store.Contents()))
    {
      hide First;
      var cancelled := store.FetchNext(CancelRequested);
      if cancelled != null {
        IdIsUnique(store.Contents(), First(store.Contents(), HasStatus(CancelRequested)));
        var _ := store.UpdateJobStatus(cancelled.id, Cancelled, None, Some(CANCELLED));
      }
    }

    method ClaimNext() returns (claimed: Option<string>)
      requires store.Valid()
      modifies store.db
      ensures store.Valid() && store.db == old(store.db)
      ensures store.Contents() == Claimed(old(store.Contents()))
      ensures claimed == NextQueued(old(store.Contents()))
    {
      hide First, Updated;
      ghost var before := store.Contents();
      var job := store.FetchNext(Queued);
      if job == null {
        return None;
      }
      ghost var i := First(before, HasStatus(Queued));
      UpdatedAt(before, i, Running, None, None);
      var _ := store.UpdateJobStatus(job.id, Running, None, None);
      ghost var running := store.Contents();
      OneRecordEach(store.db, i);
      job.attempts := job.attempts + 1;
      assert store.Contents() == running[i := running[i].(attempts := running[i].attempts + 1)];
      ClaimIs(before, i);
      return Some(job.id);
    }

    /** The body of the polling loop up to its sleep: one cancellation, then one claim. */
    method PollOnce() returns (spawned: Option<string>)
      requires store.Valid()
      modifies store.db
      ensures store.Valid() && store.db == old(store.db)
      ensures store.Contents() == Claimed(Acknowledged(old(store.Contents())))
      ensures spawned == NextQueued(Acknowledged(old(store.Contents())))
    {
      AcknowledgeCancellation();
      spawned := ClaimNext();
    }

    /** The part of an execution after its sleep. The record was looked up before it. */
    method ConcludeJobCore(job: JobRecord)
      requires store.Valid() && job in store.db
      modifies store.db
      ensures store.Valid() && store.db == old(store.db)
      ensures store.Contents() == Finished(old(store.Contents()), job.id)
    {
      hide First;
      FirstIsTheRecord(store.db, job);
      var current := store.GetJob(job.id);
      if current != null && current.status.CancelRequested? {
        var _ := store.UpdateJobStatus(job.id, Cancelled, None, Some(CANCELLED));
      } else if !job.forceFail {
        var _ := store.UpdateJobStatus(job.id, Succeeded, Some(ArtifactOf(job.id)), None);
      } else if job.attempts < job.maxAttempts {
        var _ := store.UpdateJobStatus(job.id, Queued, None, None);
      } else {
        var _ := store.UpdateJobStatus(job.id, Failed, None, Some(TRANSIENT));
      }
    }
  }
}
