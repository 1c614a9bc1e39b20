/** The race between a poll and the checkpoint of an execution in flight: which cancel requests are honoured. */
module JobCancellation {
  import opened Wrappers
  import opened JobStore
  import opened JobProtocol
  import opened JobTheorems

  // ----- Runs in two parts -----

  lemma {:induction false} AfterConcat(s: System, xs: seq<Event>, ys: seq<Event>)
    requires Possible(s, xs) && Possible(After(s, xs), ys)
    ensures Possible(s, xs + ys) && After(s, xs + ys) == After(After(s, xs), ys)
    decreases |xs|
  {
    hide Apply, Enabled;
    if xs == [] {
      assert xs + ys == ys;
    } else {
      AfterConcat(Apply(s, xs[0]), xs[1..], ys);
      assert (xs + ys)[1..] == xs[1..] + ys;
    }
  }

  /** The events after the last request for this job's cancellation and before the end of its execution. */
  predicate Between(events: seq<Event>, id: string) {
    forall i | 0 <= i < |events| :: events[i] != RequestCancel(id) && events[i] != CoreFinish(id)
  }

  /** The job is the next whose cancellation a poll will acknowledge. */
  predicate NextInLine(s: System, k: nat) {
    First(s.db, HasStatus(CancelRequested)) == k
  }

  /** Some poll of the run comes when the job is next in line. */
  predicate Caught(s: System, events: seq<Event>, k: nat)
    requires Possible(s, events)
    decreases |events|
  {
    && events != []
    && ((events[0].Poll? && NextInLine(s, k)) || Caught(Apply(s, events[0]), events[1..], k))
  }

  // ----- One step -----

  lemma RequestLands(s: System, k: nat)
    requires Invariant(s) && k < |s.db|
    ensures var t := Apply(s, RequestCancel(s.db[k].id));
            && t.db == s.db[k := Moved(s.db[k], CancelRequested, None, None)] && t.cores == s.cores
  {
    hide First;
    IdIsUnique(s.db, k);
  }

  lemma PollAcknowledges(s: System, k: nat)
    requires Invariant(s) && k < |s.db| && NextInLine(s, k)
    ensures var t := Apply(s, Poll);
            && k < |t.db| && t.db[k] == Moved(s.db[k], Cancelled, None, Some(CANCELLED))
            && InFlight(t, k) == InFlight(s, k)
  {
    hide First;
    var mid := Acknowledge(s);
    var i := First(mid.db, HasStatus(Queued));
    assert i != k;
    if i < |mid.db| {
      assert mid.db[i].id == s.db[i].id != s.db[k].id;
    }
  }

  lemma PollPassesOver(s: System, k: nat)
    requires Invariant(s) && k < |s.db| && s.db[k].status.CancelRequested? && !NextInLine(s, k)
    ensures var t := Apply(s, Poll); k < |t.db| && t.db[k] == s.db[k] && InFlight(t, k) == InFlight(s, k)
  {
    hide First;
    var mid := Acknowledge(s);
    var i := First(mid.db, HasStatus(Queued));
    assert mid.db[k] == s.db[k] && i != k;
    if i < |mid.db| {
      assert mid.db[i].id == s.db[i].id != s.db[k].id;
    }
  }

  lemma StepBetween(s: System, e: Event, k: nat)
    requires Invariant(s) && Enabled(s, e) && k < |s.db| && s.db[k].status.CancelRequested?
    requires Between([e], s.db[k].id)
    ensures var t := Apply(s, e);
            && k < |t.db| && InFlight(t, k) == InFlight(s, k) && t.db[k].id == s.db[k].id
            && t.db[k].status == if e.Poll? && NextInLine(s, k) then Cancelled else CancelRequested
  {
    hide Apply, Invariant, NextInLine;
    assert [e][0] == e;
    Projects(s, e, k);
    if e.Poll? {
      if NextInLine(s, k) {
        PollAcknowledges(s, k);
      } else {
        PollPassesOver(s, k);
      }
    }
  }

  // ----- Up to the checkpoint -----

  lemma {:induction false} SettledBetween(s: System, events: seq<Event>, k: nat)
    requires Invariant(s) && Possible(s, events) && k < |s.db| && Settled(s.db[k].status)
    requires Between(events, s.db[k].id)
    ensures var t := After(s, events);
            Invariant(t) && k < |t.db| && t.db[k] == s.db[k] && InFlight(t, k) == InFlight(s, k)
    decreases |events|
  {
    hide Apply, Invariant, Enabled;
    if events != [] {
      assert events[0] != RequestCancel(s.db[k].id) && events[0] != CoreFinish(s.db[k].id);
      Projects(s, events[0], k);
      StepKeepsInvariant(s, events[0]);
      SettledBetween(Apply(s, events[0]), events[1..], k);
    }
  }

  lemma {:induction false} RequestedBetween(s: System, events: seq<Event>, k: nat)
    requires Invariant(s) && Possible(s, events) && k < |s.db| && s.db[k].status.CancelRequested?
    requires Between(events, s.db[k].id)
    ensures var t := After(s, events);
            && Invariant(t) && k < |t.db| && t.db[k].id == s.db[k].id && InFlight(t, k) == InFlight(s, k)
            && t.db[k].status == if Caught(s, events, k) then Cancelled else CancelRequested
    decreases |events|
  {
    hide Apply, Invariant, Enabled, NextInLine;
    if events != [] {
      var e, rest := events[0], events[1..];
      assert Between([e], s.db[k].id) && Between(rest, s.db[k].id);
      StepBetween(s, e, k);
      StepKeepsInvariant(s, e);
      if e.Poll? && NextInLine(s, k) {
        SettledBetween(Apply(s, e), rest, k);
      } else {
        RequestedBetween(Apply(s, e), rest, k);
      }
    }
  }

  /** A request for a job in flight, anything at all, and the end of the execution: the request is honoured exactly
      when no poll in between found the job next in line. A poll that did has acknowledged the request, and the
      execution then runs to its own end. */
  lemma RequestHonouredIff(s: System, k: nat, between: seq<Event>)
    requires Invariant(s) && k < |s.db| && InFlight(s, k) > 0 && Between(between, s.db[k].id)
    requires Possible(Apply(s, RequestCancel(s.db[k].id)), between)
    ensures var id := s.db[k].id; var run := [RequestCancel(id)] + between + [CoreFinish(id)];
            && Possible(s, run) && k < |After(s, run).db|
            && (After(s, run).db[k].status.Cancelled? <==>
                !Caught(Apply(s, RequestCancel(id)), between, k))
  {
    hide Apply, Invariant, Possible, After, Caught, Between;
    var id := s.db[k].id;
    var requested := Apply(s, RequestCancel(id));
    RequestLands(s, k);
    StepKeepsInvariant(s, RequestCancel(id));
    RunOfOne(s, RequestCancel(id));
    RequestedBetween(requested, between, k);
    var reached := After(requested, between);
    FinishOverwrites(reached, k);
    RunOfOne(reached, CoreFinish(id));
    AfterConcat(s, [RequestCancel(id)], between);
    AfterConcat(s, [RequestCancel(id)] + between, [CoreFinish(id)]);
  }

  // ----- The line -----

  function Waits(job: Job): int {
    if job.status.CancelRequested? then 1 else 0
  }

  /** The records before job k whose cancellation is still to be acknowledged. */
  function Awaiting(db: seq<Job>, k: nat): int
    requires k <= |db|
  {
    Sum(db[..k], Waits)
  }

  lemma AwaitingUpdate(db: seq<Job>, k: nat, i: nat, job: Job)
    requires k <= |db| && i < |db|
    ensures Awaiting(db[i := job], k) == Awaiting(db, k) + if i < k then Waits(job) - Waits(db[i]) else 0
  {
    if i < k {
      SumUpdate(db[..k], Waits, i, job);
      assert db[i := job][..k] == db[..k][i := job];
    } else {
      assert db[i := job][..k] == db[..k];
    }
  }

  lemma {:induction false} SumOfWaits(db: seq<Job>)
    ensures Sum(db, Waits) >= 0
    ensures Sum(db, Waits) == 0 <==> forall j | 0 <= j < |db| :: !db[j].status.CancelRequested?
  {
    if db != [] {
      SumOfWaits(db[1..]);
      assert forall j | 0 < j < |db| :: db[j] == db[1..][j - 1];
    }
  }

  /** A job waits exactly behind the earlier records that wait. */
  lemma NextInLineIff(s: System, k: nat)
    requires k < |s.db| && s.db[k].status.CancelRequested?
    ensures Awaiting(s.db, k) >= 0 && (NextInLine(s, k) <==> Awaiting(s.db, k) == 0)
  {
    hide First, Sum;
    SumOfWaits(s.db[..k]);
    if Awaiting(s.db, k) == 0 {
      assert forall j | 0 <= j < k :: s.db[..k][j] == s.db[j];
      FirstIs(s.db, HasStatus(CancelRequested), k);
    }
  }

  lemma PollServesOne(s: System, k: nat)
    requires Invariant(s) && k < |s.db| && s.db[k].status.CancelRequested? && !NextInLine(s, k)
    ensures var t := Apply(s, Poll); k <= |t.db| && Awaiting(t.db, k) == Awaiting(s.db, k) - 1
  {
    hide First, Awaiting;
    var i := First(s.db, HasStatus(CancelRequested));
    assert i < k;
    AwaitingUpdate(s.db, k, i, Moved(s.db[i], Cancelled, None, Some(CANCELLED)));
    var mid := Acknowledge(s);
    var c := First(mid.db, HasStatus(Queued));
    if c < |mid.db| {
      AwaitingUpdate(mid.db, k, c, Attempted(mid.db[c]));
    }
  }

  lemma ConcludedWaitsNoMore(job: Job)
    ensures Waits(Concluded(job)) == 0
  {
  }

  lemma SubmitKeepsLine(s: System, job: Job, k: nat)
    requires Invariant(s) && Enabled(s, Submit(job)) && k <= |s.db|
    ensures var t := Apply(s, Submit(job)); k <= |t.db| && Awaiting(t.db, k) == Awaiting(s.db, k)
  {
    hide Sum, First, Invariant;
    SubmitAppends(s, job);
    assert (s.db + [job])[..k] == s.db[..k];
  }

  /** How far one event can move the line. */
  lemma LineMoves(s: System, e: Event, k: nat)
    requires Invariant(s) && Enabled(s, e) && k < |s.db| && s.db[k].status.CancelRequested?
    requires !(e.Poll? && NextInLine(s, k))
    ensures var t := Apply(s, e);
            && k <= |t.db|
            && Awaiting(t.db, k) >= Awaiting(s.db, k) - (if e.Poll? || e.CoreFinish? then 1 else 0)
            && Awaiting(t.db, k) <= Awaiting(s.db, k) + (if e.RequestCancel? then 1 else 0) - (if e.Poll? then 1 else 0)
  {
    hide First, Awaiting, Concluded, Invariant;
    match e
    case Submit(job) => SubmitKeepsLine(s, job, k);
    case Poll => PollServesOne(s, k);
    case RequestCancel(id) =>
      var i := First(s.db, HasId(id));
      if i < |s.db| {
        AwaitingUpdate(s.db, k, i, Moved(s.db[i], CancelRequested, None, None));
      }
    case CoreFinish(id) =>
      var i := First(s.db, HasId(id));
      if i < |s.db| {
        ConcludedWaitsNoMore(s.db[i]);
        AwaitingUpdate(s.db, k, i, Concluded(s.db[i]));
      }
  }

  // ----- Counting events -----

  function Polls(events: seq<Event>): nat {
    if events == [] then 0 else (if events[0].Poll? then 1 else 0) + Polls(events[1..])
  }

  function Requests(events: seq<Event>): nat {
    if events == [] then 0 else (if events[0].RequestCancel? then 1 else 0) + Requests(events[1..])
  }

  lemma {:induction false} CaughtBounds(s: System, events: seq<Event>, k: nat)
    requires Invariant(s) && Possible(s, events) && k < |s.db| && s.db[k].status.CancelRequested?
    requires Between(events, s.db[k].id)
    ensures if Caught(s, events, k) then Polls(events) > 0 && Polls(events) + Conclusions(events) > Awaiting(s.db, k)
            else Polls(events) <= Awaiting(s.db, k) + Requests(events)
    decreases |events|
  {
    hide Apply, Invariant, Enabled, NextInLine, Awaiting;
    NextInLineIff(s, k);
    if events != [] {
      var e, rest := events[0], events[1..];
      if !(e.Poll? && NextInLine(s, k)) {
        assert Between([e], s.db[k].id) && Between(rest, s.db[k].id);
        StepBetween(s, e, k);
        StepKeepsInvariant(s, e);
        LineMoves(s, e, k);
        CaughtBounds(Apply(s, e), rest, k);
      }
    }
  }

  lemma LineUnmoved(s: System, k: nat)
    requires Invariant(s) && k < |s.db|
    ensures var t := Apply(s, RequestCancel(s.db[k].id)); k <= |t.db| && Awaiting(t.db, k) == Awaiting(s.db, k)
  {
    hide Apply, Awaiting, Invariant;
    RequestLands(s, k);
    AwaitingUpdate(s.db, k, k, Moved(s.db[k], CancelRequested, None, None));
  }

  /** The race in numbers a caller can count. Without a poll in between the request is honoured, and so it is while
      the polls, and other executions that end, are no more than the earlier records awaiting cancellation. Once
      there are more polls than such records and further requests, it is overwritten. */
  lemma RequestRace(s: System, k: nat, between: seq<Event>)
    requires Invariant(s) && k < |s.db| && InFlight(s, k) > 0 && Between(between, s.db[k].id)
    requires Possible(Apply(s, RequestCancel(s.db[k].id)), between)
    ensures var id := s.db[k].id; var run := [RequestCancel(id)] + between + [CoreFinish(id)];
            && Possible(s, run) && k < |After(s, run).db|
            && var honoured := After(s, run).db[k].status.Cancelled?;
               && (Polls(between) == 0 ==> honoured)
               && (Polls(between) + Conclusions(between) <= Awaiting(s.db, k) ==> honoured)
               && (Polls(between) > Awaiting(s.db, k) + Requests(between) ==> !honoured)
  {
    hide Apply, Invariant, Possible, After, Caught, Between, Awaiting;
    var requested := Apply(s, RequestCancel(s.db[k].id));
    RequestHonouredIff(s, k, between);
    RequestLands(s, k);
    LineUnmoved(s, k);
    StepKeepsInvariant(s, RequestCancel(s.db[k].id));
    CaughtBounds(requested, between, k);
  }

  lemma {:induction false} OnlyPolls(s: System, n: nat)
    ensures var polls := seq(n, i => Poll); Possible(s, polls) && Polls(polls) == n
    ensures var polls := seq(n, i => Poll); Conclusions(polls) == Requests(polls) == 0
    decreases n
  {
    hide Apply;
    if n > 0 {
      OnlyPolls(Apply(s, Poll), n - 1);
      assert seq(n, i => Poll)[1..] == seq(n - 1, i => Poll);
    }
  }

  /** With nothing but polls in between: honoured exactly when they are no more than the earlier records awaiting
      cancellation. */
  lemma PollRaceIff(s: System, k: nat, n: nat)
    requires Invariant(s) && k < |s.db| && InFlight(s, k) > 0
    ensures var id := s.db[k].id; var run := [RequestCancel(id)] + seq(n, i => Poll) + [CoreFinish(id)];
            && Possible(s, run) && k < |After(s, run).db|
            && (After(s, run).db[k].status.Cancelled? <==> n <= Awaiting(s.db, k))
  {
    hide Apply, Invariant, Possible, After, Awaiting;
    OnlyPolls(Apply(s, RequestCancel(s.db[k].id)), n);
    RequestRace(s, k, seq(n, i => Poll));
  }
}
