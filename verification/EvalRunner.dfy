/** The adaptive evaluation runner of src/agent_runtime/evals/runner.py as a transition system. */
module EvalRunner {
  import opened DynamicSemaphore
  import opened Numbers

  /** Where one trial is. `Waiting`, `Resizing` and `Exiting` trials are in the queue for the condition's lock. */
  datatype Phase =
    | Unstarted
    | Waiting
    | Parked
    | Notified
    | Inside
    | Resizing(target: int)
    | Leaving
    | Exiting
    | Done

  /** `current` is the runner's own idea of the concurrency, `limited` counts the rate-limited results so far,
      `finished` lists the trials in completion order, of which the first `emitted` have been streamed. */
  datatype Suite = Suite(
    sem: Semaphore,
    current: int,
    limited: nat,
    phases: seq<Phase>,
    queue: seq<nat>,
    finished: seq<nat>,
    emitted: nat,
    closed: bool)

  datatype Event =
    | Start(t: nat)
    | Acquire
    | Wake(t: nat)
    | Finish(t: nat, rateLimited: bool)
    | Leave(t: nat)
    | Emit
    | Close

  function Init(n: nat, initial: int): Suite {
    Suite(Idle(initial), initial, 0, seq(n, i => Unstarted), [], [], 0, false)
  }

  predicate At(s: Suite, t: nat, p: Phase) {
    t < |s.phases| && s.phases[t] == p
  }

  predicate Enabled(s: Suite, e: Event) {
    match e
    case Start(t) => At(s, t, Unstarted)
    case Acquire => s.queue != [] && s.queue[0] < |s.phases|
    case Wake(t) => At(s, t, Notified)
    case Finish(t, _) => At(s, t, Inside)
    case Leave(t) => At(s, t, Leaving)
    case Emit => s.emitted < |s.finished| && !s.closed
    case Close => s.emitted == |s.phases| && !s.closed
  }

  function Woken(phases: seq<Phase>): seq<Phase> {
    seq(|phases|, i requires 0 <= i < |phases| => if phases[i].Parked? then Notified else phases[i])
  }

  /** The critical section of the trial at the head of the lock queue. */
  function Section(s: Suite, t: nat): Suite
    requires t < |s.phases|
  {
    match s.phases[t]
    case Waiting =>
      s.(sem := s.sem.Enter(t), phases := s.phases[t := if s.sem.Full() then Parked else Inside])
    case Resizing(target) =>
      s.(sem := s.sem.Resize(target), phases := Woken(s.phases[t := Leaving]))
    case Exiting =>
      s.(sem := s.sem.Exit(), phases := Woken(s.phases[t := Done]), finished := s.finished + [t])
    case _ => s
  }

  /** The lock is granted in the order in which it was asked for. A rate-limited result lowers the runner's
      concurrency at once and queues for the lock to lower the semaphore's. */
  function Apply(s: Suite, e: Event): Suite
    requires Enabled(s, e)
  {
    match e
    case Start(t) => s.(phases := s.phases[t := Waiting], queue := s.queue + [t])
    case Acquire => Section(s.(queue := s.queue[1..]), s.queue[0])
    case Wake(t) => s.(sem := s.sem.Resume(t), phases := s.phases[t := Waiting], queue := s.queue + [t])
    case Finish(t, rateLimited) =>
      var counted := s.(limited := s.limited + if rateLimited then 1 else 0);
      if rateLimited && s.current > 1 then
        counted.(current := s.current - 1, phases := s.phases[t := Resizing(s.current - 1)], queue := s.queue + [t])
      else
        counted.(phases := s.phases[t := Leaving])
    case Leave(t) => s.(phases := s.phases[t := Exiting], queue := s.queue + [t])
    case Emit => s.(emitted := s.emitted + 1)
    case Close => s.(closed := true)
  }

  /** The events are possible one after the other. */
  predicate Possible(s: Suite, events: seq<Event>)
    decreases |events|
  {
    events == [] || (Enabled(s, events[0]) && Possible(Apply(s, events[0]), events[1..]))
  }

  function After(s: Suite, events: seq<Event>): Suite
    requires Possible(s, events)
    decreases |events|
  {
    if events == [] then s else After(Apply(s, events[0]), events[1..])
  }

  // ----- Building the suite -----

  /** Repetitions are counted by `range`, which is empty for a negative number. */
  function Repetitions(numTrials: int): nat {
    if numTrials < 0 then 0 else numTrials
  }

  function Row<Task>(task: Task, reps: nat): seq<(Task, nat)> {
    seq(reps, i => (task, i))
  }

  /** One trial for every task and every repetition, task by task. */
  function Trials<Task>(tasks: seq<Task>, reps: nat): seq<(Task, nat)> {
    if tasks == [] then [] else Trials(tasks[..|tasks| - 1], reps) + Row(tasks[|tasks| - 1], reps)
  }

  lemma {:induction false} BlocksFit(k: nat, n: nat, reps: nat)
    ensures k < n ==> k * reps + reps <= n * reps
  {
    if k < n {
      BlocksFit(k, n - 1, reps);
      assert n * reps == (n - 1) * reps + reps;
    }
  }

  lemma {:induction false} TrialsCount<Task>(tasks: seq<Task>, reps: nat)
    ensures |Trials(tasks, reps)| == |tasks| * reps
  {
    if tasks != [] {
      var n := |tasks| - 1;
      TrialsCount(tasks[..n], reps);
      assert |tasks| * reps == n * reps + reps;
    }
  }

  /** There are |tasks| * reps trials, and trial i of task k is where it is expected. */
  lemma {:induction false} TrialsAreAll<Task>(tasks: seq<Task>, reps: nat, k: nat, i: nat)
    requires i < reps && k < |tasks|
    ensures |Trials(tasks, reps)| == |tasks| * reps
    ensures k * reps + i < |tasks| * reps && Trials(tasks, reps)[k * reps + i] == (tasks[k], i)
  {
    var n := |tasks| - 1;
    TrialsCount(tasks, reps);
    TrialsCount(tasks[..n], reps);
    BlocksFit(k, |tasks|, reps);
    BlocksFit(k, n, reps);
    if k < n {
      TrialsAreAll(tasks[..n], reps, k, i);
    }
  }

  /** Where repetition i of task k stands in the list. */
  function Place(k: nat, numTrials: nat, i: nat): nat {
    k * numTrials + i
  }

  /** The list has numTrials entries for every task, none for a negative number, and repetition i of task k at its
      place. */
  ghost predicate IsSuite<Task>(tasks: seq<Task>, numTrials: int, futures: seq<(Task, nat)>) {
    && |futures| == |tasks| * Max(0, numTrials)
    && forall k: nat, i: nat | k < |tasks| && i < numTrials ::
         Place(k, numTrials, i) < |futures| && futures[Place(k, numTrials, i)] == (tasks[k], i)
  }

  lemma TrialsAreSuite<Task>(tasks: seq<Task>, numTrials: int)
    ensures IsSuite(tasks, numTrials, Trials(tasks, Repetitions(numTrials)))
  {
    hide Trials;
    TrialsCount(tasks, Repetitions(numTrials));
    forall k: nat, i: nat | k < |tasks| && i < numTrials
      ensures var futures := Trials(tasks, Repetitions(numTrials));
              Place(k, numTrials, i) < |futures| && futures[Place(k, numTrials, i)] == (tasks[k], i)
    {
      TrialsAreAll(tasks, numTrials, k, i);
    }
  }

  method BuildTrials<Task>(tasks: seq<Task>, numTrials: int) returns (futures: seq<(Task, nat)>)
    ensures futures == Trials(tasks, Repetitions(numTrials)) && IsSuite(tasks, numTrials, futures)
  {
    var reps := Repetitions(numTrials);
    futures := [];
    for k := 0 to |tasks|
      invariant futures == Trials(tasks[..k], reps)
    {
      for r := 0 to reps
        invariant futures == Trials(tasks[..k], reps) + Row(tasks[k], r)
      {
        futures := futures + [(tasks[k], r)];
      }
      assert tasks[..k + 1][..k] == tasks[..k];
    }
    assert tasks[..|tasks|] == tasks;
    TrialsAreSuite(tasks, numTrials);
  }
}
