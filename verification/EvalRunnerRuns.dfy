/** Whole runs of the adaptive runner: what they keep, that they end, and what they have delivered by then. */
module EvalRunnerRuns {
  import opened Numbers
  import opened Sequences
  import opened DynamicSemaphore
  import opened EvalRunner
  import opened EvalRunnerTheorems

  // ----- Safety over runs -----

  lemma {:induction false} RunKeepsInvariant(s: Suite, events: seq<Event>, initial: int)
    requires Invariant(s, initial) && Possible(s, events)
    ensures Invariant(After(s, events), initial)
    decreases |events|
  {
    hide Invariant, Apply, Enabled;
    if events != [] {
      StepKeepsInvariant(s, events[0], initial);
      RunKeepsInvariant(Apply(s, events[0]), events[1..], initial);
    }
  }

  function RateLimits(events: seq<Event>): nat {
    if events == [] then 0
    else (if events[0].Finish? && events[0].rateLimited then 1 else 0) + RateLimits(events[1..])
  }

  function Frames(events: seq<Event>): nat {
    if events == [] then 0 else (if events[0].Emit? then 1 else 0) + Frames(events[1..])
  }

  lemma {:induction false} CountersCount(s: Suite, events: seq<Event>)
    requires Possible(s, events)
    ensures After(s, events).limited == s.limited + RateLimits(events)
    ensures After(s, events).emitted == s.emitted + Frames(events)
    ensures |After(s, events).phases| == |s.phases|
    decreases |events|
  {
    if events != [] {
      CountersCount(Apply(s, events[0]), events[1..]);
    }
  }

  ghost predicate NoneResizing(phases: seq<Phase>) {
    forall t | 0 <= t < |phases| :: !phases[t].Resizing?
  }

  lemma {:induction false} NoTargets(queue: seq<nat>, phases: seq<Phase>)
    requires NoneResizing(phases)
    ensures Targets(queue, phases) == []
  {
    if queue != [] {
      NoTargets(queue[1..], phases);
    }
  }

  lemma InitCounters(n: nat, initial: int)
    ensures Init(n, initial).limited == Init(n, initial).emitted == 0
  {
  }

  /** In every state that any interleaving can reach: the slots in use are the slots held and never more than at
      the start; the capacity is at least one; nobody is parked while there is room; and once no resize is
      pending, the capacity is the initial one less the rate-limited results, but at least one. */
  lemma Safety(n: nat, initial: int, events: seq<Event>)
    requires Possible(Init(n, initial), events)
    ensures var s := After(Init(n, initial), events);
            && s.sem.inUse == Holders(s.phases) <= Max(1, initial)
            && 1 <= s.sem.value <= Max(1, initial)
            && (forall t | 0 <= t < |s.phases| && s.phases[t].Parked? :: s.sem.inUse >= s.sem.value)
            && s.current == (if initial < 1 then initial else Max(1, initial - RateLimits(events)))
            && (NoneResizing(s.phases) ==> s.sem.value == Max(1, s.current))
  {
    hide Possible, After, Init, QueueOk, OutputOk, Targets, Holders, NoneResizing;
    var s := After(Init(n, initial), events);
    InitOk(n, initial);
    RunKeepsInvariant(Init(n, initial), events, initial);
    CountersCount(Init(n, initial), events);
    assert Init(n, initial).limited == 0 by { InitCounters(n, initial); }
    if NoneResizing(s.phases) {
      NoTargets(s.queue, s.phases);
      assert |Countdown(s.sem.value, s.sem.value - Aim(s))| == 0;
    }
  }

  function Excess(sem: Semaphore): nat {
    Max(0, sem.inUse - sem.value)
  }

  predicate Shrinks(s: Suite, e: Event)
    requires Enabled(s, e)
  {
    e.Acquire? && s.phases[s.queue[0]].Resizing?
  }

  /** A task is only admitted into a free slot, and slots beyond the capacity only come from lowering it. */
  lemma ExcessOnlyDrains(s: Suite, e: Event, initial: int)
    requires Invariant(s, initial) && Enabled(s, e)
    ensures var t := Apply(s, e);
            && (t.sem.inUse > s.sem.inUse ==> t.sem.inUse <= t.sem.value)
            && Excess(t.sem) <= Excess(s.sem) + (if Shrinks(s, e) then 1 else 0)
  {
    hide QueueOk, OutputOk, Targets, Holders, Countdown, ConditionOk;
    if Shrinks(s, e) {
      ResizeStep(s, initial);
    }
  }

  /** The events of a run that lower the capacity. */
  function Shrinkages(s: Suite, events: seq<Event>): nat
    requires Possible(s, events)
    decreases |events|
  {
    if events == [] then 0
    else (if Shrinks(s, events[0]) then 1 else 0) + Shrinkages(Apply(s, events[0]), events[1..])
  }

  /** Over a whole run the excess never grows by more than the capacity was lowered; with no shrinkage it drains. */
  lemma {:induction false} ExcessIsBounded(s: Suite, events: seq<Event>, initial: int)
    requires Invariant(s, initial) && Possible(s, events)
    ensures Excess(After(s, events).sem) <= Excess(s.sem) + Shrinkages(s, events)
    decreases |events|
  {
    hide Invariant, Apply, Enabled, Shrinks, Excess;
    if events != [] {
      ExcessOnlyDrains(s, events[0], initial);
      StepKeepsInvariant(s, events[0], initial);
      ExcessIsBounded(Apply(s, events[0]), events[1..], initial);
    }
  }

  // ----- Distinct indices -----

  predicate DistinctBelow(xs: seq<nat>, n: nat) {
    (forall i | 0 <= i < |xs| :: xs[i] < n) && Distinct(xs)
  }

  function Below(n: nat): (below: set<nat>)
    ensures |below| == n && forall t: nat :: t in below <==> t < n
  {
    if n == 0 then {} else Below(n - 1) + {n - 1}
  }

  lemma SubsetSize(a: set<nat>, b: set<nat>)
    requires a <= b
    ensures |a| <= |b|
    ensures |a| == |b| ==> a == b
  {
    assert b == a + (b - a);
  }

  /** There are at most n distinct indices below n, and n of them are all of them. */
  lemma Pigeonhole(xs: seq<nat>, n: nat)
    requires DistinctBelow(xs, n)
    ensures |xs| <= n
    ensures |xs| == n <==> forall t | 0 <= t < n :: t in xs
  {
    ElementsSize(xs);
    SubsetSize(Elements(xs), Below(n));
    if |xs| == n {
      forall t | 0 <= t < n
        ensures t in xs
      {
        assert t in Below(n) && t in Elements(xs);
      }
    }
    if forall t | 0 <= t < n :: t in xs {
      assert Below(n) == Elements(xs);
    }
  }

  // ----- Every run ends -----

  /** How far a trial is from done. A task that is woken in vain makes no progress by this measure... */
  function Weight(p: Phase): nat {
    match p
    case Unstarted => 6
    case Waiting => 5
    case Parked => 5
    case Notified => 5
    case Inside => 4
    case Resizing(_) => 3
    case Leaving => 2
    case Exiting => 1
    case Done => 0
  }

  /** ... but uses up its notification. */
  function Notice(p: Phase): nat {
    match p
    case Notified => 2
    case Waiting => 1
    case _ => 0
  }

  function Total(phases: seq<Phase>, measure: Phase -> nat): nat {
    if phases == [] then 0 else measure(phases[0]) + Total(phases[1..], measure)
  }

  lemma {:induction false} TotalUpdate(phases: seq<Phase>, measure: Phase -> nat, t: nat, p: Phase)
    requires t < |phases|
    ensures Total(phases[t := p], measure) == Total(phases, measure) + measure(p) - measure(phases[t])
  {
    if t > 0 {
      TotalUpdate(phases[1..], measure, t - 1, p);
      assert phases[t := p][1..] == phases[1..][t - 1 := p];
    } else {
      assert phases[t := p][1..] == phases[1..];
    }
  }

  lemma {:induction false} TotalBound(phases: seq<Phase>, measure: Phase -> nat, bound: nat)
    requires forall p :: measure(p) <= bound
    ensures Total(phases, measure) <= |phases| * bound
  {
    if phases != [] {
      TotalBound(phases[1..], measure, bound);
      assert |phases| * bound == |phases[1..]| * bound + bound;
    }
  }

  lemma {:induction false} WeightWoken(phases: seq<Phase>)
    ensures Total(Woken(phases), Weight) == Total(phases, Weight) && |Woken(phases)| == |phases|
  {
    if phases != [] {
      WeightWoken(phases[1..]);
      assert Woken(phases)[1..] == Woken(phases[1..]);
    }
  }

  function Major(s: Suite): int {
    Total(s.phases, Weight) + (|s.phases| - s.emitted) + (if s.closed then 0 else 1)
  }

  /** The lexicographic measure (distance to the end, outstanding notifications) as one number. */
  function Rank(s: Suite): int {
    Major(s) * (2 * |s.phases| + 1) + Total(s.phases, Notice)
  }

  lemma OutputIsBounded(s: Suite, initial: int)
    requires Invariant(s, initial)
    ensures s.emitted <= |s.finished| <= |s.phases|
    ensures DistinctBelow(s.finished, |s.phases|)
    ensures Rank(s) >= 0
  {
    hide QueueOk, ConditionOk, CapacityOk, Total;
    Pigeonhole(s.finished, |s.phases|);
  }

  lemma SectionMovesOn(s: Suite, u: nat)
    requires u < |s.phases| && Queued(s.phases[u])
    ensures var t := Section(s, u);
            || Major(t) < Major(s)
            || (Major(t) == Major(s) && Total(t.phases, Notice) < Total(s.phases, Notice))
  {
    hide Total, Woken;
    var p := s.phases[u];
    if p.Waiting? {
      TotalUpdate(s.phases, Weight, u, Inside);
      TotalUpdate(s.phases, Weight, u, Parked);
      TotalUpdate(s.phases, Notice, u, Parked);
    } else if p.Resizing? {
      TotalUpdate(s.phases, Weight, u, Leaving);
      WeightWoken(s.phases[u := Leaving]);
    } else {
      TotalUpdate(s.phases, Weight, u, Done);
      WeightWoken(s.phases[u := Done]);
    }
  }

  /** A step either brings a trial closer to done, or only spends a notification. */
  lemma StepMovesOn(s: Suite, e: Event, initial: int)
    requires Invariant(s, initial) && Enabled(s, e)
    ensures var t := Apply(s, e);
            || Major(t) < Major(s)
            || (Major(t) == Major(s) && Total(t.phases, Notice) < Total(s.phases, Notice))
  {
    hide OutputOk, ConditionOk, CapacityOk, QueueOk, Total;
    match e
    case Start(u) => TotalUpdate(s.phases, Weight, u, Waiting);
    case Leave(u) => TotalUpdate(s.phases, Weight, u, Exiting);
    case Finish(u, _) =>
      TotalUpdate(s.phases, Weight, u, Leaving);
      TotalUpdate(s.phases, Weight, u, Resizing(s.current - 1));
    case Wake(u) =>
      TotalUpdate(s.phases, Weight, u, Waiting);
      TotalUpdate(s.phases, Notice, u, Waiting);
    case Emit =>
    case Close =>
    case Acquire =>
      HeadIsQueued(s, initial);
      SectionMovesOn(s.(queue := s.queue[1..]), s.queue[0]);
  }

  lemma Lexicographic(a: int, b: int, c: int, d: int, m: nat)
    requires 0 <= b <= m && 0 <= d <= m && (c < a || (c == a && d < b))
    ensures c * (m + 1) + d < a * (m + 1) + b
  {
    if c < a {
      assert (c + 1) * (m + 1) <= a * (m + 1);
    }
  }

  lemma SameLength(s: Suite, e: Event)
    requires Enabled(s, e)
    ensures |Apply(s, e).phases| == |s.phases|
  {
  }

  lemma StepLowersRank(s: Suite, e: Event, initial: int)
    requires Invariant(s, initial) && Enabled(s, e)
    ensures Rank(Apply(s, e)) < Rank(s)
  {
    hide Invariant, Total, Section;
    var t := Apply(s, e);
    StepMovesOn(s, e, initial);
    SameLength(s, e);
    TotalBound(s.phases, Notice, 2);
    TotalBound(t.phases, Notice, 2);
    Lexicographic(Major(s), Total(s.phases, Notice), Major(t), Total(t.phases, Notice), 2 * |s.phases|);
  }

  lemma {:induction false} RunLowersRank(s: Suite, events: seq<Event>, initial: int)
    requires Invariant(s, initial) && Possible(s, events)
    ensures |events| <= Rank(s)
    decreases |events|
  {
    hide Invariant, Apply, Enabled, Rank;
    OutputIsBounded(s, initial);
    if events != [] {
      StepLowersRank(s, events[0], initial);
      StepKeepsInvariant(s, events[0], initial);
      RunLowersRank(Apply(s, events[0]), events[1..], initial);
    }
  }

  lemma {:induction false} FreshRank(n: nat)
    ensures Total(seq(n, i => Unstarted), Weight) == 6 * n
    ensures Total(seq(n, i => Unstarted), Notice) == 0
  {
    var phases := seq(n, i => Unstarted);
    if n > 0 {
      FreshRank(n - 1);
      assert phases[1..] == seq(n - 1, i => Unstarted);
    }
  }

  /** No interleaving goes on for more than (7n + 1)(2n + 1) events. */
  lemma EveryRunEnds(n: nat, initial: int, events: seq<Event>)
    requires Possible(Init(n, initial), events)
    ensures |events| <= (7 * n + 1) * (2 * n + 1)
  {
    hide Invariant, Possible, Total;
    InitOk(n, initial);
    RunLowersRank(Init(n, initial), events, initial);
    FreshRank(n);
    assert Init(n, initial).phases == seq(n, i => Unstarted);
  }

  // ----- A run that has ended has delivered everything -----

  ghost predicate Stuck(s: Suite) {
    forall e :: !Enabled(s, e)
  }

  lemma {:induction false} SomeHolder(phases: seq<Phase>) returns (t: nat)
    requires Holders(phases) > 0
    ensures t < |phases| && Holds(phases[t])
  {
    if Holds(phases[0]) {
      t := 0;
    } else {
      t := SomeHolder(phases[1..]);
      t := t + 1;
    }
  }

  predicate Mover(p: Phase) {
    p.Unstarted? || p.Notified? || p.Inside? || p.Leaving?
  }

  lemma MoverMoves(s: Suite, t: nat) returns (e: Event)
    requires t < |s.phases| && Mover(s.phases[t])
    ensures Enabled(s, e)
  {
    var p := s.phases[t];
    e := if p.Unstarted? then Start(t) else if p.Notified? then Wake(t)
         else if p.Inside? then Finish(t, false) else Leave(t);
  }

  lemma AllDone(s: Suite, initial: int) returns (e: Event)
    requires Invariant(s, initial) && !s.closed
    requires forall t | 0 <= t < |s.phases| :: s.phases[t].Done?
    ensures Enabled(s, e)
  {
    hide QueueOk, ConditionOk, CapacityOk;
    OutputIsBounded(s, initial);
    Pigeonhole(s.finished, |s.phases|);
    e := if s.emitted < |s.finished| then Emit else Close;
  }

  /** While the stream is open, something can always happen. */
  lemma Progress(s: Suite, initial: int) returns (e: Event)
    requires Invariant(s, initial) && !s.closed
    ensures Enabled(s, e)
  {
    hide Targets, Holders, Countdown, OutputOk;
    if t: nat :| t < |s.phases| && Mover(s.phases[t]) {
      e := MoverMoves(s, t);
    } else if s.queue != [] {
      e := Acquire;
    } else {
      assert forall t | 0 <= t < |s.phases| :: !Holds(s.phases[t]);
      if s.sem.inUse > 0 {
        var t := SomeHolder(s.phases);
        assert false;
      }
      assert s.sem.waiters == {};
      assert forall t | 0 <= t < |s.phases| :: s.phases[t].Done?;
      e := AllDone(s, initial);
    }
  }

  lemma QueueHead(queue: seq<nat>, phases: seq<Phase>)
    requires QueueOk(queue, phases)
    ensures queue == [] || (queue[0] < |phases| && Queued(phases[queue[0]]))
  {
  }

  /** A closed stream: all trials done and streamed, no slot in use, no trial in the lock queue. */
  lemma ClosedMeansDone(s: Suite, initial: int)
    requires Invariant(s, initial) && s.closed
    ensures s.emitted == |s.finished| == |s.phases|
    ensures forall t | 0 <= t < |s.phases| :: s.phases[t].Done? && t in s.finished
    ensures s.sem.inUse == 0 && s.queue == []
    ensures Stuck(s)
  {
    hide Targets, Holders, Countdown, ConditionOk;
    OutputIsBounded(s, initial);
    Pigeonhole(s.finished, |s.phases|);
    forall t | 0 <= t < |s.phases|
      ensures s.phases[t].Done? && t in s.finished
    {
      assert t in s.finished;
      var i :| 0 <= i < |s.finished| && s.finished[i] == t;
    }
    QueueHead(s.queue, s.phases);
    NoHolders(s.phases);
  }

  lemma NotStuck(s: Suite, e: Event)
    requires Enabled(s, e)
    ensures !Stuck(s)
  {
  }

  /** Every maximal run, under every interleaving and every pattern of rate limits, streams each trial exactly
      once and then closes: n frames, then DONE. A run can stop nowhere else. */
  lemma MaximalRunsDeliver(n: nat, initial: int, events: seq<Event>)
    requires Possible(Init(n, initial), events)
    ensures var s := After(Init(n, initial), events);
            && (Stuck(s) <==> s.closed)
            && Frames(events) <= n
            && (s.closed ==>
                  && Frames(events) == n == |s.finished|
                  && DistinctBelow(s.finished, n)
                  && (forall t | 0 <= t < n :: t in s.finished)
                  && s.sem.inUse == 0)
  {
    hide Possible, After, Enabled, Invariant, Stuck, DistinctBelow;
    var s := After(Init(n, initial), events);
    InitOk(n, initial);
    RunKeepsInvariant(Init(n, initial), events, initial);
    CountersCount(Init(n, initial), events);
    InitCounters(n, initial);
    OutputIsBounded(s, initial);
    if s.closed {
      ClosedMeansDone(s, initial);
    } else {
      var e := Progress(s, initial);
      NotStuck(s, e);
    }
  }

  /** The stream of the suite that was asked for: a run that can go no further has closed it, after numTrials frames for
      every task, none for a negative number, and every repetition of every task has been streamed exactly once. */
  lemma SuiteDelivers<Task>(tasks: seq<Task>, numTrials: int, futures: seq<(Task, nat)>, initial: int,
                            events: seq<Event>)
    requires IsSuite(tasks, numTrials, futures)
    requires Possible(Init(|futures|, initial), events) && Stuck(After(Init(|futures|, initial), events))
    ensures var streamed := After(Init(|futures|, initial), events).finished;
            && After(Init(|futures|, initial), events).closed
            && Frames(events) == |streamed| == |tasks| * Max(0, numTrials)
            && Distinct(streamed)
            && forall k: nat, i: nat | k < |tasks| && i < numTrials ::
                 && Place(k, numTrials, i) in streamed && Place(k, numTrials, i) < |futures|
                 && futures[Place(k, numTrials, i)] == (tasks[k], i)
  {
    hide Possible, After, Place, Stuck;
    MaximalRunsDeliver(|futures|, initial, events);
  }
}
