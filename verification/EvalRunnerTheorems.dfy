/** Safety and termination of the adaptive runner under every interleaving. */
module EvalRunnerTheorems {
  import opened Numbers
  import opened DynamicSemaphore
  import opened EvalRunner

  // ----- Counting -----

  predicate Holds(p: Phase) {
    p.Inside? || p.Resizing? || p.Leaving? || p.Exiting?
  }

  predicate Queued(p: Phase) {
    p.Waiting? || p.Resizing? || p.Exiting?
  }

  /** The trials that hold a slot. */
  function Holders(phases: seq<Phase>): nat {
    if phases == [] then 0 else Holders(phases[1..]) + if Holds(phases[0]) then 1 else 0
  }

  lemma {:induction false} HoldersUpdate(phases: seq<Phase>, t: nat, p: Phase)
    requires t < |phases|
    ensures Holders(phases[t := p]) ==
            Holders(phases) + (if Holds(p) then 1 else 0) - (if Holds(phases[t]) then 1 else 0)
  {
    if t > 0 {
      HoldersUpdate(phases[1..], t - 1, p);
      assert phases[t := p][1..] == phases[1..][t - 1 := p];
    } else {
      assert phases[t := p][1..] == phases[1..];
    }
  }

  lemma {:induction false} HoldersWoken(phases: seq<Phase>)
    ensures Holders(Woken(phases)) == Holders(phases)
  {
    if phases != [] {
      HoldersWoken(phases[1..]);
      assert Woken(phases)[1..] == Woken(phases[1..]);
    }
  }

  lemma {:induction false} NoHolders(phases: seq<Phase>)
    requires forall t | 0 <= t < |phases| :: !Holds(phases[t])
    ensures Holders(phases) == 0
  {
    if phases != [] {
      NoHolders(phases[1..]);
    }
  }

  /** The targets of the resizes in the lock queue, in queue order. */
  function Targets(queue: seq<nat>, phases: seq<Phase>): seq<int> {
    if queue == [] then []
    else
      (if queue[0] < |phases| && phases[queue[0]].Resizing? then [phases[queue[0]].target] else [])
      + Targets(queue[1..], phases)
  }

  lemma {:induction false} TargetsAppend(queue: seq<nat>, phases: seq<Phase>, t: nat)
    ensures Targets(queue + [t], phases) ==
            Targets(queue, phases) + (if t < |phases| && phases[t].Resizing? then [phases[t].target] else [])
  {
    if queue != [] {
      TargetsAppend(queue[1..], phases, t);
      assert (queue + [t])[1..] == queue[1..] + [t];
    } else {
      assert [t][1..] == [];
      assert [] + [t] == [t];
    }
  }

  lemma {:induction false} TargetsSame(queue: seq<nat>, a: seq<Phase>, b: seq<Phase>)
    requires |a| == |b|
    requires forall t | t in queue && t < |a| :: a[t] == b[t] || (!a[t].Resizing? && !b[t].Resizing?)
    ensures Targets(queue, a) == Targets(queue, b)
  {
    if queue != [] {
      TargetsSame(queue[1..], a, b);
    }
  }

  // ----- The invariant -----

  /** A countdown from `value - 1` to `value - n`. */
  function Countdown(value: int, n: nat): seq<int> {
    seq(n, i => value - 1 - i)
  }

  /** The capacity that the runner is aiming for. */
  function Aim(s: Suite): int {
    Max(1, s.current)
  }

  /** The lock queue holds each trial in a queued phase, once. */
  predicate QueueOk(queue: seq<nat>, phases: seq<Phase>) {
    && (forall i | 0 <= i < |queue| :: queue[i] < |phases| && Queued(phases[queue[i]]))
    && (forall i, j | 0 <= i < j < |queue| :: queue[i] != queue[j])
    && (forall t | 0 <= t < |phases| && Queued(phases[t]) :: t in queue)
  }

  /** The condition knows exactly the parked and the notified trials, and nobody is parked while there is room. */
  ghost predicate ConditionOk(sem: Semaphore, phases: seq<Phase>) {
    && (forall t: nat :: t in sem.waiters <==> t < |phases| && phases[t].Parked?)
    && (forall t: nat :: t in sem.woken <==> t < |phases| && phases[t].Notified?)
    && (sem.waiters != {} ==> sem.Full())
  }

  predicate OutputOk(finished: seq<nat>, phases: seq<Phase>) {
    && (forall i | 0 <= i < |finished| :: finished[i] < |phases| && phases[finished[i]].Done?)
    && (forall i, j | 0 <= i < j < |finished| :: finished[i] != finished[j])
    && (forall t | 0 <= t < |phases| && phases[t].Done? :: t in finished)
  }

  /** Slots in use are slots held; the capacity counts down to the runner's own value, one queued resize at a time,
      and never rises above where it started. */
  predicate CapacityOk(s: Suite, initial: int) {
    && s.sem.inUse == Holders(s.phases) <= Max(1, initial)
    && 1 <= Aim(s) <= s.sem.value <= Max(1, initial)
    && s.current == (if initial < 1 then initial else Max(1, initial - s.limited))
    && Targets(s.queue, s.phases) == Countdown(s.sem.value, s.sem.value - Aim(s))
  }

  ghost predicate Invariant(s: Suite, initial: int) {
    && QueueOk(s.queue, s.phases)
    && ConditionOk(s.sem, s.phases)
    && CapacityOk(s, initial)
    && OutputOk(s.finished, s.phases)
    && s.emitted <= |s.finished|
    && (s.closed ==> s.emitted == |s.phases|)
  }

  lemma InitOk(n: nat, initial: int)
    ensures Invariant(Init(n, initial), initial)
  {
    NoHolders(Init(n, initial).phases);
  }

  // ----- The three kinds of change: join the queue, move on, leave the queue -----

  lemma Joins(queue: seq<nat>, phases: seq<Phase>, t: nat, p: Phase)
    requires QueueOk(queue, phases) && t < |phases| && !Queued(phases[t]) && Queued(p)
    ensures QueueOk(queue + [t], phases[t := p])
    ensures Targets(queue + [t], phases[t := p]) == Targets(queue, phases) + (if p.Resizing? then [p.target] else [])
  {
    assert forall i | 0 <= i < |queue| :: queue[i] != t;
    TargetsAppend(queue, phases[t := p], t);
    TargetsSame(queue, phases, phases[t := p]);
  }

  lemma Moves(queue: seq<nat>, phases: seq<Phase>, t: nat, p: Phase)
    requires QueueOk(queue, phases) && t < |phases| && !Queued(phases[t]) && !Queued(p)
    ensures QueueOk(queue, phases[t := p])
    ensures Targets(queue, phases[t := p]) == Targets(queue, phases)
  {
    TargetsSame(queue, phases, phases[t := p]);
  }

  lemma HeadIsGone(queue: seq<nat>, phases: seq<Phase>)
    requires QueueOk(queue, phases) && queue != []
    ensures queue[0] < |phases| && queue[0] !in queue[1..]
  {
  }

  lemma TailIsQueued(queue: seq<nat>, phases: seq<Phase>, p: Phase)
    requires QueueOk(queue, phases) && queue != [] && !Queued(p)
    ensures queue[0] < |phases| && QueueOk(queue[1..], phases[queue[0] := p])
  {
    hide Queued;
    var rest, moved := queue[1..], phases[queue[0] := p];
    assert forall i | 0 <= i < |rest| :: rest[i] == queue[i + 1] != queue[0];
    forall u | 0 <= u < |moved| && Queued(moved[u])
      ensures u in rest
    {
      assert u in queue && queue == [queue[0]] + rest;
    }
  }

  lemma LeavesQueue(queue: seq<nat>, phases: seq<Phase>, p: Phase)
    requires QueueOk(queue, phases) && queue != [] && !Queued(p)
    ensures var t := queue[0];
            && t < |phases|
            && QueueOk(queue[1..], phases[t := p])
            && Targets(queue, phases) ==
               (if phases[t].Resizing? then [phases[t].target] else []) + Targets(queue[1..], phases[t := p])
  {
    var t := queue[0];
    TailIsQueued(queue, phases, p);
    HeadIsGone(queue, phases);
    TargetsSame(queue[1..], phases, phases[t := p]);
  }

  lemma Wakes(queue: seq<nat>, phases: seq<Phase>)
    requires QueueOk(queue, phases)
    ensures QueueOk(queue, Woken(phases)) && Targets(queue, Woken(phases)) == Targets(queue, phases)
  {
    TargetsSame(queue, phases, Woken(phases));
  }

  lemma ConditionMoves(sem: Semaphore, after: Semaphore, phases: seq<Phase>, t: nat, p: Phase)
    requires ConditionOk(sem, phases) && t < |phases|
    requires !phases[t].Parked? && !phases[t].Notified? && !p.Parked? && !p.Notified?
    requires after.waiters == sem.waiters && after.woken == sem.woken && (sem.Full() ==> after.Full())
    ensures ConditionOk(after, phases[t := p])
  {
  }

  lemma ConditionWakes(sem: Semaphore, phases: seq<Phase>)
    requires forall t: nat :: t in sem.waiters <==> t < |phases| && phases[t].Parked?
    requires forall t: nat :: t in sem.woken <==> t < |phases| && phases[t].Notified?
    ensures ConditionOk(sem.NotifyAll(), Woken(phases))
  {
  }

  lemma OutputMoves(finished: seq<nat>, phases: seq<Phase>, t: nat, p: Phase)
    requires OutputOk(finished, phases) && t < |phases| && !phases[t].Done?
    ensures if p.Done? then OutputOk(finished + [t], phases[t := p]) else OutputOk(finished, phases[t := p])
  {
    assert (finished + [t])[|finished|] == t;
    assert forall u | u in finished :: u in finished + [t];
  }

  lemma OutputWakes(finished: seq<nat>, phases: seq<Phase>)
    requires OutputOk(finished, phases)
    ensures OutputOk(finished, Woken(phases))
  {
  }

  // ----- Every step keeps the invariant -----

  lemma JoinStep(s: Suite, e: Event, initial: int)
    requires Invariant(s, initial) && Enabled(s, e) && (e.Start? || e.Wake? || e.Leave?)
    ensures Invariant(Apply(s, e), initial)
  {
    hide QueueOk, OutputOk, Targets, Holders, Countdown;
    var p := if e.Leave? then Exiting else Waiting;
    Joins(s.queue, s.phases, e.t, p);
    HoldersUpdate(s.phases, e.t, p);
    OutputMoves(s.finished, s.phases, e.t, p);
    if e.Start? || e.Leave? {
      ConditionMoves(s.sem, s.sem, s.phases, e.t, p);
    }
  }

  lemma FinishStep(s: Suite, e: Event, initial: int)
    requires Invariant(s, initial) && Enabled(s, e) && e.Finish?
    ensures Invariant(Apply(s, e), initial)
  {
    hide QueueOk, OutputOk, Targets, Holders, ConditionOk;
    if e.rateLimited && s.current > 1 {
      var p := Resizing(s.current - 1);
      Joins(s.queue, s.phases, e.t, p);
      HoldersUpdate(s.phases, e.t, p);
      OutputMoves(s.finished, s.phases, e.t, p);
      ConditionMoves(s.sem, s.sem, s.phases, e.t, p);
      assert Countdown(s.sem.value, s.sem.value - s.current) + [s.current - 1] ==
             Countdown(s.sem.value, s.sem.value - s.current + 1);
    } else {
      Moves(s.queue, s.phases, e.t, Leaving);
      HoldersUpdate(s.phases, e.t, Leaving);
      OutputMoves(s.finished, s.phases, e.t, Leaving);
      ConditionMoves(s.sem, s.sem, s.phases, e.t, Leaving);
    }
  }

  lemma EnterStep(s: Suite, initial: int)
    requires Invariant(s, initial) && Enabled(s, Acquire) && s.phases[s.queue[0]].Waiting?
    ensures Invariant(Apply(s, Acquire), initial)
  {
    hide QueueOk, OutputOk, Targets, Holders, Countdown;
    var t := s.queue[0];
    var p := if s.sem.Full() then Parked else Inside;
    LeavesQueue(s.queue, s.phases, p);
    HoldersUpdate(s.phases, t, p);
    OutputMoves(s.finished, s.phases, t, p);
    assert [] + Targets(s.queue[1..], s.phases[t := p]) == Targets(s.queue[1..], s.phases[t := p]);
  }

  lemma ResizeStep(s: Suite, initial: int)
    requires Invariant(s, initial) && Enabled(s, Acquire) && s.phases[s.queue[0]].Resizing?
    ensures Invariant(Apply(s, Acquire), initial)
    ensures Apply(s, Acquire).sem.value == s.sem.value - 1
  {
    hide QueueOk, OutputOk, Targets, Holders;
    var t := s.queue[0];
    var moved := s.phases[t := Leaving];
    var target := s.phases[t].target;
    LeavesQueue(s.queue, s.phases, Leaving);
    var rest := Targets(s.queue[1..], moved);
    var n := s.sem.value - Aim(s);
    assert [target] + rest == Countdown(s.sem.value, n);
    assert n > 0 && target == Countdown(s.sem.value, n)[0] == s.sem.value - 1;
    assert rest == Countdown(s.sem.value, n)[1..] == Countdown(target, n - 1);
    Wakes(s.queue[1..], moved);
    HoldersUpdate(s.phases, t, Leaving);
    HoldersWoken(moved);
    OutputMoves(s.finished, s.phases, t, Leaving);
    OutputWakes(s.finished, moved);
    ConditionMoves(s.sem, s.sem, s.phases, t, Leaving);
    ConditionWakes(s.sem.(value := target), moved);
  }

  lemma ExitStep(s: Suite, initial: int)
    requires Invariant(s, initial) && Enabled(s, Acquire) && s.phases[s.queue[0]].Exiting?
    ensures Invariant(Apply(s, Acquire), initial)
  {
    hide QueueOk, OutputOk, Targets, Holders, Countdown;
    var t := s.queue[0];
    var moved := s.phases[t := Done];
    LeavesQueue(s.queue, s.phases, Done);
    assert [] + Targets(s.queue[1..], moved) == Targets(s.queue[1..], moved);
    Wakes(s.queue[1..], moved);
    HoldersUpdate(s.phases, t, Done);
    HoldersWoken(moved);
    OutputMoves(s.finished, s.phases, t, Done);
    OutputWakes(s.finished + [t], moved);
    ConditionMoves(s.sem, s.sem, s.phases, t, Done);
    ConditionWakes(s.sem.(inUse := s.sem.inUse - 1), moved);
  }

  lemma HeadIsQueued(s: Suite, initial: int)
    requires Invariant(s, initial) && Enabled(s, Acquire)
    ensures Queued(s.phases[s.queue[0]])
  {
  }

  lemma StepKeepsInvariant(s: Suite, e: Event, initial: int)
    requires Invariant(s, initial) && Enabled(s, e)
    ensures Invariant(Apply(s, e), initial)
  {
    hide QueueOk, OutputOk, Targets, Holders, Countdown, ConditionOk;
    match e
    case Start(_) => JoinStep(s, e, initial);
    case Wake(_) => JoinStep(s, e, initial);
    case Leave(_) => JoinStep(s, e, initial);
    case Finish(_, _) => FinishStep(s, e, initial);
    case Acquire =>
      HeadIsQueued(s, initial);
      if s.phases[s.queue[0]].Waiting? {
        EnterStep(s, initial);
      } else if s.phases[s.queue[0]].Resizing? {
        ResizeStep(s, initial);
      } else {
        ExitStep(s, initial);
      }
    case Emit =>
    case Close =>
  }
}
