/** What the trace of a run records of each request, reply and tool call. */
module TraceContents {
  import opened Wrappers
  import opened AgentModels
  import opened Context
  import opened AgentStory
  import opened AgentTheorems
  import opened AgentAnswers
  import Text

  /** The events lie in this trace from this position on. */
  predicate Holds(trace: seq<TraceEvent>, at: nat, events: seq<TraceEvent>) {
    at <= |trace| && events <= trace[at..]
  }

  lemma HoldsInside(trace: seq<TraceEvent>, at: nat, a: seq<TraceEvent>, b: seq<TraceEvent>, c: seq<TraceEvent>)
    requires Holds(trace, at, a + b + c)
    ensures Holds(trace, at + |a|, b)
  {
    assert trace[at + |a|..] == trace[at..][|a|..];
    assert (a + b + c)[|a|..] == b + c;
    assert trace[at..][..|a + b + c|] == a + b + c;
    assert trace[at..][|a|..|a + b + c|] == b + c;
  }

  lemma {:induction false} RoundsEventsHold(rounds: seq<Round>, k: nat)
    requires k < |rounds|
    ensures Holds(RoundsEvents(rounds), |RoundsEvents(rounds[..k])|, RoundEvents(k, rounds[k]))
  {
    hide RoundEvents;
    var n := |rounds| - 1;
    var before := RoundsEvents(rounds[..n]);
    if k == n {
      assert RoundsEvents(rounds)[|before|..] == RoundEvents(n, rounds[n]);
    } else {
      RoundsEventsHold(rounds[..n], k);
      assert rounds[..n][..k] == rounds[..k];
      var at := |RoundsEvents(rounds[..k])|;
      assert RoundsEvents(rounds)[at..] == before[at..] + RoundEvents(n, rounds[n]);
    }
  }

  lemma {:induction false} CallsEventsHold(step: nat, played: seq<Played>, i: nat)
    requires i < |played|
    ensures Holds(CallsEvents(step, played), |CallsEvents(step, played[..i])|, CallEvents(step, played[i]))
  {
    hide CallEvents;
    var n := |played| - 1;
    var before := CallsEvents(step, played[..n]);
    if i == n {
      assert CallsEvents(step, played)[|before|..] == CallEvents(step, played[n]);
    } else {
      CallsEventsHold(step, played[..n], i);
      assert played[..n][..i] == played[..i];
      var at := |CallsEvents(step, played[..i])|;
      assert CallsEvents(step, played)[at..] == before[at..] + CallEvents(step, played[n]);
    }
  }

  /** Where the events of round k begin. */
  function RoundAt(w: World, userInput: string, k: nat): nat
    requires k <= |StoryOf(w, userInput).rounds|
  {
    |Preamble(w, userInput)| + |RoundsEvents(StoryOf(w, userInput).rounds[..k])|
  }

  lemma TraceHoldsRound(w: World, userInput: string, k: nat)
    requires k < |StoryOf(w, userInput).rounds|
    ensures var s := StoryOf(w, userInput);
            Holds(Trace(w, userInput, s), RoundAt(w, userInput, k), RoundEvents(k, s.rounds[k]))
  {
    hide StoryOf, RoundsEvents, RoundEvents, Preamble, FinishEvents;
    var s := StoryOf(w, userInput);
    RoundsEventsHold(s.rounds, k);
    var trace, at := Trace(w, userInput, s), |RoundsEvents(s.rounds[..k])|;
    var middle := RoundsEvents(s.rounds);
    assert trace[|Preamble(w, userInput)| + at..] == middle[at..] + FinishEvents(s);
  }

  // ----- Requests and replies -----

  /** A request with the figures of its bundle, then the reply one step later, with its rationale if it has one. */
  predicate TellsRequest(request: Request, reply: AgentMessage, k: nat, events: seq<TraceEvent>) {
    var warned := if request.warned then 1 else 0;
    && |events| == 2 + warned + (if reply.rationale.Some? then 1 else 0)
    && events[0] == TraceEvent(ModelRequested(request.bundle.tokens, |request.bundle.dropped|, request.pruned), k)
    && (request.warned ==> events[1] == TraceEvent(ContextLostInMiddleWarning, k))
    && events[1 + warned] == TraceEvent(ModelResponded(reply), k + 1)
    && (reply.rationale.Some? ==>
          events[2 + warned] == TraceEvent(RationaleRecorded(reply.rationale.value.summary), k + 1))
  }

  /** The trace tells every round: first its request and its reply. */
  lemma TraceTellsRequest(w: World, userInput: string, k: nat) returns (events: seq<TraceEvent>)
    requires k < |StoryOf(w, userInput).rounds|
    ensures var s := StoryOf(w, userInput);
            && Holds(Trace(w, userInput, s), RoundAt(w, userInput, k), events)
            && TellsRequest(s.rounds[k].request, s.rounds[k].reply, k, events)
  {
    hide StoryOf, Trace, RoundAt, CallsEvents;
    var s := StoryOf(w, userInput);
    var r := s.rounds[k];
    TraceHoldsRound(w, userInput, k);
    events := RequestEvents(k, r.request) + ReplyEvents(k + 1, r.reply);
    assert [] + events + CallsEvents(k + 1, r.played) == RoundEvents(k, r);
    HoldsInside(Trace(w, userInput, s), RoundAt(w, userInput, k), [], events, CallsEvents(k + 1, r.played));
  }

  // ----- Tool calls -----

  /** The end of a call, after its attempts: what the result says, and the two kinds of failed execution apart. */
  predicate TellsEnding(call: ToolCall, r: ToolResult, exhausted: bool, ending: seq<EventKind>) {
    var (id, name) := (call.callId, call.toolName);
    if r.ok then ending == [ToolSucceeded(name, id), ObservationRecorded(id, true)]
    else if r.error.None? then false
    else if !r.error.value.ToolExecutionFailed? then ending == [ToolValidationFailed(r.error.value, id)]
    else if exhausted then ending == [ToolFailed(name, id, "retries_exhausted"), ObservationRecorded(id, false)]
    else ending == [ToolFailed(name, id, r.error.value.message)]
  }

  function Attempt(name: string, errors: seq<string>): seq<EventKind> {
    seq(|errors|, j requires 0 <= j < |errors| => ToolTransientError(name, j + 1, errors[j]))
  }

  /** All events of one call: announced, started, one event for each attempt that failed in passing, its end, and the
      completed step. */
  predicate TellsCall(w: World, step: nat, index: nat, call: ToolCall, r: ToolResult, kinds: seq<EventKind>,
                      errors: seq<string>, ending: seq<EventKind>)
  {
    && kinds == [ToolCallReceived(call), ToolActionCreated(call.toolName, call.callId),
                 ToolStarted(call.toolName, call.callId)]
                + Attempt(call.toolName, errors) + ending + [StepCompleted(call.callId, r.ok)]
    && (forall j | 0 <= j < |errors| :: w.tool(step, index, j + 1) == Transient(errors[j]))
    && (call.toolName !in w.registry ==> errors == [])
    && (call.toolName in w.registry && |errors| < w.maxToolRetries ==>
          !w.tool(step, index, |errors| + 1).Transient?)
    && TellsEnding(call, r, call.toolName in w.registry && |errors| >= w.maxToolRetries, ending)
  }

  function KindsOf(events: seq<TraceEvent>): seq<EventKind> {
    seq(|events|, i requires 0 <= i < |events| => events[i].kind)
  }

  predicate AllAt(events: seq<TraceEvent>, step: nat) {
    forall i | 0 <= i < |events| :: events[i].step == step
  }

  function EndingKinds(p: Played): seq<EventKind> {
    var name, id := p.call.toolName, p.call.callId;
    match p.ending
    case Answered(_) => [ToolSucceeded(name, id), ObservationRecorded(id, true)]
    case Exhausted => [ToolFailed(name, id, "retries_exhausted"), ObservationRecorded(id, false)]
    case Unknown(error) => [ToolValidationFailed(UnknownTool(error), id)]
    case Rejected => [ToolValidationFailed(InvalidArguments, id)]
    case Crashed(error) => [ToolFailed(name, id, error)]
  }

  lemma KindsConcat(a: seq<TraceEvent>, b: seq<TraceEvent>)
    ensures KindsOf(a + b) == KindsOf(a) + KindsOf(b)
  {
  }

  function Head(step: nat, p: Played): seq<TraceEvent> {
    [TraceEvent(ToolCallReceived(p.call), step), TraceEvent(ToolActionCreated(p.call.toolName, p.call.callId), step),
     TraceEvent(ToolStarted(p.call.toolName, p.call.callId), step)]
  }

  function Tail(step: nat, p: Played): seq<TraceEvent> {
    InnerEvents(step, p)[1 + |p.transients|..] + HandlerEvents(step, p)
  }

  lemma TailIs(step: nat, p: Played)
    ensures AllAt(Tail(step, p), step) && KindsOf(Tail(step, p)) == EndingKinds(p)
  {
  }

  lemma TransientsSize(step: nat, name: string, errors: seq<string>)
    ensures |TransientEvents(step, name, errors)| == |errors|
  {
  }

  lemma CallSplits(step: nat, p: Played)
    ensures CallEvents(step, p) ==
            Head(step, p) + TransientEvents(step, p.call.toolName, p.transients) + Tail(step, p)
            + [TraceEvent(StepCompleted(p.call.callId, p.ending.Answered?), step)]
  {
    hide TransientEvents;
    TransientsSize(step, p.call.toolName, p.transients);
    var inner, n := InnerEvents(step, p), 1 + |p.transients|;
    assert inner == [TraceEvent(ToolStarted(p.call.toolName, p.call.callId), step)]
                    + TransientEvents(step, p.call.toolName, p.transients) + inner[n..];
  }

  lemma CallEventsAre(step: nat, p: Played)
    ensures var events := CallEvents(step, p);
            && AllAt(events, step)
            && KindsOf(events) ==
               [ToolCallReceived(p.call), ToolActionCreated(p.call.toolName, p.call.callId),
                ToolStarted(p.call.toolName, p.call.callId)]
               + Attempt(p.call.toolName, p.transients) + EndingKinds(p)
               + [StepCompleted(p.call.callId, p.ending.Answered?)]
  {
    hide CallEvents, Tail, EndingKinds;
    var (name, transients) := (p.call.toolName, p.transients);
    CallSplits(step, p);
    TailIs(step, p);
    var last := [TraceEvent(StepCompleted(p.call.callId, p.ending.Answered?), step)];
    KindsConcat(Head(step, p), TransientEvents(step, name, transients));
    KindsConcat(Head(step, p) + TransientEvents(step, name, transients), Tail(step, p));
    KindsConcat(Head(step, p) + TransientEvents(step, name, transients) + Tail(step, p), last);
    assert KindsOf(TransientEvents(step, name, transients)) == Attempt(name, transients);
  }

  lemma PlayIsTold(w: World, step: nat, index: nat, call: ToolCall)
    ensures var p := Play(w, step, index, call); var events := CallEvents(step, p);
            && AllAt(events, step)
            && TellsCall(w, step, index, call, ResultOf(p), KindsOf(events), p.transients, EndingKinds(p))
  {
    hide CallEvents, Attempts, KindsOf, Attempt, AllAt, Text.Decimal;
    var p := Play(w, step, index, call);
    CallEventsAre(step, p);
    AttemptsAre(w, step, index, 0);
  }

  lemma HoldsDeeper(trace: seq<TraceEvent>, at: nat, outer: seq<TraceEvent>, deeper: nat, inner: seq<TraceEvent>)
    requires Holds(trace, at, outer) && Holds(outer, deeper, inner)
    ensures Holds(trace, at + deeper, inner)
  {
    assert trace[at + deeper..] == trace[at..][deeper..];
    assert trace[at..][..|outer|] == outer;
    assert outer[deeper..] == trace[at..][deeper..|outer|];
  }

  /** And then every call carried out, with the result that is sent back for it. */
  lemma TraceTellsCall(w: World, userInput: string, k: nat, i: nat)
      returns (at: nat, events: seq<TraceEvent>, errors: seq<string>, ending: seq<EventKind>)
    requires k < |StoryOf(w, userInput).rounds| && i < |StoryOf(w, userInput).rounds[k].played|
    ensures var s := StoryOf(w, userInput);
            var calls := CallsOf(s.rounds[k].reply);
            var reports := ToolMessages(s.rounds[k].played);
            && Holds(Trace(w, userInput, s), at, events) && AllAt(events, k + 1)
            && i < |calls| && i < |reports| && reports[i].toolResult.Some?
            && TellsCall(w, k + 1, i, calls[i], reports[i].toolResult.value, KindsOf(events), errors, ending)
  {
    hide StoryOf, Trace, RoundAt, CallsEvents, CallEvents, RequestEvents, ReplyEvents, TellsCall, PlayCalls, Play,
         RequestFor, ResultOf, ToolMessages, Holds, KindsOf, AllAt, EndingKinds;
    var s := StoryOf(w, userInput);
    var r := s.rounds[k];
    var head := RequestEvents(k, r.request) + ReplyEvents(k + 1, r.reply);
    RoundIs(w, userInput, k);
    PlayCallsAt(w, k + 1, CallsOf(r.reply), 0, i);
    ToolMessagesAt(r.played, i);
    PlayIsTold(w, k + 1, i, CallsOf(r.reply)[i]);
    TraceHoldsRound(w, userInput, k);
    assert head + CallsEvents(k + 1, r.played) + [] == RoundEvents(k, r);
    HoldsInside(Trace(w, userInput, s), RoundAt(w, userInput, k), head, CallsEvents(k + 1, r.played), []);
    CallsEventsHold(k + 1, r.played, i);
    at := RoundAt(w, userInput, k) + |head| + |CallsEvents(k + 1, r.played[..i])|;
    HoldsDeeper(Trace(w, userInput, s), RoundAt(w, userInput, k) + |head|, CallsEvents(k + 1, r.played),
                |CallsEvents(k + 1, r.played[..i])|, CallEvents(k + 1, r.played[i]));
    events, errors, ending := CallEvents(k + 1, r.played[i]), r.played[i].transients, EndingKinds(r.played[i]);
  }

  // ----- Beginning and end -----

  /** What ends the trace after `n` replies. */
  predicate TellsFinish(finish: Finish, answer: Option<string>, n: nat, kinds: seq<EventKind>) {
    match finish
    case LimitReached => kinds == [MaxStepsExceeded, StopReasonRecorded(StepLimit)]
    case AnswerGiven => kinds == [StopReasonRecorded(FinalAnswer), RunCompleted(answer)]
    case ToolDown => kinds == [StopReasonRecorded(NonRetryableError)]
    case ProviderDown(request, error) =>
      kinds == [ModelRequested(request.bundle.tokens, |request.bundle.dropped|, request.pruned)]
               + (if request.warned then [ContextLostInMiddleWarning] else [])
               + [ModelProviderFailed(error), StopReasonRecorded(ProviderFailure)]
  }

  lemma NoRounds(rounds: seq<Round>)
    requires rounds == []
    ensures RoundsEvents(rounds) == []
  {
  }

  lemma FinishIs(s: Story)
    ensures AllAt(FinishEvents(s), |s.rounds|)
    ensures TellsFinish(s.finish, AnswerOf(s), |s.rounds|, KindsOf(FinishEvents(s)))
  {
    hide AnswerOf;
  }

  lemma PreambleIs(w: World, userInput: string)
    ensures AllAt(Preamble(w, userInput), 0)
    ensures KindsOf(Preamble(w, userInput)) ==
            [RunStarted(userInput)]
            + (if w.skill.Some? then [SkillActivated(w.skill.value.name)] else [])
            + (if w.retrieval.None? then []
               else if w.retrieval.value.InsufficientEvidence? then [RetrievalMelt] else [RetrievalSuccess])
  {
  }

  /** The trace begins with the user's input, the skill and the retrieval, and ends with how the run ended. */
  lemma TraceTellsEnds(w: World, userInput: string)
    ensures var s := StoryOf(w, userInput);
            var n := |s.rounds|;
            var trace := Trace(w, userInput, s);
            && RoundAt(w, userInput, 0) <= RoundAt(w, userInput, n) <= |trace|
            && AllAt(trace[..RoundAt(w, userInput, 0)], 0) && AllAt(trace[RoundAt(w, userInput, n)..], n)
            && TellsFinish(s.finish, AnswerOf(s), n, KindsOf(trace[RoundAt(w, userInput, n)..]))
            && KindsOf(trace[..RoundAt(w, userInput, 0)]) ==
               [RunStarted(userInput)]
               + (if w.skill.Some? then [SkillActivated(w.skill.value.name)] else [])
               + (if w.retrieval.None? then []
                  else if w.retrieval.value.InsufficientEvidence? then [RetrievalMelt] else [RetrievalSuccess])
  {
    hide StoryOf, RoundsEvents, Preamble, FinishEvents, TellsFinish, AllAt, KindsOf, AnswerOf;
    var s := StoryOf(w, userInput);
    var trace := Trace(w, userInput, s);
    NoRounds(s.rounds[..0]);
    assert s.rounds[..|s.rounds|] == s.rounds;
    assert trace[RoundAt(w, userInput, |s.rounds|)..] == FinishEvents(s);
    assert trace[..RoundAt(w, userInput, 0)] == Preamble(w, userInput);
    FinishIs(s);
    PreambleIs(w, userInput);
  }
}
