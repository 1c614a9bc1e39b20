/** The structured ReAct loop: src/agent_runtime/runtime/loop.py. */
module AgentLoop {
  import opened Wrappers
  import opened AgentModels
  import opened AgentStory
  import opened Context
  import Text

  /** The exceptions that `_execute_tool` lets through. */
  datatype ToolException = LookupFailed(message: string) | InvalidInput | OtherFailure(message: string)

  function OutcomeOf(p: Played): Result<ToolObservation, ToolException> {
    match p.ending
    case Unknown(error) => Failure(LookupFailed(error))
    case Rejected => Failure(InvalidInput)
    case Crashed(error) => Failure(OtherFailure(error))
    case _ => Success(ObservationOf(ResultOf(p)))
  }

  /** The rounds so far begin the story, and the rest of it is told from the conversation as it stands. */
  predicate Told(w: World, userInput: string, rounds: seq<Round>, messages: seq<AgentMessage>) {
    var rest := Tell(w, messages, |rounds|);
    StoryOf(w, userInput) == Story(rounds + rest.rounds, rest.finish)
  }

  /** A run that has made some rounds and goes on: the logs hold exactly those rounds. */
  predicate Ongoing(w: World, userInput: string, rounds: seq<Round>, messages: seq<AgentMessage>, stepCount: nat,
                    steps: seq<AgentStep>, events: seq<TraceEvent>)
  {
    && Told(w, userInput, rounds, messages)
    && messages == Messages(userInput, rounds)
    && stepCount == |rounds|
    && steps == RoundSteps(rounds)
    && events == Preamble(w, userInput) + RoundsEvents(rounds)
  }

  lemma Regrouped(a: seq<TraceEvent>, b: seq<TraceEvent>, c: seq<TraceEvent>, d: seq<TraceEvent>, e: seq<TraceEvent>)
    ensures a + b + c + d + e == a + (b + c + d + e)
  {
  }

  lemma NextTold(w: World, userInput: string, rounds: seq<Round>, messages: seq<AgentMessage>)
    requires Told(w, userInput, rounds, messages)
    ensures var story, n := StoryOf(w, userInput), |rounds|;
            if n >= w.maxSteps then story == Story(rounds, LimitReached)
            else
              var outcome := Ask(w, n, messages);
              if outcome.Raised? then story == Story(rounds, ProviderDown(RequestFor(w, messages), outcome.error))
              else
                var round := RoundFor(w, messages, n, outcome.message);
                if CallsOf(outcome.message) == [] then story == Story(rounds + [round], AnswerGiven)
                else if Broken(round.played) then story == Story(rounds + [round], ToolDown)
                else Told(w, userInput, rounds + [round], messages + [outcome.message] + ToolMessages(round.played))
  {
    hide RequestFor, Ask, RoundFor, Broken, ToolMessages;
    assert rounds + [] == rounds;
    if |rounds| < w.maxSteps && Ask(w, |rounds|, messages).Replied? {
      var reply := Ask(w, |rounds|, messages).message;
      var round := RoundFor(w, messages, |rounds|, reply);
      var rest := Tell(w, messages + [reply] + ToolMessages(round.played), |rounds| + 1);
      assert rounds + ([round] + rest.rounds) == (rounds + [round]) + rest.rounds;
    }
  }

  lemma NothingPlayed(step: nat, rationale: Option<Rationale>)
    ensures !Broken([]) && ToolMessages([]) == []
    ensures ActionSteps(step, rationale, []) == [] && CallsEvents(step, []) == []
  {
  }

  lemma RoundLogged(w: World, userInput: string, rounds: seq<Round>, messages: seq<AgentMessage>, reply: AgentMessage)
    ensures var n := |rounds|;
            var round := RoundFor(w, messages, n, reply);
            var longer := rounds + [round];
            && round.reply == reply && round.request == RequestFor(w, messages)
            && round.played == PlayCalls(w, n + 1, CallsOf(reply), 0)
            && (CallsOf(reply) == [] ==>
                  && round.played == [] && ActionSteps(n + 1, reply.rationale, round.played) == []
                  && CallsEvents(n + 1, round.played) == [])
            && Messages(userInput, longer) == Messages(userInput, rounds) + [reply] + ToolMessages(round.played)
            && RoundSteps(longer) == RoundSteps(rounds) + ActionSteps(n + 1, reply.rationale, round.played)
            && RoundsEvents(longer) == RoundsEvents(rounds) + RequestEvents(n, round.request)
                 + ReplyEvents(n + 1, reply) + CallsEvents(n + 1, round.played)
  {
    hide RequestFor, ToolMessages, ActionSteps, RequestEvents, ReplyEvents, CallsEvents;
    var n := |rounds|;
    NothingPlayed(n + 1, reply.rationale);
    var round := RoundFor(w, messages, n, reply);
    assert (rounds + [round])[..n] == rounds;
    assert Messages(userInput, rounds) + ([reply] + ToolMessages(round.played)) ==
           Messages(userInput, rounds) + [reply] + ToolMessages(round.played);
    assert RoundsEvents(rounds) + RoundEvents(n, round) ==
           RoundsEvents(rounds) + RequestEvents(n, round.request) + ReplyEvents(n + 1, reply)
           + CallsEvents(n + 1, round.played);
  }

  lemma NothingTold(w: World, userInput: string)
    ensures Ongoing(w, userInput, [], [UserMessage(userInput)], 0, [], Preamble(w, userInput))
  {
    hide Preamble;
    var rest := Tell(w, [UserMessage(userInput)], 0);
    assert [] + rest.rounds == rest.rounds;
  }

  /** The transient errors met so far are the first ones of the whole sequence of attempts. */
  predicate Attempted(w: World, step: nat, index: nat, transients: seq<string>) {
    Attempts(w, step, index, 0) ==
    (transients + Attempts(w, step, index, |transients|).0, Attempts(w, step, index, |transients|).1)
  }

  function EndingOf(outcome: ToolOutcome): Ending
    requires !outcome.Transient?
  {
    match outcome
    case Returned(output) => Answered(output)
    case ValidationError => Rejected
    case KeyError(error) => Unknown(error)
    case OtherException(error) => Crashed(error)
  }

  lemma NextAttempt(w: World, step: nat, index: nat, transients: seq<string>)
    requires |transients| < w.maxToolRetries && Attempted(w, step, index, transients)
    ensures var outcome := w.tool(step, index, |transients| + 1);
            if outcome.Transient? then
              && Attempted(w, step, index, transients + [outcome.error])
              && LastOr(transients + [outcome.error]) == outcome.error
            else Attempts(w, step, index, 0) == (transients, EndingOf(outcome))
  {
    assert transients + [] == transients;
    var outcome := w.tool(step, index, |transients| + 1);
    if outcome.Transient? {
      var more := Attempts(w, step, index, |transients| + 1).0;
      assert transients + ([outcome.error] + more) == (transients + [outcome.error]) + more;
    }
  }

  lemma NoMoreAttempts(w: World, step: nat, index: nat, transients: seq<string>)
    requires |transients| >= w.maxToolRetries && Attempted(w, step, index, transients)
    ensures Attempts(w, step, index, 0) == (transients, Exhausted)
  {
    assert transients + [] == transients;
  }

  lemma NextCall(w: World, step: nat, calls: seq<ToolCall>, k: nat, played: seq<Played>)
    requires k < |calls| && PlayCalls(w, step, calls, 0) == played + PlayCalls(w, step, calls, k)
    ensures var p := Play(w, step, k, calls[k]);
            && Broken(played + [p]) == Fatal(p)
            && (if Fatal(p) then PlayCalls(w, step, calls, 0) == played + [p]
                else PlayCalls(w, step, calls, 0) == (played + [p]) + PlayCalls(w, step, calls, k + 1))
  {
    hide Play, Fatal;
    var p := Play(w, step, k, calls[k]);
    var rest := PlayCalls(w, step, calls, k + 1);
    assert played + ([p] + rest) == (played + [p]) + rest;
  }

  lemma NoMoreCalls(w: World, step: nat, calls: seq<ToolCall>)
    ensures PlayCalls(w, step, calls, |calls|) == []
    ensures forall played: seq<Played> :: played + PlayCalls(w, step, calls, |calls|) == played
  {
  }

  lemma LogsExtend(step: nat, rationale: Option<Rationale>, played: seq<Played>, p: Played)
    ensures ToolMessages(played + [p]) == ToolMessages(played) + [ToolMessage(p)]
    ensures ActionSteps(step, rationale, played + [p]) ==
            ActionSteps(step, rationale, played) + [ActionStep(step, rationale, p)]
    ensures CallsEvents(step, played + [p]) == CallsEvents(step, played) + CallEvents(step, p)
  {
    hide ToolMessage, ActionStep, CallEvents;
    assert (played + [p])[..|played|] == played;
  }

  lemma PlayIsOfCall(w: World, step: nat, index: nat, call: ToolCall)
    ensures Play(w, step, index, call).call == call
  {
  }

  lemma TransientExtends(step: nat, name: string, errors: seq<string>, error: string)
    ensures TransientEvents(step, name, errors + [error]) ==
            TransientEvents(step, name, errors) + [TraceEvent(ToolTransientError(name, |errors| + 1, error), step)]
  {
  }

  lemma NoTransients(step: nat, name: string)
    ensures TransientEvents(step, name, []) == [] && LastOr([]) == ""
  {
  }

  lemma NoneAttempted(w: World, step: nat, index: nat)
    ensures Attempted(w, step, index, [])
  {
    assert [] + Attempts(w, step, index, 0).0 == Attempts(w, step, index, 0).0;
  }

  class AgentRuntime {
    const w: World

    constructor (w: World)
      ensures this.w == w
    {
      this.w := w;
    }

    /** The retry loop: transient errors are recorded and retried, anything else ends it. */
    method TryTool(call: ToolCall, index: nat, step: nat, recorder: TraceRecorder)
      returns (ending: Ending, attempt: nat, lastError: string)
      modifies recorder
      ensures var (transients, last) := Attempts(w, step, index, 0);
              && ending == last && attempt == |transients| && lastError == LastOr(transients)
              && recorder.events == old(recorder.events) + TransientEvents(step, call.toolName, transients)
    {
      hide TransientEvents, LastOr, Attempts;
      attempt, lastError := 0, "";
      ghost var transients: seq<string> := [];
      NoTransients(step, call.toolName);
      NoneAttempted(w, step, index);
      while attempt < w.maxToolRetries
        invariant attempt == |transients| && lastError == LastOr(transients)
        invariant recorder.events == old(recorder.events) + TransientEvents(step, call.toolName, transients)
        invariant Attempted(w, step, index, transients)
      {
        NextAttempt(w, step, index, transients);
        match w.tool(step, index, attempt + 1) {
          case Returned(output) =>
            return Answered(output), attempt, lastError;
          case ValidationError =>
            return Rejected, attempt, lastError;
          case KeyError(error) =>
            return Unknown(error), attempt, lastError;
          case OtherException(error) =>
            return Crashed(error), attempt, lastError;
          case Transient(error) =>
            TransientExtends(step, call.toolName, transients, error);
            transients := transients + [error];
            attempt, lastError := attempt + 1, error;
            recorder.Record(ToolTransientError(call.toolName, attempt, error), step);
        }
      }
      NoMoreAttempts(w, step, index, transients);
      return Exhausted, attempt, lastError;
    }

    /** One tool action: look the tool up, then try it until it answers, raises, or the retries run out. */
    method ExecuteTool(call: ToolCall, index: nat, state: AgentState, recorder: TraceRecorder)
      returns (outcome: Result<ToolObservation, ToolException>)
      modifies state`status, state`stopReason, recorder
      ensures var p := Play(w, state.stepCount, index, call);
              && outcome == OutcomeOf(p)
              && recorder.events == old(recorder.events) + InnerEvents(state.stepCount, p)
              && state.status == (if p.ending.Exhausted? then Failed else old(state.status))
              && state.stopReason == (if p.ending.Exhausted? then Some(NonRetryableError) else old(state.stopReason))
    {
      hide Attempts, TransientEvents, LastOr, Text.Decimal;
      var step := state.stepCount;
      var name, id := call.toolName, call.callId;
      recorder.Record(ToolStarted(name, id), step);
      if name !in w.registry {
        NoTransients(step, name);
        return Failure(LookupFailed(w.lookupError(name)));
      }

      var ending, attempt, lastError := TryTool(call, index, step, recorder);
      var result;
      match ending {
        case Unknown(error) =>
          return Failure(LookupFailed(error));
        case Rejected =>
          return Failure(InvalidInput);
        case Crashed(error) =>
          return Failure(OtherFailure(error));
        case Answered(output) =>
          result := ToolResult(id, name, true, Some(output), None);
          recorder.Record(ToolSucceeded(name, id), step);
        case Exhausted =>
          var error := ToolExecutionFailed("Failed after " + Text.Decimal(attempt) + " retries: " + lastError);
          result := ToolResult(id, name, false, None, Some(error));
          recorder.Record(ToolFailed(name, id, "retries_exhausted"), step);
          state.status := Failed;
          state.stopReason := Some(NonRetryableError);
      }
      var observation := ObservationOf(result);
      recorder.Record(ObservationRecorded(id, observation.ok), step);
      return Success(observation);
    }

    /** The body of the loop over the tool calls of one reply: act, handle the exceptions, log in all three places. */
    method HandleCall(call: ToolCall, index: nat, rationale: Option<Rationale>, state: AgentState,
                      recorder: TraceRecorder)
      requires state.status == Running
      modifies state`messages, state`steps, state`status, state`stopReason, recorder
      ensures var p := Play(w, state.stepCount, index, call);
              && state.messages == old(state.messages) + [ToolMessage(p)]
              && state.steps == old(state.steps) + [ActionStep(state.stepCount, rationale, p)]
              && recorder.events == old(recorder.events) + CallEvents(state.stepCount, p)
              && state.status == (if Fatal(p) then Failed else Running)
              && state.stopReason == (if Fatal(p) then Some(NonRetryableError) else old(state.stopReason))
    {
      hide Attempts, InnerEvents, Play, LastOr, Text.Decimal;
      var step := state.stepCount;
      recorder.Record(ToolCallReceived(call), step);
      var action := ActionOf(call, rationale);
      recorder.Record(ToolActionCreated(action.toolName, action.callId), step);
      PlayIsOfCall(w, step, index, call);

      var outcome := ExecuteTool(call, index, state, recorder);
      var result;
      match outcome {
        case Success(observation) =>
          result := ToolResult(observation.callId, observation.toolName, observation.ok, observation.output,
                               observation.error);
        case Failure(LookupFailed(error)) =>
          result := ToolResult(call.callId, call.toolName, false, None, Some(UnknownTool(error)));
          recorder.Record(ToolValidationFailed(UnknownTool(error), call.callId), step);
          state.status := Failed;
          state.stopReason := Some(NonRetryableError);
        case Failure(InvalidInput) =>
          result := ToolResult(call.callId, call.toolName, false, None, Some(InvalidArguments));
          recorder.Record(ToolValidationFailed(InvalidArguments, call.callId), step);
        case Failure(OtherFailure(error)) =>
          result := ToolResult(call.callId, call.toolName, false, None, Some(ToolExecutionFailed(error)));
          recorder.Record(ToolFailed(call.toolName, call.callId, error), step);
          state.status := Failed;
          state.stopReason := Some(NonRetryableError);
      }
      state.messages := state.messages + [AgentMessage("tool", None, None, Some(result), None)];
      state.steps := state.steps + [AgentStep(step, rationale, Some(action), Some(ObservationOf(result)), None)];
      recorder.Record(StepCompleted(call.callId, result.ok), step);
    }

    /** The loop over the tool calls of one reply, which a fatal call ends. */
    method HandleCalls(calls: seq<ToolCall>, rationale: Option<Rationale>, state: AgentState, recorder: TraceRecorder)
      requires state.status == Running
      modifies state`messages, state`steps, state`status, state`stopReason, recorder
      ensures var played := PlayCalls(w, state.stepCount, calls, 0);
              && state.messages == old(state.messages) + ToolMessages(played)
              && state.steps == old(state.steps) + ActionSteps(state.stepCount, rationale, played)
              && recorder.events == old(recorder.events) + CallsEvents(state.stepCount, played)
                   + (if Broken(played) then [TraceEvent(StopReasonRecorded(NonRetryableError), state.stepCount)]
                      else [])
              && state.status == (if Broken(played) then Failed else Running)
              && state.stopReason == (if Broken(played) then Some(NonRetryableError) else old(state.stopReason))
    {
      hide Play, Fatal, CallEvents, ToolMessage, ActionStep, PlayCalls, ToolMessages, ActionSteps, CallsEvents, Broken;
      var step := state.stepCount;
      ghost var played: seq<Played> := [];
      NothingPlayed(step, rationale);
      for k := 0 to |calls|
        invariant state.status == Running && state.stepCount == step && state.stopReason == old(state.stopReason)
        invariant PlayCalls(w, step, calls, 0) == played + PlayCalls(w, step, calls, k)
        invariant !Broken(played)
        invariant state.messages == old(state.messages) + ToolMessages(played)
        invariant state.steps == old(state.steps) + ActionSteps(step, rationale, played)
        invariant recorder.events == old(recorder.events) + CallsEvents(step, played)
      {
        ghost var p := Play(w, step, k, calls[k]);
        NextCall(w, step, calls, k, played);
        LogsExtend(step, rationale, played, p);
        HandleCall(calls[k], k, rationale, state, recorder);
        played := played + [p];
        if state.status != Running {
          recorder.Record(StopReasonRecorded(state.stopReason.GetOr(NonRetryableError)), step);
          return;
        }
      }
      NoMoreCalls(w, step, calls);
    }

    /** The start of a run: the first events, and the context items that are gathered once. */
    method Prepare(userInput: string, recorder: TraceRecorder) returns (items: seq<ContextItem>)
      requires recorder.events == []
      modifies recorder
      ensures items == PreContext(w) && recorder.events == Preamble(w, userInput)
    {
      hide SkillItem, EvidenceItem, MemoryItem;
      recorder.Record(RunStarted(userInput), 0);
      items := [];
      if w.skill.Some? {
        recorder.Record(SkillActivated(w.skill.value.name), 0);
        items := items + [SkillItem(w.skill.value)];
      }
      if w.retrieval.Some? {
        if w.retrieval.value == InsufficientEvidence {
          recorder.Record(RetrievalMelt, 0);
        } else {
          recorder.Record(RetrievalSuccess, 0);
        }
        items := items + [EvidenceItem(w.retrieval.value)];
      }
      if w.memories != [] {
        items := items + [MemoryItem(w)];
      }
    }

    /** Assembling the context of one model call. */
    method BuildRequest(preContext: seq<ContextItem>, state: AgentState, recorder: TraceRecorder)
      returns (request: Request)
      requires preContext == PreContext(w)
      modifies recorder
      ensures request == RequestFor(w, state.messages)
      ensures recorder.events == old(recorder.events) + RequestEvents(state.stepCount, request)
    {
      hide PreContext, HistoryItem, CORE, Bundle, Firsts, Pruned, Ranked, Pack;
      var items := preContext;
      items := items + [CORE];
      var history := [];
      for idx := 0 to |state.messages|
        invariant |history| == idx && forall i | 0 <= i < idx :: history[i] == HistoryItem(w, i, state.messages[i])
      {
        history := history + [HistoryItem(w, idx, state.messages[idx])];
      }
      items := items + history;
      assert items == ContextItems(w, state.messages);
      var bundle, report := Assemble(w.maxTokenBudget, items);
      recorder.Record(ModelRequested(bundle.tokens, report.droppedByBudget, report.pruned), state.stepCount);
      if report.lostInMiddleWarning {
        recorder.Record(ContextLostInMiddleWarning, state.stepCount);
      }
      request := Request(bundle, report.pruned, report.lostInMiddleWarning);
    }

    method Stop(reason: Reason, message: Option<string>, state: AgentState, recorder: TraceRecorder)
      modifies state`steps, recorder
      ensures state.steps == old(state.steps) + [StopStep(state.stepCount, None, reason, message)]
      ensures recorder.events == old(recorder.events) + [TraceEvent(StopReasonRecorded(reason), state.stepCount)]
    {
      state.steps := state.steps + [StopStep(state.stepCount, None, reason, message)];
      recorder.Record(StopReasonRecorded(reason), state.stepCount);
    }

    /** What happens once the provider has answered: log the reply, then carry out its calls or finish with it. */
    method TakeReply(reply: AgentMessage, state: AgentState, recorder: TraceRecorder)
      requires state.status == Running
      modifies state, recorder
      ensures var step, calls := old(state.stepCount) + 1, CallsOf(reply);
              var played := PlayCalls(w, step, calls, 0);
              && state.stepCount == step
              && state.messages == old(state.messages) + [reply] + ToolMessages(played)
              && state.steps == old(state.steps) + ActionSteps(step, reply.rationale, played)
                   + (if calls == [] then [StopStep(step, reply.rationale, FinalAnswer, None)] else [])
              && recorder.events == old(recorder.events) + ReplyEvents(step, reply) + CallsEvents(step, played)
                   + (if calls == [] then
                        [TraceEvent(StopReasonRecorded(FinalAnswer), step),
                         TraceEvent(RunCompleted(reply.content), step)]
                      else if Broken(played) then [TraceEvent(StopReasonRecorded(NonRetryableError), step)]
                      else [])
              && state.status == (if calls == [] then Completed else if Broken(played) then Failed else Running)
              && state.stopReason == (if calls == [] then Some(FinalAnswer)
                                      else if Broken(played) then Some(NonRetryableError) else old(state.stopReason))
              && state.finalAnswer == (if calls == [] then reply.content else old(state.finalAnswer))
    {
      hide PlayCalls, ToolMessages, ActionSteps, CallsEvents, Broken;
      state.messages := state.messages + [reply];
      state.stepCount := state.stepCount + 1;
      recorder.Record(ModelResponded(reply), state.stepCount);
      if reply.rationale.Some? {
        recorder.Record(RationaleRecorded(reply.rationale.value.summary), state.stepCount);
      }
      var calls := CallsOf(reply);
      if calls != [] {
        HandleCalls(calls, reply.rationale, state, recorder);
      } else {
        NoMoreCalls(w, state.stepCount, calls);
        NothingPlayed(state.stepCount, reply.rationale);
        state.status := Completed;
        state.finalAnswer := reply.content;
        state.stopReason := Some(FinalAnswer);
        state.steps := state.steps + [StopStep(state.stepCount, reply.rationale, FinalAnswer, None)];
        recorder.Record(StopReasonRecorded(FinalAnswer), state.stepCount);
        recorder.Record(RunCompleted(state.finalAnswer), state.stepCount);
      }
    }

    /** One iteration of the main loop, with the request it makes of the provider. */
    method Iterate(preContext: seq<ContextItem>, state: AgentState, recorder: TraceRecorder,
                   ghost userInput: string, ghost rounds: seq<Round>)
      returns (ghost longer: seq<Round>)
      requires preContext == PreContext(w)
      requires state.status == Running
      requires Ongoing(w, userInput, rounds, state.messages, state.stepCount, state.steps, recorder.events)
      requires state.stopReason == None && state.finalAnswer == None
      modifies state, recorder
      ensures if state.status == Running then
                && Ongoing(w, userInput, longer, state.messages, state.stepCount, state.steps, recorder.events)
                && state.stopReason == None && state.finalAnswer == None
                && w.maxSteps - state.stepCount < w.maxSteps - old(state.stepCount) && old(state.stepCount) < w.maxSteps
              else
                var s := StoryOf(w, userInput);
                && state.messages == Messages(userInput, s.rounds)
                && state.stepCount == |s.rounds|
                && state.steps == Steps(w, s)
                && recorder.events == Trace(w, userInput, s)
                && state.status == StatusOf(s.finish)
                && state.stopReason == Some(ReasonOf(s.finish))
                && state.finalAnswer == AnswerOf(s)
    {
      hide Tell, Told, StoryOf, RoundFor, RequestFor, PlayCalls, ToolMessages, ActionSteps, CallsEvents, RequestEvents,
           Messages, RoundSteps, RoundsEvents, Preamble, PreContext, LimitMessage, ReplyEvents, Broken, ContextMessage;
      NextTold(w, userInput, rounds, state.messages);
      longer := rounds;
      if state.stepCount >= w.maxSteps {
        state.status := OutOfSteps;
        state.stopReason := Some(StepLimit);
        recorder.Record(MaxStepsExceeded, state.stepCount);
        Stop(StepLimit, Some(LimitMessage(w)), state, recorder);
        return;
      }

      var request := BuildRequest(preContext, state, recorder);
      var modelMessages := [ContextMessage(request.bundle)] + state.messages;
      var outcome := w.provider(state.stepCount, modelMessages);
      if outcome.Raised? {
        state.status := Failed;
        state.stopReason := Some(ProviderFailure);
        recorder.Record(ModelProviderFailed(outcome.error), state.stepCount);
        Stop(ProviderFailure, Some(outcome.error), state, recorder);
        return;
      }

      ghost var round := RoundFor(w, state.messages, state.stepCount, outcome.message);
      RoundLogged(w, userInput, rounds, state.messages, outcome.message);
      TakeReply(outcome.message, state, recorder);
      longer := rounds + [round];
      Regrouped(Preamble(w, userInput), RoundsEvents(rounds), RequestEvents(|rounds|, request),
                ReplyEvents(|rounds| + 1, outcome.message), CallsEvents(|rounds| + 1, round.played));
    }

    /** The whole run, against the story that the provider and the tools determine: every log, the status and the
        answer are the story's projections. */
    method Run(userInput: string) returns (state: AgentState)
      ensures fresh(state)
      ensures var s := StoryOf(w, userInput);
              && state.messages == Messages(userInput, s.rounds)
              && state.stepCount == |s.rounds|
              && state.steps == Steps(w, s)
              && state.traceEvents == Trace(w, userInput, s)
              && state.status == StatusOf(s.finish)
              && state.stopReason == Some(ReasonOf(s.finish))
              && state.finalAnswer == AnswerOf(s)
    {
      hide StoryOf, Messages, Steps, Trace, Ongoing, Preamble, PreContext, StatusOf, ReasonOf, AnswerOf;
      var recorder := new TraceRecorder();
      state := new AgentState(UserMessage(userInput));
      var preContext := Prepare(userInput, recorder);
      ghost var rounds: seq<Round> := [];
      NothingTold(w, userInput);
      while state.status == Running
        invariant fresh(state) && fresh(recorder)
        invariant
          if state.status == Running then
            && Ongoing(w, userInput, rounds, state.messages, state.stepCount, state.steps, recorder.events)
            && state.stopReason == None && state.finalAnswer == None
          else
            var s := StoryOf(w, userInput);
            && state.messages == Messages(userInput, s.rounds)
            && state.stepCount == |s.rounds|
            && state.steps == Steps(w, s)
            && recorder.events == Trace(w, userInput, s)
            && state.status == StatusOf(s.finish)
            && state.stopReason == Some(ReasonOf(s.finish))
            && state.finalAnswer == AnswerOf(s)
        decreases state.status == Running, w.maxSteps - state.stepCount
      {
        rounds := Iterate(preContext, state, recorder, userInput, rounds);
      }
      state.traceEvents := recorder.events;
    }
  }
}
