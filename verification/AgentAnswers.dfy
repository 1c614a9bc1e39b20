/** What the model and the caller are told, in terms of the provider and the tools themselves. */
module AgentAnswers {
  import opened Numbers
  import opened Wrappers
  import opened AgentModels
  import opened AgentStory
  import opened AgentLoop
  import opened AgentTheorems
  import Text

  // ----- One tool call -----

  /** Attempt n is the first that is not a transient failure. */
  predicate FirstSettled(w: World, step: nat, index: nat, n: nat) {
    && 1 <= n <= w.maxToolRetries && !w.tool(step, index, n).Transient?
    && forall m: nat | 1 <= m < n :: w.tool(step, index, m).Transient?
  }

  /** The tool is registered, and its attempts up to the first that is no transient failure give this outcome. */
  predicate Settles(w: World, step: nat, index: nat, call: ToolCall, outcome: ToolOutcome) {
    && call.toolName in w.registry
    && exists n: nat | 1 <= n <= w.maxToolRetries ::
         FirstSettled(w, step, index, n) && w.tool(step, index, n) == outcome
  }

  predicate NeverSettles(w: World, step: nat, index: nat) {
    forall m: nat | 1 <= m <= w.maxToolRetries :: w.tool(step, index, m).Transient?
  }

  function LastTransient(w: World, step: nat, index: nat): string
    requires NeverSettles(w, step, index)
  {
    if w.maxToolRetries <= 0 then "" else w.tool(step, index, w.maxToolRetries).error
  }

  /** The result tells what the tool did: its output, or which error stands for which other outcome. */
  ghost predicate Truthful(w: World, step: nat, index: nat, call: ToolCall, r: ToolResult) {
    && r.callId == call.callId && r.toolName == call.toolName
    && (r.ok <==> r.output.Some?) && (r.ok <==> r.error.None?)
    && (forall o :: r.output == Some(o) <==> Settles(w, step, index, call, Returned(o)))
    && (forall e :: Settles(w, step, index, call, KeyError(e)) ==> r.error == Some(UnknownTool(e)))
    && (forall e :: Settles(w, step, index, call, OtherException(e)) ==> r.error == Some(ToolExecutionFailed(e)))
    && (r.error == Some(InvalidArguments) <==> Settles(w, step, index, call, ValidationError))
    && (call.toolName !in w.registry ==> r.error == Some(UnknownTool(w.lookupError(call.toolName))))
    && (call.toolName in w.registry && NeverSettles(w, step, index) ==>
          r.error == Some(ToolExecutionFailed("Failed after " + Text.Decimal(Max(0, w.maxToolRetries)) + " retries: "
                                              + LastTransient(w, step, index))))
  }

  lemma {:induction false} AttemptsAre(w: World, step: nat, index: nat, attempt: nat)
    requires forall m: nat | 1 <= m <= attempt :: w.tool(step, index, m).Transient?
    requires attempt <= Max(0, w.maxToolRetries)
    ensures var (transients, ending) := Attempts(w, step, index, attempt);
            && (forall j | 0 <= j < |transients| ::
                  w.tool(step, index, attempt + j + 1) == Transient(transients[j]))
            && (if ending.Exhausted? then
                  NeverSettles(w, step, index) && attempt + |transients| == Max(0, w.maxToolRetries)
                else
                  var n := attempt + |transients| + 1;
                  FirstSettled(w, step, index, n) && ending == EndingOf(w.tool(step, index, n)))
    decreases w.maxToolRetries - attempt
  {
    if attempt < w.maxToolRetries && w.tool(step, index, attempt + 1).Transient? {
      AttemptsAre(w, step, index, attempt + 1);
    }
  }

  lemma SettledOnce(w: World, step: nat, index: nat, m: nat, n: nat)
    requires FirstSettled(w, step, index, m) && FirstSettled(w, step, index, n)
    ensures m == n
  {
  }

  lemma SettlesIs(w: World, step: nat, index: nat, call: ToolCall, n: nat, outcome: ToolOutcome)
    requires FirstSettled(w, step, index, n) && call.toolName in w.registry
    ensures Settles(w, step, index, call, outcome) <==> outcome == w.tool(step, index, n)
    ensures !NeverSettles(w, step, index)
  {
    if Settles(w, step, index, call, outcome) {
      var m: nat :| 1 <= m <= w.maxToolRetries && FirstSettled(w, step, index, m) && w.tool(step, index, m) == outcome;
      SettledOnce(w, step, index, m, n);
    }
  }

  lemma SettlesNever(w: World, step: nat, index: nat, call: ToolCall, outcome: ToolOutcome)
    requires call.toolName !in w.registry || NeverSettles(w, step, index)
    ensures !Settles(w, step, index, call, outcome)
  {
  }

  /** Every call that is carried out reports exactly what the tool did. */
  lemma PlayIsTruthful(w: World, step: nat, index: nat, call: ToolCall)
    ensures Truthful(w, step, index, call, ResultOf(Play(w, step, index, call)))
  {
    hide FirstSettled, Settles, Attempts, NeverSettles, Text.Decimal;
    AttemptsAre(w, step, index, 0);
    var (transients, ending) := Attempts(w, step, index, 0);
    forall outcome
      ensures Settles(w, step, index, call, outcome) <==>
              && call.toolName in w.registry && !ending.Exhausted?
              && outcome == w.tool(step, index, |transients| + 1)
    {
      if call.toolName in w.registry && !ending.Exhausted? {
        SettlesIs(w, step, index, call, |transients| + 1, outcome);
      } else {
        SettlesNever(w, step, index, call, outcome);
      }
    }
    if call.toolName in w.registry && !ending.Exhausted? {
      SettlesIs(w, step, index, call, |transients| + 1, ValidationError);
    }
  }

  // ----- The conversation -----

  lemma {:induction false} ToolMessagesSize(played: seq<Played>)
    ensures |ToolMessages(played)| == |played|
  {
    if played != [] {
      ToolMessagesSize(played[..|played| - 1]);
    }
  }

  lemma {:induction false} ToolMessagesAt(played: seq<Played>, i: nat)
    requires i < |played|
    ensures |ToolMessages(played)| == |played|
    ensures ToolMessages(played)[i] == AgentMessage("tool", None, None, Some(ResultOf(played[i])), None)
  {
    hide ResultOf;
    ToolMessagesSize(played[..|played| - 1]);
    if i < |played| - 1 {
      ToolMessagesAt(played[..|played| - 1], i);
    }
  }

  lemma {:induction false} PlayCallsAt(w: World, step: nat, calls: seq<ToolCall>, index: nat, i: nat)
    requires index <= |calls| && i < |PlayCalls(w, step, calls, index)|
    ensures index + i < |calls|
    ensures PlayCalls(w, step, calls, index)[i] == Play(w, step, index + i, calls[index + i])
    decreases |calls| - index
  {
    hide Play, Fatal;
    if i > 0 {
      PlayCallsAt(w, step, calls, index + 1, i - 1);
    }
  }

  /** The conversation after some rounds begins the conversation after more. */
  lemma {:induction false} MessagesGrow(userInput: string, rounds: seq<Round>, k: nat)
    requires k <= |rounds|
    ensures Messages(userInput, rounds[..k]) <= Messages(userInput, rounds)
  {
    hide RoundMessages;
    if k == |rounds| {
      assert rounds[..k] == rounds;
    } else {
      var before := rounds[..|rounds| - 1];
      MessagesGrow(userInput, before, k);
      assert before[..k] == rounds[..k];
    }
  }

  lemma RoundAfter(w: World, userInput: string, before: seq<Round>, reply: AgentMessage, round: Round,
                   rounds: seq<Round>, k: nat)
    requires 0 < k < |rounds| && before == rounds[..k - 1]
    requires round == RoundFor(w, Messages(userInput, before), k - 1, reply)
    requires Told(w, userInput, before + [round], Messages(userInput, before) + [reply] + ToolMessages(round.played))
    requires rounds == StoryOf(w, userInput).rounds
    ensures rounds[..k] == before + [round]
    ensures Told(w, userInput, rounds[..k], Messages(userInput, rounds[..k]))
  {
    hide StoryOf, Tell, RequestFor, PlayCalls, ToolMessages;
    var longer := before + [round];
    assert longer[..|longer| - 1] == before;
    assert Messages(userInput, longer) == Messages(userInput, before) + [reply] + ToolMessages(round.played);
    assert rounds[..|longer|] == longer;
  }

  /** Every prefix of the rounds that another round follows is a run so far. */
  lemma {:induction false} ToldAt(w: World, userInput: string, k: nat)
    requires k == 0 || k < |StoryOf(w, userInput).rounds|
    ensures var rounds := StoryOf(w, userInput).rounds;
            k <= |rounds| && Told(w, userInput, rounds[..k], Messages(userInput, rounds[..k]))
  {
    hide StoryOf, RoundFor, Ask, Told, ToolMessages, Broken;
    var rounds := StoryOf(w, userInput).rounds;
    if k == 0 {
      NothingTold(w, userInput);
      assert rounds[..0] == [];
      assert Messages(userInput, []) == [UserMessage(userInput)];
    } else {
      var before := rounds[..k - 1];
      ToldAt(w, userInput, k - 1);
      NextTold(w, userInput, before, Messages(userInput, before));
      assert rounds[..k][..k - 1] == before;
      var reply := Ask(w, k - 1, Messages(userInput, before)).message;
      var round := RoundFor(w, Messages(userInput, before), k - 1, reply);
      RoundAfter(w, userInput, before, reply, round, rounds, k);
    }
  }

  // ----- Every message of a run -----

  /** A result after which the run does not go on: any failure but rejected arguments. */
  predicate Stops(r: ToolResult) {
    !r.ok && r.error != Some(InvalidArguments)
  }

  predicate IsToolMessage(m: AgentMessage) {
    m.role == "tool" && m.content == None && m.toolCalls == None && m.toolResult.Some? && m.rationale == None
  }

  lemma FatalStops(p: Played)
    ensures Fatal(p) <==> Stops(ResultOf(p))
  {
    hide Text.Decimal;
  }

  /** Truthful reports of the calls, in order, up to the first that stops the run. */
  ghost predicate CallsReported(w: World, step: nat, calls: seq<ToolCall>, reports: seq<AgentMessage>) {
    && |reports| <= |calls|
    && (forall i | 0 <= i < |reports| ::
          IsToolMessage(reports[i]) && Truthful(w, step, i, calls[i], reports[i].toolResult.value))
    && (forall i | 0 <= i < |reports| - 1 :: IsToolMessage(reports[i]) && !Stops(reports[i].toolResult.value))
    && (|reports| < |calls| ==>
          reports != [] && IsToolMessage(reports[|reports| - 1]) && Stops(reports[|reports| - 1].toolResult.value))
  }

  /** A reply of round k and the tool messages that follow it: the provider's answer to the context message and the
      conversation before, then reports of its calls. */
  ghost predicate RoundReported(w: World, k: nat, request: AgentMessage, before: seq<AgentMessage>, reply: AgentMessage,
                                reports: seq<AgentMessage>)
  {
    w.provider(k, [request] + before) == Replied(reply) && CallsReported(w, k + 1, CallsOf(reply), reports)
  }

  lemma ReportAt(w: World, step: nat, calls: seq<ToolCall>, i: nat)
    requires i < |PlayCalls(w, step, calls, 0)|
    ensures var played := PlayCalls(w, step, calls, 0);
            && i < |calls| && |ToolMessages(played)| == |played|
            && var m := ToolMessages(played)[i];
               && IsToolMessage(m) && Truthful(w, step, i, calls[i], m.toolResult.value)
               && (Fatal(played[i]) <==> Stops(m.toolResult.value))
  {
    hide PlayCalls, Play, Truthful, ResultOf, Stops, Fatal, ToolMessages;
    var played := PlayCalls(w, step, calls, 0);
    ToolMessagesAt(played, i);
    PlayCallsAt(w, step, calls, 0, i);
    PlayIsTruthful(w, step, i, calls[i]);
    FatalStops(played[i]);
  }

  lemma IsTool(m: AgentMessage)
    requires IsToolMessage(m)
    ensures m.toolResult.Some?
  {
  }

  lemma CallsAreReported(w: World, step: nat, calls: seq<ToolCall>)
    ensures CallsReported(w, step, calls, ToolMessages(PlayCalls(w, step, calls, 0)))
  {
    hide PlayCalls, Truthful, Stops, Fatal, ToolMessages, IsToolMessage;
    var played := PlayCalls(w, step, calls, 0);
    PlayedPrefix(w, step, calls, 0);
    ToolMessagesSize(played);
    forall i | 0 <= i < |played|
      ensures IsToolMessage(ToolMessages(played)[i]) && ToolMessages(played)[i].toolResult.Some?
      ensures Truthful(w, step, i, calls[i], ToolMessages(played)[i].toolResult.value)
      ensures Fatal(played[i]) <==> Stops(ToolMessages(played)[i].toolResult.value)
    {
      ReportAt(w, step, calls, i);
      IsTool(ToolMessages(played)[i]);
    }
  }

  /** The next round of the story, if there is one, is made from the conversation so far. */
  lemma NextRound(w: World, userInput: string, before: seq<Round>, messages: seq<AgentMessage>, k: nat)
    requires Told(w, userInput, before, messages) && |before| == k < |StoryOf(w, userInput).rounds|
    ensures Ask(w, k, messages).Replied?
    ensures StoryOf(w, userInput).rounds[k] == RoundFor(w, messages, k, Ask(w, k, messages).message)
    ensures StoryOf(w, userInput).rounds[k].reply == Ask(w, k, messages).message
  {
    hide RequestFor, PlayCalls, Ask, Broken, ToolMessages, StoryOf;
  }

  lemma RoundIs(w: World, userInput: string, k: nat)
    requires k < |StoryOf(w, userInput).rounds|
    ensures var rounds := StoryOf(w, userInput).rounds;
            var before := Messages(userInput, rounds[..k]);
            && Ask(w, k, before) == Replied(rounds[k].reply)
            && rounds[k] == RoundFor(w, before, k, rounds[k].reply)
  {
    hide StoryOf, RoundFor, Ask, Told, Broken, ToolMessages;
    var rounds := StoryOf(w, userInput).rounds;
    var before := Messages(userInput, rounds[..k]);
    ToldAt(w, userInput, k);
    NextTold(w, userInput, rounds[..k], before);
    NextRound(w, userInput, rounds[..k], before, k);
  }

  lemma FirstMessage(userInput: string, rounds: seq<Round>)
    requires rounds == []
    ensures Messages(userInput, rounds) == [AgentMessage("user", Some(userInput), None, None, None)]
  {
  }

  /** The whole conversation of every run: the user's input, and then round after round, each as reported above. */
  lemma ConversationIsReported(w: World, userInput: string, k: nat)
    requires k < |StoryOf(w, userInput).rounds|
    ensures var rounds := StoryOf(w, userInput).rounds;
            var all := Messages(userInput, rounds);
            var before := Messages(userInput, rounds[..k]);
            var after := Messages(userInput, rounds[..k + 1]);
            && before <= after <= all && |before| < |after|
            && (k == 0 ==> before == [AgentMessage("user", Some(userInput), None, None, None)])
            && RoundReported(w, k, ContextMessage(RequestFor(w, before).bundle), before, after[|before|],
                             after[|before| + 1..])
  {
    hide StoryOf, CallsReported, ContextMessage, RequestFor, ToolMessages, PlayCalls;
    var rounds := StoryOf(w, userInput).rounds;
    var before := Messages(userInput, rounds[..k]);
    RoundIs(w, userInput, k);
    CallsAreReported(w, k + 1, CallsOf(rounds[k].reply));
    MessagesGrow(userInput, rounds, k + 1);
    assert rounds[..k + 1][..k] == rounds[..k];
    var after := Messages(userInput, rounds[..k + 1]);
    assert after == before + ([rounds[k].reply] + ToolMessages(rounds[k].played));
    assert after[|before| + 1..] == ToolMessages(rounds[k].played);
    if k == 0 {
      FirstMessage(userInput, rounds[..k]);
    }
  }

  // ----- How a run ends -----

  /** A run that has made all of its rounds and could go on: out of steps, or let down by the provider. */
  lemma EndsHere(w: World, userInput: string, messages: seq<AgentMessage>)
    requires Told(w, userInput, StoryOf(w, userInput).rounds, messages)
    ensures var s := StoryOf(w, userInput); var n := |s.rounds|;
            if n >= w.maxSteps then s.finish == LimitReached
            else s.finish.ProviderDown? && Ask(w, n, messages) == ProviderOutcome.Raised(s.finish.error)
  {
    hide RequestFor, PlayCalls, Ask, Broken, ToolMessages, StoryOf;
    var s := StoryOf(w, userInput);
    var rest := Tell(w, messages, |s.rounds|);
    assert |s.rounds + rest.rounds| == |s.rounds| + |rest.rounds|;
  }

  lemma LastRound(w: World, userInput: string)
    requires StoryOf(w, userInput).rounds != []
    ensures var s := StoryOf(w, userInput);
            var n := |s.rounds|;
            var all := Messages(userInput, s.rounds);
            var last := s.rounds[n - 1];
            && all != []
            && if CallsOf(last.reply) == [] then s.finish == AnswerGiven && all[|all| - 1] == last.reply
               else
                 && all[|all| - 1].toolResult.Some?
                 && if Stops(all[|all| - 1].toolResult.value) then s.finish == ToolDown
                    else if n >= w.maxSteps then s.finish == LimitReached
                    else s.finish.ProviderDown? && Ask(w, n, all) == ProviderOutcome.Raised(s.finish.error)
  {
    hide StoryOf, RequestFor, Ask, Told, PlayCalls, ResultOf, Stops, Fatal, ToolMessages;
    var s := StoryOf(w, userInput);
    var k := |s.rounds| - 1;
    var before := Messages(userInput, s.rounds[..k]);
    ToldAt(w, userInput, k);
    RoundIs(w, userInput, k);
    NextTold(w, userInput, s.rounds[..k], before);
    var last := s.rounds[k];
    var calls := CallsOf(last.reply);
    PlayedPrefix(w, k + 1, calls, 0);
    ToolMessagesSize(last.played);
    assert s.rounds == s.rounds[..k] + [last];
    assert Messages(userInput, s.rounds) == before + ([last.reply] + ToolMessages(last.played));
    assert before + ([last.reply] + ToolMessages(last.played)) == before + [last.reply] + ToolMessages(last.played);
    if calls != [] {
      ToolMessagesAt(last.played, |last.played| - 1);
      FatalStops(last.played[|last.played| - 1]);
      if !Broken(last.played) {
        EndsHere(w, userInput, Messages(userInput, s.rounds));
      }
    }
  }

  /** Status, stop reason and answer of every run, in terms of the conversation it leaves: answered by a reply without
      calls, broken off by a result that stops it, out of steps, or let down by the provider, whatever comes first. */
  lemma RunEnds(w: World, userInput: string)
    ensures var s := StoryOf(w, userInput);
            var n := |s.rounds|;
            var all := Messages(userInput, s.rounds);
            var (status, reason, answer) := (StatusOf(s.finish), ReasonOf(s.finish), AnswerOf(s));
            && all != []
            && if n > 0 && CallsOf(s.rounds[n - 1].reply) == [] then
                 && all[|all| - 1] == s.rounds[n - 1].reply
                 && (status, reason, answer) == (Completed, FinalAnswer, all[|all| - 1].content)
               else if n > 0 && all[|all| - 1].toolResult.Some? && Stops(all[|all| - 1].toolResult.value) then
                 (status, reason, answer) == (Failed, NonRetryableError, None)
               else if n >= w.maxSteps then (status, reason, answer) == (OutOfSteps, StepLimit, None)
               else
                 && (status, reason, answer) == (Failed, ProviderFailure, None)
                 && w.provider(n, [ContextMessage(RequestFor(w, all).bundle)] + all).Raised?
  {
    hide StoryOf, RequestFor, Truthful, ContextMessage, PlayCalls, ResultOf, ToolMessages, Told;
    var s := StoryOf(w, userInput);
    var n := |s.rounds|;
    if n == 0 {
      ToldAt(w, userInput, 0);
      assert s.rounds[..0] == s.rounds;
      EndsHere(w, userInput, Messages(userInput, s.rounds));
      FirstMessage(userInput, s.rounds);
    } else {
      LastRound(w, userInput);
    }
  }

  // ----- The step log and the trace -----

  lemma {:induction false} ActionStepsAt(step: nat, rationale: Option<Rationale>, played: seq<Played>, i: nat)
    requires i < |played|
    ensures |ActionSteps(step, rationale, played)| == |played|
    ensures ActionSteps(step, rationale, played)[i] == ActionStep(step, rationale, played[i])
  {
    hide ActionStep;
    var before := played[..|played| - 1];
    if i < |before| {
      ActionStepsAt(step, rationale, before, i);
    } else if before != [] {
      ActionStepsAt(step, rationale, before, 0);
    }
  }

  lemma {:induction false} StepsGrow(rounds: seq<Round>, k: nat)
    requires k <= |rounds|
    ensures RoundSteps(rounds[..k]) <= RoundSteps(rounds)
  {
    hide ActionSteps;
    if k == |rounds| {
      assert rounds[..k] == rounds;
    } else {
      var before := rounds[..|rounds| - 1];
      StepsGrow(before, k);
      assert before[..k] == rounds[..k];
    }
  }

  /** The step log has one step for every call carried out: its number, the reply's rationale, and the call as the
      provider made it. */
  lemma StepsTellCalls(w: World, userInput: string, k: nat, i: nat)
    requires k < |StoryOf(w, userInput).rounds| && i < |StoryOf(w, userInput).rounds[k].played|
    ensures var s := StoryOf(w, userInput);
            var at := |RoundSteps(s.rounds[..k])| + i;
            var reply := s.rounds[k].reply;
            && at < |Steps(w, s)| && i < |CallsOf(reply)|
            && var call := CallsOf(reply)[i];
               var step := Steps(w, s)[at];
               && step.step == k + 1 && step.rationale == reply.rationale && step.stopReason == None
               && step.action == Some(ToolAction(call.callId, call.toolName, call.arguments, reply.rationale))
               && step.observation.Some?
  {
    hide StoryOf, RequestFor, PlayCalls, Play, Ask, ResultOf, FinishSteps, ActionSteps;
    var s := StoryOf(w, userInput);
    var r := s.rounds[k];
    RoundIs(w, userInput, k);
    PlayedPrefix(w, k + 1, CallsOf(r.reply), 0);
    ActionStepsAt(k + 1, r.reply.rationale, r.played, i);
    StepsGrow(s.rounds, k + 1);
    assert s.rounds[..k + 1][..k] == s.rounds[..k];
    assert RoundSteps(s.rounds[..k + 1]) == RoundSteps(s.rounds[..k]) + ActionSteps(k + 1, r.reply.rationale, r.played);
  }

  lemma AnswerHasRound(w: World, userInput: string)
    ensures StoryOf(w, userInput).finish.AnswerGiven? ==> StoryOf(w, userInput).rounds != []
  {
    hide RequestFor, PlayCalls, ToolMessages, Ask, Broken;
  }

  lemma ProviderIsDown(w: World, userInput: string)
    requires StoryOf(w, userInput).finish.ProviderDown?
    ensures var s := StoryOf(w, userInput);
            Ask(w, |s.rounds|, Messages(userInput, s.rounds)) == ProviderOutcome.Raised(s.finish.error)
  {
    hide StoryOf, RequestFor, PlayCalls, ResultOf, ToolMessages, Told, Ask, Stops;
    var s := StoryOf(w, userInput);
    if s.rounds == [] {
      ToldAt(w, userInput, 0);
      assert s.rounds[..0] == s.rounds;
      EndsHere(w, userInput, Messages(userInput, s.rounds));
    } else {
      LastRound(w, userInput);
    }
  }

  /** The step log ends with the stop: how often the provider answered, the rationale of an answer, and why. Only a run
      that a tool broke off has none. */
  lemma StopIsLogged(w: World, userInput: string)
    ensures var s := StoryOf(w, userInput);
            var n := |s.rounds|;
            var steps := Steps(w, s);
            && |steps| == |RoundSteps(s.rounds)| + (if ReasonOf(s.finish).NonRetryableError? then 0 else 1)
            && (!ReasonOf(s.finish).NonRetryableError? ==>
                  var last := steps[|steps| - 1];
                  && last.step == n && last.action == None && last.observation == None && last.stopReason.Some?
                  && last.stopReason.value.step == n && last.stopReason.value.reason == ReasonOf(s.finish)
                  && (s.finish.AnswerGiven? ==>
                        n > 0 && last.rationale == s.rounds[n - 1].reply.rationale
                        && last.stopReason.value.message == None)
                  && (s.finish.LimitReached? ==>
                        last.rationale == None
                        && last.stopReason.value.message ==
                           Some("Reached max_steps=" + (if w.maxSteps < 0 then "-" + Text.Decimal(-w.maxSteps)
                                                        else Text.Decimal(w.maxSteps))))
                  && (s.finish.ProviderDown? ==>
                        last.rationale == None
                        && Ask(w, n, Messages(userInput, s.rounds)) == ProviderOutcome.Raised(s.finish.error)
                        && last.stopReason.value.message == Some(s.finish.error)))
  {
    hide StoryOf, RoundSteps, Ask, RequestFor, PlayCalls, ResultOf, ToolMessages, Text.Decimal, Told, RoundFor;
    var s := StoryOf(w, userInput);
    AnswerHasRound(w, userInput);
    if s.finish.ProviderDown? {
      ProviderIsDown(w, userInput);
    }
  }

  /** The replies that a trace records. */
  function Responses(events: seq<TraceEvent>): seq<AgentMessage> {
    if events == [] then []
    else
      var e := events[|events| - 1];
      Responses(events[..|events| - 1]) + (if e.kind.ModelResponded? then [e.kind.message] else [])
  }

  function Replies(rounds: seq<Round>): seq<AgentMessage> {
    seq(|rounds|, i requires 0 <= i < |rounds| => rounds[i].reply)
  }

  lemma {:induction false} ResponsesConcat(a: seq<TraceEvent>, b: seq<TraceEvent>)
    ensures Responses(a + b) == Responses(a) + Responses(b)
  {
    if b == [] {
      assert a + b == a;
    } else {
      assert (a + b)[..|a + b| - 1] == a + b[..|b| - 1];
      ResponsesConcat(a, b[..|b| - 1]);
    }
  }

  lemma {:induction false} NoResponses(events: seq<TraceEvent>)
    requires forall e | e in events :: !e.kind.ModelResponded?
    ensures Responses(events) == []
  {
    if events != [] {
      NoResponses(events[..|events| - 1]);
    }
  }

  lemma CallRespondsNothing(step: nat, p: Played)
    ensures Responses(CallEvents(step, p)) == []
  {
    NoResponses(CallEvents(step, p));
  }

  lemma {:induction false} CallsRespondNothing(step: nat, played: seq<Played>)
    ensures Responses(CallsEvents(step, played)) == []
  {
    hide CallEvents, Responses;
    if played == [] {
      NoResponses([]);
    } else {
      var before, p := played[..|played| - 1], played[|played| - 1];
      CallsRespondNothing(step, before);
      CallRespondsNothing(step, p);
      ResponsesConcat(CallsEvents(step, before), CallEvents(step, p));
    }
  }

  lemma ReplyResponds(step: nat, reply: AgentMessage)
    ensures Responses(ReplyEvents(step, reply)) == [reply]
  {
    var first := [TraceEvent(ModelResponded(reply), step)];
    assert first[..0] == [];
    assert Responses(first) == [reply];
    if reply.rationale.Some? {
      var second := [TraceEvent(RationaleRecorded(reply.rationale.value.summary), step)];
      NoResponses(second);
      ResponsesConcat(first, second);
    }
  }

  lemma RequestRespondsNothing(step: nat, r: Request)
    ensures Responses(RequestEvents(step, r)) == []
  {
    NoResponses(RequestEvents(step, r));
  }

  lemma {:induction false} RoundsRespond(rounds: seq<Round>)
    ensures Responses(RoundsEvents(rounds)) == Replies(rounds)
  {
    hide RequestEvents, ReplyEvents, CallsEvents, Responses;
    if rounds == [] {
      NoResponses([]);
    } else {
      var before, r, n := rounds[..|rounds| - 1], rounds[|rounds| - 1], |rounds|;
      RoundsRespond(before);
      RequestRespondsNothing(n - 1, r.request);
      ReplyResponds(n, r.reply);
      CallsRespondNothing(n, r.played);
      ResponsesConcat(RoundsEvents(before), RoundEvents(n - 1, r));
      ResponsesConcat(RequestEvents(n - 1, r.request) + ReplyEvents(n, r.reply), CallsEvents(n, r.played));
      ResponsesConcat(RequestEvents(n - 1, r.request), ReplyEvents(n, r.reply));
    }
  }

  lemma FinishRespondsNothing(s: Story)
    ensures Responses(FinishEvents(s)) == []
  {
    NoResponses(FinishEvents(s));
  }

  /** The trace records the replies of the provider, all of them, as they are and in order. */
  lemma TraceRecordsReplies(w: World, userInput: string)
    ensures var s := StoryOf(w, userInput); Responses(Trace(w, userInput, s)) == Replies(s.rounds)
  {
    hide StoryOf, RoundsEvents, RequestEvents, Responses;
    var s := StoryOf(w, userInput);
    NoResponses(Preamble(w, userInput));
    RoundsRespond(s.rounds);
    FinishRespondsNothing(s);
    ResponsesConcat(Preamble(w, userInput) + RoundsEvents(s.rounds), FinishEvents(s));
    ResponsesConcat(Preamble(w, userInput), RoundsEvents(s.rounds));
  }
}
