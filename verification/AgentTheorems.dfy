/** What holds of every run of the agent loop, whatever the provider and the tools do. */
module AgentTheorems {
  import opened Sequences
  import opened Wrappers
  import opened AgentModels
  import opened AgentStory
  import opened Context
  import opened ContextTheorems
  import Text

  // ----- The shape of a story -----

  /** The carried-out calls are the first calls of the reply, and only the last of them may be fatal. */
  predicate PlaysPrefix(r: Round) {
    var calls := CallsOf(r.reply);
    && |r.played| <= |calls|
    && (forall k | 0 <= k < |r.played| :: r.played[k].call == calls[k])
    && (forall k | 0 <= k < |r.played| - 1 :: !Fatal(r.played[k]))
  }

  /** A round after which the run goes on: it had calls, and all of them were carried out. */
  predicate Complete(r: Round) {
    |r.played| == |CallsOf(r.reply)| > 0 && !Broken(r.played)
  }

  lemma {:induction false} PlayedPrefix(w: World, step: nat, calls: seq<ToolCall>, index: nat)
    requires index <= |calls|
    ensures var played := PlayCalls(w, step, calls, index);
            && |played| <= |calls| - index
            && (forall k | 0 <= k < |played| :: played[k].call == calls[index + k])
            && (forall k | 0 <= k < |played| - 1 :: !Fatal(played[k]))
            && (!Broken(played) ==> |played| == |calls| - index)
    decreases |calls| - index
  {
    hide Fatal, Attempts;
    if index < |calls| {
      PlayedPrefix(w, step, calls, index + 1);
    }
  }

  function AtLeastZero(n: int): nat {
    if n < 0 then 0 else n
  }

  /** How many requests a story makes of the provider. */
  function Requests(s: Story): nat {
    |s.rounds| + if s.finish.ProviderDown? then 1 else 0
  }

  /** All rounds but the last are complete, and the way the run finished says what the last one was. */
  predicate WellShaped(s: Story) {
    && (forall i | 0 <= i < |s.rounds| :: PlaysPrefix(s.rounds[i]))
    && (forall i | 0 <= i < |s.rounds| - 1 :: Complete(s.rounds[i]))
    && match s.finish
       case AnswerGiven => s.rounds != [] && CallsOf(s.rounds[|s.rounds| - 1].reply) == []
       case ToolDown => s.rounds != [] && Broken(s.rounds[|s.rounds| - 1].played)
       case _ => s.rounds != [] ==> Complete(s.rounds[|s.rounds| - 1])
  }

  lemma RoundShape(w: World, messages: seq<AgentMessage>, step: nat, reply: AgentMessage)
    ensures var r := RoundFor(w, messages, step, reply);
            && r.reply == reply && PlaysPrefix(r)
            && (CallsOf(reply) != [] && !Broken(r.played) ==> Complete(r))
  {
    hide PlayCalls, RequestFor, Fatal;
    PlayedPrefix(w, step + 1, CallsOf(reply), 0);
  }

  lemma SingleShaped(r: Round)
    requires PlaysPrefix(r)
    ensures CallsOf(r.reply) == [] ==> WellShaped(Story([r], AnswerGiven))
    ensures Broken(r.played) ==> WellShaped(Story([r], ToolDown))
  {
    hide PlaysPrefix, Broken;
  }

  lemma EmptyShaped(s: Story)
    requires s.rounds == [] && (s.finish.LimitReached? || s.finish.ProviderDown?)
    ensures WellShaped(s)
  {
  }

  lemma ConsShaped(r: Round, rest: Story)
    requires PlaysPrefix(r) && Complete(r) && WellShaped(rest)
    ensures WellShaped(Story([r] + rest.rounds, rest.finish))
  {
    hide PlaysPrefix, Complete, Broken;
    var rounds := [r] + rest.rounds;
    assert forall i | 0 < i < |rounds| :: rounds[i] == rest.rounds[i - 1];
  }

  /** Within the step limit, and well shaped. A run that hits the limit has used all of it. */
  lemma {:induction false} StoryShape(w: World, messages: seq<AgentMessage>, step: nat)
    ensures var s := Tell(w, messages, step);
            && Requests(s) <= AtLeastZero(w.maxSteps - step)
            && (s.finish.LimitReached? ==> |s.rounds| == AtLeastZero(w.maxSteps - step))
            && WellShaped(s)
    decreases w.maxSteps - step
  {
    hide PlayCalls, RequestFor, Fatal, ToolMessages, Ask, WellShaped, Broken, PlaysPrefix;
    if step < w.maxSteps && Ask(w, step, messages).Replied? {
      var reply := Ask(w, step, messages).message;
      var round := RoundFor(w, messages, step, reply);
      RoundShape(w, messages, step, reply);
      if CallsOf(reply) == [] || Broken(round.played) {
        SingleShaped(round);
      } else {
        var rest := messages + [reply] + ToolMessages(round.played);
        StoryShape(w, rest, step + 1);
        ConsShaped(round, Tell(w, rest, step + 1));
      }
    } else {
      EmptyShaped(Tell(w, messages, step));
    }
  }

  // ----- The three logs -----

  /** A carried-out call as a log entry shows it. */
  datatype Entry = Entry(step: nat, callId: string, ok: bool)

  function RoundEntries(step: nat, played: seq<Played>): seq<Entry> {
    if played == [] then []
    else
      var p := played[|played| - 1];
      RoundEntries(step, played[..|played| - 1]) + [Entry(step, p.call.callId, p.ending.Answered?)]
  }

  function Entries(rounds: seq<Round>): seq<Entry> {
    if rounds == [] then []
    else Entries(rounds[..|rounds| - 1]) + RoundEntries(|rounds|, rounds[|rounds| - 1].played)
  }

  /** The entries of the action-bearing steps of a step log. */
  function StepEntries(steps: seq<AgentStep>): seq<Entry> {
    if steps == [] then []
    else
      var s := steps[|steps| - 1];
      StepEntries(steps[..|steps| - 1]) +
      (if s.action.Some? && s.observation.Some? then [Entry(s.step, s.action.value.callId, s.observation.value.ok)]
       else [])
  }

  /** The entries of the step_completed events of a trace. */
  function TraceEntries(events: seq<TraceEvent>): seq<Entry> {
    if events == [] then []
    else
      var e := events[|events| - 1];
      TraceEntries(events[..|events| - 1]) +
      (if e.kind.StepCompleted? then [Entry(e.step, e.kind.callId, e.kind.ok)] else [])
  }

  /** The call ids and outcomes of the tool results in a conversation. */
  function MessageEntries(messages: seq<AgentMessage>): seq<(string, bool)> {
    if messages == [] then []
    else
      var m := messages[|messages| - 1];
      MessageEntries(messages[..|messages| - 1]) +
      (if m.toolResult.Some? then [(m.toolResult.value.callId, m.toolResult.value.ok)] else [])
  }

  function Bare(entries: seq<Entry>): seq<(string, bool)> {
    seq(|entries|, i requires 0 <= i < |entries| => (entries[i].callId, entries[i].ok))
  }

  lemma {:induction false} StepEntriesConcat(a: seq<AgentStep>, b: seq<AgentStep>)
    ensures StepEntries(a + b) == StepEntries(a) + StepEntries(b)
  {
    if b == [] {
      assert a + b == a;
    } else {
      assert (a + b)[..|a + b| - 1] == a + b[..|b| - 1];
      StepEntriesConcat(a, b[..|b| - 1]);
    }
  }

  lemma {:induction false} TraceEntriesConcat(a: seq<TraceEvent>, b: seq<TraceEvent>)
    ensures TraceEntries(a + b) == TraceEntries(a) + TraceEntries(b)
  {
    if b == [] {
      assert a + b == a;
    } else {
      assert (a + b)[..|a + b| - 1] == a + b[..|b| - 1];
      TraceEntriesConcat(a, b[..|b| - 1]);
    }
  }

  lemma {:induction false} MessageEntriesConcat(a: seq<AgentMessage>, b: seq<AgentMessage>)
    ensures MessageEntries(a + b) == MessageEntries(a) + MessageEntries(b)
  {
    if b == [] {
      assert a + b == a;
    } else {
      assert (a + b)[..|a + b| - 1] == a + b[..|b| - 1];
      MessageEntriesConcat(a, b[..|b| - 1]);
    }
  }

  /** Events that complete no step leave no entries. */
  lemma {:induction false} NoEntries(events: seq<TraceEvent>)
    requires forall e | e in events :: !e.kind.StepCompleted?
    ensures TraceEntries(events) == []
  {
    if events != [] {
      NoEntries(events[..|events| - 1]);
    }
  }

  lemma CallEntries(step: nat, p: Played)
    ensures TraceEntries(CallEvents(step, p)) == [Entry(step, p.call.callId, p.ending.Answered?)]
  {
    var events := CallEvents(step, p);
    assert events[..|events| - 1] ==
      [TraceEvent(ToolCallReceived(p.call), step), TraceEvent(ToolActionCreated(p.call.toolName, p.call.callId), step)]
      + InnerEvents(step, p) + HandlerEvents(step, p);
    NoEntries(events[..|events| - 1]);
  }

  lemma OneEntry(step: nat, rationale: Option<Rationale>, p: Played)
    ensures StepEntries([ActionStep(step, rationale, p)]) == [Entry(step, p.call.callId, p.ending.Answered?)]
    ensures MessageEntries([ToolMessage(p)]) == [(p.call.callId, p.ending.Answered?)]
  {
    assert [ActionStep(step, rationale, p)][..0] == [] && [ToolMessage(p)][..0] == [];
  }

  lemma NothingEntered()
    ensures StepEntries([]) == [] && TraceEntries([]) == [] && MessageEntries([]) == []
  {
  }

  lemma {:induction false} PlayedStepEntries(step: nat, rationale: Option<Rationale>, played: seq<Played>)
    ensures StepEntries(ActionSteps(step, rationale, played)) == RoundEntries(step, played)
  {
    hide ActionStep, StepEntries;
    if played != [] {
      var before, p := played[..|played| - 1], played[|played| - 1];
      PlayedStepEntries(step, rationale, before);
      OneEntry(step, rationale, p);
      StepEntriesConcat(ActionSteps(step, rationale, before), [ActionStep(step, rationale, p)]);
    } else {
      NothingEntered();
    }
  }

  lemma {:induction false} PlayedTraceEntries(step: nat, played: seq<Played>)
    ensures TraceEntries(CallsEvents(step, played)) == RoundEntries(step, played)
  {
    hide CallEvents, TraceEntries;
    if played != [] {
      var before, p := played[..|played| - 1], played[|played| - 1];
      PlayedTraceEntries(step, before);
      CallEntries(step, p);
      TraceEntriesConcat(CallsEvents(step, before), CallEvents(step, p));
    } else {
      NothingEntered();
    }
  }

  lemma {:induction false} PlayedMessageEntries(step: nat, played: seq<Played>)
    ensures MessageEntries(ToolMessages(played)) == Bare(RoundEntries(step, played))
  {
    hide ToolMessage, MessageEntries;
    if played != [] {
      var before, p := played[..|played| - 1], played[|played| - 1];
      PlayedMessageEntries(step, before);
      OneEntry(step, None, p);
      MessageEntriesConcat(ToolMessages(before), [ToolMessage(p)]);
    } else {
      NothingEntered();
    }
  }

  lemma QuietRequest(step: nat, r: Request)
    ensures TraceEntries(RequestEvents(step, r)) == []
  {
    NoEntries(RequestEvents(step, r));
  }

  lemma QuietReply(step: nat, reply: AgentMessage)
    ensures TraceEntries(ReplyEvents(step, reply)) == []
  {
    NoEntries(ReplyEvents(step, reply));
  }

  lemma {:induction false} RoundsStepEntries(rounds: seq<Round>)
    ensures StepEntries(RoundSteps(rounds)) == Entries(rounds)
  {
    hide ActionSteps, RoundEntries, StepEntries;
    if rounds != [] {
      var before, r, n := rounds[..|rounds| - 1], rounds[|rounds| - 1], |rounds|;
      RoundsStepEntries(before);
      PlayedStepEntries(n, r.reply.rationale, r.played);
      StepEntriesConcat(RoundSteps(before), ActionSteps(n, r.reply.rationale, r.played));
    } else {
      NothingEntered();
    }
  }

  lemma RoundTraceEntries(step: nat, r: Round)
    ensures TraceEntries(RoundEvents(step, r)) == RoundEntries(step + 1, r.played)
  {
    hide RequestEvents, ReplyEvents, CallsEvents, RoundEntries, TraceEntries;
    PlayedTraceEntries(step + 1, r.played);
    TraceEntriesConcat(RequestEvents(step, r.request) + ReplyEvents(step + 1, r.reply),
                       CallsEvents(step + 1, r.played));
    TraceEntriesConcat(RequestEvents(step, r.request), ReplyEvents(step + 1, r.reply));
    QuietRequest(step, r.request);
    QuietReply(step + 1, r.reply);
  }

  lemma {:induction false} RoundsTraceEntries(rounds: seq<Round>)
    ensures TraceEntries(RoundsEvents(rounds)) == Entries(rounds)
  {
    hide RoundEvents, RoundEntries, TraceEntries;
    if rounds != [] {
      var before, r, n := rounds[..|rounds| - 1], rounds[|rounds| - 1], |rounds|;
      RoundsTraceEntries(before);
      RoundTraceEntries(n - 1, r);
      TraceEntriesConcat(RoundsEvents(before), RoundEvents(n - 1, r));
    } else {
      NothingEntered();
    }
  }

  lemma BareConcat(a: seq<Entry>, b: seq<Entry>)
    ensures Bare(a + b) == Bare(a) + Bare(b) && Bare([]) == []
  {
  }

  lemma QuietMessage(m: AgentMessage)
    requires m.toolResult == None
    ensures MessageEntries([m]) == []
  {
    assert [m][..0] == [];
  }

  lemma {:induction false} MessagesEntries(userInput: string, rounds: seq<Round>)
    requires forall i | 0 <= i < |rounds| :: rounds[i].reply.toolResult == None
    ensures MessageEntries(Messages(userInput, rounds)) == Bare(Entries(rounds))
  {
    hide ToolMessages, RoundEntries, MessageEntries, Bare;
    if rounds != [] {
      var before, r := rounds[..|rounds| - 1], rounds[|rounds| - 1];
      MessagesEntries(userInput, before);
      PlayedMessageEntries(|rounds|, r.played);
      MessageEntriesConcat(Messages(userInput, before), RoundMessages(r));
      MessageEntriesConcat([r.reply], ToolMessages(r.played));
      BareConcat(Entries(before), RoundEntries(|rounds|, r.played));
      QuietMessage(r.reply);
    } else {
      QuietMessage(UserMessage(userInput));
      BareConcat([], []);
    }
  }

  lemma QuietFinish(w: World, s: Story)
    ensures StepEntries(FinishSteps(w, s)) == []
    ensures TraceEntries(FinishEvents(s)) == []
  {
    hide LimitMessage, AnswerOf;
    NoEntries(FinishEvents(s));
    if FinishSteps(w, s) != [] {
      assert FinishSteps(w, s)[..0] == [];
    }
  }

  lemma QuietPreamble(w: World, userInput: string)
    ensures TraceEntries(Preamble(w, userInput)) == []
  {
    NoEntries(Preamble(w, userInput));
  }

  /** Action-bearing steps, step_completed events and tool messages tell of the same calls, with the same outcomes,
      in the same order (tool messages are recognizable as such when the provider attaches no tool results itself). */
  lemma LogsAgree(w: World, userInput: string)
    ensures var s := StoryOf(w, userInput);
            && StepEntries(Steps(w, s)) == Entries(s.rounds)
            && TraceEntries(Trace(w, userInput, s)) == Entries(s.rounds)
            && ((forall i | 0 <= i < |s.rounds| :: s.rounds[i].reply.toolResult == None) ==>
                  MessageEntries(Messages(userInput, s.rounds)) == Bare(Entries(s.rounds)))
  {
    hide StoryOf, RoundsEvents, RoundSteps, Messages, Entries, Preamble, FinishEvents, FinishSteps, StepEntries,
         TraceEntries, MessageEntries;
    var s := StoryOf(w, userInput);
    RoundsStepEntries(s.rounds);
    RoundsTraceEntries(s.rounds);
    StepEntriesConcat(RoundSteps(s.rounds), FinishSteps(w, s));
    QuietFinish(w, s);
    TraceEntriesConcat(Preamble(w, userInput) + RoundsEvents(s.rounds), FinishEvents(s));
    TraceEntriesConcat(Preamble(w, userInput), RoundsEvents(s.rounds));
    QuietPreamble(w, userInput);
    if forall i | 0 <= i < |s.rounds| :: s.rounds[i].reply.toolResult == None {
      MessagesEntries(userInput, s.rounds);
    }
  }

  // ----- What the tools answered -----

  function RoundResults(played: seq<Played>): seq<ToolResult> {
    Map(played, ResultOf)
  }

  /** The results of all calls carried out, in order. */
  function AllResults(rounds: seq<Round>): seq<ToolResult> {
    if rounds == [] then [] else AllResults(rounds[..|rounds| - 1]) + RoundResults(rounds[|rounds| - 1].played)
  }

  /** The observations of the action-bearing steps of a step log. */
  function Observations(steps: seq<AgentStep>): seq<ToolObservation> {
    if steps == [] then []
    else
      var s := steps[|steps| - 1];
      Observations(steps[..|steps| - 1]) +
      (if s.action.Some? && s.observation.Some? then [s.observation.value] else [])
  }

  /** The tool results in a conversation. */
  function MessageResults(messages: seq<AgentMessage>): seq<ToolResult> {
    if messages == [] then []
    else
      var m := messages[|messages| - 1];
      MessageResults(messages[..|messages| - 1]) + (if m.toolResult.Some? then [m.toolResult.value] else [])
  }

  lemma {:induction false} ObservationsConcat(a: seq<AgentStep>, b: seq<AgentStep>)
    ensures Observations(a + b) == Observations(a) + Observations(b)
  {
    if b == [] {
      assert a + b == a;
    } else {
      assert (a + b)[..|a + b| - 1] == a + b[..|b| - 1];
      ObservationsConcat(a, b[..|b| - 1]);
    }
  }

  lemma {:induction false} MessageResultsConcat(a: seq<AgentMessage>, b: seq<AgentMessage>)
    ensures MessageResults(a + b) == MessageResults(a) + MessageResults(b)
  {
    if b == [] {
      assert a + b == a;
    } else {
      assert (a + b)[..|a + b| - 1] == a + b[..|b| - 1];
      MessageResultsConcat(a, b[..|b| - 1]);
    }
  }

  lemma OneResult(step: nat, rationale: Option<Rationale>, p: Played)
    ensures Observations([ActionStep(step, rationale, p)]) == [ObservationOf(ResultOf(p))]
    ensures MessageResults([ToolMessage(p)]) == [ResultOf(p)]
  {
    assert [ActionStep(step, rationale, p)][..0] == [] && [ToolMessage(p)][..0] == [];
  }

  lemma NothingObserved()
    ensures Observations([]) == [] && MessageResults([]) == []
  {
  }

  lemma {:induction false} PlayedObservations(step: nat, rationale: Option<Rationale>, played: seq<Played>)
    ensures Observations(ActionSteps(step, rationale, played)) == Map(RoundResults(played), ObservationOf)
  {
    hide ActionStep, Observations, ResultOf, ObservationOf;
    if played == [] {
      NothingObserved();
    } else {
      var before, p := played[..|played| - 1], played[|played| - 1];
      PlayedObservations(step, rationale, before);
      OneResult(step, rationale, p);
      ObservationsConcat(ActionSteps(step, rationale, before), [ActionStep(step, rationale, p)]);
      assert RoundResults(played) == RoundResults(before) + [ResultOf(p)];
    }
  }

  lemma {:induction false} PlayedResults(played: seq<Played>)
    ensures MessageResults(ToolMessages(played)) == RoundResults(played)
  {
    hide ToolMessage, MessageResults, ResultOf;
    if played == [] {
      NothingObserved();
    } else {
      var before, p := played[..|played| - 1], played[|played| - 1];
      PlayedResults(before);
      OneResult(0, None, p);
      MessageResultsConcat(ToolMessages(before), [ToolMessage(p)]);
    }
  }

  lemma {:induction false} RoundsObservations(rounds: seq<Round>)
    ensures Observations(RoundSteps(rounds)) == Map(AllResults(rounds), ObservationOf)
  {
    hide ActionSteps, Observations, RoundResults, ObservationOf;
    if rounds == [] {
      NothingObserved();
    } else {
      var before, r, n := rounds[..|rounds| - 1], rounds[|rounds| - 1], |rounds|;
      RoundsObservations(before);
      PlayedObservations(n, r.reply.rationale, r.played);
      ObservationsConcat(RoundSteps(before), ActionSteps(n, r.reply.rationale, r.played));
    }
  }

  lemma NoResult(m: AgentMessage)
    requires m.toolResult == None
    ensures MessageResults([m]) == []
  {
    assert [m][..0] == [];
  }

  lemma {:induction false} RoundsResults(userInput: string, rounds: seq<Round>)
    requires forall i | 0 <= i < |rounds| :: rounds[i].reply.toolResult == None
    ensures MessageResults(Messages(userInput, rounds)) == AllResults(rounds)
  {
    hide ToolMessages, MessageResults, RoundResults;
    if rounds == [] {
      NoResult(UserMessage(userInput));
    } else {
      var before, r := rounds[..|rounds| - 1], rounds[|rounds| - 1];
      RoundsResults(userInput, before);
      PlayedResults(r.played);
      MessageResultsConcat(Messages(userInput, before), RoundMessages(r));
      MessageResultsConcat([r.reply], ToolMessages(r.played));
      NoResult(r.reply);
    }
  }

  lemma FinishObservesNothing(w: World, s: Story)
    ensures Observations(FinishSteps(w, s)) == []
  {
    hide LimitMessage;
    if FinishSteps(w, s) != [] {
      assert FinishSteps(w, s)[..0] == [];
    }
  }

  lemma SameFields(seen: seq<ToolObservation>, told: seq<ToolResult>)
    requires seen == Map(told, ObservationOf)
    ensures |seen| == |told|
    ensures forall i | 0 <= i < |seen| ::
              && seen[i].callId == told[i].callId && seen[i].toolName == told[i].toolName
              && seen[i].ok == told[i].ok && seen[i].output == told[i].output && seen[i].error == told[i].error
  {
    forall i | 0 <= i < |seen|
      ensures seen[i] == ObservationOf(told[i])
    {
      assert Map(told, ObservationOf)[i] == ObservationOf(told[i]);
    }
  }

  /** The i-th action-bearing step observes exactly what the i-th tool message tells the model: call id, tool name,
      outcome, output and error. */
  lemma ObservationsAgree(w: World, userInput: string)
    requires forall i | 0 <= i < |StoryOf(w, userInput).rounds| ::
               StoryOf(w, userInput).rounds[i].reply.toolResult == None
    ensures var s := StoryOf(w, userInput);
            var seen := Observations(Steps(w, s));
            var told := MessageResults(Messages(userInput, s.rounds));
            && |seen| == |told|
            && forall i | 0 <= i < |seen| ::
                 && seen[i].callId == told[i].callId && seen[i].toolName == told[i].toolName
                 && seen[i].ok == told[i].ok && seen[i].output == told[i].output && seen[i].error == told[i].error
  {
    hide StoryOf, Observations, MessageResults, RoundSteps, Messages, FinishSteps, AllResults;
    var s := StoryOf(w, userInput);
    RoundsObservations(s.rounds);
    RoundsResults(userInput, s.rounds);
    ObservationsConcat(RoundSteps(s.rounds), FinishSteps(w, s));
    FinishObservesNothing(w, s);
    var told := MessageResults(Messages(userInput, s.rounds));
    SameFields(Observations(Steps(w, s)), told);
  }
}
