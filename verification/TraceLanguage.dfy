/** Every trace of the agent loop is a word of one regular language, given here as a finite automaton. */
module TraceLanguage {
  import opened Wrappers
  import opened AgentModels
  import opened AgentStory
  import opened AgentTheorems

  /** What has been seen, as far as it limits what may come next. */
  datatype Phase =
    | Fresh          // nothing yet
    | Opened         // run_started
    | Skilled        // ... and a skill was activated
    | Between        // no request is open
    | Asked          // model_requested
    | Warned         // ... with a lost-in-the-middle warning
    | Ending         // the limit or the provider ended the run; the stop reason is due
    | Heeded         // model_responded
    | Reasoned       // ... with a rationale
    | Called         // tool_call_received
    | Acting         // tool_action_created
    | Trying         // tool_started, and any number of transient errors
    | Done           // tool_succeeded; the observation is due
    | GaveUp         // tool_failed; an observation may follow
    | Concluded      // a step that lets the run go on is due
    | Lost           // a step that ends the run is due
    | Paused         // step_completed; more calls, a new request or the limit may follow
    | Broke          // step_completed after a fatal call; the stop reason is due
    | Settled        // the stop reason of a final answer; run_completed is due
    | Over
    | Wrong

  function Idle(e: EventKind): Phase {
    if e.ModelRequested? then Asked else if e.MaxStepsExceeded? then Ending else Wrong
  }

  function Primed(e: EventKind): Phase {
    if e.RetrievalMelt? || e.RetrievalSuccess? then Between else Idle(e)
  }

  function Pending(e: EventKind): Phase {
    if e.ModelProviderFailed? then Ending else if e.ModelResponded? then Heeded else Wrong
  }

  function Heard(e: EventKind): Phase {
    if e.ToolCallReceived? then Called
    else if e.StopReasonRecorded? && e.reason.FinalAnswer? then Settled
    else Wrong
  }

  function Next(q: Phase, e: EventKind): Phase {
    match q
    case Fresh => if e.RunStarted? then Opened else Wrong
    case Opened => if e.SkillActivated? then Skilled else Primed(e)
    case Skilled => Primed(e)
    case Between => Idle(e)
    case Asked => if e.ContextLostInMiddleWarning? then Warned else Pending(e)
    case Warned => Pending(e)
    case Ending => if e.StopReasonRecorded? then Over else Wrong
    case Heeded => if e.RationaleRecorded? then Reasoned else Heard(e)
    case Reasoned => Heard(e)
    case Called => if e.ToolActionCreated? then Acting else Wrong
    case Acting => if e.ToolStarted? then Trying else Wrong
    case Trying =>
      if e.ToolTransientError? then Trying
      else if e.ToolSucceeded? then Done
      else if e.ToolFailed? then GaveUp
      else if e.ToolValidationFailed? && e.failure.InvalidArguments? then Concluded
      else if e.ToolValidationFailed? && e.failure.UnknownTool? then Lost
      else Wrong
    case Done => if e.ObservationRecorded? && e.ok then Concluded else Wrong
    case GaveUp =>
      if e.ObservationRecorded? && !e.ok then Lost else if e.StepCompleted? && !e.ok then Broke else Wrong
    case Concluded => if e.StepCompleted? then Paused else Wrong
    case Lost => if e.StepCompleted? && !e.ok then Broke else Wrong
    case Paused => if e.ToolCallReceived? then Called else Idle(e)
    case Broke => if e.StopReasonRecorded? then Over else Wrong
    case Settled => if e.RunCompleted? then Over else Wrong
    case Over => Wrong
    case Wrong => Wrong
  }

  /** The phase after reading `events` from `q`. */
  function Read(q: Phase, events: seq<TraceEvent>): Phase {
    if events == [] then q else Next(Read(q, events[..|events| - 1]), events[|events| - 1].kind)
  }

  lemma {:induction false} ReadConcat(q: Phase, a: seq<TraceEvent>, b: seq<TraceEvent>)
    ensures Read(q, a + b) == Read(Read(q, a), b)
  {
    hide Next;
    if b == [] {
      assert a + b == a;
    } else {
      assert (a + b)[..|a + b| - 1] == a + b[..|b| - 1];
      ReadConcat(q, a, b[..|b| - 1]);
    }
  }

  lemma ReadOne(q: Phase, e: TraceEvent)
    ensures Read(q, [e]) == Next(q, e.kind)
  {
    hide Next;
    assert [e][..0] == [];
  }

  lemma ReadTwo(q: Phase, e: TraceEvent, f: TraceEvent)
    ensures Read(q, [e, f]) == Next(Next(q, e.kind), f.kind)
  {
    hide Next;
    assert [e, f] == [e] + [f];
    ReadConcat(q, [e], [f]);
    ReadOne(q, e);
    ReadOne(Next(q, e.kind), f);
  }

  // ----- The pieces of a trace -----

  lemma {:induction false} ReadTransients(step: nat, name: string, errors: seq<string>)
    ensures Read(Trying, TransientEvents(step, name, errors)) == Trying
  {
    var events := TransientEvents(step, name, errors);
    if errors != [] {
      var n := |errors| - 1;
      ReadTransients(step, name, errors[..n]);
      assert events[..n] == TransientEvents(step, name, errors[..n]);
    }
  }

  lemma ReadAttempts(step: nat, p: Played)
    ensures Read(Acting, InnerEvents(step, p) + HandlerEvents(step, p)) ==
            match p.ending
            case Answered(_) => Concluded
            case Rejected => Concluded
            case Exhausted => Lost
            case Unknown(_) => Lost
            case Crashed(_) => GaveUp
  {
    hide Read, TransientEvents;
    var name, id := p.call.toolName, p.call.callId;
    var started := TraceEvent(ToolStarted(name, id), step);
    var transients := TransientEvents(step, name, p.transients);
    ReadOne(Acting, started);
    ReadTransients(step, name, p.transients);
    ReadConcat(Acting, [started], transients);
    match p.ending
    case Answered(_) =>
      var a, b := TraceEvent(ToolSucceeded(name, id), step), TraceEvent(ObservationRecorded(id, true), step);
      assert InnerEvents(step, p) + HandlerEvents(step, p) == [started] + transients + [a, b];
      ReadTwo(Trying, a, b);
      ReadConcat(Acting, [started] + transients, [a, b]);
    case Exhausted =>
      var a := TraceEvent(ToolFailed(name, id, "retries_exhausted"), step);
      var b := TraceEvent(ObservationRecorded(id, false), step);
      assert InnerEvents(step, p) + HandlerEvents(step, p) == [started] + transients + [a, b];
      ReadTwo(Trying, a, b);
      ReadConcat(Acting, [started] + transients, [a, b]);
    case _ =>
      var handled := HandlerEvents(step, p);
      assert InnerEvents(step, p) + handled == [started] + transients + handled;
      ReadOne(Trying, handled[0]);
      ReadConcat(Acting, [started] + transients, handled);
  }

  predicate AwaitsCall(q: Phase) {
    q.Heeded? || q.Reasoned? || q.Paused?
  }

  lemma ReadCall(q: Phase, step: nat, p: Played)
    requires AwaitsCall(q)
    ensures Read(q, CallEvents(step, p)) == if Fatal(p) then Broke else Paused
  {
    hide Read, InnerEvents, HandlerEvents;
    var a := TraceEvent(ToolCallReceived(p.call), step);
    var b := TraceEvent(ToolActionCreated(p.call.toolName, p.call.callId), step);
    var middle := InnerEvents(step, p) + HandlerEvents(step, p);
    var end := TraceEvent(StepCompleted(p.call.callId, p.ending.Answered?), step);
    assert CallEvents(step, p) == [a, b] + middle + [end];
    ReadTwo(q, a, b);
    ReadConcat(q, [a, b], middle);
    ReadAttempts(step, p);
    ReadConcat(q, [a, b] + middle, [end]);
    ReadOne(Read(q, [a, b] + middle), end);
  }

  lemma {:induction false} ReadCalls(q: Phase, step: nat, played: seq<Played>)
    requires q.Heeded? || q.Reasoned?
    requires forall k | 0 <= k < |played| - 1 :: !Fatal(played[k])
    ensures Read(q, CallsEvents(step, played)) ==
            if played == [] then q else if Broken(played) then Broke else Paused
  {
    hide CallEvents, Fatal, Next;
    if played != [] {
      var before, p := played[..|played| - 1], played[|played| - 1];
      ReadCalls(q, step, before);
      assert !Broken(before);
      ReadConcat(q, CallsEvents(step, before), CallEvents(step, p));
      ReadCall(Read(q, CallsEvents(step, before)), step, p);
    }
  }

  predicate AwaitsRequest(q: Phase) {
    q.Opened? || q.Skilled? || q.Between? || q.Paused?
  }

  lemma ReadRequest(q: Phase, step: nat, r: Request)
    requires AwaitsRequest(q)
    ensures Read(q, RequestEvents(step, r)) == if r.warned then Warned else Asked
  {
    hide Read;
    var a := TraceEvent(ModelRequested(r.bundle.tokens, |r.bundle.dropped|, r.pruned), step);
    if r.warned {
      var b := TraceEvent(ContextLostInMiddleWarning, step);
      assert RequestEvents(step, r) == [a, b];
      ReadTwo(q, a, b);
    } else {
      assert RequestEvents(step, r) == [a];
      ReadOne(q, a);
    }
  }

  lemma ReadReply(q: Phase, step: nat, reply: AgentMessage)
    requires q.Asked? || q.Warned?
    ensures Read(q, ReplyEvents(step, reply)) == if reply.rationale.Some? then Reasoned else Heeded
  {
    hide Read;
    var a := TraceEvent(ModelResponded(reply), step);
    if reply.rationale.Some? {
      var b := TraceEvent(RationaleRecorded(reply.rationale.value.summary), step);
      assert ReplyEvents(step, reply) == [a, b];
      ReadTwo(q, a, b);
    } else {
      assert ReplyEvents(step, reply) == [a];
      ReadOne(q, a);
    }
  }

  /** A round leads from a phase that awaits a request to one that awaits the next, unless it was the last. */
  lemma ReadRound(q: Phase, step: nat, r: Round)
    requires AwaitsRequest(q) && PlaysPrefix(r)
    ensures var end := Read(q, RoundEvents(step, r));
            if r.played == [] then end.Heeded? || end.Reasoned?
            else if Broken(r.played) then end == Broke
            else end == Paused
  {
    hide Read, RequestEvents, ReplyEvents, CallsEvents, Broken, Fatal;
    ReadRequest(q, step, r.request);
    var asked := Read(q, RequestEvents(step, r.request));
    ReadReply(asked, step + 1, r.reply);
    ReadConcat(q, RequestEvents(step, r.request), ReplyEvents(step + 1, r.reply));
    ReadCalls(Read(asked, ReplyEvents(step + 1, r.reply)), step + 1, r.played);
    ReadConcat(q, RequestEvents(step, r.request) + ReplyEvents(step + 1, r.reply), CallsEvents(step + 1, r.played));
  }

  lemma {:induction false} ReadRounds(q: Phase, rounds: seq<Round>)
    requires AwaitsRequest(q)
    requires forall i | 0 <= i < |rounds| :: PlaysPrefix(rounds[i])
    requires forall i | 0 <= i < |rounds| - 1 :: Complete(rounds[i])
    ensures var end := Read(q, RoundsEvents(rounds));
            if rounds == [] then end == q
            else
              var last := rounds[|rounds| - 1].played;
              if last == [] then end.Heeded? || end.Reasoned?
              else if Broken(last) then end == Broke
              else end == Paused
  {
    hide PlaysPrefix, RoundEvents, Next, Broken;
    if rounds != [] {
      var before, r := rounds[..|rounds| - 1], rounds[|rounds| - 1];
      ReadRounds(q, before);
      assert before != [] ==> Complete(before[|before| - 1]);
      ReadConcat(q, RoundsEvents(before), RoundEvents(|rounds| - 1, r));
      ReadRound(Read(q, RoundsEvents(before)), |rounds| - 1, r);
    }
  }

  lemma ReadNone(q: Phase)
    ensures Read(q, []) == q
  {
  }

  lemma ReadPreamble(w: World, userInput: string)
    ensures AwaitsRequest(Read(Fresh, Preamble(w, userInput)))
  {
    hide Read;
    var a := [TraceEvent(RunStarted(userInput), 0)];
    var b := if w.skill.Some? then [TraceEvent(SkillActivated(w.skill.value.name), 0)] else [];
    var c := match w.retrieval
             case None => []
             case Some(InsufficientEvidence) => [TraceEvent(RetrievalMelt, 0)]
             case Some(Evidence(_)) => [TraceEvent(RetrievalSuccess, 0)];
    ReadOne(Fresh, a[0]);
    ReadConcat(Fresh, a, b);
    ReadConcat(Fresh, a + b, c);
    ReadNone(Opened);
    ReadNone(Skilled);
    if w.skill.Some? {
      ReadOne(Opened, b[0]);
    }
    if w.retrieval.Some? {
      ReadOne(if w.skill.Some? then Skilled else Opened, c[0]);
    }
  }

  lemma ReadFinish(q: Phase, s: Story)
    requires match s.finish
             case LimitReached => AwaitsRequest(q)
             case ProviderDown(_, _) => AwaitsRequest(q)
             case AnswerGiven => q.Heeded? || q.Reasoned?
             case ToolDown => q.Broke?
    ensures Read(q, FinishEvents(s)) == Over
  {
    hide Read, RequestEvents, AnswerOf;
    var events := FinishEvents(s);
    match s.finish
    case LimitReached =>
      assert events == [events[0], events[1]];
      ReadTwo(q, events[0], events[1]);
    case AnswerGiven =>
      assert events == [events[0], events[1]];
      ReadTwo(q, events[0], events[1]);
    case ToolDown => ReadOne(q, events[0]);
    case ProviderDown(request, error) =>
      var n := |s.rounds|;
      var a, b := TraceEvent(ModelProviderFailed(error), n), TraceEvent(StopReasonRecorded(ProviderFailure), n);
      assert events == RequestEvents(n, request) + [a, b];
      ReadRequest(q, n, request);
      ReadConcat(q, RequestEvents(n, request), [a, b]);
      ReadTwo(Read(q, RequestEvents(n, request)), a, b);
  }

  lemma NoCallsNoPlay(r: Round)
    requires PlaysPrefix(r) && CallsOf(r.reply) == []
    ensures r.played == []
  {
  }

  lemma BrokenIsPlayed(played: seq<Played>)
    requires Broken(played)
    ensures played != []
  {
  }

  /** Every run's trace is accepted. */
  lemma TraceAccepted(w: World, userInput: string)
    ensures Read(Fresh, Trace(w, userInput, StoryOf(w, userInput))) == Over
  {
    hide Read, Preamble, RoundsEvents, FinishEvents, PlaysPrefix, Tell, Broken;
    var s := StoryOf(w, userInput);
    StoryShape(w, [UserMessage(userInput)], 0);
    ReadPreamble(w, userInput);
    var start := Read(Fresh, Preamble(w, userInput));
    ReadConcat(Fresh, Preamble(w, userInput), RoundsEvents(s.rounds));
    ReadRounds(start, s.rounds);
    ReadConcat(Fresh, Preamble(w, userInput) + RoundsEvents(s.rounds), FinishEvents(s));
    if s.finish.AnswerGiven? {
      assert PlaysPrefix(s.rounds[|s.rounds| - 1]);
      NoCallsNoPlay(s.rounds[|s.rounds| - 1]);
    }
    if s.finish.ToolDown? {
      BrokenIsPlayed(s.rounds[|s.rounds| - 1].played);
    }
    ReadFinish(Read(start, RoundsEvents(s.rounds)), s);
  }

  // ----- What acceptance means for the stop reason -----

  function Stops(events: seq<TraceEvent>): nat {
    if events == [] then 0
    else Stops(events[..|events| - 1]) + if events[|events| - 1].kind.StopReasonRecorded? then 1 else 0
  }

  predicate StopsLast(events: seq<TraceEvent>) {
    events != [] && events[|events| - 1].kind.StopReasonRecorded?
  }

  /** In an accepted trace the stop reason is recorded exactly once, at the very end or right before run_completed. */
  lemma {:induction false} AcceptedStops(events: seq<TraceEvent>)
    ensures var q := Read(Fresh, events);
            && (q.Wrong? || Stops(events) == if q.Settled? || q.Over? then 1 else 0)
            && (q.Settled? ==> StopsLast(events))
            && (q.Over? ==> || StopsLast(events)
                            || (&& events != [] && events[|events| - 1].kind.RunCompleted?
                                && StopsLast(events[..|events| - 1])))
  {
    if events != [] {
      AcceptedStops(events[..|events| - 1]);
    }
  }

  /** Every run records its stop reason exactly once: last of all, or right before run_completed. */
  lemma OneStopReason(w: World, userInput: string)
    ensures var events := Trace(w, userInput, StoryOf(w, userInput));
            && Stops(events) == 1
            && (|| StopsLast(events)
                || (events != [] && events[|events| - 1].kind.RunCompleted? && StopsLast(events[..|events| - 1])))
  {
    hide Trace, StoryOf, Read, Stops;
    TraceAccepted(w, userInput);
    AcceptedStops(Trace(w, userInput, StoryOf(w, userInput)));
  }
}
