/** The core system instruction reaches every model call. */
module CoreInstruction {
  import opened Numbers
  import opened Wrappers
  import opened AgentModels
  import opened AgentStory
  import opened Context
  import opened ContextTheorems
  import opened Sequences
  import Text

  lemma CoreIsPinned()
    ensures Pinned(CORE)
  {
  }

  /** A list of items in which nothing is pinned but the core instruction, and nothing before it has its content. */
  lemma {:induction false} CoreIsFirstOfItsKind(before: seq<ContextItem>, after: seq<ContextItem>)
    requires forall x | x in before :: !Pinned(x) && Text.Strip(x.content) != Text.Strip(CORE.content)
    requires forall x | x in after :: !Pinned(x)
    ensures CORE in Firsts(before + [CORE] + after)
    ensures PinnedTokens(Firsts(before + [CORE] + after)) == Tokens(CORE)
  {
    hide Text.Strip, CORE, PinnedTokens, Tokens;
    var items := before + [CORE] + after;
    if after == [] {
      assert items == before + [CORE] && items[..|items| - 1] == before;
      assert !SeenBefore(before, Text.Strip(CORE.content));
      FirstsAreDistinct(before);
      NoPinnedTokens(Firsts(before));
      PinnedTokensOne(CORE);
      PinnedTokensConcat(Firsts(before), [CORE]);
      assert Pinned(CORE) by { CoreIsPinned(); }
    } else {
      var n := |after| - 1;
      assert items[..|items| - 1] == before + [CORE] + after[..n] && items[|items| - 1] == after[n];
      CoreIsFirstOfItsKind(before, after[..n]);
      PinnedTokensOne(after[n]);
      PinnedTokensConcat(Firsts(before + [CORE] + after[..n]), [after[n]]);
      assert Firsts(before + [CORE] + after[..n]) + [] == Firsts(before + [CORE] + after[..n]);
    }
  }

  lemma BracketIsNotCore(x: ContextItem)
    requires x.content != "" && x.content[0] == '['
    ensures Text.Strip(x.content) != Text.Strip(CORE.content)
  {
    hide Text.Strip, CORE_RULE;
    assert CORE.content[0] == 'Y';
    Text.StripKeepsHead(x.content);
    Text.StripKeepsHead(CORE.content);
  }

  lemma SkillIsBracketed(s: Skill)
    ensures var x := SkillItem(s); !Pinned(x) && x.content != "" && x.content[0] == '['
  {
  }

  lemma EvidenceIsBracketed(r: Retrieval)
    ensures var x := EvidenceItem(r); !Pinned(x) && x.content != "" && x.content[0] == '['
  {
  }

  lemma MemoryIsBracketed(w: World)
    ensures var x := MemoryItem(w); !Pinned(x) && x.content != "" && x.content[0] == '['
  {
    hide MemoryLines;
  }

  lemma PreContextIsBracketed(w: World)
    ensures forall x | x in PreContext(w) :: !Pinned(x) && x.content != "" && x.content[0] == '['
  {
    hide MemoryLines, SkillItem, EvidenceItem, MemoryItem;
    if w.skill.Some? {
      SkillIsBracketed(w.skill.value);
    }
    if w.retrieval.Some? {
      EvidenceIsBracketed(w.retrieval.value);
    }
    MemoryIsBracketed(w);
  }

  lemma HistoryIsNotPinned(w: World, messages: seq<AgentMessage>)
    ensures forall x | x in History(w, messages) :: !Pinned(x)
  {
  }

  /** Whatever has been said so far, and whatever the budget, skill, evidence and memories: the bundle of the next
      request holds the core instruction, and exceeds the budget at most by holding nothing else. */
  lemma RequestCarriesCore(w: World, messages: seq<AgentMessage>)
    ensures var b := RequestFor(w, messages).bundle;
            CORE in b.items && b.tokens <= Max(w.maxTokenBudget, Tokens(CORE))
  {
    hide PreContext, History, CORE, Firsts, Bundle, PinnedTokens, Tokens, Ranked, Pack, Pruned, Taxed, Text.Strip,
         Filter,
         TotalTokens;
    var before, after := PreContext(w), History(w, messages);
    PreContextIsBracketed(w);
    HistoryIsNotPinned(w, messages);
    forall x | x in before
      ensures Text.Strip(x.content) != Text.Strip(CORE.content)
    {
      BracketIsNotCore(x);
    }
    CoreIsFirstOfItsKind(before, after);
    CoreIsPinned();
    BudgetTheorem(w.maxTokenBudget, ContextItems(w, messages));
  }

  // ----- The text the provider receives -----

  lemma ContainsPart(a: string, b: string, c: string)
    ensures Text.Contains(a + b + c, b)
  {
    assert b <= (a + b + c)[|a|..];
  }

  lemma ContainsInside(a: string, b: string, c: string, needle: string)
    requires Text.Contains(b, needle)
    ensures Text.Contains(a + b + c, needle)
  {
    var i :| 0 <= i <= |b| && needle <= b[i..];
    assert (a + b + c)[|a| + i..] == b[i..] + c;
  }

  lemma SectionContains(x: ContextItem)
    ensures Text.Contains(Section(x), x.content)
  {
    hide Text.Contains;
    var head := "[" + x.kind + " | trust=" + x.trustLevel + " | id=" + x.itemId + "]\n";
    ContainsPart(head, x.content, "");
    assert head + x.content + "" == Section(x);
  }

  lemma {:induction false} SectionsContain(items: seq<ContextItem>, x: ContextItem)
    requires x in items
    ensures Text.Contains(Sections(items), x.content)
  {
    hide Text.Contains, Section;
    if items[0] == x {
      SectionContains(x);
      ContainsInside("", Section(x), "", x.content);
      assert "" + Section(x) + "" == Section(x);
      if |items| > 1 {
        ContainsInside("", Section(x), "\n\n" + Sections(items[1..]), x.content);
        assert "" + Section(x) + ("\n\n" + Sections(items[1..])) == Sections(items);
      }
    } else {
      SectionsContain(items[1..], x);
      ContainsInside(Section(items[0]) + "\n\n", Sections(items[1..]), "", x.content);
      assert Section(items[0]) + "\n\n" + Sections(items[1..]) + "" == Sections(items);
    }
  }

  predicate Instructed(w: World, r: Request) {
    && CORE in r.bundle.items
    && r.bundle.tokens <= Max(w.maxTokenBudget, Tokens(CORE))
    && Text.Contains(ContextMessage(r.bundle).content.value, CORE_TEXT)
  }

  lemma RequestIsInstructed(w: World, messages: seq<AgentMessage>)
    ensures Instructed(w, RequestFor(w, messages))
  {
    hide RequestFor, CORE_TEXT, HEADER, Text.Contains, Sections, Tokens;
    var b := RequestFor(w, messages).bundle;
    RequestCarriesCore(w, messages);
    SectionsContain(b.items, CORE);
    ContainsInside(HEADER, Sections(b.items), "", CORE_TEXT);
    assert HEADER + Sections(b.items) + "" == HEADER + Sections(b.items);
  }

  /** Every request of every run, answered or not, carries the core instruction into the text of its first message. */
  lemma {:induction false} EveryRequestIsInstructed(w: World, messages: seq<AgentMessage>, step: nat)
    ensures var s := Tell(w, messages, step);
            && (forall i | 0 <= i < |s.rounds| :: Instructed(w, s.rounds[i].request))
            && (s.finish.ProviderDown? ==> Instructed(w, s.finish.request))
    decreases w.maxSteps - step
  {
    hide RequestFor, PlayCalls, ToolMessages, Ask, Broken, Instructed;
    RequestIsInstructed(w, messages);
    if step < w.maxSteps && Ask(w, step, messages).Replied? {
      var reply := Ask(w, step, messages).message;
      var round := RoundFor(w, messages, step, reply);
      if CallsOf(reply) != [] && !Broken(round.played) {
        EveryRequestIsInstructed(w, messages + [reply] + ToolMessages(round.played), step + 1);
      }
    }
  }
}
