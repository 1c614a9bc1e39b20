/** The context pipeline: src/agent_runtime/context/{budget,dedup,pruner,assembler}.py. */
module Context {
  import opened Numbers
  import opened Sequences
  import opened Sorting
  import Text

  datatype ContextItem = ContextItem(
    itemId: string,
    kind: string,
    content: string,
    priority: int,
    trustLevel: string,
    ageInSteps: int)

  const USER_MESSAGE := "user_message"

  /** Roughly four characters per token, at least one. */
  function EstimateTokens(content: string): (t: nat)
    ensures if |content| < 4 then t == 1 else 4 * t <= |content| < 4 * t + 4
  {
    if content == [] then 1 else Max(1, |content| / 4)
  }

  function Tokens(i: ContextItem): nat {
    EstimateTokens(i.content)
  }

  function Priority(i: ContextItem): real {
    i.priority as real
  }

  /** Items that no step of the pipeline may lose. */
  predicate Pinned(i: ContextItem) {
    i.priority >= 100
  }

  predicate IsUser(i: ContextItem) {
    i.kind == USER_MESSAGE
  }

  predicate NotPinned(i: ContextItem) {
    !Pinned(i)
  }

  // ----- Deduplication -----

  predicate SeenBefore(items: seq<ContextItem>, content: string) {
    exists i | 0 <= i < |items| :: Text.Strip(items[i].content) == content
  }

  /** The first item of each stripped content, in order. */
  function Firsts(items: seq<ContextItem>): seq<ContextItem> {
    if items == [] then []
    else
      var last := items[|items| - 1];
      var before := items[..|items| - 1];
      Firsts(before) + (if SeenBefore(before, Text.Strip(last.content)) then [] else [last])
  }

  lemma SeenExtends(items: seq<ContextItem>, x: ContextItem)
    ensures forall c :: SeenBefore(items + [x], c) <==> SeenBefore(items, c) || c == Text.Strip(x.content)
  {
    var longer := items + [x];
    forall c
      ensures SeenBefore(longer, c) <==> SeenBefore(items, c) || c == Text.Strip(x.content)
    {
      if SeenBefore(items, c) {
        var i :| 0 <= i < |items| && Text.Strip(items[i].content) == c;
        assert Text.Strip(longer[i].content) == c;
      }
      assert longer[|items|] == x;
    }
  }

  method Deduplicate(items: seq<ContextItem>) returns (uniqueItems: seq<ContextItem>)
    ensures uniqueItems == Firsts(items)
  {
    var seenContent: set<string> := {};
    uniqueItems := [];
    for n := 0 to |items|
      invariant uniqueItems == Firsts(items[..n])
      invariant forall c :: c in seenContent <==> SeenBefore(items[..n], c)
    {
      var normalized := Text.Strip(items[n].content);
      assert items[..n + 1][..n] == items[..n];
      assert forall c :: SeenBefore(items[..n + 1], c) <==> SeenBefore(items[..n], c) || c == normalized by {
        SeenExtends(items[..n], items[n]);
        assert items[..n] + [items[n]] == items[..n + 1];
      }
      if normalized !in seenContent {
        seenContent := seenContent + {normalized};
        uniqueItems := uniqueItems + [items[n]];
      }
    }
    assert items[..|items|] == items;
  }

  // ----- Pruning -----

  datatype PruneLimits = PruneLimits(maxAge: int, staleThreshold: int, maxItems: int)

  const DEFAULT_LIMITS := PruneLimits(10, 60, 20)

  predicate Stale(limits: PruneLimits, i: ContextItem) {
    i.ageInSteps > limits.maxAge && i.priority < limits.staleThreshold
  }

  function IsFresh(limits: PruneLimits): ContextItem -> bool {
    i => !Stale(limits, i)
  }

  function Fresh(limits: PruneLimits, items: seq<ContextItem>): seq<ContextItem> {
    Filter(items, IsFresh(limits))
  }

  function PinnedOf(items: seq<ContextItem>): seq<ContextItem> {
    Filter(items, Pinned)
  }

  function OthersOf(items: seq<ContextItem>): seq<ContextItem> {
    Filter(items, NotPinned)
  }

  /** The second rule: a list over the limit keeps all pinned items and as many others as there is room for. With
      no room at all the others are, contrary to the intent of the rule, not cut. */
  function CutToSize(limits: PruneLimits, live: seq<ContextItem>): seq<ContextItem> {
    if |live| <= limits.maxItems then live
    else
      var ranked := SortDesc(live, Priority);
      var room := limits.maxItems - |PinnedOf(ranked)|;
      var others := OthersOf(ranked);
      SortDesc(PinnedOf(ranked) + (if 0 < room <= |others| then others[..room] else others), Priority)
  }

  function Pruned(limits: PruneLimits, items: seq<ContextItem>): seq<ContextItem> {
    CutToSize(limits, Fresh(limits, items))
  }

  lemma FilterNone(p: ContextItem -> bool)
    ensures Filter([], p) == []
  {
  }

  lemma LengthOfSort(items: seq<ContextItem>)
    ensures |SortDesc(items, Priority)| == |items|
  {
    SortSorts(items, Priority);
  }

  method Prune(limits: PruneLimits, items: seq<ContextItem>) returns (retained: seq<ContextItem>, prunedCount: int)
    ensures retained == Pruned(limits, items)
    ensures prunedCount == |items| - |retained|
  {
    hide Filter, SortDesc, Stale, OthersOf, PinnedOf;
    prunedCount := 0;
    retained := [];
    assert Fresh(limits, items[..0]) == [] by { FilterNone(IsFresh(limits)); }
    for n := 0 to |items|
      invariant retained == Fresh(limits, items[..n])
      invariant prunedCount == n - |retained|
    {
      FilterNext(items, n, IsFresh(limits));
      if Stale(limits, items[n]) {
        prunedCount := prunedCount + 1;
        continue;
      }
      retained := retained + [items[n]];
    }
    assert items[..|items|] == items;
    if |retained| > limits.maxItems {
      LengthOfSort(retained);
      retained := SortDesc(retained, Priority);
      var mustKeep := PinnedOf(retained);
      var rest := OthersOf(retained);
      var extraCut := limits.maxItems - |mustKeep|;
      if extraCut > 0 {
        assert rest[..|rest|] == rest;
        rest := rest[..if extraCut <= |rest| then extraCut else |rest|];
      }
      prunedCount := prunedCount + (|retained| - |mustKeep| - |rest|);
      retained := mustKeep + rest;
      LengthOfSort(retained);
      retained := SortDesc(retained, Priority);
    }
  }

  // ----- Packing into the token budget -----

  datatype Packing = Packing(retained: seq<ContextItem>, dropped: seq<ContextItem>, tokens: nat)

  function PackOne(maxTokens: int, p: Packing, i: ContextItem): Packing {
    if p.tokens + Tokens(i) > maxTokens && !Pinned(i) then p.(dropped := p.dropped + [i])
    else Packing(p.retained + [i], p.dropped, p.tokens + Tokens(i))
  }

  /** Items are taken in order; one that does not fit is skipped unless it is pinned. */
  function Pack(maxTokens: int, items: seq<ContextItem>): Packing {
    if items == [] then Packing([], [], 0)
    else PackOne(maxTokens, Pack(maxTokens, items[..|items| - 1]), items[|items| - 1])
  }

  // ----- Positional reordering -----

  /** Every second element, starting with the one at `from`. */
  function Alternate(items: seq<ContextItem>, from: nat): seq<ContextItem>
    requires from <= 1
  {
    seq((|items| + 1 - from) / 2, i requires 0 <= i < (|items| + 1 - from) / 2 => items[2 * i + from])
  }

  predicate Ordinary(i: ContextItem) {
    !Pinned(i) && !IsUser(i)
  }

  /** Pinned items, user messages, then the rest with its even positions before its odd ones. */
  function Reordered(items: seq<ContextItem>): seq<ContextItem> {
    if |items| <= 2 then items
    else
      var rest := Filter(items, Ordinary);
      PinnedOf(items) + Filter(items, IsUser) + Alternate(rest, 0) + Alternate(rest, 1)
  }

  /** `list.insert`. */
  function InsertAt(items: seq<ContextItem>, at: nat, x: ContextItem): seq<ContextItem>
    requires at <= |items|
  {
    items[..at] + [x] + items[at..]
  }

  lemma AlternateExtends(items: seq<ContextItem>, x: ContextItem)
    ensures |Alternate(items, 0)| == (|items| + 1) / 2
    ensures Alternate(items + [x], |items| % 2) == Alternate(items, |items| % 2) + [x]
    ensures Alternate(items + [x], 1 - |items| % 2) == Alternate(items, 1 - |items| % 2)
  {
  }

  lemma AlternateNone()
    ensures Alternate([], 0) == [] && Alternate([], 1) == []
  {
  }

  /** The insert/append loop of the reordering. */
  method Interleave(system: seq<ContextItem>, user: seq<ContextItem>, rest: seq<ContextItem>)
    returns (result: seq<ContextItem>)
    ensures result == system + user + Alternate(rest, 0) + Alternate(rest, 1)
  {
    hide Alternate;
    result := system + user;
    AlternateNone();
    for idx := 0 to |rest|
      invariant result == system + user + Alternate(rest[..idx], 0) + Alternate(rest[..idx], 1)
    {
      var item := rest[idx];
      ghost var evens, odds := Alternate(rest[..idx], 0), Alternate(rest[..idx], 1);
      assert rest[..idx + 1] == rest[..idx] + [item];
      AlternateExtends(rest[..idx], item);
      if idx % 2 == 0 {
        var at := |system| + |user| + idx / 2;
        assert result[..at] == system + user + evens && result[at..] == odds;
        result := InsertAt(result, at, item);
      } else {
        result := result + [item];
      }
    }
    assert rest[..|rest|] == rest;
  }

  method ReorderForPositionalBias(items: seq<ContextItem>) returns (result: seq<ContextItem>)
    ensures result == Reordered(items)
  {
    hide Filter, Alternate;
    if |items| <= 2 {
      return items;
    }
    var system := PinnedOf(items);
    var user := Filter(items, IsUser);
    var rest := [];
    FilterMembers(items, Pinned);
    FilterMembers(items, IsUser);
    FilterNone(Ordinary);
    for n := 0 to |items|
      invariant rest == Filter(items[..n], Ordinary)
    {
      FilterNext(items, n, Ordinary);
      if items[n] !in system && items[n] !in user {
        rest := rest + [items[n]];
      }
    }
    assert items[..|items|] == items;
    result := Interleave(system, user, rest);
  }

  // ----- Assembly -----

  datatype ContextBundle =
    ContextBundle(items: seq<ContextItem>, tokens: nat, maxTokens: int, dropped: seq<ContextItem>)

  datatype BudgetReport = BudgetReport(
    submitted: nat,
    afterDedup: nat,
    pruned: int,
    droppedByBudget: nat,
    retained: nat,
    tokensUsed: nat,
    maxTokens: int,
    lostInMiddleWarning: bool,
    trust: map<string, nat>,
    kinds: map<string, nat>)

  /** More items than this are reordered. */
  const MANY := 8

  function Count(names: seq<string>): map<string, nat> {
    if names == [] then map[]
    else
      var m := Count(names[..|names| - 1]);
      var last := names[|names| - 1];
      m[last := (if last in m then m[last] else 0) + 1]
  }

  function Ranked(items: seq<ContextItem>): seq<ContextItem> {
    SortDesc(Pruned(DEFAULT_LIMITS, Firsts(items)), Priority)
  }

  function Bundle(maxTokens: int, items: seq<ContextItem>): ContextBundle {
    var p := Pack(maxTokens, Ranked(items));
    ContextBundle(if |p.retained| > MANY then Reordered(p.retained) else p.retained, p.tokens, maxTokens, p.dropped)
  }

  /** `utilization > 0.9`, in exact arithmetic. */
  predicate Taxed(tokens: nat, maxTokens: int) {
    10 * tokens > 9 * Max(maxTokens, 1)
  }

  function TrustLevels(items: seq<ContextItem>): seq<string> {
    seq(|items|, i requires 0 <= i < |items| => items[i].trustLevel)
  }

  function Kinds(items: seq<ContextItem>): seq<string> {
    seq(|items|, i requires 0 <= i < |items| => items[i].kind)
  }

  lemma PackNone(maxTokens: int)
    ensures Pack(maxTokens, []) == Packing([], [], 0)
  {
  }

  lemma PackNext(maxTokens: int, items: seq<ContextItem>, n: nat)
    requires n < |items|
    ensures Pack(maxTokens, items[..n + 1]) == PackOne(maxTokens, Pack(maxTokens, items[..n]), items[n])
  {
    assert items[..n + 1][..n] == items[..n];
  }

  /** The counting loop behind both distributions of the report. */
  method Tally(names: seq<string>) returns (m: map<string, nat>)
    ensures m == Count(names)
  {
    m := map[];
    for n := 0 to |names|
      invariant m == Count(names[..n])
    {
      assert names[..n + 1][..n] == names[..n];
      m := m[names[n] := (if names[n] in m then m[names[n]] else 0) + 1];
    }
    assert names[..|names|] == names;
  }

  method Assemble(maxTokens: int, rawItems: seq<ContextItem>) returns (bundle: ContextBundle, report: BudgetReport)
    ensures bundle == Bundle(maxTokens, rawItems)
    ensures report.submitted == |rawItems| && report.afterDedup == |Firsts(rawItems)|
    ensures report.pruned == report.afterDedup - |Pruned(DEFAULT_LIMITS, Firsts(rawItems))|
    ensures report.droppedByBudget == |bundle.dropped| && report.retained == |bundle.items|
    ensures report.tokensUsed == bundle.tokens && report.maxTokens == maxTokens
    ensures report.lostInMiddleWarning <==>
              10 * bundle.tokens > 9 * Max(maxTokens, 1) && |Pack(maxTokens, Ranked(rawItems)).retained| > 8
    ensures report.trust == Count(TrustLevels(bundle.items)) && report.kinds == Count(Kinds(bundle.items))
  {
    hide Pack, Count, Firsts, Pruned, Reordered, SortDesc, TrustLevels, Kinds;
    var deduped := Deduplicate(rawItems);
    var pruned, prunedCount := Prune(DEFAULT_LIMITS, deduped);
    var sortedItems := SortDesc(pruned, Priority);

    var retained, dropped: seq<ContextItem> := [], [];
    var currentTokens: nat := 0;
    PackNone(maxTokens);
    for n := 0 to |sortedItems|
      invariant Pack(maxTokens, sortedItems[..n]) == Packing(retained, dropped, currentTokens)
    {
      var item := sortedItems[n];
      PackNext(maxTokens, sortedItems, n);
      var itemTokens := EstimateTokens(item.content);
      if currentTokens + itemTokens > maxTokens {
        if item.priority >= 100 {
          retained := retained + [item];
          currentTokens := currentTokens + itemTokens;
        } else {
          dropped := dropped + [item];
        }
      } else {
        retained := retained + [item];
        currentTokens := currentTokens + itemTokens;
      }
    }
    assert sortedItems[..|sortedItems|] == sortedItems;

    var lostInMiddle := |retained| > MANY;
    if lostInMiddle {
      retained := ReorderForPositionalBias(retained);
    }

    var trust := Tally(TrustLevels(retained));
    var kinds := Tally(Kinds(retained));

    var warning := Taxed(currentTokens, maxTokens) && lostInMiddle;
    report := BudgetReport(|rawItems|, |deduped|, prunedCount, |dropped|, |retained|, currentTokens, maxTokens,
                           warning, trust, kinds);
    bundle := ContextBundle(retained, currentTokens, maxTokens, dropped);
  }
}
