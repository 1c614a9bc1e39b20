/** What the context pipeline guarantees for every list of items and every budget. */
module ContextTheorems {
  import opened Numbers
  import opened Context
  import opened Sequences
  import opened Sorting
  import Text

  // ----- Deduplication -----

  /** Deduplication loses no content. */
  lemma {:induction false} FirstsRepresent(items: seq<ContextItem>)
    ensures forall c :: SeenBefore(Firsts(items), c) <==> SeenBefore(items, c)
  {
    hide SeenBefore;
    if items != [] {
      var before, last := items[..|items| - 1], items[|items| - 1];
      FirstsRepresent(before);
      SeenExtends(before, last);
      SeenExtends(Firsts(before), last);
      assert items == before + [last];
      assert Firsts(before) + [] == Firsts(before);
    }
  }

  predicate ContentsDiffer(items: seq<ContextItem>) {
    forall i, j | 0 <= i < j < |items| :: Text.Strip(items[i].content) != Text.Strip(items[j].content)
  }

  /** Deduplication keeps at most one item of each stripped content, and only submitted items. */
  lemma {:induction false} FirstsAreDistinct(items: seq<ContextItem>)
    ensures ContentsDiffer(Firsts(items))
    ensures forall x | x in Firsts(items) :: x in items
  {
    if items != [] {
      var before, last := items[..|items| - 1], items[|items| - 1];
      var c := Text.Strip(last.content);
      FirstsAreDistinct(before);
      FirstsRepresent(before);
      forall i | 0 <= i < |Firsts(before)| && !SeenBefore(before, c)
        ensures Text.Strip(Firsts(before)[i].content) != c
      {
        assert SeenBefore(Firsts(before), Text.Strip(Firsts(before)[i].content));
      }
    }
  }

  // ----- Multisets and sums of filtered lists -----

  lemma {:induction false} FilterMultiset(a: seq<ContextItem>, p: ContextItem -> bool)
    ensures forall x :: multiset(Filter(a, p))[x] == if p(x) then multiset(a)[x] else 0
  {
    if a != [] {
      FilterMultiset(a[..|a| - 1], p);
      assert a == a[..|a| - 1] + [a[|a| - 1]];
    }
  }

  lemma FilterSplits(items: seq<ContextItem>, p: ContextItem -> bool, q: ContextItem -> bool)
    requires forall x :: p(x) <==> !q(x)
    ensures multiset(Filter(items, p)) + multiset(Filter(items, q)) == multiset(items)
    ensures |Filter(items, p)| + |Filter(items, q)| == |items|
  {
    hide Filter;
    FilterMultiset(items, p);
    FilterMultiset(items, q);
    assert multiset(Filter(items, p)) + multiset(Filter(items, q)) == multiset(items);
    assert |multiset(Filter(items, p)) + multiset(Filter(items, q))| == |Filter(items, p)| + |Filter(items, q)|;
  }

  function Share(i: ContextItem): nat {
    if Pinned(i) then Tokens(i) else 0
  }

  /** The tokens of the pinned items of a list. */
  function PinnedTokens(items: seq<ContextItem>): nat {
    if items == [] then 0
    else PinnedTokens(items[..|items| - 1]) + Share(items[|items| - 1])
  }

  lemma {:induction false} PinnedTokensConcat(a: seq<ContextItem>, b: seq<ContextItem>)
    ensures PinnedTokens(a + b) == PinnedTokens(a) + PinnedTokens(b)
  {
    if b == [] {
      assert a + b == a;
    } else {
      assert (a + b)[..|a + b| - 1] == a + b[..|b| - 1];
      PinnedTokensConcat(a, b[..|b| - 1]);
    }
  }

  lemma PinnedTokensOne(x: ContextItem)
    ensures PinnedTokens([x]) == Share(x)
  {
    assert [x][..0] == [];
  }

  lemma {:induction false} PinnedTokensInsert(x: ContextItem, xs: seq<ContextItem>)
    ensures PinnedTokens(Insert(x, xs, Priority)) == Share(x) + PinnedTokens(xs)
  {
    PinnedTokensOne(x);
    PinnedTokensConcat([x], xs);
    if xs != [] && Priority(x) < Priority(xs[0]) {
      PinnedTokensInsert(x, xs[1..]);
      PinnedTokensOne(xs[0]);
      PinnedTokensConcat([xs[0]], Insert(x, xs[1..], Priority));
      PinnedTokensConcat([xs[0]], xs[1..]);
      assert xs == [xs[0]] + xs[1..];
    }
  }

  lemma {:induction false} PinnedTokensSort(xs: seq<ContextItem>)
    ensures PinnedTokens(SortDesc(xs, Priority)) == PinnedTokens(xs)
  {
    if xs != [] {
      PinnedTokensSort(xs[1..]);
      PinnedTokensInsert(xs[0], SortDesc(xs[1..], Priority));
      PinnedTokensOne(xs[0]);
      PinnedTokensConcat([xs[0]], xs[1..]);
      assert xs == [xs[0]] + xs[1..];
    }
  }

  lemma {:induction false} PinnedTokensFilter(xs: seq<ContextItem>, p: ContextItem -> bool)
    requires forall x | x in xs && Pinned(x) :: p(x)
    ensures PinnedTokens(Filter(xs, p)) == PinnedTokens(xs)
  {
    if xs != [] {
      var before, last := xs[..|xs| - 1], xs[|xs| - 1];
      PinnedTokensFilter(before, p);
      PinnedTokensOne(last);
      PinnedTokensConcat(Filter(before, p), if p(last) then [last] else []);
    }
  }

  lemma {:induction false} NoPinnedTokens(xs: seq<ContextItem>)
    requires forall x | x in xs :: !Pinned(x)
    ensures PinnedTokens(xs) == 0
  {
    if xs != [] {
      NoPinnedTokens(xs[..|xs| - 1]);
    }
  }

  // ----- Pruning -----

  /** Pruning never loses a pinned item, and it never invents one. */
  lemma PruningKeepsPinned(items: seq<ContextItem>)
    ensures forall x | x in items && Pinned(x) :: x in Pruned(DEFAULT_LIMITS, items)
    ensures forall x | x in Pruned(DEFAULT_LIMITS, items) :: x in items
    ensures PinnedTokens(Pruned(DEFAULT_LIMITS, items)) == PinnedTokens(items)
  {
    hide Filter, SortDesc, PinnedTokens;
    var limits := DEFAULT_LIMITS;
    var current := Fresh(limits, items);
    FilterMembers(items, IsFresh(limits));
    PinnedTokensFilter(items, IsFresh(limits));
    if |current| > limits.maxItems {
      var ranked := SortDesc(current, Priority);
      SortMembers(current, Priority);
      PinnedTokensSort(current);
      FilterMembers(ranked, Pinned);
      FilterMembers(ranked, NotPinned);
      PinnedTokensFilter(ranked, Pinned);
      var room := limits.maxItems - |PinnedOf(ranked)|;
      var others := OthersOf(ranked);
      var cut := if 0 < room <= |others| then others[..room] else others;
      SortMembers(PinnedOf(ranked) + cut, Priority);
      PinnedTokensSort(PinnedOf(ranked) + cut);
      PinnedTokensConcat(PinnedOf(ranked), cut);
      NoPinnedTokens(cut);
    }
  }

  function IsStale(limits: PruneLimits): ContextItem -> bool {
    i => Stale(limits, i)
  }

  /** The items that the size limit cuts: the unpinned ones of lowest priority, as far as they exceed the room. */
  function CutAway(limits: PruneLimits, live: seq<ContextItem>): seq<ContextItem> {
    var ranked := SortDesc(live, Priority);
    var room := limits.maxItems - |PinnedOf(ranked)|;
    var others := OthersOf(ranked);
    if |live| > limits.maxItems && 0 < room <= |others| then others[room..] else []
  }

  /** Everything that pruning removes: what is stale, and then what the size limit cuts. */
  function PrunedAway(limits: PruneLimits, items: seq<ContextItem>): seq<ContextItem> {
    Filter(items, IsStale(limits)) + CutAway(limits, Fresh(limits, items))
  }

  lemma CutConserves(limits: PruneLimits, live: seq<ContextItem>)
    ensures multiset(CutAway(limits, live)) + multiset(CutToSize(limits, live)) == multiset(live)
  {
    hide Filter, SortDesc;
    if |live| > limits.maxItems {
      var ranked := SortDesc(live, Priority);
      SortSorts(live, Priority);
      FilterSplits(ranked, Pinned, NotPinned);
      var room := limits.maxItems - |PinnedOf(ranked)|;
      var others := OthersOf(ranked);
      var cut := if 0 < room <= |others| then others[..room] else others;
      SortSorts(PinnedOf(ranked) + cut, Priority);
      assert others == cut + CutAway(limits, live);
      assert multiset(PinnedOf(ranked) + cut) == multiset(PinnedOf(ranked)) + multiset(cut);
    }
  }

  lemma CutIsUnpinned(limits: PruneLimits, live: seq<ContextItem>)
    ensures forall x | x in CutAway(limits, live) :: !Pinned(x)
  {
    hide Filter, SortDesc;
    var others := OthersOf(SortDesc(live, Priority));
    FilterMembers(SortDesc(live, Priority), NotPinned);
    forall x | x in CutAway(limits, live)
      ensures !Pinned(x)
    {
      assert x in others;
    }
  }

  /** Pruning removes or keeps each item, and what it removes is as much as it counts and never pinned. */
  lemma PruningConserves(limits: PruneLimits, items: seq<ContextItem>)
    ensures multiset(PrunedAway(limits, items)) + multiset(Pruned(limits, items)) == multiset(items)
    ensures |PrunedAway(limits, items)| == |items| - |Pruned(limits, items)|
    ensures limits.staleThreshold <= 100 ==> forall x | x in PrunedAway(limits, items) :: !Pinned(x)
  {
    hide Filter, CutAway, CutToSize;
    var live := Fresh(limits, items);
    FilterSplits(items, IsFresh(limits), IsStale(limits));
    CutConserves(limits, live);
    assert multiset(PrunedAway(limits, items)) + multiset(Pruned(limits, items)) == multiset(items);
    assert |multiset(PrunedAway(limits, items))| + |multiset(Pruned(limits, items))| == |multiset(items)|;
    FilterMembers(items, IsStale(limits));
    CutIsUnpinned(limits, live);
  }

  lemma SameCount(a: seq<ContextItem>, b: seq<ContextItem>, p: ContextItem -> bool)
    requires multiset(a) == multiset(b)
    ensures |Filter(a, p)| == |Filter(b, p)|
  {
    FilterMultiset(a, p);
    FilterMultiset(b, p);
    assert multiset(Filter(a, p)) == multiset(Filter(b, p));
    assert |multiset(Filter(a, p))| == |multiset(Filter(b, p))|;
  }

  /** The exact size after pruning. The limit is met exactly when fewer items than the limit are pinned; from the
      limit on, no item at all is cut for size. */
  lemma PrunedSize(limits: PruneLimits, items: seq<ContextItem>)
    ensures var n := |Fresh(limits, items)|;
            |Pruned(limits, items)| ==
            if n <= limits.maxItems || |PinnedOf(Fresh(limits, items))| >= limits.maxItems then n else limits.maxItems
  {
    hide Filter, SortDesc;
    var current := Fresh(limits, items);
    if |current| > limits.maxItems {
      var ranked := SortDesc(current, Priority);
      SortSorts(current, Priority);
      SameCount(ranked, current, Pinned);
      FilterSplits(ranked, Pinned, NotPinned);
      var room := limits.maxItems - |PinnedOf(ranked)|;
      var others := OthersOf(ranked);
      LengthOfSort(PinnedOf(ranked) + if 0 < room <= |others| then others[..room] else others);
    }
  }

  // ----- Packing -----

  /** Everything that was ranked is either retained or dropped. */
  lemma {:induction false} PackConserves(maxTokens: int, items: seq<ContextItem>)
    ensures var p := Pack(maxTokens, items);
            && multiset(p.retained) + multiset(p.dropped) == multiset(items)
            && (forall x | x in items && Pinned(x) :: x in p.retained)
            && (forall x | x in p.dropped :: !Pinned(x) && Tokens(x) + p.tokens > maxTokens)
  {
    hide Tokens, Pinned;
    if items != [] {
      var before, last := items[..|items| - 1], items[|items| - 1];
      PackConserves(maxTokens, before);
      assert items == before + [last];
      assert forall x :: x in items <==> x in before || x == last;
    }
  }

  lemma {:induction false} PackBound(maxTokens: int, items: seq<ContextItem>)
    requires Descending(items, Priority)
    ensures Pack(maxTokens, items).tokens <= Max(maxTokens, PinnedTokens(items))
    ensures (forall x | x in items :: Pinned(x)) ==> Pack(maxTokens, items).tokens == PinnedTokens(items)
  {
    if items != [] {
      var before, last := items[..|items| - 1], items[|items| - 1];
      PackBound(maxTokens, before);
      if Pinned(last) {
        forall x | x in before
          ensures Pinned(x)
        {
          var i :| 0 <= i < |before| && before[i] == x;
          assert Priority(items[i]) >= Priority(items[|items| - 1]);
        }
      }
    }
  }

  function TotalTokens(items: seq<ContextItem>): nat {
    if items == [] then 0 else TotalTokens(items[..|items| - 1]) + Tokens(items[|items| - 1])
  }

  lemma {:induction false} PackTokens(maxTokens: int, items: seq<ContextItem>)
    ensures Pack(maxTokens, items).tokens == TotalTokens(Pack(maxTokens, items).retained)
  {
    if items != [] {
      var before := Pack(maxTokens, items[..|items| - 1]);
      var last := items[|items| - 1];
      PackTokens(maxTokens, items[..|items| - 1]);
      assert (before.retained + [last])[..|before.retained|] == before.retained;
    }
  }

  // ----- Reordering -----

  predicate PinnedUser(i: ContextItem) {
    Pinned(i) && IsUser(i)
  }

  lemma ClassesCover(items: seq<ContextItem>)
    ensures multiset(PinnedOf(items)) + multiset(Filter(items, IsUser)) + multiset(Filter(items, Ordinary)) ==
            multiset(items) + multiset(Filter(items, PinnedUser))
  {
    hide Filter;
    FilterMultiset(items, Pinned);
    FilterMultiset(items, IsUser);
    FilterMultiset(items, Ordinary);
    FilterMultiset(items, PinnedUser);
  }

  lemma {:induction false} AlternatesCover(items: seq<ContextItem>)
    ensures multiset(Alternate(items, 0)) + multiset(Alternate(items, 1)) == multiset(items)
  {
    hide Alternate;
    if items != [] {
      var before, last := items[..|items| - 1], items[|items| - 1];
      AlternatesCover(before);
      assert items == before + [last];
      AlternateExtends(before, last);
    } else {
      AlternateNone();
    }
  }

  lemma ReorderedIs(items: seq<ContextItem>)
    requires |items| > 2
    ensures multiset(Reordered(items)) == multiset(items) + multiset(Filter(items, PinnedUser))
  {
    hide Filter, Alternate;
    ClassesCover(items);
    AlternatesCover(Filter(items, Ordinary));
  }

  lemma NoneIffEmpty<T>(a: multiset<T>, b: multiset<T>)
    ensures a + b == a <==> b == multiset{}
  {
    if a + b == a {
      assert |a + b| == |a| + |b|;
    }
  }

  lemma EmptyMultiset<T>(xs: seq<T>)
    ensures multiset(xs) == multiset{} <==> xs == []
  {
    assert |multiset(xs)| == |xs|;
  }

  /** Reordering repeats the items that are both pinned and user messages, and otherwise permutes: it is a
      permutation exactly when there is no such item. */
  lemma ReorderingPermutes(items: seq<ContextItem>)
    requires |items| > 2
    ensures multiset(Reordered(items)) == multiset(items) + multiset(Filter(items, PinnedUser))
    ensures multiset(Reordered(items)) == multiset(items) <==> forall x | x in items :: !PinnedUser(x)
  {
    hide Filter, Alternate, Reordered, PinnedUser;
    ReorderedIs(items);
    FilterMembers(items, PinnedUser);
    NoneIffEmpty(multiset(items), multiset(Filter(items, PinnedUser)));
    EmptyMultiset(Filter(items, PinnedUser));
    if Filter(items, PinnedUser) != [] {
      assert Filter(items, PinnedUser)[0] in items;
    }
  }

  // ----- The whole pipeline -----

  lemma RankedKeeps(items: seq<ContextItem>)
    ensures Descending(Ranked(items), Priority)
    ensures PinnedTokens(Ranked(items)) == PinnedTokens(Firsts(items))
    ensures forall x | x in Firsts(items) && Pinned(x) :: x in Ranked(items)
    ensures multiset(Ranked(items)) == multiset(Pruned(DEFAULT_LIMITS, Firsts(items)))
  {
    hide Firsts, Pruned, SortDesc, PinnedTokens;
    var pruned := Pruned(DEFAULT_LIMITS, Firsts(items));
    PruningKeepsPinned(Firsts(items));
    SortSorts(pruned, Priority);
    SortMembers(pruned, Priority);
    PinnedTokensSort(pruned);
  }

  lemma ReorderedShort(items: seq<ContextItem>)
    requires |items| <= 2
    ensures Reordered(items) == items
  {
  }

  lemma ReorderedMembers(items: seq<ContextItem>)
    ensures forall x :: x in Reordered(items) <==> x in items
  {
    hide Filter, Alternate, Reordered;
    if |items| > 2 {
      ReorderingPermutes(items);
      FilterMembers(items, PinnedUser);
      forall x
        ensures x in Reordered(items) <==> x in items
      {
        assert x in Reordered(items) <==> x in multiset(Reordered(items));
        assert x in items <==> x in multiset(items);
        assert x in Filter(items, PinnedUser) <==> x in multiset(Filter(items, PinnedUser));
      }
    } else {
      assert Reordered(items) == items by { ReorderedShort(items); }
    }
  }

  /** The budget theorem, for every list and every budget: pinned items always survive; the bundle stays within the
      larger of the budget and the pinned items' own tokens; what was dropped would not fit into what is left; and
      pruned, dropped and retained together are exactly the deduplicated items, the pruned ones none of them pinned
      and as many as the report says. */
  lemma BudgetTheorem(maxTokens: int, items: seq<ContextItem>)
    ensures var b := Bundle(maxTokens, items);
            var packed := Pack(maxTokens, Ranked(items)).retained;
            var unique := Firsts(items);
            var pruned := PrunedAway(DEFAULT_LIMITS, unique);
            && (forall x | x in unique && Pinned(x) :: x in b.items)
            && b.tokens == TotalTokens(packed) <= Max(maxTokens, PinnedTokens(unique))
            && (forall x | x in b.dropped :: !Pinned(x) && Tokens(x) + b.tokens > maxTokens)
            && multiset(pruned) + multiset(packed) + multiset(b.dropped) == multiset(unique)
            && |pruned| == |unique| - |Pruned(DEFAULT_LIMITS, unique)| && (forall x | x in pruned :: !Pinned(x))
            && multiset(b.items) ==
               multiset(packed) + (if |packed| > MANY then multiset(Filter(packed, PinnedUser)) else multiset{})
  {
    hide Firsts, Pruned, PrunedAway, Ranked, Pack, PinnedTokens, Reordered, TotalTokens, Filter;
    var ranked := Ranked(items);
    var packed := Pack(maxTokens, ranked).retained;
    RankedKeeps(items);
    PackConserves(maxTokens, ranked);
    PackBound(maxTokens, ranked);
    PackTokens(maxTokens, ranked);
    PruningConserves(DEFAULT_LIMITS, Firsts(items));
    ReorderedMembers(packed);
    if |packed| > MANY {
      ReorderingPermutes(packed);
    }
  }
}
