/** What stands where in an assembled context, and what its figures count. */
module ContextOrder {
  import opened Numbers
  import opened Sequences
  import opened Sorting
  import opened Context
  import opened ContextTheorems
  import Text

  // ----- Counts -----

  /** The counting dictionary maps each name to how often it occurs. */
  lemma {:induction false} CountCounts(names: seq<string>)
    ensures Count(names).Keys == Elements(names)
    ensures forall x | x in names :: Count(names)[x] == multiset(names)[x]
  {
    if names != [] {
      var front, last := names[..|names| - 1], names[|names| - 1];
      CountCounts(front);
      assert names == front + [last];
    }
  }

  lemma {:induction false} LabelsCounted(items: seq<ContextItem>, field: ContextItem -> string, x: string)
    ensures multiset(Map(items, field))[x] == |Filter(items, i => field(i) == x)|
  {
    if items != [] {
      var n := |items| - 1;
      LabelsCounted(items[..n], field, x);
      assert Map(items, field) == Map(items[..n], field) + [field(items[n])];
    }
  }

  /** The two distributions of a report count the items with a trust level, and those of a kind. */
  lemma DistributionsCount(items: seq<ContextItem>, x: string)
    ensures var trust := Count(TrustLevels(items)); var kinds := Count(Kinds(items));
            && (if x in trust then trust[x] else 0) == |Filter(items, (i: ContextItem) => i.trustLevel == x)|
            && (if x in kinds then kinds[x] else 0) == |Filter(items, (i: ContextItem) => i.kind == x)|
  {
    hide Count, Filter;
    CountCounts(TrustLevels(items));
    CountCounts(Kinds(items));
    var trust, kind := (i: ContextItem) => i.trustLevel, (i: ContextItem) => i.kind;
    LabelsCounted(items, trust, x);
    LabelsCounted(items, kind, x);
    assert Map(items, trust) == TrustLevels(items) && Map(items, kind) == Kinds(items);
    FilterSame(items, i => trust(i) == x, (i: ContextItem) => i.trustLevel == x);
    FilterSame(items, i => kind(i) == x, (i: ContextItem) => i.kind == x);
  }

  // ----- Deduplication -----

  predicate IsFirst(items: seq<ContextItem>, k: nat)
    requires k < |items|
  {
    forall j | 0 <= j < k :: Text.Strip(items[j].content) != Text.Strip(items[k].content)
  }

  lemma FirstOfPrefix(items: seq<ContextItem>, n: nat, k: nat)
    requires k < n <= |items|
    ensures IsFirst(items, k) <==> IsFirst(items[..n], k)
  {
    hide Text.Strip;
    assert forall j | 0 <= j <= k :: items[..n][j] == items[j];
  }

  lemma FirstIffUnseen(items: seq<ContextItem>)
    requires items != []
    ensures var n := |items| - 1; IsFirst(items, n) <==> !SeenBefore(items[..n], Text.Strip(items[n].content))
  {
    var n := |items| - 1;
    assert forall j | 0 <= j < n :: items[..n][j] == items[j];
    if !IsFirst(items, n) {
      var j :| 0 <= j < n && Text.Strip(items[j].content) == Text.Strip(items[n].content);
      assert Text.Strip(items[..n][j].content) == Text.Strip(items[n].content);
    }
  }

  /** Deduplication keeps, in order, exactly the earliest item of each stripped content. */
  lemma {:induction false} FirstsAreEarliest(items: seq<ContextItem>) returns (at: seq<nat>)
    ensures |Firsts(items)| == |at|
    ensures forall i | 0 <= i < |at| :: at[i] < |items| && Firsts(items)[i] == items[at[i]] && IsFirst(items, at[i])
    ensures forall i, j | 0 <= i < j < |at| :: at[i] < at[j]
    ensures forall k | 0 <= k < |items| && IsFirst(items, k) :: k in at
  {
    hide IsFirst, SeenBefore, Text.Strip;
    if items == [] {
      at := [];
    } else {
      var n := |items| - 1;
      var before := FirstsAreEarliest(items[..n]);
      at := before + if IsFirst(items, n) then [n] else [];
      FirstIffUnseen(items);
      forall k: nat | k < n
        ensures IsFirst(items, k) <==> IsFirst(items[..n], k)
      {
        FirstOfPrefix(items, n, k);
      }
    }
  }

  // ----- Pruning -----

  lemma {:induction false} FilterDescends(xs: seq<ContextItem>, p: ContextItem -> bool)
    requires Descending(xs, Priority)
    ensures Descending(Filter(xs, p), Priority)
  {
    var at := FilterPositions(xs, p);
  }

  /** What the size limit cuts is of no higher priority than any unpinned item that it leaves. */
  lemma CutIsLowest(limits: PruneLimits, live: seq<ContextItem>, cut: ContextItem, left: ContextItem)
    requires cut in CutAway(limits, live) && left in CutToSize(limits, live) && !Pinned(left)
    ensures left.priority >= cut.priority
  {
    hide Filter, SortDesc;
    var ranked := SortDesc(live, Priority);
    SortSorts(live, Priority);
    FilterDescends(ranked, NotPinned);
    var others, room := OthersOf(ranked), limits.maxItems - |PinnedOf(ranked)|;
    SortMembers(PinnedOf(ranked) + others[..room], Priority);
    FilterMembers(ranked, Pinned);
    assert left in others[..room];
    var i :| 0 <= i < room && others[i] == left;
    var j :| 0 <= j < |others| - room && others[room..][j] == cut;
    assert Priority(others[i]) >= Priority(others[room + j]);
  }

  predicate Current(i: ContextItem) {
    i.ageInSteps <= 10 || i.priority >= 60
  }

  lemma SizeRule(live: seq<ContextItem>)
    ensures |live| <= 20 ==> CutToSize(DEFAULT_LIMITS, live) == live
    ensures |live| > 20 ==> Descending(CutToSize(DEFAULT_LIMITS, live), Priority)
  {
    hide Filter, SortDesc, Descending;
    if |live| > 20 {
      var ranked := SortDesc(live, Priority);
      var room, others := 20 - |PinnedOf(ranked)|, OthersOf(ranked);
      SortSorts(PinnedOf(ranked) + (if 0 < room <= |others| then others[..room] else others), Priority);
    }
  }

  /** Pruning with the default limits: items older than ten steps go unless their priority is at least 60; up to
      twenty others stay as they are; of more, the pinned ones and those of highest priority stay. */
  lemma PruningRule(items: seq<ContextItem>)
    ensures var live := Filter(items, Current); var kept := Pruned(DEFAULT_LIMITS, items);
            && (|live| <= 20 ==> kept == live)
            && (|live| > 20 ==> Descending(kept, Priority))
            && |kept| == (if |live| <= 20 || |PinnedOf(live)| >= 20 then |live| else 20)
            && (forall x | x in kept :: x in live)
            && (forall x, y | x in CutAway(DEFAULT_LIMITS, live) && y in kept ::
                  x in live && x.priority < 100 && (y.priority >= 100 || y.priority >= x.priority))
            && multiset(CutAway(DEFAULT_LIMITS, live)) + multiset(kept) == multiset(live)
  {
    hide Filter, SortDesc, CutAway, CutToSize;
    var live, kept := Filter(items, Current), Pruned(DEFAULT_LIMITS, items);
    FilterSame(items, Current, IsFresh(DEFAULT_LIMITS));
    assert live == Fresh(DEFAULT_LIMITS, items);
    PrunedSize(DEFAULT_LIMITS, items);
    CutConserves(DEFAULT_LIMITS, live);
    CutIsUnpinned(DEFAULT_LIMITS, live);
    SizeRule(live);
    assert forall x :: x in live <==> x in multiset(live);
    assert forall x | x in kept :: x in multiset(kept);
    forall x, y | x in CutAway(DEFAULT_LIMITS, live) && y in kept
      ensures x in live && x.priority < 100 && (y.priority >= 100 || y.priority >= x.priority)
    {
      assert x in multiset(CutAway(DEFAULT_LIMITS, live));
      if y.priority < 100 {
        CutIsLowest(DEFAULT_LIMITS, live, x, y);
      }
    }
  }

  // ----- Positional reordering -----

  ghost predicate IsPinned(items: seq<ContextItem>, at: seq<nat>) {
    Positions(items, (i: ContextItem) => i.priority >= 100, at)
  }

  ghost predicate IsFromUser(items: seq<ContextItem>, at: seq<nat>) {
    Positions(items, (i: ContextItem) => i.kind == "user_message", at)
  }

  ghost predicate IsRest(items: seq<ContextItem>, at: seq<nat>) {
    Positions(items, (i: ContextItem) => i.priority < 100 && i.kind != "user_message", at)
  }

  /** Where the n-th of r ordinary items goes behind the others: the even ones first, then the odd ones. */
  function Place(n: nat, r: nat): nat {
    if n % 2 == 0 then n / 2 else (r + 1) / 2 + n / 2
  }

  lemma ClassesAre(items: seq<ContextItem>, pinned: seq<nat>, users: seq<nat>, rest: seq<nat>)
    requires Positions(items, Pinned, pinned) && Positions(items, IsUser, users) && Positions(items, Ordinary, rest)
    ensures IsPinned(items, pinned) && IsFromUser(items, users) && IsRest(items, rest)
  {
  }

  lemma AlternateLengths(rest: seq<ContextItem>)
    ensures |Alternate(rest, 0)| + |Alternate(rest, 1)| == |rest|
  {
  }

  lemma Alternated(front: seq<ContextItem>, rest: seq<ContextItem>, i: nat)
    requires i < |rest|
    ensures Place(i, |rest|) < |rest|
    ensures (front + Alternate(rest, 0) + Alternate(rest, 1))[|front| + Place(i, |rest|)] == rest[i]
  {
  }

  lemma ReorderedBlocks(items: seq<ContextItem>)
    requires |items| > 2
    ensures var a, b, c := PinnedOf(items), Filter(items, IsUser), Filter(items, Ordinary);
            && Reordered(items) == a + b + Alternate(c, 0) + Alternate(c, 1)
            && |Reordered(items)| == |a| + |b| + |c|
            && (forall i | 0 <= i < |a| :: Reordered(items)[i] == a[i])
            && (forall i | 0 <= i < |b| :: Reordered(items)[|a| + i] == b[i])
  {
    hide Filter, Alternate;
    AlternateLengths(Filter(items, Ordinary));
  }

  /** The place of every item after reordering. */
  lemma ReorderedPlaces(items: seq<ContextItem>) returns (pinned: seq<nat>, users: seq<nat>, rest: seq<nat>)
    requires |items| > 2
    ensures IsPinned(items, pinned) && IsFromUser(items, users) && IsRest(items, rest)
    ensures |Reordered(items)| == |pinned| + |users| + |rest|
    ensures forall i | 0 <= i < |pinned| :: Reordered(items)[i] == items[pinned[i]]
    ensures forall i | 0 <= i < |users| :: Reordered(items)[|pinned| + i] == items[users[i]]
    ensures forall i | 0 <= i < |rest| ::
              Place(i, |rest|) < |rest|
              && Reordered(items)[|pinned| + |users| + Place(i, |rest|)] == items[rest[i]]
  {
    hide Filter, Alternate, Place, Positions, IsPinned, IsFromUser, IsRest, Reordered;
    pinned := FilterPositions(items, Pinned);
    users := FilterPositions(items, IsUser);
    rest := FilterPositions(items, Ordinary);
    ClassesAre(items, pinned, users, rest);
    ReorderedBlocks(items);
    var front, ordinary := PinnedOf(items) + Filter(items, IsUser), Filter(items, Ordinary);
    forall i | 0 <= i < |rest|
      ensures Place(i, |rest|) < |rest| && Reordered(items)[|front| + Place(i, |rest|)] == ordinary[i]
    {
      Alternated(front, ordinary, i);
      assert Reordered(items) == front + Alternate(ordinary, 0) + Alternate(ordinary, 1);
    }
  }

  lemma LastPlace(r: nat)
    requires r > 0
    ensures Place(if r == 1 then 0 else 2 * (r / 2) - 1, r) == r - 1
  {
  }

  /** Contrary to its intent, the reordering of a ranked list puts no important item at the end: at most one ordinary
      item has a lower priority than the last. */
  lemma TailIsLow(items: seq<ContextItem>) returns (rest: seq<nat>)
    requires |items| > 2 && Descending(items, Priority)
    ensures IsRest(items, rest)
    ensures rest != [] ==>
              && Ordinary(Reordered(items)[|Reordered(items)| - 1])
              && forall i | 0 <= i < |rest| - 1 ::
                   items[rest[i]].priority >= Reordered(items)[|Reordered(items)| - 1].priority
  {
    hide Reordered, Place;
    var pinned, users, r := ReorderedPlaces(items);
    rest := r;
    if rest != [] {
      var last := if |rest| == 1 then 0 else 2 * (|rest| / 2) - 1;
      LastPlace(|rest|);
      assert Reordered(items)[|Reordered(items)| - 1] == items[rest[last]];
      forall i | 0 <= i < |rest| - 1
        ensures items[rest[i]].priority >= items[rest[last]].priority
      {
        if i < last {
          assert Priority(items[rest[i]]) >= Priority(items[rest[last]]);
        }
      }
    }
  }

  // ----- The assembled bundle -----

  lemma {:induction false} PackDescends(maxTokens: int, items: seq<ContextItem>)
    requires Descending(items, Priority)
    ensures Descending(Pack(maxTokens, items).retained, Priority)
    ensures forall x | x in Pack(maxTokens, items).retained :: x in items
  {
    if items != [] {
      var n := |items| - 1;
      PackDescends(maxTokens, items[..n]);
      var kept := Pack(maxTokens, items[..n]).retained;
      forall x | x in kept
        ensures x in items && Priority(x) >= Priority(items[n])
      {
        var i :| 0 <= i < n && items[..n][i] == x;
        assert items[i] == x;
      }
      assert forall i | 0 <= i < |kept| :: kept[i] in kept;
    }
  }

  /** Up to eight items of a bundle stand in descending priority; more stand in the places of the reordering. */
  lemma BundleOrder(maxTokens: int, items: seq<ContextItem>) returns (packed: seq<ContextItem>)
    ensures Descending(packed, Priority)
    ensures Bundle(maxTokens, items).items == if |packed| <= 8 then packed else Reordered(packed)
    ensures |Bundle(maxTokens, items).items| <= 8 <==> |packed| <= 8
  {
    hide Pack, Ranked, Reordered, Place;
    RankedKeeps(items);
    packed := Pack(maxTokens, Ranked(items)).retained;
    PackDescends(maxTokens, Ranked(items));
    if |packed| > 8 {
      ReorderedIs(packed);
      assert |multiset(Reordered(packed))| == |multiset(packed)| + |multiset(Filter(packed, PinnedUser))|;
    }
  }
}
