/** `stratified_sample_events` of daily_report.py: events are grouped by
    category, the groups are visited from smallest to largest, and each group
    gets `share = max(1, remaining // groups_left)` slots; a group no larger
    than its share is taken whole, a larger one is sampled down to its share. */
module Sampling {
  import opened Common
  import opened Kalshi

  /** `TARGET_EVENTS`. */
  const TargetEvents: int := 200

  function Min(a: int, b: int): int { if a <= b then a else b }
  function Max(a: int, b: int): int { if a >= b then a else b }

  // ---------------------------------------------------------------------------
  // Grouping by category (`categories.setdefault(e["category"], []).append(e)`)
  // ---------------------------------------------------------------------------

  /** Some event is of category `c`. */
  predicate Occurs(events: seq<EventMeta>, c: string)
  {
    exists k :: 0 <= k < |events| && events[k].category == c
  }

  lemma OccursSnoc(events: seq<EventMeta>, c: string)
    requires events != []
    ensures Occurs(events, c) <==> Occurs(events[..|events| - 1], c) || events[|events| - 1].category == c
  {
    var init := events[..|events| - 1];
    if Occurs(events, c) && events[|events| - 1].category != c {
      var k :| 0 <= k < |events| && events[k].category == c;
      assert init[k] == events[k];
    }
    if Occurs(init, c) {
      var k :| 0 <= k < |init| && init[k].category == c;
      assert events[k] == init[k];
    }
  }

  /** The categories in order of first appearance: the key order of the dict. */
  function Categories(events: seq<EventMeta>): seq<string>
    decreases |events|
  {
    if events == [] then []
    else
      var prev := Categories(events[..|events| - 1]);
      var c := events[|events| - 1].category;
      if c in prev then prev else prev + [c]
  }

  /** Each category of the input is listed, once, and nothing else is. */
  lemma {:induction false} CategoriesFacts(events: seq<EventMeta>)
    ensures var cats := Categories(events);
            && (forall i, j :: 0 <= i < j < |cats| ==> cats[i] != cats[j])
            && (forall c :: c in cats <==> Occurs(events, c))
    decreases |events|
  {
    if events != [] {
      var init := events[..|events| - 1];
      CategoriesFacts(init);
      forall d ensures d in Categories(events) <==> Occurs(events, d) {
        OccursSnoc(events, d);
      }
    }
  }

  /** The events of category `c`, in input order: the list the dict holds for `c`. */
  function OfCategory(events: seq<EventMeta>, c: string): seq<EventMeta>
    decreases |events|
  {
    if events == [] then []
    else OfCategory(events[..|events| - 1], c) + (if events[|events| - 1].category == c then [events[|events| - 1]] else [])
  }

  /** The list of category `c` holds events of that category drawn from the
      input, and is empty exactly when no event has the category. */
  lemma {:induction false} OfCategoryFacts(events: seq<EventMeta>, c: string)
    ensures var r := OfCategory(events, c);
            && (forall k :: 0 <= k < |r| ==> r[k].category == c)
            && (r == [] <==> !Occurs(events, c))
            && multiset(r) <= multiset(events)
    decreases |events|
  {
    if events != [] {
      var init := events[..|events| - 1];
      var e := events[|events| - 1];
      OfCategoryFacts(init, c);
      OccursSnoc(events, c);
      assert events == init + [e];
      var r0 := OfCategory(init, c);
      var r := OfCategory(events, c);
      assert r == r0 + (if e.category == c then [e] else []);
      assert multiset(events) == multiset(init) + multiset{e};
    }
  }

  /** The values of the dict, in key order. */
  function Groups(events: seq<EventMeta>): (gs: seq<seq<EventMeta>>)
    ensures |gs| == |Categories(events)|
  {
    var cats := Categories(events);
    seq(|cats|, i requires 0 <= i < |cats| => OfCategory(events, cats[i]))
  }

  /** The state of the grouping loop after the events `seen`: `keys` is the
      dict's key order, `position` the index of each key, `groups` its values. */
  ghost predicate Filled(seen: seq<EventMeta>, keys: seq<string>, position: map<string, nat>, groups: seq<seq<EventMeta>>)
  {
    && keys == Categories(seen)
    && |groups| == |keys|
    && (forall c :: c in position <==> c in keys)
    && (forall i :: 0 <= i < |keys| ==> keys[i] in position && position[keys[i]] == i)
    && (forall c :: c !in position ==> OfCategory(seen, c) == [])
    && (forall i :: 0 <= i < |keys| ==> groups[i] == OfCategory(seen, keys[i]))
  }

  lemma OfCategorySnoc(seen: seq<EventMeta>, e: EventMeta, c: string)
    ensures OfCategory(seen + [e], c) == OfCategory(seen, c) + (if e.category == c then [e] else [])
  {
    assert (seen + [e])[..|seen|] == seen;
  }

  /** An event of a known category joins that category's list. */
  lemma FilledJoin(seen: seq<EventMeta>, e: EventMeta, keys: seq<string>, position: map<string, nat>,
                   groups: seq<seq<EventMeta>>)
    requires Filled(seen, keys, position, groups) && e.category in position
    ensures position[e.category] < |groups|
    ensures var p := position[e.category];
            Filled(seen + [e], keys, position, groups[p := groups[p] + [e]])
  {
    var p := position[e.category];
    assert (seen + [e])[..|seen|] == seen;
    assert keys[p] == e.category;
    forall c ensures c !in position ==> OfCategory(seen + [e], c) == [] {
      OfCategorySnoc(seen, e, c);
    }
    forall i | 0 <= i < |keys|
      ensures groups[p := groups[p] + [e]][i] == OfCategory(seen + [e], keys[i])
    {
      OfCategorySnoc(seen, e, keys[i]);
    }
  }

  /** An event of a new category opens a list at the end. */
  lemma FilledOpen(seen: seq<EventMeta>, e: EventMeta, keys: seq<string>, position: map<string, nat>,
                   groups: seq<seq<EventMeta>>)
    requires Filled(seen, keys, position, groups) && e.category !in position
    ensures Filled(seen + [e], keys + [e.category], position[e.category := |keys|], groups + [[e]])
  {
    assert (seen + [e])[..|seen|] == seen;
    assert e.category !in keys;
    var keys', groups', position' := keys + [e.category], groups + [[e]], position[e.category := |keys|];
    assert keys' == Categories(seen + [e]);
    forall c ensures c in position' <==> c in keys' {
    }
    forall i | 0 <= i < |keys'| ensures keys'[i] in position' && position'[keys'[i]] == i {
      if i < |keys| {
        assert keys'[i] == keys[i] != e.category;
      }
    }
    forall c ensures c !in position' ==> OfCategory(seen + [e], c) == [] {
      OfCategorySnoc(seen, e, c);
    }
    forall i | 0 <= i < |keys'| ensures groups'[i] == OfCategory(seen + [e], keys'[i]) {
      OfCategorySnoc(seen, e, keys'[i]);
      if i == |keys| {
        assert OfCategory(seen, e.category) == [];
      }
    }
  }

  /** The loop that fills the dict. */
  method GroupByCategory(events: seq<EventMeta>) returns (groups: seq<seq<EventMeta>>)
    ensures groups == Groups(events)
  {
    var keys: seq<string> := [];
    var position: map<string, nat> := map[];
    groups := [];
    for n := 0 to |events|
      invariant Filled(events[..n], keys, position, groups)
    {
      var e := events[n];
      assert events[..n + 1] == events[..n] + [e];
      if e.category in position {
        FilledJoin(events[..n], e, keys, position, groups);
        var p := position[e.category];
        groups := groups[p := groups[p] + [e]];
      } else {
        FilledOpen(events[..n], e, keys, position, groups);
        position := position[e.category := |keys|];
        keys := keys + [e.category];
        groups := groups + [[e]];
      }
    }
    assert events[..|events|] == events;
    FilledIsGroups(events, keys, position, groups);
  }

  lemma FilledIsGroups(seen: seq<EventMeta>, keys: seq<string>, position: map<string, nat>, groups: seq<seq<EventMeta>>)
    requires Filled(seen, keys, position, groups)
    ensures groups == Groups(seen)
  {
    var gs := Groups(seen);
    assert |groups| == |gs|;
    forall i | 0 <= i < |gs| ensures groups[i] == gs[i] {
    }
  }

  /** One more event joins the group of its category, or opens a new group at the end. */
  lemma GroupsSnoc(events: seq<EventMeta>)
    requires events != []
    ensures var init := events[..|events| - 1];
            var e := events[|events| - 1];
            var prev := Groups(init);
            var pc := Categories(init);
            && (e.category in pc ==> exists p :: 0 <= p < |pc| && pc[p] == e.category && Groups(events) == prev[p := prev[p] + [e]])
            && (e.category !in pc ==> Groups(events) == prev + [[e]])
  {
    var init := events[..|events| - 1];
    var e := events[|events| - 1];
    var pc := Categories(init);
    CategoriesFacts(init);
    if e.category in pc {
      var p :| 0 <= p < |pc| && pc[p] == e.category;
      GroupsSnocKnown(events, p);
    } else {
      GroupsSnocNew(events);
    }
  }

  lemma GroupsSnocKnown(events: seq<EventMeta>, p: nat)
    requires events != []
    requires var pc := Categories(events[..|events| - 1]);
             p < |pc| && pc[p] == events[|events| - 1].category
    ensures var prev := Groups(events[..|events| - 1]);
            Groups(events) == prev[p := prev[p] + [events[|events| - 1]]]
  {
    var init := events[..|events| - 1];
    var e := events[|events| - 1];
    var prev := Groups(init);
    var pc := Categories(init);
    var gs := Groups(events);
    CategoriesFacts(init);
    assert Categories(events) == pc;
    forall i | 0 <= i < |pc| ensures gs[i] == prev[p := prev[p] + [e]][i] {
      assert gs[i] == OfCategory(events, pc[i]) && prev[i] == OfCategory(init, pc[i]);
      if i != p {
        assert pc[i] != pc[p];
      }
    }
  }

  lemma GroupsSnocNew(events: seq<EventMeta>)
    requires events != []
    requires events[|events| - 1].category !in Categories(events[..|events| - 1])
    ensures Groups(events) == Groups(events[..|events| - 1]) + [[events[|events| - 1]]]
  {
    var init := events[..|events| - 1];
    var e := events[|events| - 1];
    var prev := Groups(init);
    var pc := Categories(init);
    var gs := Groups(events);
    OfCategoryFacts(init, e.category);
    CategoriesFacts(init);
    assert Categories(events) == pc + [e.category];
    assert OfCategory(init, e.category) == [];
    assert gs[|pc|] == OfCategory(events, e.category) == [e];
    forall i | 0 <= i < |pc| ensures gs[i] == prev[i] {
      assert pc[i] != e.category;
    }
    assert gs == prev + [[e]];
  }

  /** The groups partition the events: together they hold each event exactly once. */
  lemma {:induction false} GroupsPartition(events: seq<EventMeta>)
    ensures multiset(Flatten(Groups(events))) == multiset(events)
    decreases |events|
  {
    if events != [] {
      var init := events[..|events| - 1];
      var e := events[|events| - 1];
      assert events == init + [e];
      GroupsPartition(init);
      GroupsSnoc(events);
      var prev := Groups(init);
      if e.category in Categories(init) {
        var p :| 0 <= p < |prev| && Groups(events) == prev[p := prev[p] + [e]];
        FlattenUpdate(prev, p, e);
      } else {
        FlattenAppend(prev, [[e]]);
        assert Flatten([[e]]) == [e];
      }
    }
  }

  /** No group is empty. */
  lemma GroupsNonEmpty(events: seq<EventMeta>)
    ensures forall i :: 0 <= i < |Groups(events)| ==> Groups(events)[i] != []
  {
    var cats := Categories(events);
    CategoriesFacts(events);
    forall i | 0 <= i < |cats| ensures Groups(events)[i] != [] {
      assert cats[i] in cats;
      OfCategoryFacts(events, cats[i]);
    }
  }

  /** Appending to one group adds that element to the concatenation. */
  lemma {:induction false} FlattenUpdate<T>(gs: seq<seq<T>>, p: nat, x: T)
    requires p < |gs|
    ensures multiset(Flatten(gs[p := gs[p] + [x]])) == multiset(Flatten(gs)) + multiset{x}
    decreases |gs|
  {
    var hs := gs[p := gs[p] + [x]];
    if p == 0 {
      assert hs[1..] == gs[1..];
      assert Flatten(hs) == (gs[0] + [x]) + Flatten(gs[1..]);
    } else {
      assert hs[1..] == gs[1..][p - 1 := gs[p] + [x]];
      FlattenUpdate(gs[1..], p - 1, x);
      assert Flatten(hs) == gs[0] + Flatten(hs[1..]);
      assert Flatten(gs) == gs[0] + Flatten(gs[1..]);
      assert multiset(Flatten(hs)) == multiset(gs[0]) + multiset(Flatten(hs[1..]));
    }
  }

  // ---------------------------------------------------------------------------
  // `sorted(categories.values(), key=len)`: a stable sort by size
  // ---------------------------------------------------------------------------

  /** Insert `g` after every list no longer than it. */
  function InsertByLen(g: seq<EventMeta>, sorted: seq<seq<EventMeta>>): (r: seq<seq<EventMeta>>)
    requires forall i, j :: 0 <= i < j < |sorted| ==> |sorted[i]| <= |sorted[j]|
    ensures forall x :: x in r <==> x in sorted || x == g
    ensures forall i, j :: 0 <= i < j < |r| ==> |r[i]| <= |r[j]|
    ensures |r| == |sorted| + 1
    ensures |r[0]| == |g| || (sorted != [] && r[0] == sorted[0])
  {
    if sorted == [] then [g]
    else if |g| < |sorted[0]| then [g] + sorted
    else
      var rest := InsertByLen(g, sorted[1..]);
      assert sorted == [sorted[0]] + sorted[1..];
      [sorted[0]] + rest
  }

  /** The lists ordered by size, lists of equal size in their original order. */
  function SortByLen(gs: seq<seq<EventMeta>>): (r: seq<seq<EventMeta>>)
    ensures forall x :: x in r <==> x in gs
    ensures forall i, j :: 0 <= i < j < |r| ==> |r[i]| <= |r[j]|
    ensures |r| == |gs|
    decreases |gs|
  {
    if gs == [] then []
    else
      assert gs == gs[..|gs| - 1] + [gs[|gs| - 1]];
      InsertByLen(gs[|gs| - 1], SortByLen(gs[..|gs| - 1]))
  }

  /** Inserting adds the list once and keeps every other list as often as before. */
  lemma {:induction false} InsertByLenPermutes(g: seq<EventMeta>, sorted: seq<seq<EventMeta>>)
    requires forall i, j :: 0 <= i < j < |sorted| ==> |sorted[i]| <= |sorted[j]|
    ensures multiset(InsertByLen(g, sorted)) == multiset(sorted) + multiset{g}
    decreases |sorted|
  {
    if sorted != [] && |g| >= |sorted[0]| {
      var rest := sorted[1..];
      InsertByLenPermutes(g, rest);
      assert InsertByLen(g, sorted) == [sorted[0]] + InsertByLen(g, rest);
      assert sorted == [sorted[0]] + rest;
    }
  }

  /** The sorted lists are a permutation of the input lists. */
  lemma {:induction false} SortByLenPermutes(gs: seq<seq<EventMeta>>)
    ensures multiset(SortByLen(gs)) == multiset(gs)
    decreases |gs|
  {
    if gs != [] {
      var init, last := gs[..|gs| - 1], gs[|gs| - 1];
      var sorted := SortByLen(init);
      SortByLenPermutes(init);
      InsertByLenPermutes(last, sorted);
      assert SortByLen(gs) == InsertByLen(last, sorted);
      MultisetSnocStep(gs, sorted, SortByLen(gs));
    }
  }

  /** Inserting a list adds exactly its elements to the concatenation. */
  lemma {:induction false} InsertByLenFlatten(g: seq<EventMeta>, sorted: seq<seq<EventMeta>>)
    requires forall i, j :: 0 <= i < j < |sorted| ==> |sorted[i]| <= |sorted[j]|
    ensures multiset(Flatten(InsertByLen(g, sorted))) == multiset(Flatten(sorted)) + multiset(g)
    decreases |sorted|
  {
    if sorted != [] && |g| >= |sorted[0]| {
      var rest := sorted[1..];
      InsertByLenFlatten(g, rest);
      assert InsertByLen(g, sorted) == [sorted[0]] + InsertByLen(g, rest);
      assert Flatten(sorted) == sorted[0] + Flatten(rest);
    }
  }

  /** Sorting keeps the events the lists hold, each as often. */
  lemma {:induction false} SortByLenFlatten(gs: seq<seq<EventMeta>>)
    ensures multiset(Flatten(SortByLen(gs))) == multiset(Flatten(gs))
    decreases |gs|
  {
    if gs != [] {
      var init, last := gs[..|gs| - 1], gs[|gs| - 1];
      SortByLenFlatten(init);
      InsertByLenFlatten(last, SortByLen(init));
      assert gs == init + [last];
      FlattenAppend(init, [last]);
      assert Flatten([last]) == last;
    }
  }

  // ---------------------------------------------------------------------------
  // The share loop
  // ---------------------------------------------------------------------------

  /** `max(1, remaining // groups_left)`. With a positive divisor Dafny's `/`
      rounds toward minus infinity, as Python's `//` does, also for a negative
      `remaining`. */
  function Share(remaining: int, left: nat): (s: int)
    requires left > 0
    ensures s >= 1
  {
    Max(1, remaining / left)
  }

  /** The whole list when it fits its share, otherwise a sample of the share's size. */
  function Take(lst: seq<EventMeta>, share: int, sample: Sampler<EventMeta>): seq<EventMeta>
    requires share >= 1
  {
    if |lst| <= share then lst else sample(lst, share)
  }

  datatype Progress = Progress(takes: seq<seq<EventMeta>>, remaining: int)

  /** One pass of the loop body, for list `i`. */
  function Step(lists: seq<seq<EventMeta>>, sample: Sampler<EventMeta>, p: Progress, i: nat): Progress
    requires i < |lists|
  {
    var share := Share(p.remaining, |lists| - i);
    Progress(p.takes + [Take(lists[i], share, sample)], p.remaining - Min(|lists[i]|, share))
  }

  /** The samples taken from the first `n` lists and the count left over. */
  function Steps(lists: seq<seq<EventMeta>>, target: int, sample: Sampler<EventMeta>, n: nat): (p: Progress)
    requires n <= |lists|
    ensures |p.takes| == n
  {
    if n == 0 then Progress([], target)
    else Step(lists, sample, Steps(lists, target, sample, n - 1), n - 1)
  }

  /** The share the `i`-th list receives. */
  function ShareAt(lists: seq<seq<EventMeta>>, target: int, sample: Sampler<EventMeta>, i: nat): (s: int)
    requires i < |lists|
    ensures s >= 1
  {
    Share(Steps(lists, target, sample, i).remaining, |lists| - i)
  }

  /** Each of the first `n` takes is its list cut to the share it receives. */
  lemma StepsTakes(lists: seq<seq<EventMeta>>, target: int, sample: Sampler<EventMeta>, n: nat)
    requires n <= |lists|
    ensures forall i :: 0 <= i < n ==>
              Steps(lists, target, sample, n).takes[i] == Take(lists[i], ShareAt(lists, target, sample, i), sample)
  {
    forall i | 0 <= i < n ensures Steps(lists, target, sample, n).takes[i] == Take(lists[i], ShareAt(lists, target, sample, i), sample) {
      StepsTakeAt(lists, target, sample, n, i);
    }
  }

  /** The take of list `i` is that list cut to the share it receives. */
  lemma {:induction false} StepsTakeAt(lists: seq<seq<EventMeta>>, target: int, sample: Sampler<EventMeta>, n: nat, i: nat)
    requires i < n <= |lists|
    ensures Steps(lists, target, sample, n).takes[i] == Take(lists[i], ShareAt(lists, target, sample, i), sample)
  {
    var q := Steps(lists, target, sample, n - 1);
    var takes := Steps(lists, target, sample, n).takes;
    assert takes == q.takes + [Take(lists[n - 1], ShareAt(lists, target, sample, n - 1), sample)];
    if i < n - 1 {
      StepsTakeAt(lists, target, sample, n - 1, i);
      assert takes[i] == q.takes[i];
    }
  }

  /** Every step keeps `len(sampled) + remaining == target`. */
  lemma {:induction false} StepsInvariant(lists: seq<seq<EventMeta>>, target: int, sample: Sampler<EventMeta>, n: nat)
    requires DrawsFrom(sample)
    requires n <= |lists|
    ensures var p := Steps(lists, target, sample, n);
            |Flatten(p.takes)| + p.remaining == target
  {
    if n > 0 {
      StepsInvariant(lists, target, sample, n - 1);
      var q := Steps(lists, target, sample, n - 1);
      var share := ShareAt(lists, target, sample, n - 1);
      var t := Take(lists[n - 1], share, sample);
      assert Steps(lists, target, sample, n) == Progress(q.takes + [t], q.remaining - Min(|lists[n - 1]|, share));
      TakeFacts(lists[n - 1], share, sample);
      FlattenAppend(q.takes, [t]);
      assert Flatten([t]) == t;
    }
  }

  /** A take holds `min(len, share)` of the list's own elements. */
  lemma TakeFacts(lst: seq<EventMeta>, share: int, sample: Sampler<EventMeta>)
    requires DrawsFrom(sample)
    requires share >= 1
    ensures |Take(lst, share, sample)| == Min(|lst|, share)
    ensures multiset(Take(lst, share, sample)) <= multiset(lst)
  {
  }

  /** The sample: the input itself when it is small enough, otherwise the
      concatenation of the per-category takes, smallest category first. */
  function Stratified(events: seq<EventMeta>, target: int, sample: Sampler<EventMeta>): seq<EventMeta>
  {
    if |events| <= target then events
    else
      var lists := SortByLen(Groups(events));
      Flatten(Steps(lists, target, sample, |lists|).takes)
  }

  method StratifiedSample(events: seq<EventMeta>, target: int, sample: Sampler<EventMeta>) returns (sampled: seq<EventMeta>)
    ensures sampled == Stratified(events, target, sample)
  {
    if |events| <= target {
      return events;
    }
    var groups := GroupByCategory(events);
    var lists := SortByLen(groups);
    sampled := TakeShares(lists, target, sample);
  }

  /** The `for i, lst in enumerate(cat_lists)` loop. */
  method TakeShares(lists: seq<seq<EventMeta>>, target: int, sample: Sampler<EventMeta>) returns (sampled: seq<EventMeta>)
    ensures sampled == Flatten(Steps(lists, target, sample, |lists|).takes)
  {
    sampled := [];
    var remaining := target;
    ghost var takes: seq<seq<EventMeta>> := [];
    for i := 0 to |lists|
      invariant Steps(lists, target, sample, i) == Progress(takes, remaining)
      invariant sampled == Flatten(takes)
    {
      var lst := lists[i];
      var share := Max(1, remaining / (|lists| - i));
      var take := if |lst| <= share then lst else sample(lst, share);
      assert Steps(lists, target, sample, i + 1) == Step(lists, sample, Progress(takes, remaining), i);
      FlattenAppend(takes, [take]);
      assert Flatten([take]) == take;
      sampled := sampled + take;
      remaining := remaining - Min(|lst|, share);
      takes := takes + [take];
    }
  }

  // ---------------------------------------------------------------------------
  // What the sample guarantees
  // ---------------------------------------------------------------------------

  lemma {:induction false} FlattenMember<T>(xss: seq<seq<T>>, i: nat, k: nat)
    requires i < |xss| && k < |xss[i]|
    ensures xss[i][k] in Flatten(xss)
    decreases i
  {
    if i > 0 {
      FlattenMember(xss[1..], i - 1, k);
    }
  }

  /** Concatenations of pointwise sub-multisets form a sub-multiset. */
  lemma {:induction false} FlattenSubMultiset<T>(takes: seq<seq<T>>, lists: seq<seq<T>>)
    requires |takes| == |lists|
    requires forall i :: 0 <= i < |takes| ==> multiset(takes[i]) <= multiset(lists[i])
    ensures multiset(Flatten(takes)) <= multiset(Flatten(lists))
    decreases |takes|
  {
    if takes != [] {
      FlattenSubMultiset(takes[1..], lists[1..]);
    }
  }

  /** List `i` contributes exactly `min(len, share)` of its own elements. */
  lemma StepsDraw(lists: seq<seq<EventMeta>>, target: int, sample: Sampler<EventMeta>, n: nat)
    requires DrawsFrom(sample)
    requires n <= |lists|
    ensures forall i :: 0 <= i < n ==>
              |Steps(lists, target, sample, n).takes[i]| == Min(|lists[i]|, ShareAt(lists, target, sample, i))
              && multiset(Steps(lists, target, sample, n).takes[i]) <= multiset(lists[i])
  {
    StepsTakes(lists, target, sample, n);
    forall i | 0 <= i < n
      ensures |Steps(lists, target, sample, n).takes[i]| == Min(|lists[i]|, ShareAt(lists, target, sample, i))
      ensures multiset(Steps(lists, target, sample, n).takes[i]) <= multiset(lists[i])
    {
      TakeFacts(lists[i], ShareAt(lists, target, sample, i), sample);
    }
  }

  /** Each list of the size order is the whole event list of one category. */
  lemma SortedListIsCategory(events: seq<EventMeta>, i: nat)
    requires i < |SortByLen(Groups(events))|
    ensures exists c :: c in Categories(events) && SortByLen(Groups(events))[i] == OfCategory(events, c)
  {
    var gs := Groups(events);
    var cats := Categories(events);
    var g := SortByLen(gs)[i];
    assert g in SortByLen(gs);
    assert g in gs;
    var j :| 0 <= j < |gs| && gs[j] == g;
    assert cats[j] in cats;
    assert g == OfCategory(events, cats[j]);
  }

  /** The sample draws each event at most as often as the input holds it. */
  lemma StratifiedWithinInput(events: seq<EventMeta>, target: int, sample: Sampler<EventMeta>)
    requires DrawsFrom(sample)
    ensures multiset(Stratified(events, target, sample)) <= multiset(events)
  {
    if |events| > target {
      var gs := Groups(events);
      var lists := SortByLen(gs);
      var p := Steps(lists, target, sample, |lists|);
      StepsDraw(lists, target, sample, |lists|);
      GroupsPartition(events);
      FlattenSubMultiset(p.takes, lists);
      SortByLenFlatten(gs);
    }
  }

  /** Every category of the input is represented by at least one of its events. */
  lemma StratifiedCovers(events: seq<EventMeta>, target: int, sample: Sampler<EventMeta>)
    requires DrawsFrom(sample)
    ensures var r := Stratified(events, target, sample);
            forall c :: c in Categories(events) ==> exists k :: 0 <= k < |r| && r[k].category == c
  {
    forall c | c in Categories(events)
      ensures exists k :: 0 <= k < |Stratified(events, target, sample)| && Stratified(events, target, sample)[k].category == c
    {
      CategoryRepresented(events, target, sample, c);
    }
  }

  /** Events drawn from a list of one category are of that category. */
  lemma SameCategory(t: seq<EventMeta>, g: seq<EventMeta>, c: string)
    requires multiset(t) <= multiset(g)
    requires forall k :: 0 <= k < |g| ==> g[k].category == c
    ensures forall k :: 0 <= k < |t| ==> t[k].category == c
  {
    forall k | 0 <= k < |t| ensures t[k].category == c {
      assert t[k] in multiset(t);
      assert t[k] in g;
    }
  }

  lemma CategoryRepresented(events: seq<EventMeta>, target: int, sample: Sampler<EventMeta>, c: string)
    requires DrawsFrom(sample)
    requires c in Categories(events)
    ensures var r := Stratified(events, target, sample);
            exists k :: 0 <= k < |r| && r[k].category == c
  {
    var cats := Categories(events);
    var gs := Groups(events);
    var j :| 0 <= j < |cats| && cats[j] == c;
    var g := gs[j];
    assert g == OfCategory(events, c);
    GroupsNonEmpty(events);
    OfCategoryFacts(events, c);
    if |events| <= target {
      assert g != [];
      assert g[0] in multiset(g);
      assert g[0] in multiset(events);
      var m :| 0 <= m < |events| && events[m] == g[0];
      assert events[m].category == c;
      assert Stratified(events, target, sample) == events;
    } else {
      var r := Stratified(events, target, sample);
      var lists := SortByLen(gs);
      assert g in gs;
      var i :| 0 <= i < |lists| && lists[i] == g;
      var t := TakeAt(lists, target, sample, i);
      assert |t| >= 1;
      SameCategory(t, g, c);
      var p := Steps(lists, target, sample, |lists|);
      FlattenMember(p.takes, i, 0);
      var k :| 0 <= k < |r| && r[k] == t[0];
      assert r[k].category == c;
    }
  }

  /** The take of list `i` in a full run, with its size and origin. */
  lemma TakeAt(lists: seq<seq<EventMeta>>, target: int, sample: Sampler<EventMeta>, i: nat) returns (t: seq<EventMeta>)
    requires DrawsFrom(sample)
    requires i < |lists|
    ensures t == Steps(lists, target, sample, |lists|).takes[i]
    ensures |t| == Min(|lists[i]|, ShareAt(lists, target, sample, i))
    ensures multiset(t) <= multiset(lists[i])
  {
    StepsTakes(lists, target, sample, |lists|);
    t := Steps(lists, target, sample, |lists|).takes[i];
    TakeFacts(lists[i], ShareAt(lists, target, sample, i), sample);
  }

  /** The account of a sampled run: the contributions plus what remains add up
      to the target. */
  lemma StratifiedAccount(events: seq<EventMeta>, target: int, sample: Sampler<EventMeta>)
    requires DrawsFrom(sample)
    requires |events| > target
    ensures var lists := SortByLen(Groups(events));
            var p := Steps(lists, target, sample, |lists|);
            && Stratified(events, target, sample) == Flatten(p.takes)
            && |Stratified(events, target, sample)| + p.remaining == target
  {
    var lists := SortByLen(Groups(events));
    StepsInvariant(lists, target, sample, |lists|);
  }

  // ---------------------------------------------------------------------------
  // The loop as written: `take = len(lst)` makes `sampled += take` raise
  // ---------------------------------------------------------------------------

  /** The steps of the code as written: None once a list fits its share, where
      `take` is the integer `len(lst)` and `list += int` raises TypeError. */
  function StepsAsWritten(lists: seq<seq<EventMeta>>, target: int, sample: Sampler<EventMeta>, n: nat): Option<Progress>
    requires n <= |lists|
  {
    if n == 0 then Some(Progress([], target))
    else
      var prev := StepsAsWritten(lists, target, sample, n - 1);
      if prev.None? then None else StepAsWritten(lists, sample, prev.value, n - 1)
  }

  /** One pass of the loop body as written: raises when the list fits its share. */
  function StepAsWritten(lists: seq<seq<EventMeta>>, sample: Sampler<EventMeta>, p: Progress, i: nat): Option<Progress>
    requires i < |lists|
  {
    var share := Share(p.remaining, |lists| - i);
    if |lists[i]| <= share then None
    else Some(Progress(p.takes + [sample(lists[i], share)], p.remaining - share))
  }

  /** A pass that does not raise is the corrected pass. */
  lemma StepAsWrittenAgrees(lists: seq<seq<EventMeta>>, sample: Sampler<EventMeta>, p: Progress, i: nat)
    requires i < |lists|
    ensures StepAsWritten(lists, sample, p, i).Some? <==> |lists[i]| > Share(p.remaining, |lists| - i)
    ensures StepAsWritten(lists, sample, p, i).Some? ==> StepAsWritten(lists, sample, p, i) == Some(Step(lists, sample, p, i))
  {
  }

  /** `stratified_sample_events` as written; None is the TypeError. */
  function StratifiedAsWritten(events: seq<EventMeta>, target: int, sample: Sampler<EventMeta>): Option<seq<EventMeta>>
  {
    if |events| <= target then Some(events)
    else
      var lists := SortByLen(Groups(events));
      match StepsAsWritten(lists, target, sample, |lists|)
      case None => None
      case Some(p) => Some(Flatten(p.takes))
  }

  /** Where the code as written gets through, it agrees with the corrected loop. */
  lemma {:induction false} StepsAsWrittenAgrees(lists: seq<seq<EventMeta>>, target: int, sample: Sampler<EventMeta>, n: nat)
    requires n <= |lists|
    requires StepsAsWritten(lists, target, sample, n).Some?
    ensures StepsAsWritten(lists, target, sample, n) == Some(Steps(lists, target, sample, n))
  {
    if n > 0 {
      StepsAsWrittenAgrees(lists, target, sample, n - 1);
      StepAsWrittenAgrees(lists, sample, Steps(lists, target, sample, n - 1), n - 1);
    }
  }

  /** List `i` is no larger than the share it receives. */
  predicate Fits(lists: seq<seq<EventMeta>>, target: int, sample: Sampler<EventMeta>, i: nat)
    requires i < |lists|
  {
    |lists[i]| <= ShareAt(lists, target, sample, i)
  }

  /** The code as written raises exactly when some list fits its share. */
  lemma {:induction false} StepsAsWrittenRaises(lists: seq<seq<EventMeta>>, target: int, sample: Sampler<EventMeta>, n: nat)
    requires n <= |lists|
    ensures StepsAsWritten(lists, target, sample, n).None?
            <==> exists i :: 0 <= i < n && Fits(lists, target, sample, i)
  {
    if n > 0 {
      StepsAsWrittenRaises(lists, target, sample, n - 1);
      var prev := StepsAsWritten(lists, target, sample, n - 1);
      if prev.None? {
        var i :| 0 <= i < n - 1 && Fits(lists, target, sample, i);
        assert 0 <= i < n && Fits(lists, target, sample, i);
      } else {
        StepsAsWrittenAgrees(lists, target, sample, n - 1);
        var p := Steps(lists, target, sample, n - 1);
        assert prev.value == p;
        StepAsWrittenAgrees(lists, sample, p, n - 1);
        assert Fits(lists, target, sample, n - 1) <==> |lists[n - 1]| <= Share(p.remaining, |lists| - (n - 1));
        if !Fits(lists, target, sample, n - 1) {
          forall i | 0 <= i < n ensures !Fits(lists, target, sample, i) {
            if i < n - 1 {
              assert !(0 <= i < n - 1 && Fits(lists, target, sample, i));
            }
          }
        }
      }
    }
  }

  /** Two events of two categories. */
  function TwoCategories(): seq<EventMeta>
  {
    [EventMeta("A-1", "Sports"), EventMeta("B-1", "Politics")]
  }

  lemma TwoCategoriesLists()
    ensures SortByLen(Groups(TwoCategories())) == [[TwoCategories()[0]], [TwoCategories()[1]]]
  {
    var events := TwoCategories();
    var a, b := events[0], events[1];
    assert events[..1] == [a];
    assert [a][..0] == [];
    assert Categories([a]) == ["Sports"];
    assert Categories(events) == ["Sports", "Politics"];
    assert OfCategory([a], "Sports") == [a];
    assert OfCategory([a], "Politics") == [];
    assert OfCategory(events, "Sports") == [a];
    assert OfCategory(events, "Politics") == [b];
    var gs := Groups(events);
    assert gs == [[a], [b]];
    assert gs[..1] == [[a]];
    assert SortByLen([[a]]) == [[a]];
    assert [[a]][1..] == [];
    assert InsertByLen([b], [[a]]) == [[a]] + InsertByLen([b], []);
  }

  /** With a target of one, the first category (one event) fits its share of
      one, so the code as written raises. */
  lemma AsWrittenRaisesOnSmallCategory(sample: Sampler<EventMeta>)
    ensures StratifiedAsWritten(TwoCategories(), 1, sample).None?
  {
    var events := TwoCategories();
    var a, b := events[0], events[1];
    TwoCategoriesLists();
    var lists := [[a], [b]];
    assert SortByLen(Groups(events)) == lists;
    assert 1 / 2 == 0;
    assert StepsAsWritten(lists, 1, sample, 0) == Some(Progress([], 1));
    assert StepsAsWritten(lists, 1, sample, 1).None?;
    assert StepsAsWritten(lists, 1, sample, 2).None?;
  }

  /** On the same input the corrected loop takes both categories whole. */
  lemma CorrectedKeepsSmallCategory(sample: Sampler<EventMeta>)
    ensures Stratified(TwoCategories(), 1, sample) == TwoCategories()
  {
    var events := TwoCategories();
    var a, b := events[0], events[1];
    TwoCategoriesLists();
    StratifiedOver(events, 1, sample, [[a], [b]]);
    TwoSingletonsTaken(a, b, sample);
    FlattenTwo(a, b);
    assert events == [a, b];
  }

  lemma FlattenTwo<T>(a: T, b: T)
    ensures Flatten([[a], [b]]) == [a, b]
  {
    var xss: seq<seq<T>> := [[a], [b]];
    assert xss[1..] == [[b]] && xss[1..][1..] == [];
    assert Flatten(xss[1..]) == [b] + Flatten([]) == [b];
    assert Flatten(xss) == [a] + [b];
  }

  /** Above the target, the sample is the takes of the loop over the sorted groups. */
  lemma StratifiedOver(events: seq<EventMeta>, target: int, sample: Sampler<EventMeta>, lists: seq<seq<EventMeta>>)
    requires |events| > target && SortByLen(Groups(events)) == lists
    ensures Stratified(events, target, sample) == Flatten(Steps(lists, target, sample, |lists|).takes)
  {
  }

  /** Two one-event lists with a target of one are both taken whole. */
  lemma TwoSingletonsTaken(a: EventMeta, b: EventMeta, sample: Sampler<EventMeta>)
    ensures Steps([[a], [b]], 1, sample, 2).takes == [[a], [b]]
  {
    var lists := [[a], [b]];
    assert Steps(lists, 1, sample, 0) == Progress([], 1);
    assert 1 / 2 == 0;
    assert Share(1, 2) == 1 && Take([a], 1, sample) == [a];
    assert Steps(lists, 1, sample, 1) == Step(lists, sample, Progress([], 1), 0) == Progress([[a]], 0);
    assert 0 / 1 == 0;
    assert Share(0, 1) == 1 && Take([b], 1, sample) == [b];
    assert Steps(lists, 1, sample, 2) == Step(lists, sample, Progress([[a]], 0), 1) == Progress([[a], [b]], -1);
  }
}
