/**
 * src/service/drillDataService.ts: deduplication of search results by
 * normalised title, the availability filter over a drill catalogue, and
 * the category fallback chain.
 */
module DrillDataService {
  import opened Drills
  import opened JsString
  import opened StableSort
  import opened Seqs

  /** `drill.title.toLowerCase().trim()`. */
  function NormalizedTitle(d: Drill): string {
    Trim(ToLowerCase(d.title))
  }

  /** `drill.drill.title.toLowerCase().trim()`, the key `deduplicateByTitle` groups by. */
  function TitleOf(d: ScoredDrill): string {
    NormalizedTitle(d.drill)
  }

  /** The sort key of the final `sort`: relevance score, descending. */
  function ScoreKey(d: ScoredDrill): Key {
    Key(d.relevanceScore, 0.0)
  }

  /**
   * The state of the `forEach` in `deduplicateByTitle`: the keys of
   * `titleMap` in insertion order (the order `titleMap.values()` yields),
   * the map itself, and `duplicatesRemoved`. The scan and its lemmas take
   * the normalisation `norm` as a parameter; the source's is `TitleOf`.
   */
  datatype Dedup = Dedup(order: seq<string>, kept: map<string, ScoredDrill>, removed: nat)

  /** One drill seen: it replaces the kept drill of its title only with a strictly higher score. */
  function Step(st: Dedup, d: ScoredDrill, norm: ScoredDrill -> string): Dedup {
    var t := norm(d);
    if t !in st.kept then Dedup(st.order + [t], st.kept[t := d], st.removed)
    else if d.relevanceScore > st.kept[t].relevanceScore then Dedup(st.order, st.kept[t := d], st.removed + 1)
    else Dedup(st.order, st.kept, st.removed + 1)
  }

  /** The state after the `forEach` has seen all of `drills`. */
  function Scan(drills: seq<ScoredDrill>, norm: ScoredDrill -> string): Dedup {
    if drills == [] then Dedup([], map[], 0)
    else Step(Scan(drills[..|drills| - 1], norm), drills[|drills| - 1], norm)
  }

  /** The scan of one more drill is one more step. */
  lemma ScanNext(drills: seq<ScoredDrill>, i: nat, norm: ScoredDrill -> string)
    requires i < |drills|
    ensures Scan(drills[..i + 1], norm) == Step(Scan(drills[..i], norm), drills[i], norm)
  {
    assert drills[..i + 1][..i] == drills[..i];
  }

  /** The keys are listed once each, they are exactly the map's keys, and each maps to a drill with that title. */
  ghost predicate WellFormed(st: Dedup, norm: ScoredDrill -> string) {
    && Distinct(st.order)
    && (forall t :: t in st.kept <==> t in st.order)
    && (forall t :: t in st.kept ==> norm(st.kept[t]) == t)
  }

  /** The normalised titles occurring in `drills`. */
  function Titles(drills: seq<ScoredDrill>, norm: ScoredDrill -> string): set<string> {
    set i | 0 <= i < |drills| :: norm(drills[i])
  }

  /** The scan keeps one key per distinct title, and counts every other drill as removed. */
  lemma {:induction false} ScanWellFormed(drills: seq<ScoredDrill>, norm: ScoredDrill -> string)
    ensures WellFormed(Scan(drills, norm), norm)
    ensures Elements(Scan(drills, norm).order) == Titles(drills, norm)
    ensures |Scan(drills, norm).order| + Scan(drills, norm).removed == |drills|
  {
    if drills != [] {
      var init, d := drills[..|drills| - 1], drills[|drills| - 1];
      ScanWellFormed(init, norm);
      var st := Scan(init, norm);
      var t := norm(d);
      if t !in st.kept {
        assert Distinct(st.order + [t]) by {
          forall i | 0 <= i < |st.order|
            ensures st.order[i] != t
          {
            assert st.order[i] in st.order;
          }
        }
      }
      assert Titles(drills, norm) == Titles(init, norm) + {t} by {
        forall x | x in Titles(drills, norm)
          ensures x in Titles(init, norm) + {t}
        {
          var i :| 0 <= i < |drills| && norm(drills[i]) == x;
          if i < |init| {
            assert drills[i] == init[i];
          }
        }
        forall x | x in Titles(init, norm)
          ensures x in Titles(drills, norm)
        {
          var i :| 0 <= i < |init| && norm(init[i]) == x;
          assert drills[i] == init[i];
        }
      }
    }
  }

  /**
   * `drills[j]` is the drill kept for title `t`: it has that title, no drill
   * with that title scores higher, and every earlier drill with that title
   * scores strictly lower (the comparison is a strict `>`, so the first of
   * equal scores stays).
   */
  ghost predicate KeptFor(drills: seq<ScoredDrill>, norm: ScoredDrill -> string, t: string, j: nat) {
    && j < |drills|
    && norm(drills[j]) == t
    && (forall i :: 0 <= i < |drills| && norm(drills[i]) == t ==> drills[i].relevanceScore <= drills[j].relevanceScore)
    && (forall i :: 0 <= i < j && norm(drills[i]) == t ==> drills[i].relevanceScore < drills[j].relevanceScore)
  }

  /** `d` is one of `drills`, the one kept for its title. */
  ghost predicate IsKept(drills: seq<ScoredDrill>, norm: ScoredDrill -> string, d: ScoredDrill) {
    exists j: nat :: KeptFor(drills, norm, norm(d), j) && d == drills[j]
  }

  /** The last drill becomes the kept one when it beats the previously kept drill of its title, or has a new title. */
  lemma KeptForLast(drills: seq<ScoredDrill>, norm: ScoredDrill -> string, j: nat)
    requires |drills| > 0
    requires var n := |drills| - 1;
      || (forall i :: 0 <= i < n ==> norm(drills[i]) != norm(drills[n]))
      || (KeptFor(drills[..n], norm, norm(drills[n]), j) && drills[n].relevanceScore > drills[j].relevanceScore)
    ensures KeptFor(drills, norm, norm(drills[|drills| - 1]), |drills| - 1)
  {
    var n := |drills| - 1;
    var t := norm(drills[n]);
    forall i | 0 <= i < n && norm(drills[i]) == t
      ensures drills[i].relevanceScore < drills[n].relevanceScore
    {
      assert drills[..n][i] == drills[i];
    }
  }

  /** A kept drill stays kept when the last drill has another title or does not beat it. */
  lemma KeptForStays(drills: seq<ScoredDrill>, norm: ScoredDrill -> string, t: string, j: nat)
    requires |drills| > 0
    requires var n := |drills| - 1;
      KeptFor(drills[..n], norm, t, j) && (norm(drills[n]) != t || drills[n].relevanceScore <= drills[j].relevanceScore)
    ensures KeptFor(drills, norm, t, j)
  {
    var n := |drills| - 1;
    forall i | 0 <= i < |drills| && norm(drills[i]) == t
      ensures drills[i].relevanceScore <= drills[j].relevanceScore
    {
      if i < n {
        assert drills[..n][i] == drills[i];
      }
    }
    forall i | 0 <= i < j && norm(drills[i]) == t
      ensures drills[i].relevanceScore < drills[j].relevanceScore
    {
      assert drills[..n][i] == drills[i];
    }
  }

  /** For every title, the map holds the highest-scoring drill with that title, the first one on a tie. */
  lemma {:induction false} ScanKeepsBest(drills: seq<ScoredDrill>, norm: ScoredDrill -> string)
    ensures forall t :: t in Scan(drills, norm).kept ==>
      exists j: nat :: KeptFor(drills, norm, t, j) && Scan(drills, norm).kept[t] == drills[j]
  {
    if drills != [] {
      var n := |drills| - 1;
      var init, d := drills[..n], drills[n];
      ScanKeepsBest(init, norm);
      ScanWellFormed(init, norm);
      var st := Scan(init, norm);
      forall t | t in Scan(drills, norm).kept
        ensures exists j: nat :: KeptFor(drills, norm, t, j) && Scan(drills, norm).kept[t] == drills[j]
      {
        if t == norm(d) && t !in st.kept {
          forall i | 0 <= i < n
            ensures norm(drills[i]) != t
          {
            assert drills[i] == init[i];
            assert norm(init[i]) in Titles(init, norm);
          }
          KeptForLast(drills, norm, 0);
        } else {
          assert t in st.kept;
          var j: nat :| KeptFor(init, norm, t, j) && st.kept[t] == init[j];
          if t == norm(d) && d.relevanceScore > st.kept[t].relevanceScore {
            KeptForLast(drills, norm, j);
          } else {
            KeptForStays(drills, norm, t, j);
          }
        }
      }
    }
  }

  /** `Array.from(titleMap.values())`. */
  function Values(st: Dedup): (vs: seq<ScoredDrill>)
    requires forall i :: 0 <= i < |st.order| ==> st.order[i] in st.kept
    ensures |vs| == |st.order|
    ensures forall i :: 0 <= i < |vs| ==> vs[i] == st.kept[st.order[i]]
  {
    seq(|st.order|, i requires 0 <= i < |st.order| => st.kept[st.order[i]])
  }

  /** Deduplication under the normalisation `norm`: the kept drills, sorted by score. */
  function DeduplicatedBy(drills: seq<ScoredDrill>, norm: ScoredDrill -> string): seq<ScoredDrill> {
    ScanWellFormed(drills, norm);
    Sort(Values(Scan(drills, norm)), ScoreKey)
  }

  /** What `deduplicateByTitle` returns. */
  function Deduplicated(drills: seq<ScoredDrill>): seq<ScoredDrill> {
    DeduplicatedBy(drills, TitleOf)
  }

  /**
   * `deduplicateByTitle`: the `forEach` over `drills` updating `titleMap`
   * and `duplicatesRemoved`, then the values sorted by score. The count,
   * which the source only logs, is returned as well.
   */
  method DeduplicateByTitle(drills: seq<ScoredDrill>) returns (unique: seq<ScoredDrill>, duplicatesRemoved: nat)
    ensures unique == Deduplicated(drills)
    ensures duplicatesRemoved == |drills| - |Titles(drills, TitleOf)|
  {
    var titles, titleMap;
    titles, titleMap, duplicatesRemoved := GroupByTitle(drills);
    var st := Dedup(titles, titleMap, duplicatesRemoved);
    ScanWellFormed(drills, TitleOf);
    assert |titles| + duplicatesRemoved == |drills|;
    DistinctCard(titles);
    unique := SortedValues(st);
  }

  /** `Array.from(titleMap.values()).sort(...)`: the kept drills in insertion order, sorted in place by score. */
  method SortedValues(st: Dedup) returns (unique: seq<ScoredDrill>)
    requires forall i :: 0 <= i < |st.order| ==> st.order[i] in st.kept
    ensures unique == Sort(Values(st), ScoreKey)
  {
    var values := new ScoredDrill[|st.order|](k requires 0 <= k < |st.order| => st.kept[st.order[k]]);
    assert values[..] == Values(st);
    SortInPlace(values, ScoreKey);
    unique := values[..];
  }

  /** The `forEach` of `deduplicateByTitle`: `titles` lists the keys of `titleMap` in insertion order. */
  method GroupByTitle(drills: seq<ScoredDrill>)
    returns (titles: seq<string>, titleMap: map<string, ScoredDrill>, duplicatesRemoved: nat)
    ensures Dedup(titles, titleMap, duplicatesRemoved) == Scan(drills, TitleOf)
  {
    titles := [];
    titleMap := map[];
    duplicatesRemoved := 0;
    var i := 0;
    while i < |drills|
      invariant 0 <= i <= |drills|
      invariant Dedup(titles, titleMap, duplicatesRemoved) == Scan(drills[..i], TitleOf)
    {
      ScanNext(drills, i, TitleOf);
      titles, titleMap, duplicatesRemoved := Record(titles, titleMap, duplicatesRemoved, drills[i]);
      i := i + 1;
    }
    assert drills[..i] == drills;
  }

  /** The callback of the `forEach`: a drill replaces the kept drill of its title only when it scores strictly higher. */
  method Record(titles: seq<string>, titleMap: map<string, ScoredDrill>, duplicatesRemoved: nat, drill: ScoredDrill)
    returns (titles': seq<string>, titleMap': map<string, ScoredDrill>, duplicatesRemoved': nat)
    ensures Dedup(titles', titleMap', duplicatesRemoved') == Step(Dedup(titles, titleMap, duplicatesRemoved), drill, TitleOf)
  {
    titles', titleMap', duplicatesRemoved' := titles, titleMap, duplicatesRemoved;
    var normalizedTitle := TitleOf(drill);
    if normalizedTitle !in titleMap || drill.relevanceScore > titleMap[normalizedTitle].relevanceScore {
      if normalizedTitle in titleMap {
        duplicatesRemoved' := duplicatesRemoved + 1;
      } else {
        titles' := titles + [normalizedTitle];
      }
      titleMap' := titleMap[normalizedTitle := drill];
    } else {
      duplicatesRemoved' := duplicatesRemoved + 1;
    }
  }

  /** The output holds at most one drill per normalised title. */
  lemma DeduplicatedTitlesDistinct(drills: seq<ScoredDrill>, norm: ScoredDrill -> string)
    ensures DistinctBy(DeduplicatedBy(drills, norm), norm)
  {
    ScanWellFormed(drills, norm);
    var st := Scan(drills, norm);
    var vs := Values(st);
    forall i, j | 0 <= i < j < |vs|
      ensures norm(vs[i]) != norm(vs[j])
    {
      assert st.order[i] in st.kept && st.order[j] in st.kept;
    }
    SortDistinctBy(vs, ScoreKey, norm);
  }

  /** The output is ordered by relevance score, highest first. */
  lemma DeduplicatedSorted(drills: seq<ScoredDrill>, norm: ScoredDrill -> string)
    ensures var r := DeduplicatedBy(drills, norm);
      forall i, j :: 0 <= i < j < |r| ==> r[i].relevanceScore >= r[j].relevanceScore
  {
    ScanWellFormed(drills, norm);
    SortSorted(Values(Scan(drills, norm)), ScoreKey);
  }

  /**
   * Every output drill is the input drill kept for its title: the highest
   * score among drills with that title, the first of them on a tie.
   */
  lemma DeduplicatedKeepsBest(drills: seq<ScoredDrill>, norm: ScoredDrill -> string)
    ensures var r := DeduplicatedBy(drills, norm);
      forall k :: 0 <= k < |r| ==> IsKept(drills, norm, r[k])
  {
    ScanWellFormed(drills, norm);
    ScanKeepsBest(drills, norm);
    var st := Scan(drills, norm);
    var vs := Values(st);
    var r := DeduplicatedBy(drills, norm);
    SortPermutes(vs, ScoreKey);
    forall k | 0 <= k < |r|
      ensures IsKept(drills, norm, r[k])
    {
      assert r[k] in multiset(vs);
      var m :| 0 <= m < |vs| && vs[m] == r[k];
      var t := st.order[m];
      assert t in st.kept && vs[m] == st.kept[t];
      assert norm(r[k]) == t;
      var j: nat :| KeptFor(drills, norm, t, j) && st.kept[t] == drills[j];
      assert KeptFor(drills, norm, norm(r[k]), j) && r[k] == drills[j];
    }
  }

  /** The output holds exactly one drill per normalised title of the input. */
  lemma DeduplicatedLength(drills: seq<ScoredDrill>)
    ensures |Deduplicated(drills)| == |Titles(drills, TitleOf)|
  {
    var st := Scan(drills, TitleOf);
    ScanWellFormed(drills, TitleOf);
    var vs := Values(st);
    assert Deduplicated(drills) == Sort(vs, ScoreKey);
    assert |vs| == |st.order|;
    DistinctCard(st.order);
  }

  /** Every normalised title of the input is represented in the output. */
  lemma DeduplicatedCoversTitles(drills: seq<ScoredDrill>, norm: ScoredDrill -> string)
    ensures var r := DeduplicatedBy(drills, norm);
      forall i :: 0 <= i < |drills| ==> exists k :: 0 <= k < |r| && norm(r[k]) == norm(drills[i])
  {
    ScanWellFormed(drills, norm);
    var st := Scan(drills, norm);
    var vs := Values(st);
    var r := DeduplicatedBy(drills, norm);
    SortPermutes(vs, ScoreKey);
    forall i | 0 <= i < |drills|
      ensures exists k :: 0 <= k < |r| && norm(r[k]) == norm(drills[i])
    {
      var t := norm(drills[i]);
      assert t in Titles(drills, norm);
      assert t in Elements(st.order);
      var m :| 0 <= m < |st.order| && st.order[m] == t;
      assert vs[m] in multiset(r);
      var k :| 0 <= k < |r| && r[k] == vs[m];
    }
  }

  /** Scanning drills whose titles are already distinct keeps every drill, in order. */
  lemma {:induction false} ScanOfDistinct(drills: seq<ScoredDrill>, norm: ScoredDrill -> string)
    requires DistinctBy(drills, norm)
    ensures |Scan(drills, norm).order| == |drills|
    ensures forall i :: 0 <= i < |drills| ==>
      Scan(drills, norm).order[i] == norm(drills[i]) && norm(drills[i]) in Scan(drills, norm).kept &&
      Scan(drills, norm).kept[norm(drills[i])] == drills[i]
  {
    if drills != [] {
      var n := |drills| - 1;
      var init := drills[..n];
      ScanOfDistinct(init, norm);
      ScanWellFormed(init, norm);
      var st := Scan(init, norm);
      var t := norm(drills[n]);
      forall m | 0 <= m < |st.order|
        ensures st.order[m] != t
      {
        assert init[m] == drills[m];
      }
      assert t !in st.order;
      forall i | 0 <= i < n
        ensures norm(drills[i]) != t
      {
      }
    }
  }

  /** Deduplicating twice gives the same result as deduplicating once. */
  lemma DeduplicateIdempotent(drills: seq<ScoredDrill>, norm: ScoredDrill -> string)
    ensures DeduplicatedBy(DeduplicatedBy(drills, norm), norm) == DeduplicatedBy(drills, norm)
  {
    var r := DeduplicatedBy(drills, norm);
    DeduplicatedTitlesDistinct(drills, norm);
    ScanOfDistinct(r, norm);
    ScanWellFormed(r, norm);
    assert Values(Scan(r, norm)) == r;
    DeduplicatedSorted(drills, norm);
    SortOfSorted(r, ScoreKey);
  }

  /** The predicate `getAvailableDrills` filters the catalogue with. */
  predicate IsAvailable(drill: Drill, userProgress: UserProgress, categories: Option<seq<string>>) {
    if drill.id in userProgress.completedDrillIds then false
    else if drill.prerequisites.Some? && |drill.prerequisites.value| > 0 then
      forall p :: p in drill.prerequisites.value ==> p in userProgress.completedDrillIds
    else if categories.Some? && |categories.value| > 0 then OrDefault(drill.category, "general") in categories.value
    else true
  }

  /** `catalogue.filter(drill => ...)`. */
  function FilterAvailable(catalogue: seq<Drill>, userProgress: UserProgress, categories: Option<seq<string>>): seq<Drill> {
    Seqs.Filter(catalogue, d => IsAvailable(d, userProgress, categories))
  }

  /** The filter returns catalogue drills, each available to the user. */
  lemma FilterAvailableSound(catalogue: seq<Drill>, userProgress: UserProgress, categories: Option<seq<string>>)
    ensures var r := FilterAvailable(catalogue, userProgress, categories);
      forall i :: 0 <= i < |r| ==> r[i] in catalogue && IsAvailable(r[i], userProgress, categories)
  {
    FilterSound(catalogue, d => IsAvailable(d, userProgress, categories));
  }

  /** Every available catalogue drill passes the filter. */
  lemma FilterAvailableComplete(catalogue: seq<Drill>, userProgress: UserProgress, categories: Option<seq<string>>, i: nat)
    requires i < |catalogue| && IsAvailable(catalogue[i], userProgress, categories)
    ensures catalogue[i] in FilterAvailable(catalogue, userProgress, categories)
  {
    FilterComplete(catalogue, d => IsAvailable(d, userProgress, categories), i);
  }

  /**
   * `getAvailableDrills` over `catalogue` (the source's placeholder for a
   * database query result): the filter, then the first `maxResults`.
   */
  function AvailableDrills(catalogue: seq<Drill>, userProgress: UserProgress, categories: Option<seq<string>>,
                           maxResults: nat): (r: seq<Drill>)
    ensures |r| <= maxResults
    ensures forall i :: 0 <= i < |r| ==> r[i] in catalogue && r[i].id !in userProgress.completedDrillIds
    ensures var passed := FilterAvailable(catalogue, userProgress, categories);
      |r| == (if maxResults < |passed| then maxResults else |passed|) && r == passed[..|r|]
  {
    FilterAvailableSound(catalogue, userProgress, categories);
    Take(FilterAvailable(catalogue, userProgress, categories), maxResults)
  }

  /**
   * When no more than `maxResults` drills pass the filter, every available
   * catalogue drill is returned, in catalogue order: the drills are the
   * filtered catalogue itself.
   */
  lemma AvailableDrillsComplete(catalogue: seq<Drill>, userProgress: UserProgress, categories: Option<seq<string>>,
                                maxResults: nat, i: nat)
    requires |FilterAvailable(catalogue, userProgress, categories)| <= maxResults
    requires i < |catalogue| && IsAvailable(catalogue[i], userProgress, categories)
    ensures AvailableDrills(catalogue, userProgress, categories, maxResults) == FilterAvailable(catalogue, userProgress, categories)
    ensures catalogue[i] in AvailableDrills(catalogue, userProgress, categories, maxResults)
  {
    FilterAvailableComplete(catalogue, userProgress, categories, i);
  }

  /**
   * A drill with prerequisites is offered exactly when all of them are
   * completed (and it is not completed itself), whatever the categories.
   */
  lemma AvailablePrerequisites(catalogue: seq<Drill>, userProgress: UserProgress, categories: Option<seq<string>>, i: nat)
    requires i < |catalogue|
    requires catalogue[i].prerequisites.Some? && |catalogue[i].prerequisites.value| > 0
    requires catalogue[i].id !in userProgress.completedDrillIds
    ensures catalogue[i] in FilterAvailable(catalogue, userProgress, categories) <==>
      forall p :: p in catalogue[i].prerequisites.value ==> p in userProgress.completedDrillIds
  {
    if forall p :: p in catalogue[i].prerequisites.value ==> p in userProgress.completedDrillIds {
      FilterAvailableComplete(catalogue, userProgress, categories, i);
    } else {
      FilterAvailableSound(catalogue, userProgress, categories);
    }
  }

  /** `inferCategories`: the preferences if present (even empty), else up to three recent activities, else general. */
  function InferCategories(userProgress: UserProgress): (categories: seq<string>)
    ensures userProgress.preferences.Some? ==> categories == userProgress.preferences.value
    ensures userProgress.preferences.None? ==> |categories| <= 3
    ensures userProgress.preferences.None? && userProgress.recentActivity.Some? ==>
      |categories| == if |userProgress.recentActivity.value| < 3 then |userProgress.recentActivity.value| else 3
    ensures userProgress.preferences.None? && userProgress.recentActivity.Some? ==>
      |categories| <= |userProgress.recentActivity.value| &&
      categories == userProgress.recentActivity.value[..|categories|]
    ensures userProgress.preferences.None? && userProgress.recentActivity.None? ==> categories == ["general"]
  {
    if userProgress.preferences.Some? then userProgress.preferences.value
    else if userProgress.recentActivity.Some? then Take(userProgress.recentActivity.value, 3)
    else ["general"]
  }
}
