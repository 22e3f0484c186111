/**
 * src/drillRecommendation.ts: the facade that ties retrieval,
 * deduplication and block creation together. The data service and the
 * block creator hold no state of their own, so their operations are called
 * as module members; the vector store manager is the one stateful part.
 */
module DrillRecommendation {
  import opened Drills
  import opened JsString
  import opened Seqs
  import opened StableSort
  import opened DrillDataService
  import BlockCreator
  import VectorStoreManager
  import VectorStoreV2

  /** The message thrown when retrieval finds nothing. */
  const NoDrillsFound: string := "No available drills found"

  /** The message thrown when no block could be built from the retrieved drills. */
  const NoBlockCreated: string := "Failed to create any drill blocks"

  /** What `findRelevantDrills` keeps of the retrieved drills: deduplicated by title, then the first `topK`. */
  function TopRelevant(drills: seq<ScoredDrill>, topK: nat): (r: seq<ScoredDrill>)
    ensures |r| <= topK
    ensures |r| == if topK < |Titles(drills, TitleOf)| then topK else |Titles(drills, TitleOf)|
  {
    DeduplicatedLength(drills);
    Take(Deduplicated(drills), topK)
  }

  /**
   * `findRelevantDrills` keeps the best titles: every deduplicated drill
   * it cuts off scores no higher than any drill it returns.
   */
  lemma TopRelevantBest(drills: seq<ScoredDrill>, topK: nat)
    ensures var all, r := Deduplicated(drills), TopRelevant(drills, topK);
      forall i, k :: |r| <= i < |all| && 0 <= k < |r| ==> all[i].relevanceScore <= r[k].relevanceScore
  {
    DeduplicatedSorted(drills, TitleOf);
    PrefixOutscores(Deduplicated(drills), topK);
  }

  /** The first `n` of a list ordered by score, highest first, outscore the rest. */
  lemma PrefixOutscores(all: seq<ScoredDrill>, n: nat)
    requires forall i, j :: 0 <= i < j < |all| ==> all[i].relevanceScore >= all[j].relevanceScore
    ensures var r := Take(all, n);
      forall i, k :: |r| <= i < |all| && 0 <= k < |r| ==> all[i].relevanceScore <= r[k].relevanceScore
  {
    var r := Take(all, n);
    forall i, k | |r| <= i < |all| && 0 <= k < |r|
      ensures all[i].relevanceScore <= r[k].relevanceScore
    {
      assert r[k] == all[k];
    }
  }

  /** The result of `findRelevantDrills` holds at most one drill per normalised title. */
  lemma TopRelevantDistinct(drills: seq<ScoredDrill>, topK: nat)
    ensures DistinctBy(TopRelevant(drills, topK), TitleOf)
  {
    var all := Deduplicated(drills);
    var r := TopRelevant(drills, topK);
    DeduplicatedTitlesDistinct(drills, TitleOf);
    forall i, j | 0 <= i < j < |r|
      ensures TitleOf(r[i]) != TitleOf(r[j])
    {
      assert r[i] == all[i] && r[j] == all[j];
    }
  }

  /** The result of `findRelevantDrills` is ordered by relevance score, highest first. */
  lemma TopRelevantSorted(drills: seq<ScoredDrill>, topK: nat)
    ensures var r := TopRelevant(drills, topK);
      forall i, j :: 0 <= i < j < |r| ==> r[i].relevanceScore >= r[j].relevanceScore
  {
    var all := Deduplicated(drills);
    var r := TopRelevant(drills, topK);
    DeduplicatedSorted(drills, TitleOf);
    forall i, j | 0 <= i < j < |r|
      ensures r[i].relevanceScore >= r[j].relevanceScore
    {
      assert r[i] == all[i] && r[j] == all[j];
    }
  }

  /** Each drill `findRelevantDrills` returns is the retrieved drill kept for its title. */
  lemma TopRelevantKept(drills: seq<ScoredDrill>, topK: nat)
    ensures var r := TopRelevant(drills, topK);
      forall k :: 0 <= k < |r| ==> IsKept(drills, TitleOf, r[k])
  {
    var all := Deduplicated(drills);
    var r := TopRelevant(drills, topK);
    DeduplicatedKeepsBest(drills, TitleOf);
    forall k | 0 <= k < |r|
      ensures IsKept(drills, TitleOf, r[k])
    {
      assert r[k] == all[k];
    }
  }

  /** When the retrieved drills have no more than `topK` titles, `findRelevantDrills` represents every one of them. */
  lemma TopRelevantCovers(drills: seq<ScoredDrill>, topK: nat)
    requires |Titles(drills, TitleOf)| <= topK
    ensures var r := TopRelevant(drills, topK);
      forall i :: 0 <= i < |drills| ==> exists k :: 0 <= k < |r| && TitleOf(r[k]) == TitleOf(drills[i])
  {
    DeduplicatedLength(drills);
    assert TopRelevant(drills, topK) == Deduplicated(drills);
    DeduplicatedCoversTitles(drills, TitleOf);
  }

  /** The focus tags of a drill; a drill without `focus` has none. */
  function FocusOf(d: ScoredDrill): seq<string> {
    if d.drill.focus.Some? then d.drill.focus.value else []
  }

  /** The group of `tag` in `groups`, empty when the tag has none yet. */
  function Group(groups: map<string, seq<ScoredDrill>>, tag: string): seq<ScoredDrill> {
    if tag in groups then groups[tag] else []
  }

  /** The inner `forEach`: `d` appended to the group of each of `tags` in turn, a group created where missing. */
  function AddTags(groups: map<string, seq<ScoredDrill>>, tags: seq<string>, d: ScoredDrill): map<string, seq<ScoredDrill>> {
    if tags == [] then groups
    else
      var before := AddTags(groups, tags[..|tags| - 1], d);
      var t := tags[|tags| - 1];
      before[t := Group(before, t) + [d]]
  }

  /** The `focusGroups` map built from `drills`. */
  function FocusGroupsOf(drills: seq<ScoredDrill>): map<string, seq<ScoredDrill>> {
    if drills == [] then map[]
    else
      var d := drills[|drills| - 1];
      AddTags(FocusGroupsOf(drills[..|drills| - 1]), FocusOf(d), d)
  }

  /** Adding a drill under `tags` creates exactly the groups of `tags`; with no repeated tag, each of them gains the drill once. */
  lemma {:induction false} AddTagsGroups(groups: map<string, seq<ScoredDrill>>, tags: seq<string>, d: ScoredDrill, t: string)
    ensures t in AddTags(groups, tags, d) <==> t in groups || t in tags
    ensures Distinct(tags) ==> Group(AddTags(groups, tags, d), t) == Group(groups, t) + (if t in tags then [d] else [])
  {
    if tags != [] {
      var init := tags[..|tags| - 1];
      AddTagsGroups(groups, init, d, t);
      assert tags == init + [tags[|tags| - 1]];
      if Distinct(tags) {
        assert Distinct(init);
        if t == tags[|tags| - 1] {
          assert t !in init;
        }
      }
    }
  }

  /** Every drill added under `tags` lands only in groups of those tags. */
  lemma {:induction false} AddTagsMembers(groups: map<string, seq<ScoredDrill>>, tags: seq<string>, d: ScoredDrill, t: string)
    requires t in AddTags(groups, tags, d)
    ensures forall k :: 0 <= k < |AddTags(groups, tags, d)[t]| ==>
      AddTags(groups, tags, d)[t][k] in Group(groups, t) || (AddTags(groups, tags, d)[t][k] == d && t in tags)
  {
    if tags != [] {
      var init := tags[..|tags| - 1];
      var before := AddTags(groups, init, d);
      if t in before {
        AddTagsMembers(groups, init, d, t);
      }
      assert tags == init + [tags[|tags| - 1]];
    }
  }

  /** Some drill of `drills` carries the focus tag `t`. */
  ghost predicate Carried(drills: seq<ScoredDrill>, t: string) {
    exists i :: 0 <= i < |drills| && t in FocusOf(drills[i])
  }

  /** A tag is carried by `drills` exactly when the earlier drills or the last one carry it. */
  lemma CarriedSnoc(drills: seq<ScoredDrill>, t: string)
    requires drills != []
    ensures Carried(drills, t) <==> Carried(drills[..|drills| - 1], t) || t in FocusOf(drills[|drills| - 1])
  {
    var init := drills[..|drills| - 1];
    if Carried(drills, t) {
      var i :| 0 <= i < |drills| && t in FocusOf(drills[i]);
      if i < |init| {
        assert init[i] == drills[i];
      }
    }
    if Carried(init, t) {
      var i :| 0 <= i < |init| && t in FocusOf(init[i]);
      assert drills[i] == init[i];
    }
  }

  /** The keys of `focusGroups` are exactly the focus tags some drill carries. */
  lemma {:induction false} FocusGroupsKeys(drills: seq<ScoredDrill>, t: string)
    ensures t in FocusGroupsOf(drills) <==> Carried(drills, t)
  {
    if drills != [] {
      var init := drills[..|drills| - 1];
      var d := drills[|drills| - 1];
      FocusGroupsKeys(init, t);
      AddTagsGroups(FocusGroupsOf(init), FocusOf(d), d, t);
      CarriedSnoc(drills, t);
    }
  }

  /** Every member of the group of `t` is one of `drills` and carries the tag `t`. */
  lemma {:induction false} FocusGroupsMembers(drills: seq<ScoredDrill>, t: string)
    requires t in FocusGroupsOf(drills)
    ensures forall k :: 0 <= k < |FocusGroupsOf(drills)[t]| ==>
      FocusGroupsOf(drills)[t][k] in drills && t in FocusOf(FocusGroupsOf(drills)[t][k])
  {
    var init := drills[..|drills| - 1];
    var d := drills[|drills| - 1];
    var before := FocusGroupsOf(init);
    AddTagsMembers(before, FocusOf(d), d, t);
    if t in before {
      FocusGroupsMembers(init, t);
    }
    var g := FocusGroupsOf(drills)[t];
    forall k | 0 <= k < |g|
      ensures g[k] in drills && t in FocusOf(g[k])
    {
      if g[k] in Group(before, t) {
        var m :| 0 <= m < |before[t]| && before[t][m] == g[k];
        var i :| 0 <= i < |init| && init[i] == g[k];
        assert drills[i] == g[k];
      }
    }
  }

  /** Whether `d` carries the focus tag `t`. */
  function Carries(t: string): ScoredDrill -> bool {
    d => t in FocusOf(d)
  }

  /** When no drill repeats a tag, the group of `t` is the drills that carry `t`, in their order. */
  lemma {:induction false} FocusGroupsInOrder(drills: seq<ScoredDrill>, t: string)
    requires forall i :: 0 <= i < |drills| ==> Distinct(FocusOf(drills[i]))
    ensures Group(FocusGroupsOf(drills), t) == Seqs.Filter(drills, Carries(t))
  {
    if drills != [] {
      var init := drills[..|drills| - 1];
      var d := drills[|drills| - 1];
      FocusGroupsInOrder(init, t);
      AddTagsGroups(FocusGroupsOf(init), FocusOf(d), d, t);
    }
  }

  /** The two loops of `createPersonalizedDrillBlocks` that fill `focusGroups`. */
  method FocusGroups(drills: seq<ScoredDrill>) returns (focusGroups: map<string, seq<ScoredDrill>>)
    ensures focusGroups == FocusGroupsOf(drills)
  {
    focusGroups := map[];
    var i := 0;
    while i < |drills|
      invariant i <= |drills|
      invariant focusGroups == FocusGroupsOf(drills[..i])
    {
      var drill := drills[i];
      assert drills[..i + 1][..i] == drills[..i];
      if drill.drill.focus.Some? {
        focusGroups := AddFoci(focusGroups, drill.drill.focus.value, drill);
      }
      i := i + 1;
    }
    assert drills[..i] == drills;
  }

  /** The inner `forEach` of the grouping loops: `drill` appended to the group of each of `foci`. */
  method AddFoci(groups: map<string, seq<ScoredDrill>>, foci: seq<string>, drill: ScoredDrill)
    returns (focusGroups: map<string, seq<ScoredDrill>>)
    ensures focusGroups == AddTags(groups, foci, drill)
  {
    focusGroups := groups;
    var j := 0;
    while j < |foci|
      invariant j <= |foci|
      invariant focusGroups == AddTags(groups, foci[..j], drill)
    {
      assert foci[..j + 1][..j] == foci[..j];
      var focus := foci[j];
      if focus !in focusGroups {
        focusGroups := focusGroups[focus := []];
      }
      focusGroups := focusGroups[focus := focusGroups[focus] + [drill]];
      j := j + 1;
    }
    assert foci[..j] == foci;
  }

  /** The retrieval count `createPersonalizedDrillBlocks` asks for. */
  function RetrievalCount(numBlocks: nat, blockSize: nat): nat {
    numBlocks * blockSize * 20
  }

  /**
   * What `createPersonalizedDrillBlocks` returns or throws once the store
   * is initialised: the relevant drills for `RetrievalCount`, an error when
   * there are none, otherwise the optimised block of them for the user's
   * own level, or an error when that is `null`.
   */
  function PersonalizedBlock(userProfile: string, userProgress: UserProgress, skillLevel: string, equipment: seq<string>,
                             numBlocks: nat, blockSize: nat, index: SearchIndex): Result<seq<ScoredDrill>, Thrown>
  {
    var n := RetrievalCount(numBlocks, blockSize);
    var relevant := TopRelevant(VectorStoreManager.RelevantDrills(userProfile, userProgress, n, Some(skillLevel), Some(equipment), index), n);
    BlockFor(relevant, userProgress.skillLevel, blockSize)
  }

  /** The block made of the relevant drills: an error when there are none or when the block is `null`. */
  function BlockFor(relevant: seq<ScoredDrill>, userLevel: Option<Level>, blockSize: nat): Result<seq<ScoredDrill>, Thrown> {
    if relevant == [] then Failure(Error(NoDrillsFound))
    else
      match BlockCreator.OptimizedBlock(relevant, userLevel, blockSize)
      case None => Failure(Error(NoBlockCreated))
      case Some(block) => Success(block)
  }

  /**
   * A returned block regroups the first `blockSize` of the ranked relevant
   * drills, holds between three and `blockSize` of them with distinct
   * titles, and, against an index that honours filters, none of them is
   * a completed drill.
   */
  lemma PersonalizedBlockProperties(userProfile: string, userProgress: UserProgress, skillLevel: string,
                                    equipment: seq<string>, numBlocks: nat, blockSize: nat, index: SearchIndex)
    requires HonoursFilter(index)
    requires PersonalizedBlock(userProfile, userProgress, skillLevel, equipment, numBlocks, blockSize, index).Success?
    ensures var block := PersonalizedBlock(userProfile, userProgress, skillLevel, equipment, numBlocks, blockSize, index).value;
      && 3 <= |block| <= blockSize
      && DistinctBy(block, TitleOf)
      && (forall k :: 0 <= k < |block| ==> block[k].drill.id !in userProgress.completedDrillIds)
  {
    var n := RetrievalCount(numBlocks, blockSize);
    var retrieved := VectorStoreManager.RelevantDrills(userProfile, userProgress, n, Some(skillLevel), Some(equipment), index);
    var block := PersonalizedBlock(userProfile, userProgress, skillLevel, equipment, numBlocks, blockSize, index).value;
    assert block == BlockFor(TopRelevant(retrieved, n), userProgress.skillLevel, blockSize).value;
    BlockForRetrieved(retrieved, n, userProgress.skillLevel, blockSize);
    VectorStoreManager.RelevantExcludesCompleted(userProfile, userProgress, n, Some(skillLevel), Some(equipment), index);
    NoneCompleted(block, retrieved, userProgress.completedDrillIds);
  }

  /** Drills all taken from a list free of completed drills are not completed either. */
  lemma NoneCompleted(block: seq<ScoredDrill>, retrieved: seq<ScoredDrill>, completed: seq<string>)
    requires forall k :: 0 <= k < |block| ==> block[k] in retrieved
    requires forall i :: 0 <= i < |retrieved| ==> retrieved[i].drill.id !in completed
    ensures forall k :: 0 <= k < |block| ==> block[k].drill.id !in completed
  {
    forall k | 0 <= k < |block|
      ensures block[k].drill.id !in completed
    {
      var i :| 0 <= i < |retrieved| && block[k] == retrieved[i];
    }
  }

  /** A block made of the top retrieved drills holds between three and `blockSize` retrieved drills with distinct titles. */
  lemma BlockForRetrieved(retrieved: seq<ScoredDrill>, n: nat, userLevel: Option<Level>, blockSize: nat)
    requires BlockFor(TopRelevant(retrieved, n), userLevel, blockSize).Success?
    ensures var block := BlockFor(TopRelevant(retrieved, n), userLevel, blockSize).value;
      && 3 <= |block| <= blockSize
      && DistinctBy(block, TitleOf)
      && (forall k :: 0 <= k < |block| ==> block[k] in retrieved)
  {
    TopRelevantDistinct(retrieved, n);
    TopRelevantFrom(retrieved, n);
    BlockForPool(retrieved, TopRelevant(retrieved, n), userLevel, blockSize);
  }

  /** A block made of title-distinct drills, all retrieved, holds between three and `blockSize` retrieved drills with distinct titles. */
  lemma BlockForPool(retrieved: seq<ScoredDrill>, relevant: seq<ScoredDrill>, userLevel: Option<Level>, blockSize: nat)
    requires DistinctBy(relevant, TitleOf)
    requires forall j :: 0 <= j < |relevant| ==> relevant[j] in retrieved
    requires BlockFor(relevant, userLevel, blockSize).Success?
    ensures var block := BlockFor(relevant, userLevel, blockSize).value;
      && 3 <= |block| <= blockSize
      && DistinctBy(block, TitleOf)
      && (forall k :: 0 <= k < |block| ==> block[k] in retrieved)
  {
    var block := BlockFor(relevant, userLevel, blockSize).value;
    assert BlockCreator.OptimizedBlock(relevant, userLevel, blockSize) == Some(block);
    BlockFromPool(relevant, userLevel, blockSize, block);
    forall k | 0 <= k < |block|
      ensures block[k] in retrieved
    {
      assert block[k] in relevant;
    }
  }

  /** Each drill `findRelevantDrills` returns is one of the retrieved drills. */
  lemma TopRelevantFrom(retrieved: seq<ScoredDrill>, n: nat)
    ensures var relevant := TopRelevant(retrieved, n);
      forall j :: 0 <= j < |relevant| ==> relevant[j] in retrieved
  {
    var relevant := TopRelevant(retrieved, n);
    TopRelevantKept(retrieved, n);
    forall j | 0 <= j < |relevant|
      ensures relevant[j] in retrieved
    {
      KeptFrom(retrieved, relevant[j]);
    }
  }

  /** A block built from candidates with distinct titles holds between three and `blockSize` of them, with distinct titles. */
  lemma BlockFromPool(relevant: seq<ScoredDrill>, userLevel: Option<Level>, blockSize: nat, block: seq<ScoredDrill>)
    requires DistinctBy(relevant, TitleOf)
    requires BlockCreator.OptimizedBlock(relevant, userLevel, blockSize) == Some(block)
    ensures 3 <= |block| <= blockSize
    ensures DistinctBy(block, TitleOf)
    ensures forall k :: 0 <= k < |block| ==> block[k] in relevant
  {
    var pool := Take(BlockCreator.Ranked(relevant, userLevel), blockSize);
    BlockCreator.OptimizedBlockRegroups(relevant, userLevel, blockSize);
    RankedPool(relevant, userLevel, blockSize);
    RegroupDistinct(block, pool);
    RegroupMembers(block, pool);
  }

  /** The first `blockSize` ranked candidates are candidates, and keep their titles distinct. */
  lemma RankedPool(relevant: seq<ScoredDrill>, userLevel: Option<Level>, blockSize: nat)
    requires DistinctBy(relevant, TitleOf)
    ensures var pool := Take(BlockCreator.Ranked(relevant, userLevel), blockSize);
      DistinctBy(pool, TitleOf) && forall p :: 0 <= p < |pool| ==> pool[p] in relevant
  {
    var ranked := BlockCreator.Ranked(relevant, userLevel);
    var pool := Take(ranked, blockSize);
    SortDistinctBy(relevant, BlockCreator.RankKey(userLevel), TitleOf);
    SortPermutes(relevant, BlockCreator.RankKey(userLevel));
    forall a, b | 0 <= a < b < |pool|
      ensures TitleOf(pool[a]) != TitleOf(pool[b])
    {
      assert pool[a] == ranked[a] && pool[b] == ranked[b];
    }
    forall p | 0 <= p < |pool|
      ensures pool[p] in relevant
    {
      assert pool[p] == ranked[p];
      assert ranked[p] in multiset(relevant);
    }
  }

  /** Regrouping a pool with distinct titles keeps the titles distinct. */
  lemma RegroupDistinct(block: seq<ScoredDrill>, pool: seq<ScoredDrill>)
    requires BlockCreator.IsRegrouping(block, pool) && DistinctBy(pool, TitleOf)
    ensures DistinctBy(block, TitleOf)
  {
    var ps: seq<nat> :| |ps| == |block| == |pool| && Distinct(ps)
      && (forall k :: 0 <= k < |ps| ==> ps[k] < |pool| && block[k] == pool[ps[k]]);
    forall a, b | 0 <= a < b < |block|
      ensures TitleOf(block[a]) != TitleOf(block[b])
    {
      assert ps[a] != ps[b];
    }
  }

  /** Every drill of a regrouping is a drill of the pool, and there are as many. */
  lemma RegroupMembers(block: seq<ScoredDrill>, pool: seq<ScoredDrill>)
    requires BlockCreator.IsRegrouping(block, pool)
    ensures |block| == |pool|
    ensures forall k :: 0 <= k < |block| ==> block[k] in pool
  {
    var ps: seq<nat> :| |ps| == |block| == |pool| && Distinct(ps)
      && (forall k :: 0 <= k < |ps| ==> ps[k] < |pool| && block[k] == pool[ps[k]]);
    forall k | 0 <= k < |block|
      ensures block[k] in pool
    {
      assert block[k] == pool[ps[k]];
    }
  }

  /** A drill kept by deduplication is one of the drills it was given. */
  lemma KeptFrom(drills: seq<ScoredDrill>, d: ScoredDrill)
    requires IsKept(drills, TitleOf, d)
    ensures d in drills
  {
    var j: nat :| KeptFor(drills, TitleOf, TitleOf(d), j) && d == drills[j];
  }

  /**
   * `ScalableDrillRecommendationSystem`. The data service and the block
   * creator are stateless and are called as module members; the language
   * model client the block creator holds is not modelled.
   */
  class ScalableDrillRecommendationSystem {
    const vectorStoreManager: VectorStoreManager.VectorStoreManager

    constructor()
      ensures fresh(vectorStoreManager) && vectorStoreManager.vectorStore == null
    {
      vectorStoreManager := new VectorStoreManager.VectorStoreManager();
    }

    /** `initializeVectorStore(indexName)`, delegated to the manager. */
    method InitializeVectorStore(indexName: string) returns (store: PineconeStore)
      modifies vectorStoreManager
      ensures fresh(store) && store.indexName == indexName && store.documents == []
      ensures vectorStoreManager.vectorStore == store
    {
      store := vectorStoreManager.InitializeVectorStore(indexName);
    }

    /** `batchProcessDrills(drills, batchSize)`, delegated to the manager. */
    method BatchProcessDrills(drills: seq<Drill>, batchSize: nat, rejected: nat -> bool)
      returns (r: Result<(), Thrown>)
      requires batchSize > 0 || vectorStoreManager.vectorStore == null || drills == []
      modifies vectorStoreManager.vectorStore
      ensures vectorStoreManager.vectorStore == null ==> r == Failure(Error(VectorStoreV2.NotInitialized))
      ensures vectorStoreManager.vectorStore != null && drills == [] ==>
        r == Success(()) && vectorStoreManager.vectorStore.documents == old(vectorStoreManager.vectorStore.documents)
      ensures vectorStoreManager.vectorStore != null && batchSize > 0 ==>
        r == Success(()) &&
        vectorStoreManager.vectorStore.documents ==
          old(vectorStoreManager.vectorStore.documents) + VectorStoreManager.StoredByBatches(drills, batchSize, rejected)
    {
      r := vectorStoreManager.BatchProcessDrills(drills, batchSize, rejected);
    }

    /** `getAvailableDrills(userProgress, categories, maxResults)` over the catalogue `catalogue`. */
    method GetAvailableDrills(catalogue: seq<Drill>, userProgress: UserProgress, categories: Option<seq<string>>,
                              maxResults: nat) returns (r: seq<Drill>)
      ensures r == AvailableDrills(catalogue, userProgress, categories, maxResults)
    {
      r := AvailableDrills(catalogue, userProgress, categories, maxResults);
    }

    /** `findRelevantDrills`: the manager's drills, deduplicated by title and cut to `topK`. */
    method FindRelevantDrills(userProfile: string, userProgress: UserProgress, topK: nat, skillLevel: Option<string>,
                              equipment: Option<seq<string>>, index: SearchIndex)
      returns (r: Result<seq<ScoredDrill>, Thrown>)
      ensures vectorStoreManager.vectorStore == null ==> r == Failure(Error(VectorStoreV2.NotInitialized))
      ensures vectorStoreManager.vectorStore != null ==>
        r == Success(TopRelevant(VectorStoreManager.RelevantDrills(userProfile, userProgress, topK, skillLevel, equipment, index), topK))
    {
      var relevantDrills := vectorStoreManager.FindRelevantDrills(userProfile, userProgress, topK, skillLevel, equipment, index);
      if relevantDrills.Failure? {
        return Failure(relevantDrills.error);
      }
      var uniqueDrills, _ := DeduplicateByTitle(relevantDrills.value);
      r := Success(Take(uniqueDrills, topK));
    }

    /** `createOptimizedDrillBlock`, delegated to the block creator. */
    method CreateOptimizedDrillBlock(relevantDrills: array<ScoredDrill>, blockTheme: string,
                                     userProgress: UserProgress, blockSize: nat)
      returns (block: Option<seq<ScoredDrill>>)
      modifies relevantDrills
      ensures block == BlockCreator.OptimizedBlock(old(relevantDrills[..]), userProgress.skillLevel, blockSize)
    {
      block := BlockCreator.CreateOptimizedDrillBlock(relevantDrills, blockTheme, userProgress, blockSize);
    }

    /**
     * `createPersonalizedDrillBlocks`: initialise the store under the
     * default name if there is none, retrieve and deduplicate, group by
     * focus (the groups are built but not used), and build one "Hitting"
     * block for the user's own level.
     */
    method CreatePersonalizedDrillBlocks(userProfile: string, userProgress: UserProgress, skillLevel: string,
                                         equipment: seq<string>, numBlocks: nat, blockSize: nat, index: SearchIndex)
      returns (r: Result<seq<ScoredDrill>, Thrown>)
      modifies vectorStoreManager
      ensures old(vectorStoreManager.vectorStore) != null ==> vectorStoreManager.vectorStore == old(vectorStoreManager.vectorStore)
      ensures old(vectorStoreManager.vectorStore) == null ==>
        && vectorStoreManager.vectorStore != null
        && fresh(vectorStoreManager.vectorStore)
        && vectorStoreManager.vectorStore.indexName == VectorStoreManager.DefaultIndexName
        && vectorStoreManager.vectorStore.documents == []
      ensures r == PersonalizedBlock(userProfile, userProgress, skillLevel, equipment, numBlocks, blockSize, index)
    {
      var store := vectorStoreManager.GetVectorStore();
      if store == null {
        var _ := InitializeVectorStore(VectorStoreManager.DefaultIndexName);
      }
      var n := numBlocks * blockSize * 20;
      var found := FindRelevantDrills(userProfile, userProgress, n, Some(skillLevel), Some(equipment), index);
      r := BuildBlock(found.value, userProgress, blockSize);
    }

    /** The rest of `createPersonalizedDrillBlocks`, from the relevant drills to the block or the error. */
    method BuildBlock(relevantDrills: seq<ScoredDrill>, userProgress: UserProgress, blockSize: nat)
      returns (r: Result<seq<ScoredDrill>, Thrown>)
      ensures r == BlockFor(relevantDrills, userProgress.skillLevel, blockSize)
    {
      if |relevantDrills| == 0 {
        return Failure(Error(NoDrillsFound));
      }
      var focusGroups := FocusGroups(relevantDrills);
      var pool := new ScoredDrill[|relevantDrills|](i requires 0 <= i < |relevantDrills| => relevantDrills[i]);
      assert pool[..] == relevantDrills;
      var block := CreateOptimizedDrillBlock(pool, "Hitting", userProgress, blockSize);
      if block.None? {
        return Failure(Error(NoBlockCreated));
      }
      r := Success(block.value);
    }
  }
}
