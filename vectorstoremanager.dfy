/**
 * src/service/vectorStoreManager.ts: the handle on the drill index, the
 * batch indexing of catalogue drills with metadata defaults, and the
 * retrieval of relevant drills (exclusion filter, composite query text,
 * over-fetching, result mapping).
 */
module VectorStoreManager {
  import opened Drills
  import opened JsString
  import opened Batching
  import VectorStoreV2

  /** The index `initializeVectorStore` opens when no name is given. */
  const DefaultIndexName: string := "drills-idx"

  /** `${x}` of a value that may be missing: JavaScript prints a missing one as "undefined". */
  function Shown(x: Option<string>): string {
    if x.Some? then x.value else "undefined"
  }

  /** `${xs?.join(' ')}`. */
  function ShownList(xs: Option<seq<string>>): string {
    Shown(if xs.Some? then Some(Join(xs.value, " ")) else None)
  }

  /** `${drill.difficulty}`. */
  function ShownLevel(l: Option<Level>): string {
    Shown(if l.Some? then Some(LevelName(l.value)) else None)
  }

  /** The text embedded for a catalogue drill: title, description, focus, category, difficulty and tags, space-separated. */
  function IndexText(d: Drill): string {
    d.title + " " + d.description + " " + ShownList(d.focus) + " " + Shown(d.category) + " " +
    ShownLevel(d.difficulty) + " " + ShownList(d.tags)
  }

  /** A drill without any of the optional fields is indexed with the word "undefined" in their place. */
  lemma IndexTextBare(d: Drill)
    requires d.focus.None? && d.category.None? && d.difficulty.None? && d.tags.None?
    ensures IndexText(d) == d.title + " " + d.description + " undefined undefined undefined undefined"
  {
  }

  /**
   * The metadata stored with a catalogue drill: the `||` defaults of the
   * source fill a missing (or, for category and duration, falsy) value.
   */
  function IndexMetadata(d: Drill): (m: Metadata)
    ensures m.id == d.id && m.title == d.title
  {
    Metadata(
      id := d.id,
      title := d.title,
      name := None,
      description := None,
      reps := None,
      category := Some(OrDefault(d.category, "general")),
      difficulty := Some(if d.difficulty.Some? then d.difficulty.value else Beginner),
      focus := Some(if d.focus.Some? then d.focus.value else []),
      skillLevels := None,
      equipment := None,
      duration := Some(if d.duration.Some? && d.duration.value != 0 then d.duration.value else 10),
      rank := None,
      prerequisites := Some(if d.prerequisites.Some? then d.prerequisites.value else []))
  }

  /** Each default of the stored metadata, and the keys the manager never writes. */
  lemma IndexMetadataDefaults(d: Drill)
    ensures var m := IndexMetadata(d);
      && (d.category.Some? && d.category.value != "" ==> m.category == d.category)
      && (d.category.None? || d.category.value == "" ==> m.category == Some("general"))
      && (d.difficulty.Some? ==> m.difficulty == d.difficulty)
      && (d.difficulty.None? ==> m.difficulty == Some(Beginner))
      && (d.focus.Some? ==> m.focus == d.focus)
      && (d.focus.None? ==> m.focus == Some([]))
      && (d.duration.Some? && d.duration.value != 0 ==> m.duration == d.duration)
      && (d.duration.None? || d.duration.value == 0 ==> m.duration == Some(10))
      && (d.prerequisites.Some? ==> m.prerequisites == d.prerequisites)
      && (d.prerequisites.None? ==> m.prerequisites == Some([]))
      && m.name.None? && m.description.None? && m.reps.None? && m.skillLevels.None? && m.equipment.None? && m.rank.None?
  {
  }

  /** The documents for `drills`, one per drill, in order: the `texts` and `metadatas` of a batch zipped together. */
  function IndexDocuments(drills: seq<Drill>): (docs: seq<Document>)
    ensures |docs| == |drills|
  {
    seq(|drills|, i requires 0 <= i < |drills| => Document(IndexText(drills[i]), IndexMetadata(drills[i])))
  }

  /** Indexing a slice of the drills gives the same slice of the indexed drills. */
  lemma IndexSlice(drills: seq<Drill>, start: nat, end: nat)
    requires start <= end
    ensures IndexDocuments(Slice(drills, start, end)) == Slice(IndexDocuments(drills), start, end)
  {
    var part := Slice(drills, start, end);
    var lhs := IndexDocuments(part);
    var rhs := Slice(IndexDocuments(drills), start, end);
    assert |lhs| == |rhs|;
    forall k | 0 <= k < |lhs|
      ensures lhs[k] == rhs[k]
    {
      assert part[k] == drills[start + k];
    }
  }

  /** What `batchProcessDrills` stores for `drills`: the indexed batches whose number is not rejected, in order. */
  function StoredByBatches(drills: seq<Drill>, batchSize: nat, rejected: nat -> bool): seq<Document>
    requires batchSize > 0
  {
    KeptBatches(Batches(IndexDocuments(drills), batchSize), rejected)
  }

  /** With no batch rejected, every drill is stored, in order. */
  lemma StoredAll(drills: seq<Drill>, batchSize: nat, rejected: nat -> bool)
    requires batchSize > 0
    requires forall k :: 1 <= k <= |Batches(IndexDocuments(drills), batchSize)| ==> !rejected(k)
    ensures StoredByBatches(drills, batchSize, rejected) == IndexDocuments(drills)
  {
    KeptAll(Batches(IndexDocuments(drills), batchSize), rejected);
    BatchesCover(IndexDocuments(drills), batchSize);
  }

  /** A rejected batch loses only its own drills: the walk goes on, and every other batch is stored. */
  lemma StoredAllBut(drills: seq<Drill>, batchSize: nat, rejected: nat -> bool, j: nat)
    requires batchSize > 0
    requires 1 <= j <= |Batches(IndexDocuments(drills), batchSize)|
    requires forall k :: 1 <= k <= |Batches(IndexDocuments(drills), batchSize)| ==> (rejected(k) <==> k == j)
    ensures var bs := Batches(IndexDocuments(drills), batchSize);
      StoredByBatches(drills, batchSize, rejected) == Concat(bs[..j - 1]) + Concat(bs[j..])
  {
    KeptAllBut(Batches(IndexDocuments(drills), batchSize), rejected, j);
  }

  /** The filter of `findRelevantDrills`: the completed drills excluded by id, and no clause when there are none. */
  function ExclusionFilter(userProgress: UserProgress): (f: Filter)
    ensures "id" in f <==> |userProgress.completedDrillIds| > 0
    ensures "id" in f ==> f["id"] == NotIn(userProgress.completedDrillIds)
    ensures forall key :: key in f ==> key == "id"
  {
    if |userProgress.completedDrillIds| > 0 then map["id" := NotIn(userProgress.completedDrillIds)] else map[]
  }

  /** `${xs?.join(', ') || 'none'}`: a missing list, and a list that joins to the empty string, read "none". */
  function ListOrNone(xs: Option<seq<string>>): (r: string)
    ensures xs.None? || xs.value == [] || xs.value == [""] ==> r == "none"
    ensures xs.Some? && Join(xs.value, ", ") != "" ==> r == Join(xs.value, ", ")
  {
    if xs.None? then "none" else OrDefault(Some(Join(xs.value, ", ")), "none")
  }

  /** `${equipment && equipment.length > 0 ? equipment.join(', ') : 'none'}`. */
  function EquipmentText(equipment: Option<seq<string>>): (r: string)
    ensures equipment.None? || equipment.value == [] ==> r == "none"
    ensures equipment.Some? && equipment.value != [] ==> r == Join(equipment.value, ", ")
  {
    if equipment.Some? && |equipment.value| > 0 then Join(equipment.value, ", ") else "none"
  }

  /** `${userProgress.skillLevel || 'beginner'}`. */
  function UserLevelText(l: Option<Level>): (r: string)
    ensures l.None? ==> r == "beginner"
    ensures l.Some? ==> r == LevelName(l.value)
  {
    if l.Some? then LevelName(l.value) else "beginner"
  }

  /** One labelled line of the query template, on an indented line of its own. */
  function Line(heading: string, value: string): string {
    VectorStoreV2.Indent + heading + value
  }

  /**
   * The query text of `findRelevantDrills`: the profile and six labelled
   * lines, each on an indented line of its own, and the template's last,
   * eight-space line. Unlike the ingestion text it is not trimmed.
   */
  function EnhancedQuery(userProfile: string, userProgress: UserProgress, skillLevel: Option<string>,
                         equipment: Option<seq<string>>): string
  {
    Line("", userProfile) +
    Line("Skill level: ", UserLevelText(userProgress.skillLevel)) +
    Line("Weak areas: ", ListOrNone(userProgress.weakAreas)) +
    Line("Preferences: ", ListOrNone(userProgress.preferences)) +
    Line("Recent focus: ", ListOrNone(userProgress.recentActivity)) +
    Line("Skill Level: ", OrDefault(skillLevel, "any")) +
    Line("Equipment: ", EquipmentText(equipment)) +
    "\n        "
  }

  /** A user who gave nothing but a profile is described with every default. */
  lemma EnhancedQueryDefaults(userProfile: string, userProgress: UserProgress)
    requires userProgress.skillLevel.None? && userProgress.weakAreas.None?
    requires userProgress.preferences.None? && userProgress.recentActivity.None?
    ensures EnhancedQuery(userProfile, userProgress, None, None) ==
      Line("", userProfile) + Line("Skill level: ", "beginner") + Line("Weak areas: ", "none") +
      Line("Preferences: ", "none") + Line("Recent focus: ", "none") + Line("Skill Level: ", "any") +
      Line("Equipment: ", "none") + "\n        "
  {
  }

  /** One search hit as a drill: `name` falls back to the id, the description is the first 200 characters of the text. */
  function ToScoredDrill(h: Hit): (r: ScoredDrill)
    ensures r.drill.id == h.doc.metadata.id && r.drill.title == h.doc.metadata.title
    ensures h.doc.metadata.name.Some? && h.doc.metadata.name.value != "" ==> r.drill.name == h.doc.metadata.name.value
    ensures h.doc.metadata.name.None? || h.doc.metadata.name.value == "" ==> r.drill.name == h.doc.metadata.id
    ensures |r.drill.description| == (if |h.doc.pageContent| < 200 then |h.doc.pageContent| else 200)
    ensures r.drill.description == h.doc.pageContent[..|r.drill.description|]
    ensures r.drill.reps == "TBD" && r.drill.tags.None?
    ensures r.drill.category == h.doc.metadata.category && r.drill.difficulty == h.doc.metadata.difficulty
    ensures r.drill.focus == h.doc.metadata.focus && r.drill.duration == h.doc.metadata.duration
    ensures r.drill.prerequisites == h.doc.metadata.prerequisites
    ensures r.relevanceScore == h.score
  {
    var m := h.doc.metadata;
    ScoredDrill(Drill(
      id := m.id,
      title := m.title,
      name := OrDefault(m.name, m.id),
      description := Take(h.doc.pageContent, 200),
      reps := "TBD",
      category := m.category,
      difficulty := m.difficulty,
      focus := m.focus,
      prerequisites := m.prerequisites,
      duration := m.duration,
      tags := None), h.score)
  }

  /**
   * A drill indexed by `batchProcessDrills` comes back from a search with
   * its id and title, its name set to its id, and the indexed defaults.
   */
  lemma IndexedDrillRetrieved(d: Drill, score: real)
    ensures var r := ToScoredDrill(Hit(Document(IndexText(d), IndexMetadata(d)), score)).drill;
      && r.id == d.id && r.title == d.title && r.name == d.id
      && r.category == Some(OrDefault(d.category, "general"))
      && (d.difficulty.Some? ==> r.difficulty == d.difficulty) && (d.difficulty.None? ==> r.difficulty == Some(Beginner))
      && (d.focus.Some? ==> r.focus == d.focus) && (d.prerequisites.Some? ==> r.prerequisites == d.prerequisites)
      && (d.duration.Some? && d.duration.value != 0 ==> r.duration == d.duration)
  {
  }

  /** What `findRelevantDrills` returns: the hits of the exclusion-filtered search for `topK * 2`, each as a drill. */
  function RelevantDrills(userProfile: string, userProgress: UserProgress, topK: nat, skillLevel: Option<string>,
                          equipment: Option<seq<string>>, index: SearchIndex): (r: seq<ScoredDrill>)
    ensures var hits := index(EnhancedQuery(userProfile, userProgress, skillLevel, equipment), topK * 2, ExclusionFilter(userProgress));
      |r| == |hits| && forall i :: 0 <= i < |r| ==> r[i] == ToScoredDrill(hits[i])
  {
    var hits := index(EnhancedQuery(userProfile, userProgress, skillLevel, equipment), topK * 2, ExclusionFilter(userProgress));
    seq(|hits|, i requires 0 <= i < |hits| => ToScoredDrill(hits[i]))
  }

  /** Against an index that keeps its promises, no completed drill is returned, and at most `topK * 2` drills are. */
  lemma RelevantExcludesCompleted(userProfile: string, userProgress: UserProgress, topK: nat, skillLevel: Option<string>,
                                  equipment: Option<seq<string>>, index: SearchIndex)
    requires HonoursFilter(index)
    ensures var r := RelevantDrills(userProfile, userProgress, topK, skillLevel, equipment, index);
      |r| <= topK * 2 && forall i :: 0 <= i < |r| ==> r[i].drill.id !in userProgress.completedDrillIds
  {
    var f := ExclusionFilter(userProgress);
    var hits := index(EnhancedQuery(userProfile, userProgress, skillLevel, equipment), topK * 2, f);
    var r := RelevantDrills(userProfile, userProgress, topK, skillLevel, equipment, index);
    forall i | 0 <= i < |r|
      ensures r[i].drill.id !in userProgress.completedDrillIds
    {
      if |userProgress.completedDrillIds| > 0 {
        assert Satisfies(hits[i].doc.metadata, f);
        assert ClauseHolds(FieldValues(hits[i].doc.metadata, "id"), f["id"]);
      }
    }
  }

  /** The loop of `batchProcessDrills`: every slice of `batchSize` drills indexed and offered to `store` in turn. */
  method IndexInBatches(store: PineconeStore, drills: seq<Drill>, batchSize: nat, rejected: nat -> bool)
    requires batchSize > 0
    modifies store
    ensures store.documents == old(store.documents) + StoredByBatches(drills, batchSize, rejected)
  {
    ghost var docs := IndexDocuments(drills);
    ghost var base := store.documents;
    ghost var done: seq<seq<Document>> := [];
    WalkStart(docs, batchSize);
    var i := 0;
    while i < |drills|
      invariant Walked(docs, batchSize, i, done)
      invariant store.documents == base + KeptBatches(done, rejected)
      decreases |drills| - i
    {
      done := ProcessBatch(store, drills, batchSize, i, base, done, rejected);
      i := i + batchSize;
    }
    WalkEnd(docs, batchSize, i, done);
  }

  /**
   * One pass of that loop, at offset `i` after the batches `done` on top of
   * the documents `base`: the slice indexed and offered to the store, and
   * the walk extended by that batch.
   */
  method ProcessBatch(store: PineconeStore, drills: seq<Drill>, batchSize: nat, i: nat,
                      ghost base: seq<Document>, ghost done: seq<seq<Document>>, rejected: nat -> bool)
    returns (ghost done': seq<seq<Document>>)
    requires batchSize > 0 && i < |drills| && Walked(IndexDocuments(drills), batchSize, i, done)
    requires store.documents == base + KeptBatches(done, rejected)
    modifies store
    ensures Walked(IndexDocuments(drills), batchSize, i + batchSize, done')
    ensures store.documents == base + KeptBatches(done', rejected)
  {
    var batch := Slice(drills, i, i + batchSize);
    var docs := IndexDocuments(batch);
    IndexedStep(drills, batchSize, i, done);
    var batchNumber := i / batchSize + 1;
    ghost var kept := if rejected(|done| + 1) then [] else docs;
    var _ := store.AddDocuments(docs, rejected(batchNumber));
    assert store.documents == base + KeptBatches(done, rejected) + kept;
    KeptSnoc(done, docs, rejected);
    done' := done + [docs];
  }

  /** The indexed slice at offset `i` is the next batch of the indexed drills, numbered `|done| + 1`. */
  lemma IndexedStep(drills: seq<Drill>, batchSize: nat, i: nat, done: seq<seq<Document>>)
    requires batchSize > 0 && i < |drills| && Walked(IndexDocuments(drills), batchSize, i, done)
    ensures i / batchSize + 1 == |done| + 1
    ensures Walked(IndexDocuments(drills), batchSize, i + batchSize,
                   done + [IndexDocuments(Slice(drills, i, i + batchSize))])
  {
    var all := IndexDocuments(drills);
    IndexSlice(drills, i, i + batchSize);
    WalkNumber(all, batchSize, i, done);
    WalkStep(all, batchSize, i, done);
  }

  /**
   * `VectorStoreManager`. The embeddings and database clients it holds are
   * configuration of the outside services and are not modelled;
   * `vectorStore` is the handle on the index, `null` until initialised.
   */
  class VectorStoreManager {
    var vectorStore: PineconeStore?

    constructor()
      ensures vectorStore == null
    {
      vectorStore := null;
    }

    /** `initializeVectorStore(indexName)`: a new handle on the named index replaces any previous one. */
    method InitializeVectorStore(indexName: string) returns (store: PineconeStore)
      modifies this
      ensures fresh(store) && store.indexName == indexName && store.documents == []
      ensures vectorStore == store
    {
      store := new PineconeStore(indexName);
      vectorStore := store;
    }

    /** `getVectorStore()`: the current handle, `null` before initialisation. */
    method GetVectorStore() returns (store: PineconeStore?)
      ensures store == vectorStore
    {
      store := vectorStore;
    }

    /**
     * `batchProcessDrills(drills, batchSize)`: the drills indexed batch by
     * batch; a batch the store rejects (by number, counting from one) is
     * only logged, and the walk goes on with the next one.
     */
    method BatchProcessDrills(drills: seq<Drill>, batchSize: nat, rejected: nat -> bool)
      returns (r: Result<(), Thrown>)
      requires batchSize > 0 || vectorStore == null || drills == []
      modifies vectorStore
      ensures vectorStore == null ==> r == Failure(Error(VectorStoreV2.NotInitialized))
      ensures vectorStore != null && drills == [] ==> r == Success(()) && vectorStore.documents == old(vectorStore.documents)
      ensures vectorStore != null && batchSize > 0 ==>
        r == Success(()) &&
        vectorStore.documents == old(vectorStore.documents) + StoredByBatches(drills, batchSize, rejected)
    {
      if vectorStore == null {
        return Failure(Error(VectorStoreV2.NotInitialized));
      }
      if batchSize == 0 {
        // Only the empty list is left here, on which the loop does not run.
        return Success(());
      }
      IndexInBatches(vectorStore, drills, batchSize, rejected);
      r := Success(());
    }

    /**
     * `findRelevantDrills(userProfile, userProgress, topK, skillLevel,
     * equipment)` against the index `index`.
     */
    method FindRelevantDrills(userProfile: string, userProgress: UserProgress, topK: nat, skillLevel: Option<string>,
                              equipment: Option<seq<string>>, index: SearchIndex)
      returns (r: Result<seq<ScoredDrill>, Thrown>)
      ensures vectorStore == null ==> r == Failure(Error(VectorStoreV2.NotInitialized))
      ensures vectorStore != null ==> r == Success(RelevantDrills(userProfile, userProgress, topK, skillLevel, equipment, index))
    {
      if vectorStore == null {
        return Failure(Error(VectorStoreV2.NotInitialized));
      }
      var filter: Filter := map[];
      if |userProgress.completedDrillIds| > 0 {
        filter := filter["id" := NotIn(userProgress.completedDrillIds)];
      }
      assert filter == ExclusionFilter(userProgress);
      var enhancedQuery := EnhancedQuery(userProfile, userProgress, skillLevel, equipment);
      var results := index(enhancedQuery, topK * 2, filter);
      r := Success(seq(|results|, i requires 0 <= i < |results| => ToScoredDrill(results[i])));
    }
  }
}
