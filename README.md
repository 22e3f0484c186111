# Drill recommendation core in Dafny

This project models the recommendation pipeline of the drill-recommendation
service. The service recommends a block of practice drills to an athlete.

- **Retrieval.** `VectorStoreManager.findRelevantDrills` sends an enriched
  query to a vector index. It asks for twice the wanted count and excludes
  completed drills.
- **Deduplication.** `DrillDataService.deduplicateByTitle` collapses drills
  whose lower-cased, trimmed titles agree. It keeps the best-scoring one and
  returns the survivors by score.
- **Ranking and assembly.** `BlockCreator.createOptimizedDrillBlock` sorts
  the candidates in place by skill-level fit, then by score. It truncates
  them to the block size and selects a progressive beginner, intermediate
  and advanced mix. It refuses to return fewer than three drills.
- **Orchestration.** `ScalableDrillRecommendationSystem.createPersonalizedDrillBlocks`
  initialises the store lazily, retrieves, groups the candidates by focus,
  and builds one block or throws.
- **Ingestion.** `DrillVectorStoreManager` (vectorStoreV2.ts) turns the
  ingestion JSON records into documents. Each document carries an embedding
  text, metadata, and a duration read from the reps text. The records are
  added batch by batch, and the walk stops at the first failing batch.
  `VectorStoreManager.batchProcessDrills` indexes catalogue drills and skips
  a failing batch instead.

## How the model is built

| Module | Models |
|---|---|
| `Drills` | the record types of `types/types.ts` |
| `Drills` | the document, filter and store vocabulary of the vector index |
| `JsString` | the JavaScript string operations involved |
| `Seqs` | general sequence facts |
| `StableSort` | the stable insertion sort behind `Array.prototype.sort`, as a function and as an in-place array method |
| `Batching` | the `for (i = 0; i < n; i += batchSize)` walks |
| `BlockCreator` | the core file of the same name |
| `DrillDataService` | the core file of the same name |
| `VectorStoreV2` | the core file of the same name |
| `VectorStoreManager` | the core file of the same name |
| `DrillRecommendation` | the core file of the same name |

Stateful code keeps its form:

- Objects whose fields change are classes with `modifies` clauses: the two
  store managers, the recommendation system and the store handle.
- The in-place sort works on an `array`.
- Loops that build maps or walk batches are methods with loop invariants.

Each such method is proved equal to a specification function. The
properties are lemmas about those functions.

The external collaborators become parameters:

- The vector index's similarity search is a `SearchIndex` function.
- Whether the database rejects the `k`-th `addDocuments` call (counting
  from 1) is a `rejected: nat -> bool` oracle.

Wherever a property needs the index to keep its promise, the lemma states
`HonoursFilter(index)` as an explicit hypothesis: at most `k` hits, each
passing the filter.

Where the code and the design description disagree, the model follows the
code:

- The design's end-to-end example expects 2 beginner, 2 intermediate and 2
  advanced drills for an intermediate user with blockSize 6. The code
  truncates to six before partitioning. The ranking puts the four
  intermediate drills (weight 1.0) and two advanced drills (0.8) first. So
  the block holds no beginner drill: 2 intermediate, 2 advanced, then 2
  more intermediate backfilled. `BlockCreator.OptimizedBlockRegroups`
  states the truncate-then-select order.
- The design says a failing index batch is logged and skipped. That holds
  for `VectorStoreManager.batchProcessDrills`. `DrillVectorStoreManager.processDrillsFromJSON`
  rethrows and stops. Each is modelled as written.
- `calculateBlockDifficulty` of an empty list divides by zero. The NaN
  average fails both comparisons, so the result is `'advanced'`. The model
  states exactly that.

## Model

| member | source | states |
|---|---|---|
| BlockCreator.LevelNumber | src/service/blockCreator.ts:69-71 | Beginner and a missing level are 1, intermediate is 2 and advanced is 3 (each an iff) |
| BlockCreator.SkillWeight | src/service/blockCreator.ts:68-78 | The weight is 1.0, 0.8, 0.6 or 0.3 exactly when the drill level equals, is one above, is one below, or is two away from the user level (each an iff) |
| BlockCreator.CompareDrills | src/service/blockCreator.ts:28-37 | The comparator is non-positive exactly when the first drill ranks at least as high (higher weight, or same weight and score at least as high), and zero exactly on equal keys |
| BlockCreator.RankedOrder | src/service/blockCreator.ts:27-38 | The ranking is a permutation of the input, ordered by weight descending then score descending, and no pair is out of order for the comparator |
| BlockCreator.PositionsOfLevel | src/service/blockCreator.ts:82-84 | Each level group contains only drills of that level |
| BlockCreator.PositionsOfIncreasing | src/service/blockCreator.ts:82-84 | Each level group keeps the ranked order |
| BlockCreator.PositionsOfComplete | src/service/blockCreator.ts:82-84 | Every drill of a level is in that level's group |
| BlockCreator.Phase1 | src/service/blockCreator.ts:87-91 | The level quotas never pick more than blockSize drills |
| BlockCreator.Phase1Distinct | src/service/blockCreator.ts:86-91 | The first phase picks no drill twice and only drills of the pool |
| BlockCreator.UnselectedComplete | src/service/blockCreator.ts:94 | Every drill not yet selected is among the remaining ones |
| BlockCreator.UnselectedLength | src/service/blockCreator.ts:94 | The remaining drills number the pool size minus the selected ones |
| BlockCreator.Backfill | src/service/blockCreator.ts:94-97 | Backfilling keeps the selection free of repeats and within the pool, and fills up to the room left |
| BlockCreator.SelectionPositions | src/service/blockCreator.ts:80-98 | The selection picks distinct pool drills. It picks min(blockSize, pool size) of them, begins with the quota phase, and takes the whole pool when it fits |
| BlockCreator.ApplyProgressiveSelection | src/service/blockCreator.ts:80-98 | The push-and-filter method computes the progressive selection |
| BlockCreator.SelectByLevel | src/service/blockCreator.ts:82-91 | The quota loop selects exactly the first phase |
| BlockCreator.OptimizedBlockRegroups | src/service/blockCreator.ts:27-43 | A returned block contains each drill of the first blockSize ranked drills exactly once |
| BlockCreator.OptimizedBlockNull | src/service/blockCreator.ts:24-43 | With at least three candidates, the result is null exactly when blockSize < 3 |
| BlockCreator.CreateOptimizedDrillBlock | src/service/blockCreator.ts:18-51 | Fewer than three drills give null and leave the array alone. Otherwise the caller's array is left in ranked order and the block is the optimised block of the original array |
| BlockCreator.CalculateBlockDifficulty | src/service/blockCreator.ts:142-149 | Beginner iff the block is non-empty and the average level is at most 1.4. Advanced iff the block is empty or the average exceeds 2.4 |
| BlockCreator.UniformBlockDifficulty | src/service/blockCreator.ts:142-149 | A non-empty block whose drills all have one level gets that level |
| BlockCreator.BlockDifficultyMonotone | src/service/blockCreator.ts:142-149 | Raising the drills' levels never lowers the block difficulty |
| BlockCreator.GenerateDrillReasoning | src/service/blockCreator.ts:125-133 | The weak-area reason iff a weak area is among the drill's focus tags. The relevance reason iff not that and the score is above 0.8. Otherwise the progression reason |
| DrillDataService.ScanWellFormed | src/service/drillDataService.ts:44-61 | The title map holds exactly the normalised titles seen, each once, and kept plus removed equals the input count |
| DrillDataService.ScanKeepsBest | src/service/drillDataService.ts:49-60 | The map keeps, per title, a drill of that title with the highest score, the first on a tie |
| DrillDataService.DeduplicateByTitle | src/service/drillDataService.ts:43-68 | The forEach-over-Map method returns the deduplicated list, and its counter equals the input count minus the distinct titles |
| DrillDataService.GroupByTitle | src/service/drillDataService.ts:44-61 | The loop builds the title map, its insertion order and the counter of the scan |
| DrillDataService.Record | src/service/drillDataService.ts:48-60 | One drill either inserts its title or replaces the kept drill only on a strictly higher score, counting a removal when a title is already present |
| DrillDataService.SortedValues | src/service/drillDataService.ts:67 | The map's values in insertion order, stably sorted by descending score |
| DrillDataService.DeduplicatedTitlesDistinct | src/service/drillDataService.ts:43-68 | No two output drills share a normalised title |
| DrillDataService.DeduplicatedSorted | src/service/drillDataService.ts:67 | The output is ordered by score, highest first |
| DrillDataService.DeduplicatedKeepsBest | src/service/drillDataService.ts:49-56 | Each output drill is the input drill with the highest score for its title, the first on a tie |
| DrillDataService.DeduplicatedCoversTitles | src/service/drillDataService.ts:43-68 | Every input title is represented in the output |
| DrillDataService.DeduplicatedLength | src/service/drillDataService.ts:64 | The output has one drill per distinct normalised title |
| DrillDataService.DeduplicateIdempotent | src/service/drillDataService.ts:43-68 | Deduplicating the output again changes nothing |
| DrillDataService.FilterAvailableSound | src/service/drillDataService.ts:20-38 | Every drill passing the filter is a catalogue drill that is not completed, has its prerequisites completed, and fits the categories |
| DrillDataService.FilterAvailableComplete | src/service/drillDataService.ts:20-38 | Every catalogue drill meeting those conditions passes the filter |
| DrillDataService.AvailablePrerequisites | src/service/drillDataService.ts:27-31 | An uncompleted drill with prerequisites passes iff every prerequisite is completed, whatever the categories |
| DrillDataService.AvailableDrills | src/service/drillDataService.ts:5-40 | At most maxResults drills, each an uncompleted catalogue drill, forming exactly the first min(maxResults, passed) drills that pass, in catalogue order |
| DrillDataService.AvailableDrillsComplete | src/service/drillDataService.ts:20-39 | Below the limit the result is the whole filtered catalogue, so every available drill is offered |
| DrillDataService.InferCategories | src/service/drillDataService.ts:70-75 | The preferences when present. Otherwise the first min(3, n) recent activities. Otherwise ["general"] |
| JsString.TrimIdempotent | src/service/drillDataService.ts:48 | Trimming twice equals trimming once |
| JsString.TrimPadded | src/service/vectorStoreV2.ts:34-41 | Trimming whitespace padding off a text with non-blank ends gives the text |
| JsString.SplitJoin | src/service/vectorStoreV2.ts:24-26 | Joining the pieces of a split on the separator gives the string back |
| JsString.SplitTrimPieces | src/service/vectorStoreV2.ts:24-26 | Each split-and-trimmed piece is trimmed and free of the separator |
| JsString.DecimalValue | src/service/vectorStoreV2.ts:70-71 | Reading back a decimal rendering gives the number |
| VectorStoreV2.MatchAt | src/service/vectorStoreV2.ts:68 | A match of the sets-x-reps pattern at a position yields two non-empty digit strings |
| VectorStoreV2.FindMatch | src/service/vectorStoreV2.ts:68 | The search returns the leftmost position where the pattern matches, or none when it matches nowhere |
| VectorStoreV2.MatchSpelled | src/service/vectorStoreV2.ts:68 | Any spelling the case-insensitive pattern accepts matches with exactly the digit runs as its groups. That covers "set" or "sets", any case, and any whitespace around "x" |
| VectorStoreV2.CeilMinutes | src/service/vectorStoreV2.ts:73 | A zero product gives 10. Otherwise the result is the ceiling of sets*reps/120 minutes |
| VectorStoreV2.EstimateDuration | src/service/vectorStoreV2.ts:64-77 | The result is at least 1. "Fundamentals" gives 5. No digit, or no match anywhere, gives 10 |
| VectorStoreV2.EstimateLeftmost | src/service/vectorStoreV2.ts:68-74 | When the pattern first matches at p, the estimate is the ceiling minutes of p's two numbers |
| VectorStoreV2.EstimateSpelled | src/service/vectorStoreV2.ts:64-74 | A reps text that starts with digits, a sets separator, and digits gets the ceiling of their product over 120 |
| VectorStoreV2.EstimateRendered | src/service/vectorStoreV2.ts:64-74 | "a sets x b reps" estimates ceil(a*b/120) minutes, or 10 when the product is zero |
| VectorStoreV2.DifficultyOf | src/service/vectorStoreV2.ts:29-31 | Beginner iff "Youth" is a skill level. Advanced iff not and "College" is. Otherwise intermediate |
| VectorStoreV2.EmbeddingTextLayout | src/service/vectorStoreV2.ts:34-41 | When name and content type have no outer blanks, the trimmed text is the six lines without the template's padding |
| VectorStoreV2.TransformDrill | src/service/vectorStoreV2.ts:22-59 | Text fields are kept; the three comma lists are split and trimmed, skills becoming focus; difficulty is derived from the skill levels; duration is estimated from reps; prerequisites is empty |
| VectorStoreV2.FocusFromSkills | src/service/vectorStoreV2.ts:25-51 | One trimmed, comma-free focus tag per piece of Skills, and the tags join back to Skills when unpadded |
| VectorStoreV2.TransformDefaults | src/service/vectorStoreV2.ts:29-54 | Intermediate iff neither "Youth" nor "College" is a skill level, and every duration is positive |
| VectorStoreV2.TransformDrillData | src/service/vectorStoreV2.ts:21-61 | One document per record, in order, each the record transformed |
| VectorStoreV2.FirstRejected | src/service/vectorStoreV2.ts:118-143 | The number of the first rejected batch, or none when every batch is accepted |
| VectorStoreV2.AddInBatches | src/service/vectorStoreV2.ts:118-143 | The loop reports the first rejected batch. The store gains all documents when none fails, and exactly the batches before the failing one otherwise |
| VectorStoreV2.AddBatch | src/service/vectorStoreV2.ts:119-134 | One step adds the next batch, numbered one more than the batches done (that is, floor(i/batchSize)+1), exactly when the store accepts it |
| VectorStoreV2.SearchFilter | src/service/vectorStoreV2.ts:163-175 | The filter holds a skillLevels $in clause iff a non-empty list is given, a category clause iff contentType is non-empty, a difficulty clause iff difficulty is non-empty, and no other key |
| VectorStoreV2.SkillsIgnored | src/service/vectorStoreV2.ts:151-175 | The skills filter never changes the search filter |
| VectorStoreV2.ResultOf | src/service/vectorStoreV2.ts:183-187 | A result keeps the metadata and score, and its matched content is the first 150 characters followed by "..." |
| VectorStoreV2.SearchResults | src/service/vectorStoreV2.ts:183-187 | One result per hit, in order |
| VectorStoreV2.SearchHonoursFilters | src/service/vectorStoreV2.ts:163-187 | Against a filter-honouring index: at most topK results, each passing the filter, each of the requested content type |
| VectorStoreV2.DrillVectorStoreManager.InitializeVectorStore | src/service/vectorStoreV2.ts:95-104 | A fresh empty handle on the named index becomes the store |
| VectorStoreV2.DrillVectorStoreManager.ProcessDrillsFromJSON | src/service/vectorStoreV2.ts:107-146 | Without a store it throws the initialise-first error, whatever the batch size. An empty list returns and stores nothing. Otherwise it stores all documents, or throws at the first rejected batch having stored exactly the batches before it |
| VectorStoreV2.DrillVectorStoreManager.SearchDrills | src/service/vectorStoreV2.ts:149-188 | Without a store it throws. Otherwise it returns the results of searching with the built filter |
| Batching.BatchesCover | src/service/vectorStoreV2.ts:118-119 | The batches concatenate to the input |
| Batching.BatchesShape | src/service/vectorStoreV2.ts:118-119 | Every batch is non-empty and at most batchSize long, and all but the last are full |
| Batching.BatchCount | src/service/vectorStoreV2.ts:118-121 | Batch b exists iff b*batchSize is below the input length |
| Batching.WalkEnd | src/service/vectorStoreManager.ts:42-43 | The walk with `i += batchSize` visits exactly the batches |
| Batching.ZeroSizeLoopRuns | src/service/vectorStoreV2.ts:118 | With batchSize 0 and a non-empty input, the loop never ends for any amount of fuel |
| Batching.LoopPassesBatches | src/service/vectorStoreV2.ts:118 | With a positive batchSize, the loop ends after exactly one pass per batch |
| Batching.KeptAllBut | src/service/vectorStoreManager.ts:60-67 | When exactly batch j fails and is skipped, the store keeps every batch but j |
| VectorStoreManager.IndexMetadata | src/service/vectorStoreManager.ts:50-58 | The stored metadata keeps the drill's id and title |
| VectorStoreManager.IndexMetadataDefaults | src/service/vectorStoreManager.ts:50-58 | Category defaults to "general", difficulty to beginner, focus to [], duration to 10 (also for 0), prerequisites to []; other keys are absent |
| VectorStoreManager.IndexTextBare | src/service/vectorStoreManager.ts:46-48 | A drill without focus, category, difficulty and tags is indexed with four "undefined" words |
| VectorStoreManager.IndexSlice | src/service/vectorStoreManager.ts:43-62 | Building documents commutes with slicing a batch |
| VectorStoreManager.StoredAll | src/service/vectorStoreManager.ts:42-68 | When no batch fails, every drill's document is stored |
| VectorStoreManager.StoredAllBut | src/service/vectorStoreManager.ts:42-68 | When only batch j fails, every document but those of batch j is stored |
| VectorStoreManager.IndexInBatches | src/service/vectorStoreManager.ts:42-68 | The loop adds the accepted batches, in order, and skips rejected ones |
| VectorStoreManager.ProcessBatch | src/service/vectorStoreManager.ts:43-67 | One step adds the next batch when accepted and goes on either way |
| VectorStoreManager.ExclusionFilter | src/service/vectorStoreManager.ts:85-89 | An id $nin clause of the completed ids iff there are any, and no other key |
| VectorStoreManager.ListOrNone | src/service/vectorStoreManager.ts:94-96 | A missing or empty-joining list is "none". Otherwise the list joined with ", " |
| VectorStoreManager.EquipmentText | src/service/vectorStoreManager.ts:98 | Missing or empty equipment is "none". Otherwise the list joined with ", " |
| VectorStoreManager.UserLevelText | src/service/vectorStoreManager.ts:93 | A missing level reads "beginner". Otherwise the level's name |
| VectorStoreManager.EnhancedQueryDefaults | src/service/vectorStoreManager.ts:91-99 | A user with only a profile is described with every default value |
| VectorStoreManager.ToScoredDrill | src/service/vectorStoreManager.ts:108-120 | A hit becomes a drill with the metadata's fields. The name falls back to the id, the description is the first 200 characters, reps is "TBD", and the score is kept |
| VectorStoreManager.IndexedDrillRetrieved | src/service/vectorStoreManager.ts:46-120 | A drill indexed by batchProcessDrills comes back with its id, title and the indexed defaults, named by its id |
| VectorStoreManager.RelevantDrills | src/service/vectorStoreManager.ts:91-121 | One drill per hit of the exclusion-filtered search for topK*2 |
| VectorStoreManager.RelevantExcludesCompleted | src/service/vectorStoreManager.ts:85-106 | Against a filter-honouring index: at most topK*2 drills, none completed |
| VectorStoreManager.VectorStoreManager.InitializeVectorStore | src/service/vectorStoreManager.ts:24-33 | A fresh empty handle on the named index becomes the store |
| VectorStoreManager.VectorStoreManager.GetVectorStore | src/service/vectorStoreManager.ts:124-126 | Returns the current store, or null |
| VectorStoreManager.VectorStoreManager.BatchProcessDrills | src/service/vectorStoreManager.ts:35-71 | Without a store it throws, whatever the batch size. An empty list returns and stores nothing. Otherwise it succeeds, with the store gaining the accepted batches |
| VectorStoreManager.VectorStoreManager.FindRelevantDrills | src/service/vectorStoreManager.ts:73-122 | Without a store it throws. Otherwise it returns the relevant drills |
| DrillRecommendation.TopRelevant | src/drillRecommendation.ts:53-55 | Exactly min(topK, number of distinct titles) drills |
| DrillRecommendation.TopRelevantBest | src/drillRecommendation.ts:53-55 | Every deduplicated drill that is cut off scores no higher than any drill returned, so the topK best titles are kept |
| DrillRecommendation.TopRelevantDistinct | src/drillRecommendation.ts:53-55 | No two returned drills share a normalised title |
| DrillRecommendation.TopRelevantSorted | src/drillRecommendation.ts:53-55 | The returned drills are ordered by score, highest first |
| DrillRecommendation.TopRelevantKept | src/drillRecommendation.ts:53-55 | Each returned drill is the best-scoring retrieved drill of its title |
| DrillRecommendation.TopRelevantCovers | src/drillRecommendation.ts:53-55 | With at most topK titles retrieved, every title is represented |
| DrillRecommendation.AddTagsGroups | src/drillRecommendation.ts:104-107 | Adding a drill under its tags creates exactly those groups and appends the drill once to each |
| DrillRecommendation.FocusGroupsKeys | src/drillRecommendation.ts:102-108 | A focus group exists iff some relevant drill carries that focus |
| DrillRecommendation.FocusGroupsMembers | src/drillRecommendation.ts:102-108 | Every member of a group carries its focus |
| DrillRecommendation.FocusGroupsInOrder | src/drillRecommendation.ts:102-108 | With duplicate-free tags, a group is exactly the drills carrying its focus, in order |
| DrillRecommendation.FocusGroups | src/drillRecommendation.ts:102-108 | The nested loops build the focus-group map |
| DrillRecommendation.AddFoci | src/drillRecommendation.ts:104-107 | The inner loop adds one drill under each of its tags |
| DrillRecommendation.PersonalizedBlockProperties | src/drillRecommendation.ts:88-147 | A returned block has between 3 and blockSize drills, no two with the same title. Against a filter-honouring index none of them is completed |
| DrillRecommendation.BlockForRetrieved | src/drillRecommendation.ts:88-137 | A block built from the deduplicated retrieval has 3..blockSize drills, distinct titles, and only retrieved drills |
| DrillRecommendation.BlockFromPool | src/service/blockCreator.ts:18-51 | A block of a title-distinct pool has 3..blockSize drills with distinct titles, all from the pool |
| DrillRecommendation.ScalableDrillRecommendationSystem.InitializeVectorStore | src/drillRecommendation.ts:19-21 | Delegates to the manager: a fresh empty handle on the named index becomes its store |
| DrillRecommendation.ScalableDrillRecommendationSystem.BatchProcessDrills | src/drillRecommendation.ts:24-26 | Delegates to the manager: throws without a store, returns on an empty list, otherwise stores the accepted batches |
| DrillRecommendation.ScalableDrillRecommendationSystem.GetAvailableDrills | src/drillRecommendation.ts:29-35 | Delegates to the data service's available drills |
| DrillRecommendation.ScalableDrillRecommendationSystem.FindRelevantDrills | src/drillRecommendation.ts:38-56 | Without a store it throws. Otherwise the top topK deduplicated relevant drills |
| DrillRecommendation.ScalableDrillRecommendationSystem.CreateOptimizedDrillBlock | src/drillRecommendation.ts:59-71 | Delegates to the block creator: the optimised block of the original array |
| DrillRecommendation.ScalableDrillRecommendationSystem.CreatePersonalizedDrillBlocks | src/drillRecommendation.ts:74-148 | Initialises a fresh "drills-idx" store only when none exists. The result is the personalised block for numBlocks*blockSize*20 retrieved drills, or the "No available drills found" / "Failed to create any drill blocks" error |
| DrillRecommendation.ScalableDrillRecommendationSystem.BuildBlock | src/drillRecommendation.ts:98-147 | An empty relevant list and a null block are the two errors. Otherwise the block |
| StableSort.SortPermutes | src/service/blockCreator.ts:27-38 | Sorting permutes the input |
| StableSort.SortSorted | src/service/blockCreator.ts:27-38 | The sort orders by the key, best first |
| StableSort.SortStable | src/service/drillDataService.ts:67 | Drills with equal keys keep their relative order (Array.prototype.sort is stable) |
| StableSort.SortInPlace | src/service/blockCreator.ts:27-28 | The in-place insertion sort leaves the array equal to the stable sort of its old contents |

## Left out

- BlockCreator.SelectionPositions, BlockCreator.ProgressiveSelection, BlockCreator.ApplyProgressiveSelection and BlockCreator.CreateOptimizedDrillBlock: phase 2 of the selection excludes already selected drills by position in the pool. The source excludes them by object identity (`selected.includes(d)`). The two agree whenever no object sits in two slots of the array. A caller passing the same object twice gets it once from the source and possibly twice from the model. In the pipeline the pool is the title-deduplicated retrieval (DrillRecommendation.BlockFromPool requires and uses DistinctBy), so no object repeats there.
- JsString.LowerChar and JsString.ToLowerCase: only ASCII letters are lowered, where JavaScript's `toLowerCase` folds all of Unicode. DrillDataService.DeduplicateByTitle therefore treats titles like "École" and "école" as different, and the source treats them as duplicates.
- JsString.Take: it counts characters (Unicode scalar values), where `substring(0, n)` counts UTF-16 code units. VectorStoreV2.ResultOf (150) and VectorStoreManager.ToScoredDrill (200) therefore cut texts that contain characters outside the Basic Multilingual Plane at a different place. They never split a surrogate pair.
- Count parameters (topK, blockSize, numBlocks, maxResults, batchSize) are `nat`: negative or fractional counts and JavaScript's negative-index `slice` are not modelled. The TypeScript defaults are not parameters with defaults: topK 30, blockSize 8, numBlocks 3, maxResults 50, batchSize 50 (ingestion) and 100 (manager), topK 10 (search) and index name "drills-idx". Callers pass them explicitly. The default index name is used by CreatePersonalizedDrillBlocks.
- VectorStoreV2.DrillVectorStoreManager.ProcessDrillsFromJSON, VectorStoreManager.VectorStoreManager.BatchProcessDrills and DrillRecommendation.ScalableDrillRecommendationSystem.BatchProcessDrills exclude one kind of call: batchSize 0 with a store present and a non-empty list. On that call the source never returns (see Findings, shown by Batching.ZeroSizeLoopRuns). The terminating batchSize 0 calls are modelled: with no store they throw, and with an empty list they return. The loop methods VectorStoreV2.AddInBatches and VectorStoreManager.IndexInBatches are only reached with batchSize > 0 and require it.
- Scores are `real`: floating-point rounding, NaN and infinite scores in the comparator and in the 0.8 threshold are not modelled. BlockCreator.CalculateBlockDifficulty compares the level sum with exact integer thresholds (5*sum <= 7*n for 1.4, 5*sum <= 12*n for 2.4). VectorStoreV2.CeilMinutes is exact integer ceiling, with no loss of precision for very long digit strings.
- Store failures: an exception of `addDocuments` (network, quota, rejection) is the `rejected` oracle by batch number. The exception object itself is `AddFailed(k)`. Which error it was, and any partial write within one batch, are not modelled.
- Drills.Drill.difficulty is `Option<Level>`, so a difficulty string outside "beginner", "intermediate" and "advanced" is the same as a missing one. For such strings:
  - BlockCreator.SkillWeight agrees with the source (both count level 1).
  - BlockCreator.CalculateBlockDifficulty counts beginner where the source gets NaN and answers "advanced".
  - VectorStoreManager.IndexMetadata stores beginner where the source stores the string unchanged.
  - The search filter's difficulty clause is matched against the level's name.
- The `similaritySearchWithScore` index is a parameter that is not tied to the documents stored. Embeddings, the OpenAI and Pinecone clients, `maxConcurrency`, and the embeddings' batch size are configuration of the outside services.
- `generateBlockMetadata` (the language-model call and its JSON parsing, blockCreator.ts:100-123) and `calculateCoherence` (blockCreator.ts:135-140) are left out. Neither is called by live code.
- The commented-out multi-block loop and block object (drillRecommendation.ts:114-130, blockCreator.ts:52-65) are left out. So is the unused `blocks`/`usedDrillIds` pair and `totalDuration` (blockCreator.ts:48), which is computed and never used.
- The catalogue of `getAvailableDrills` is a hard-coded empty placeholder in the source (drillDataService.ts:18). The model takes it as the parameter `catalogue`; with `[]` the result is `[]`.
- `console.log`, `setTimeout` delays, `dotenv`, dynamic `import()`, `indexDrills` with its file reading and `require.main` runner (vectorStoreV2.ts:192-231), and the sample constants at the end of drillRecommendation.ts are left out. The HTTP controller and server are not part of this model.
- Asynchrony: every `async` method is modelled as running to completion before the next call, so interleavings of concurrent calls on one manager are not modelled.

## Findings

| source | as written | input that shows it | evidently intended | confidence | as-written member | corrected member |
|---|---|---|---|---|---|---|
| src/service/vectorStoreV2.ts:118 (also src/service/vectorStoreManager.ts:42) | `for (let i = 0; i < n; i += batchSize)` with no check on batchSize | batchSize = 0 with at least one drill: `i` stays 0 and the loop never ends, re-adding batch 1 (an empty slice) forever | a positive batch size, so the loop ends after ceil(n / batchSize) passes | not executed | Batching.ZeroSizeLoopRuns | Batching.LoopPassesBatches |
