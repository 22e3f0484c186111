/**
 * The record shapes of src/types/types.ts, plus the vector index's document
 * and filter vocabulary shared by the retrieval and ingestion modules.
 */
module Drills {

  datatype Option<+T> = None | Some(value: T)

  datatype Result<+R, +E> = Success(value: R) | Failure(error: E)

  /** `s || fallback` on an optional string: a missing or empty string gives way to `fallback`. */
  function OrDefault(s: Option<string>, fallback: string): (r: string)
    ensures r == fallback <==> s.None? || s.value == [] || s.value == fallback
    ensures r != fallback ==> s == Some(r)
  {
    if s.None? || s.value == [] then fallback else s.value
  }

  /** What an operation throws: an `Error` with its message, or the failure of the store while adding batch `batchNumber`. */
  datatype Thrown = Error(message: string) | AddFailed(batchNumber: nat)

  /** The three difficulty / skill levels a drill or a user may carry. */
  datatype Level = Beginner | Intermediate | Advanced

  /** The string a level is written as in metadata and in query text. */
  function LevelName(l: Level): string {
    match l
    case Beginner => "beginner"
    case Intermediate => "intermediate"
    case Advanced => "advanced"
  }

  /**
   * A catalogue drill. Optional fields are `Option`s: a missing property and,
   * for `difficulty`, a value outside the three levels are both `None`.
   */
  datatype Drill = Drill(
    id: string,
    title: string,
    name: string,
    description: string,
    reps: string,
    category: Option<string>,
    difficulty: Option<Level>,
    focus: Option<seq<string>>,
    prerequisites: Option<seq<string>>,
    duration: Option<int>,
    tags: Option<seq<string>>)

  /** `Drill & { relevanceScore: number }`: a drill with the index's score. */
  datatype ScoredDrill = ScoredDrill(drill: Drill, relevanceScore: real)

  datatype UserProgress = UserProgress(
    userId: string,
    completedDrillIds: seq<string>,
    skillLevel: Option<Level>,
    preferences: Option<seq<string>>,
    weakAreas: Option<seq<string>>,
    recentActivity: Option<seq<string>>)

  /** `Rank` in the ingestion JSON is a string or a number; it is passed through. */
  datatype RankValue = RankText(text: string) | RankNumber(number: real)

  /**
   * The metadata object stored with a document in the vector index. Both
   * indexers write a subset of these keys; an absent key is `None`.
   */
  datatype Metadata = Metadata(
    id: string,
    title: string,
    name: Option<string>,
    description: Option<string>,
    reps: Option<string>,
    category: Option<string>,
    difficulty: Option<Level>,
    focus: Option<seq<string>>,
    skillLevels: Option<seq<string>>,
    equipment: Option<seq<string>>,
    duration: Option<int>,
    rank: Option<RankValue>,
    prerequisites: Option<seq<string>>)

  datatype Document = Document(pageContent: string, metadata: Metadata)

  /** One answer of a similarity search: a stored document and its score. */
  datatype Hit = Hit(doc: Document, score: real)

  /** One clause of a metadata filter object (`{$in: [...]}`, `{$nin: [...]}` or a plain value). */
  datatype Clause = In(values: seq<string>) | NotIn(values: seq<string>) | Equals(value: string)

  /** A metadata filter object: metadata key to clause; `map[]` is `{}`. */
  type Filter = map<string, Clause>

  /** The vector index's similarity search, an external collaborator: query text, result count, filter. */
  type SearchIndex = (string, nat, Filter) -> seq<Hit>

  /** The values a metadata key holds, as the filter language sees them (a list key holds several). */
  function FieldValues(m: Metadata, key: string): seq<string> {
    if key == "id" then [m.id]
    else if key == "title" then [m.title]
    else if key == "category" then (if m.category.Some? then [m.category.value] else [])
    else if key == "difficulty" then (if m.difficulty.Some? then [LevelName(m.difficulty.value)] else [])
    else if key == "skillLevels" then (if m.skillLevels.Some? then m.skillLevels.value else [])
    else if key == "focus" then (if m.focus.Some? then m.focus.value else [])
    else []
  }

  predicate ClauseHolds(values: seq<string>, c: Clause) {
    match c
    case In(xs) => exists v :: v in values && v in xs
    case NotIn(xs) => forall v :: v in values ==> v !in xs
    case Equals(x) => x in values
  }

  /** A document's metadata passes a filter when every clause of the filter holds. */
  predicate Satisfies(m: Metadata, f: Filter) {
    forall key :: key in f ==> ClauseHolds(FieldValues(m, key), f[key])
  }

  /**
   * What the index promises about a search: at most `k` hits, each passing
   * the filter. The model assumes this of the index only where a property
   * says so explicitly.
   */
  ghost predicate HonoursFilter(index: SearchIndex) {
    forall q, k, f :: |index(q, k, f)| <= k &&
      forall i :: 0 <= i < |index(q, k, f)| ==> Satisfies(index(q, k, f)[i].doc.metadata, f)
  }

  /**
   * A handle on a named index of the vector database. `documents` is what
   * has been added through this handle; whether one `addDocuments` call is
   * rejected is decided by the database, and arrives here as `rejected`.
   */
  class PineconeStore {
    const indexName: string
    var documents: seq<Document>

    constructor(indexName: string)
      ensures this.indexName == indexName && documents == []
    {
      this.indexName := indexName;
      documents := [];
    }

    /** `addDocuments(docs)`: all of `docs` stored, in order, unless the database rejects the call. */
    method AddDocuments(docs: seq<Document>, rejected: bool) returns (ok: bool)
      modifies this
      ensures ok == !rejected
      ensures documents == if ok then old(documents) + docs else old(documents)
    {
      if rejected {
        ok := false;
      } else {
        documents := documents + docs;
        ok := true;
      }
    }
  }
}
