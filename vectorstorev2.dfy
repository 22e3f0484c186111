/**
 * src/service/vectorStoreV2.ts: turning the ingestion JSON records into
 * indexable documents (embedding text, metadata, the duration estimate
 * read from the reps text), indexing them batch by batch, and the
 * filtered similarity search over the index.
 */
module VectorStoreV2 {
  import opened Drills
  import opened JsString
  import opened Batching

  /** One record of the ingestion JSON; every field is text except `Rank`. */
  datatype DrillData = DrillData(
    drillName: string,
    description: string,
    reps: string,
    contentType: string,
    skillLevel: string,
    skills: string,
    equipment: string,
    rank: RankValue,
    drillId: string)

  // The pattern `(\d+)\s*sets?\s*x\s*(\d+)` with the `i` flag. Each
  // quantified part is followed by a character it cannot consume, so the
  // greedy choice is the only one that can succeed and no backtracking
  // is needed; the flag folds ASCII letters only.

  /** The length of the longest run of digits starting at `i`. */
  function DigitRun(s: string, i: nat): (n: nat)
    requires i <= |s|
    ensures i + n <= |s|
    decreases |s| - i
  {
    if i < |s| && IsDigit(s[i]) then 1 + DigitRun(s, i + 1) else 0
  }

  /** The run is maximal: digits up to `i + DigitRun(s, i)`, and the next character, if any, is not. */
  lemma {:induction false} DigitRunMaximal(s: string, i: nat)
    requires i <= |s|
    ensures forall k :: i <= k < i + DigitRun(s, i) ==> IsDigit(s[k])
    ensures i + DigitRun(s, i) == |s| || !IsDigit(s[i + DigitRun(s, i)])
    decreases |s| - i
  {
    if i < |s| && IsDigit(s[i]) {
      DigitRunMaximal(s, i + 1);
    }
  }

  /** The length of the longest run of whitespace starting at `i`. */
  function SpaceRun(s: string, i: nat): (n: nat)
    requires i <= |s|
    ensures i + n <= |s|
    decreases |s| - i
  {
    if i < |s| && IsWhitespace(s[i]) then 1 + SpaceRun(s, i + 1) else 0
  }

  /** The run is maximal: whitespace up to `i + SpaceRun(s, i)`, and the next character, if any, is not. */
  lemma {:induction false} SpaceRunMaximal(s: string, i: nat)
    requires i <= |s|
    ensures forall k :: i <= k < i + SpaceRun(s, i) ==> IsWhitespace(s[k])
    ensures i + SpaceRun(s, i) == |s| || !IsWhitespace(s[i + SpaceRun(s, i)])
    decreases |s| - i
  {
    if i < |s| && IsWhitespace(s[i]) {
      SpaceRunMaximal(s, i + 1);
    }
  }

  /**
   * The character at `i` is the letter `lower` or its capital `upper`: the
   * `i` flag without the `u` flag folds only ASCII letters.
   */
  predicate LetterAt(s: string, i: nat, lower: char, upper: char) {
    i < |s| && (s[i] == lower || s[i] == upper)
  }

  /**
   * After the first numeral, at `q`: `\s*sets?\s*x\s*` in either case. The
   * position where the second numeral must start, if that part matches.
   */
  function SetsTimes(s: string, q: nat): (r: Option<nat>)
    requires q <= |s|
    ensures r.Some? ==> q < r.value <= |s|
  {
    var q0 := q + SpaceRun(s, q);
    if !(LetterAt(s, q0, 's', 'S') && LetterAt(s, q0 + 1, 'e', 'E') && LetterAt(s, q0 + 2, 't', 'T')) then None
    else
      var q1 := if LetterAt(s, q0 + 3, 's', 'S') then q0 + 4 else q0 + 3;
      var q2 := q1 + SpaceRun(s, q1);
      if !LetterAt(s, q2, 'x', 'X') then None
      else Some(q2 + 1 + SpaceRun(s, q2 + 1))
  }

  /** The two captured digit strings when the pattern matches starting exactly at `p`. */
  function MatchAt(s: string, p: nat): (m: Option<(string, string)>)
    requires p <= |s|
    ensures m.Some? ==> m.value.0 != [] && m.value.1 != []
    ensures m.Some? ==> AllDigits(m.value.0) && AllDigits(m.value.1)
  {
    var d1 := DigitRun(s, p);
    var next := if d1 == 0 then None else SetsTimes(s, p + d1);
    if next.None? then None
    else
      var q := next.value;
      var d2 := DigitRun(s, q);
      if d2 == 0 then None
      else
        DigitRunMaximal(s, p);
        DigitRunMaximal(s, q);
        Some((s[p..p + d1], s[q..q + d2]))
  }

  /** `String.prototype.match` from `start` on: the leftmost position where the pattern matches. */
  function FindMatch(s: string, start: nat): (p: Option<nat>)
    requires start <= |s|
    ensures p.Some? ==> start <= p.value <= |s| && MatchAt(s, p.value).Some?
    ensures p.Some? ==> forall k :: start <= k < p.value ==> MatchAt(s, k).None?
    ensures p.None? ==> forall k :: start <= k <= |s| ==> MatchAt(s, k).None?
    decreases |s| - start
  {
    if MatchAt(s, start).Some? then Some(start)
    else if start == |s| then None
    else FindMatch(s, start + 1)
  }

  /**
   * `Math.ceil((sets * repsPerSet * 0.5) / 60) || 10`: whole minutes at
   * thirty seconds a rep, rounded up, and ten when that is zero.
   */
  function CeilMinutes(sets: nat, repsPerSet: nat): (minutes: nat)
    ensures sets * repsPerSet == 0 ==> minutes == 10
    ensures sets * repsPerSet > 0 ==> (minutes - 1) * 120 < sets * repsPerSet <= minutes * 120
  {
    var total := sets * repsPerSet;
    var c := (total + 119) / 120;
    if c <= 0 then 10 else c
  }

  /** `estimateDuration(reps)`: minutes for a drill, read from its reps text. */
  function EstimateDuration(reps: string): (minutes: nat)
    ensures minutes >= 1
    ensures reps == "Fundamentals" ==> minutes == 5
    ensures reps != "Fundamentals" && (forall i :: 0 <= i < |reps| ==> !IsDigit(reps[i])) ==> minutes == 10
    ensures reps != "Fundamentals" && (forall k :: 0 <= k <= |reps| ==> MatchAt(reps, k).None?) ==> minutes == 10
  {
    if reps == "Fundamentals" then 5
    else match FindMatch(reps, 0)
      case None => 10
      case Some(p) =>
        var groups := MatchAt(reps, p).value;
        CeilMinutes(DigitsValue(groups.0), DigitsValue(groups.1))
  }

  /** A digit run is read up to the first non-digit. */
  lemma {:induction false} DigitRunIs(s: string, i: nat, m: nat)
    requires i + m <= |s|
    requires forall k :: i <= k < i + m ==> IsDigit(s[k])
    requires i + m == |s| || !IsDigit(s[i + m])
    ensures DigitRun(s, i) == m
    decreases m
  {
    if m > 0 {
      DigitRunIs(s, i + 1, m - 1);
    }
  }

  /** A whitespace run is read up to the first other character. */
  lemma {:induction false} SpaceRunIs(s: string, i: nat, m: nat)
    requires i + m <= |s|
    requires forall k :: i <= k < i + m ==> IsWhitespace(s[k])
    requires i + m == |s| || !IsWhitespace(s[i + m])
    ensures SpaceRun(s, i) == m
    decreases m
  {
    if m > 0 {
      SpaceRunIs(s, i + 1, m - 1);
    }
  }

  /** The characters of `s` from `i` (inclusive) to `j` (exclusive) are whitespace. */
  predicate SpacesBetween(s: string, i: nat, j: nat) {
    i <= j <= |s| && forall k :: i <= k < j ==> IsWhitespace(s[k])
  }

  /**
   * `s` holds, from `q` on, a spelling `\s*sets?\s*x\s*` accepts under the
   * `i` flag: `n1` whitespace characters, "set" or "sets" (`n` letters),
   * `n2` whitespace characters, "x", and `n3` whitespace characters.
   */
  predicate SeparatorAt(s: string, q: nat, n1: nat, n: nat, n2: nat, n3: nat) {
    var q0, q1 := q + n1, q + n1 + n;
    var q2 := q1 + n2;
    q2 + 1 + n3 <= |s| && (n == 3 || n == 4) &&
    SpacesBetween(s, q, q0) &&
    LetterAt(s, q0, 's', 'S') && LetterAt(s, q0 + 1, 'e', 'E') && LetterAt(s, q0 + 2, 't', 'T') &&
    (n == 4 ==> LetterAt(s, q0 + 3, 's', 'S')) &&
    SpacesBetween(s, q1, q2) &&
    LetterAt(s, q2, 'x', 'X') &&
    SpacesBetween(s, q2 + 1, q2 + 1 + n3)
  }

  /** The optional plural `s` is taken exactly when it is there. */
  lemma SetWordAt(s: string, q: nat, n1: nat, n: nat, n2: nat, n3: nat)
    requires SeparatorAt(s, q, n1, n, n2, n3)
    ensures var q0 := q + n1; (if LetterAt(s, q0 + 3, 's', 'S') then q0 + 4 else q0 + 3) == q0 + n
  {
    var q1 := q + n1 + n;
    if n == 3 && n2 > 0 {
      assert IsWhitespace(s[q1]);
    }
  }

  /** A separator followed by a digit is consumed whole: the second numeral starts right after it. */
  lemma SetsTimesAt(s: string, q: nat, n1: nat, n: nat, n2: nat, n3: nat)
    requires SeparatorAt(s, q, n1, n, n2, n3)
    requires q + n1 + n + n2 + 1 + n3 < |s| && IsDigit(s[q + n1 + n + n2 + 1 + n3])
    ensures SetsTimes(s, q) == Some(q + n1 + n + n2 + 1 + n3)
  {
    var q0 := q + n1;
    var q1 := q0 + n;
    var q2 := q1 + n2;
    SpaceRunIs(s, q, n1);
    SetWordAt(s, q, n1, n, n2, n3);
    SpaceRunIs(s, q1, n2);
    SpaceRunIs(s, q2 + 1, n3);
  }

  /** The match at `p` from its three parts: digits up to `e1`, the separator up to `q`, digits up to `e2`. */
  lemma MatchAtIs(s: string, p: nat, e1: nat, q: nat, e2: nat)
    requires p < e1 <= |s| && q < e2 <= |s|
    requires DigitRun(s, p) == e1 - p && SetsTimes(s, e1) == Some(q) && DigitRun(s, q) == e2 - q
    ensures MatchAt(s, p) == Some((s[p..e1], s[q..e2]))
  {
  }

  /** The characters of `s` from `i` (inclusive) to `j` (exclusive) are digits. */
  predicate DigitsBetween(s: string, i: nat, j: nat) {
    i <= j <= |s| && forall k :: i <= k < j ==> IsDigit(s[k])
  }

  /**
   * The pattern matches at `p` when `s` holds digits from `p` to `e1`, then
   * a separator in any spelling the pattern accepts, then digits from `q`
   * to `e2` followed by a non-digit or by nothing; it captures the two
   * numerals whole.
   */
  lemma MatchSpelled(s: string, p: nat, e1: nat, n1: nat, n: nat, n2: nat, n3: nat, q: nat, e2: nat)
    requires p < e1 && DigitsBetween(s, p, e1) && SeparatorAt(s, e1, n1, n, n2, n3)
    requires q == e1 + n1 + n + n2 + 1 + n3
    requires q < e2 && DigitsBetween(s, q, e2) && (e2 == |s| || !IsDigit(s[e2]))
    ensures MatchAt(s, p) == Some((s[p..e1], s[q..e2]))
  {
    if n1 > 0 {
      assert IsWhitespace(s[e1]);
    }
    DigitRunIs(s, p, e1 - p);
    SetsTimesAt(s, e1, n1, n, n2, n3);
    DigitRunIs(s, q, e2 - q);
    MatchAtIs(s, p, e1, q, e2);
  }

  /**
   * The estimate is read from the leftmost match: `sets` times `reps`
   * from its two numerals.
   */
  lemma EstimateLeftmost(reps: string, p: nat)
    requires reps != "Fundamentals" && p <= |reps| && MatchAt(reps, p).Some?
    requires forall k :: 0 <= k < p ==> MatchAt(reps, k).None?
    ensures EstimateDuration(reps) ==
      CeilMinutes(DigitsValue(MatchAt(reps, p).value.0), DigitsValue(MatchAt(reps, p).value.1))
  {
    assert FindMatch(reps, 0) == Some(p);
  }

  /**
   * A reps text opening with "`da` sets x `db`", in any spelling the
   * pattern accepts, is read as `da` sets of `db` reps, whatever follows.
   */
  lemma EstimateSpelled(reps: string, e1: nat, n1: nat, n: nat, n2: nat, n3: nat, q: nat, e2: nat)
    requires 0 < e1 && DigitsBetween(reps, 0, e1) && SeparatorAt(reps, e1, n1, n, n2, n3)
    requires q == e1 + n1 + n + n2 + 1 + n3
    requires q < e2 && DigitsBetween(reps, q, e2) && (e2 == |reps| || !IsDigit(reps[e2]))
    ensures EstimateDuration(reps) == CeilMinutes(DigitsValue(reps[0..e1]), DigitsValue(reps[q..e2]))
  {
    MatchSpelled(reps, 0, e1, n1, n, n2, n3, q, e2);
    EstimateFromMatch(reps, reps[0..e1], reps[q..e2]);
  }

  /** A match at the very start is the leftmost one, and the text then opens with a digit. */
  lemma EstimateFromMatch(reps: string, a: string, b: string)
    requires MatchAt(reps, 0) == Some((a, b))
    ensures EstimateDuration(reps) == CeilMinutes(DigitsValue(a), DigitsValue(b))
  {
    assert DigitRun(reps, 0) > 0;
    assert reps != "Fundamentals" by {
      assert IsDigit(reps[0]);
    }
    EstimateLeftmost(reps, 0);
  }

  /** The reps text "`a` sets x `b` reps", with the numbers written out, is read back as `a` sets of `b`. */
  lemma EstimateRendered(a: nat, b: nat)
    ensures EstimateDuration(Decimal(a) + " sets x " + Decimal(b) + " reps") == CeilMinutes(a, b)
  {
    var da, db := Decimal(a), Decimal(b);
    var reps := da + " sets x " + db + " reps";
    var m := |da|;
    RenderedSpelled(da, db);
    EstimateSpelled(reps, m, 1, 4, 1, 1, m + 8, m + 8 + |db|);
    DecimalValue(a);
    DecimalValue(b);
  }

  /** Where the numerals and the separator lie in a rendered reps text. */
  lemma RenderedSpelled(da: string, db: string)
    requires AllDigits(da) && AllDigits(db)
    ensures var reps, m := da + " sets x " + db + " reps", |da|;
      DigitsBetween(reps, 0, m) && SeparatorAt(reps, m, 1, 4, 1, 1) &&
      DigitsBetween(reps, m + 8, m + 8 + |db|) && !IsDigit(reps[m + 8 + |db|]) &&
      reps[0..m] == da && reps[m + 8..m + 8 + |db|] == db
  {
    var reps, m := da + " sets x " + db + " reps", |da|;
    assert forall k :: 0 <= k < m ==> reps[k] == da[k];
    assert forall k :: 0 <= k < |db| ==> reps[m + 8 + k] == db[k];
    assert reps[m..m + 8] == " sets x ";
    assert reps[m + 8 + |db|] == ' ';
  }

  /** The difficulty a record's skill levels imply: any "Youth" level makes it beginner, else any "College" level advanced. */
  function DifficultyOf(skillLevels: seq<string>): (l: Level)
    ensures l == Beginner <==> "Youth" in skillLevels
    ensures l == Advanced <==> "Youth" !in skillLevels && "College" in skillLevels
  {
    if "Youth" in skillLevels then Beginner
    else if "College" in skillLevels then Advanced
    else Intermediate
  }

  /** The line break and twelve-space indentation between lines of the embedding text template. */
  const Indent: string := "\n            "

  /** The embedding text between the name and the content type. */
  function MiddleLines(d: DrillData): string {
    Indent + d.description + Indent +
    "Skills: " + Join(SplitTrim(d.skills, ','), " ") + Indent +
    "Skill Level: " + d.skillLevel + Indent +
    "Equipment: " + d.equipment + Indent +
    "Content Type: "
  }

  /** The embedding text's lines, one field per line. */
  function TextLines(d: DrillData): string {
    d.drillName + MiddleLines(d) + d.contentType
  }

  /** The template as written, before `.trim()`: a leading indented line break and an eight-space last line. */
  function EmbeddingText(d: DrillData): string {
    Trim(Indent + TextLines(d) + "\n        ")
  }

  /**
   * When the name starts and the content type ends with a visible
   * character, the trim removes exactly the template's padding; otherwise
   * it eats into those fields as well.
   */
  lemma EmbeddingTextLayout(d: DrillData)
    requires d.drillName != [] && !IsWhitespace(d.drillName[0])
    requires d.contentType != [] && !IsWhitespace(d.contentType[|d.contentType| - 1])
    ensures EmbeddingText(d) == TextLines(d)
  {
    Ends(d.drillName, MiddleLines(d), d.contentType);
    PaddingIsWhitespace();
    TrimPadded(Indent, TextLines(d), "\n        ");
  }

  /** The template's padding is whitespace. */
  lemma PaddingIsWhitespace()
    ensures AllWhitespace(Indent) && AllWhitespace("\n        ")
  {
  }

  /**
   * `transformDrillData` on one record: the embedding text, and metadata
   * keeping the record's text fields, its three comma-separated lists split
   * and trimmed (the skills as the focus), the difficulty its skill levels
   * imply, the duration read from its reps, and no prerequisites.
   */
  function TransformDrill(d: DrillData): (doc: Document)
    ensures doc.pageContent == EmbeddingText(d)
    ensures var m := doc.metadata;
      m.id == d.drillId && m.title == d.drillName && m.name.None? &&
      m.description == Some(d.description) && m.reps == Some(d.reps) &&
      m.category == Some(d.contentType) && m.rank == Some(d.rank)
    ensures var m := doc.metadata;
      m.skillLevels == Some(SplitTrim(d.skillLevel, ',')) &&
      m.focus == Some(SplitTrim(d.skills, ',')) &&
      m.equipment == Some(SplitTrim(d.equipment, ','))
    ensures var m := doc.metadata;
      m.difficulty.Some? &&
      (m.difficulty.value == Beginner <==> "Youth" in m.skillLevels.value) &&
      (m.difficulty.value == Advanced <==> "Youth" !in m.skillLevels.value && "College" in m.skillLevels.value)
    ensures doc.metadata.duration == Some(EstimateDuration(d.reps)) && doc.metadata.prerequisites == Some([])
  {
    var skillLevels := SplitTrim(d.skillLevel, ',');
    var skills := SplitTrim(d.skills, ',');
    var equipment := SplitTrim(d.equipment, ',');
    Document(EmbeddingText(d), Metadata(
      id := d.drillId,
      title := d.drillName,
      name := None,
      description := Some(d.description),
      reps := Some(d.reps),
      category := Some(d.contentType),
      difficulty := Some(DifficultyOf(skillLevels)),
      focus := Some(skills),
      skillLevels := Some(skillLevels),
      equipment := Some(equipment),
      duration := Some(EstimateDuration(d.reps)),
      rank := Some(d.rank),
      prerequisites := Some([])))
  }

  /**
   * The focus list has one trimmed, comma-free entry per comma-separated
   * piece of `Skills`, and when those pieces carry no padding, joining the
   * list with commas gives `Skills` back.
   */
  lemma FocusFromSkills(d: DrillData)
    ensures var focus := TransformDrill(d).metadata.focus.value;
      |focus| == |Split(d.skills, ',')| &&
      (forall i :: 0 <= i < |focus| ==> ',' !in focus[i] && Trim(focus[i]) == focus[i])
    ensures (forall i :: 0 <= i < |Split(d.skills, ',')| ==> Trim(Split(d.skills, ',')[i]) == Split(d.skills, ',')[i]) ==>
      Join(TransformDrill(d).metadata.focus.value, ",") == d.skills
  {
    assert TransformDrill(d).metadata.focus.value == SplitTrim(d.skills, ',');
    SplitTrimPieces(d.skills, ',');
    if forall i :: 0 <= i < |Split(d.skills, ',')| ==> Trim(Split(d.skills, ',')[i]) == Split(d.skills, ',')[i] {
      SplitTrimJoin(d.skills, ',');
    }
  }

  /** A record without a "Youth" or "College" skill level is indexed as intermediate, and every record gets a positive duration. */
  lemma TransformDefaults(d: DrillData)
    ensures var m := TransformDrill(d).metadata;
      m.duration.Some? && m.duration.value >= 1 &&
      m.difficulty.Some? &&
      (m.difficulty.value == Intermediate <==>
        "Youth" !in SplitTrim(d.skillLevel, ',') && "College" !in SplitTrim(d.skillLevel, ','))
  {
  }

  /** `transformDrillData`: every record transformed, in order. */
  function TransformDrillData(drillData: seq<DrillData>): (docs: seq<Document>)
    ensures |docs| == |drillData|
    ensures forall i :: 0 <= i < |docs| ==> docs[i] == TransformDrill(drillData[i])
  {
    seq(|drillData|, i requires 0 <= i < |drillData| => TransformDrill(drillData[i]))
  }

  /** The number of the first rejected batch among batches `1..n`, if any. */
  function FirstRejected(n: nat, rejected: nat -> bool): (k: Option<nat>)
    ensures k.Some? ==> 1 <= k.value <= n && rejected(k.value) && forall j :: 1 <= j < k.value ==> !rejected(j)
    ensures k.None? ==> forall j :: 1 <= j <= n ==> !rejected(j)
  {
    if n == 0 then None
    else
      var k := FirstRejected(n - 1, rejected);
      if k.Some? then k else if rejected(n) then Some(n) else None
  }

  /** `FirstRejected` is the first rejected batch number. */
  lemma FirstRejectedIs(n: nat, rejected: nat -> bool, k: nat)
    requires 1 <= k <= n && rejected(k) && forall j :: 1 <= j < k ==> !rejected(j)
    ensures FirstRejected(n, rejected) == Some(k)
  {
  }

  /**
   * The loop of `processDrillsFromJSON`: `docs` added to `store` batch by
   * batch until the store rejects one, whose number is returned; the store
   * then holds the batches before it.
   */
  method AddInBatches(store: PineconeStore, docs: seq<Document>, batchSize: nat, rejected: nat -> bool)
    returns (failed: Option<nat>)
    requires batchSize > 0
    modifies store
    ensures failed == FirstRejected(|Batches(docs, batchSize)|, rejected)
    ensures failed.None? ==> store.documents == old(store.documents) + docs
    ensures failed.Some? ==> store.documents == old(store.documents) + Concat(Batches(docs, batchSize)[..failed.value - 1])
  {
    ghost var done: seq<seq<Document>> := [];
    WalkStart(docs, batchSize);
    var i := 0;
    while i < |docs|
      invariant Walked(docs, batchSize, i, done)
      invariant forall j :: 1 <= j <= |done| ==> !rejected(j)
      invariant store.documents == old(store.documents) + Concat(done)
      decreases |docs| - i
    {
      var ok, batchNum := AddBatch(store, docs, batchSize, i, done, rejected);
      if !ok {
        FirstRejectedIs(|Batches(docs, batchSize)|, rejected, batchNum);
        return Some(batchNum);
      }
      ConcatSnoc(done, Batches(docs, batchSize)[batchNum - 1]);
      done := done + [Batches(docs, batchSize)[batchNum - 1]];
      i := i + batchSize;
    }
    WalkEnd(docs, batchSize, i, done);
    BatchesCover(docs, batchSize);
    failed := None;
  }

  /** One pass of that loop, at offset `i` after the batches `done`: the next batch, its number, and the store's answer. */
  method AddBatch(store: PineconeStore, docs: seq<Document>, batchSize: nat, i: nat,
                  ghost done: seq<seq<Document>>, rejected: nat -> bool)
    returns (ok: bool, batchNum: nat)
    requires batchSize > 0 && i < |docs| && Walked(docs, batchSize, i, done)
    modifies store
    ensures batchNum == |done| + 1 <= |Batches(docs, batchSize)| && ok == !rejected(batchNum)
    ensures Walked(docs, batchSize, i + batchSize, done + [Batches(docs, batchSize)[|done|]])
    ensures store.documents == old(store.documents) + (if ok then Batches(docs, batchSize)[|done|] else [])
  {
    var batch := Slice(docs, i, i + batchSize);
    WalkNumber(docs, batchSize, i, done);
    WalkStep(docs, batchSize, i, done);
    batchNum := i / batchSize + 1;
    ok := store.AddDocuments(batch, rejected(batchNum));
  }

  /** The optional filters of `searchDrills`. */
  datatype SearchFilters = SearchFilters(
    skillLevels: Option<seq<string>>,
    skills: Option<seq<string>>,
    contentType: Option<string>,
    difficulty: Option<string>)

  /**
   * The metadata filter `searchDrills` sends: skill levels when a non-empty
   * list is given, content type and difficulty when non-empty. `skills` is
   * never used.
   */
  function SearchFilter(filters: Option<SearchFilters>): (f: Filter)
    ensures "skillLevels" in f <==> filters.Some? && filters.value.skillLevels.Some? && |filters.value.skillLevels.value| > 0
    ensures "skillLevels" in f ==> f["skillLevels"] == In(filters.value.skillLevels.value)
    ensures "category" in f <==> filters.Some? && filters.value.contentType.Some? && filters.value.contentType.value != ""
    ensures "category" in f ==> f["category"] == Equals(filters.value.contentType.value)
    ensures "difficulty" in f <==> filters.Some? && filters.value.difficulty.Some? && filters.value.difficulty.value != ""
    ensures "difficulty" in f ==> f["difficulty"] == Equals(filters.value.difficulty.value)
    ensures forall key :: key in f ==> key == "skillLevels" || key == "category" || key == "difficulty"
  {
    if filters.None? then map[]
    else
      var fs := filters.value;
      var levels: Filter :=
        if fs.skillLevels.Some? && |fs.skillLevels.value| > 0 then map["skillLevels" := In(fs.skillLevels.value)] else map[];
      var category: Filter :=
        if fs.contentType.Some? && fs.contentType.value != "" then map["category" := Equals(fs.contentType.value)] else map[];
      var difficulty: Filter :=
        if fs.difficulty.Some? && fs.difficulty.value != "" then map["difficulty" := Equals(fs.difficulty.value)] else map[];
      levels + category + difficulty
  }

  /** The filter does not depend on the `skills` filter. */
  lemma SkillsIgnored(fs: SearchFilters, skills: Option<seq<string>>)
    ensures SearchFilter(Some(fs)) == SearchFilter(Some(fs.(skills := skills)))
  {
  }

  /** One search answer: the document's metadata spread, its score, and the first 150 characters of its text. */
  datatype SearchResult = SearchResult(metadata: Metadata, relevanceScore: real, matchedContent: string)

  function ResultOf(h: Hit): (r: SearchResult)
    ensures r.metadata == h.doc.metadata && r.relevanceScore == h.score
    ensures |r.matchedContent| == (if |h.doc.pageContent| < 150 then |h.doc.pageContent| else 150) + 3
    ensures r.matchedContent == h.doc.pageContent[..|r.matchedContent| - 3] + "..."
  {
    SearchResult(h.doc.metadata, h.score, Take(h.doc.pageContent, 150) + "...")
  }

  /** `results.map(...)`: one answer per hit, in the index's order. */
  function SearchResults(hits: seq<Hit>): (rs: seq<SearchResult>)
    ensures |rs| == |hits|
    ensures forall i :: 0 <= i < |rs| ==> rs[i] == ResultOf(hits[i])
  {
    seq(|hits|, i requires 0 <= i < |hits| => ResultOf(hits[i]))
  }

  /**
   * Against an index that keeps its promises, a search returns at most
   * `topK` answers, each passing the filter: in particular each carries one
   * of the requested skill levels, the requested content type and the
   * requested difficulty.
   */
  lemma SearchHonoursFilters(index: SearchIndex, query: string, filters: Option<SearchFilters>, topK: nat)
    requires HonoursFilter(index)
    ensures var rs := SearchResults(index(query, topK, SearchFilter(filters)));
      |rs| <= topK &&
      forall i :: 0 <= i < |rs| ==> Satisfies(rs[i].metadata, SearchFilter(filters))
    ensures var rs := SearchResults(index(query, topK, SearchFilter(filters)));
      filters.Some? && filters.value.contentType.Some? && filters.value.contentType.value != "" ==>
      forall i :: 0 <= i < |rs| ==> rs[i].metadata.category == Some(filters.value.contentType.value)
  {
    var f := SearchFilter(filters);
    var hits := index(query, topK, f);
    var rs := SearchResults(hits);
    forall i | 0 <= i < |rs|
      ensures Satisfies(rs[i].metadata, f)
    {
      assert Satisfies(hits[i].doc.metadata, f);
    }
    if filters.Some? && filters.value.contentType.Some? && filters.value.contentType.value != "" {
      forall i | 0 <= i < |rs|
        ensures rs[i].metadata.category == Some(filters.value.contentType.value)
      {
        assert ClauseHolds(FieldValues(rs[i].metadata, "category"), f["category"]);
      }
    }
  }

  /** The error `processDrillsFromJSON` throws before a store exists. */
  const NotInitializedFirst: string := "Vector store not initialized. Call initializeVectorStore() first."

  /** The error `searchDrills` throws before a store exists. */
  const NotInitialized: string := "Vector store not initialized"

  /**
   * `DrillVectorStoreManager`. The embeddings and database clients it
   * holds are configuration of the outside services and are not modelled;
   * `vectorStore` is the handle on the index.
   */
  class DrillVectorStoreManager {
    var vectorStore: PineconeStore?

    constructor()
      ensures vectorStore == null
    {
      vectorStore := null;
    }

    /** `initializeVectorStore(indexName)`: a new handle on the named index replaces any previous one. */
    method InitializeVectorStore(indexName: string) returns (store: PineconeStore)
      modifies this
      ensures fresh(store) && store.indexName == indexName && store.documents == []
      ensures vectorStore == store
    {
      store := new PineconeStore(indexName);
      vectorStore := store;
    }

    /**
     * `processDrillsFromJSON(drillsJSON, batchSize)`: the records are
     * transformed and added batch by batch; the first batch the store
     * rejects (by number, counting from one) stops the walk and its error
     * is thrown on, so the store then holds exactly the batches before it.
     */
    method ProcessDrillsFromJSON(drillsJSON: seq<DrillData>, batchSize: nat, rejected: nat -> bool)
      returns (r: Result<(), Thrown>)
      requires batchSize > 0 || vectorStore == null || drillsJSON == []
      modifies vectorStore
      ensures vectorStore == null ==> r == Failure(Error(NotInitializedFirst))
      ensures vectorStore != null && drillsJSON == [] ==> r == Success(()) && vectorStore.documents == old(vectorStore.documents)
      ensures vectorStore != null && batchSize > 0 ==>
        var bs := Batches(TransformDrillData(drillsJSON), batchSize);
        var k := FirstRejected(|bs|, rejected);
        && (k.None? ==> r == Success(()) && vectorStore.documents == old(vectorStore.documents) + TransformDrillData(drillsJSON))
        && (k.Some? ==> r == Failure(AddFailed(k.value)) &&
                        vectorStore.documents == old(vectorStore.documents) + Concat(bs[..k.value - 1]))
    {
      if vectorStore == null {
        return Failure(Error(NotInitializedFirst));
      }
      if batchSize == 0 {
        // Only the empty list is left here, on which the loop does not run.
        return Success(());
      }
      var failed := AddInBatches(vectorStore, TransformDrillData(drillsJSON), batchSize, rejected);
      r := if failed.Some? then Failure(AddFailed(failed.value)) else Success(());
    }

    /** `searchDrills(query, filters, topK)` against the index `index`. */
    method SearchDrills(query: string, filters: Option<SearchFilters>, topK: nat, index: SearchIndex)
      returns (r: Result<seq<SearchResult>, Thrown>)
      ensures vectorStore == null ==> r == Failure(Error(NotInitialized))
      ensures vectorStore != null ==> r == Success(SearchResults(index(query, topK, SearchFilter(filters))))
    {
      if vectorStore == null {
        return Failure(Error(NotInitialized));
      }
      var filter: Filter := map[];
      if filters.Some? && filters.value.skillLevels.Some? && |filters.value.skillLevels.value| > 0 {
        filter := filter["skillLevels" := In(filters.value.skillLevels.value)];
      }
      if filters.Some? && filters.value.contentType.Some? && filters.value.contentType.value != "" {
        filter := filter["category" := Equals(filters.value.contentType.value)];
      }
      if filters.Some? && filters.value.difficulty.Some? && filters.value.difficulty.value != "" {
        filter := filter["difficulty" := Equals(filters.value.difficulty.value)];
      }
      assert filter == SearchFilter(filters);
      var results := index(query, topK, filter);
      r := Success(SearchResults(results));
    }
  }
}
