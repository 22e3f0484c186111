/**
 * src/service/blockCreator.ts without its language-model calls: ranking of
 * the candidate drills by skill fit and relevance, progressive
 * beginner/intermediate/advanced selection, and the block difficulty label.
 */
module BlockCreator {
  import opened Drills
  import opened JsString
  import opened StableSort
  import opened Seqs

  /** `levels[x] || 1`: beginner 1, intermediate 2, advanced 3, and 1 for a missing level. */
  function LevelNumber(l: Option<Level>): (n: int)
    ensures 1 <= n <= 3
    ensures n == 1 <==> l.None? || l == Some(Beginner)
    ensures n == 2 <==> l == Some(Intermediate)
    ensures n == 3 <==> l == Some(Advanced)
  {
    match l
    case Some(Intermediate) => 2
    case Some(Advanced) => 3
    case _ => 1
  }

  /**
   * `getSkillWeight`: how well a drill's difficulty fits the user's level,
   * by the signed distance between the two levels.
   */
  function SkillWeight(drillDifficulty: Option<Level>, userLevel: Option<Level>): (w: real)
    ensures w == 1.0 <==> LevelNumber(drillDifficulty) == LevelNumber(userLevel)
    ensures w == 0.8 <==> LevelNumber(drillDifficulty) == LevelNumber(userLevel) + 1
    ensures w == 0.6 <==> LevelNumber(drillDifficulty) == LevelNumber(userLevel) - 1
    ensures w == 0.3 <==> LevelNumber(drillDifficulty) - LevelNumber(userLevel) in {-2, 2}
  {
    var drillLevel := LevelNumber(drillDifficulty);
    var userLevelNum := LevelNumber(userLevel);
    if drillLevel == userLevelNum then 1.0
    else if drillLevel == userLevelNum + 1 then 0.8
    else if drillLevel == userLevelNum - 1 then 0.6
    else 0.3
  }

  /** The ranking key: skill weight first, relevance score second, both descending. */
  function RankKey(userLevel: Option<Level>): ScoredDrill -> Key
  {
    (d: ScoredDrill) => Key(SkillWeight(d.drill.difficulty, userLevel), d.relevanceScore)
  }

  /**
   * The comparator handed to `sort` (negative: `a` first). It asks for a
   * swap exactly when `RankKey` puts `b` strictly ahead of `a`, so `sort`
   * with it is the stable sort by `RankKey`.
   */
  function CompareDrills(a: ScoredDrill, b: ScoredDrill, userLevel: Option<Level>): (c: real)
    ensures c <= 0.0 <==> AtLeast(RankKey(userLevel)(a), RankKey(userLevel)(b))
    ensures c == 0.0 <==> RankKey(userLevel)(a) == RankKey(userLevel)(b)
  {
    var skillWeight := SkillWeight(a.drill.difficulty, userLevel);
    var skillWeightB := SkillWeight(b.drill.difficulty, userLevel);
    if skillWeight != skillWeightB then skillWeightB - skillWeight
    else b.relevanceScore - a.relevanceScore
  }

  /** The candidates in ranked order. */
  function Ranked(drills: seq<ScoredDrill>, userLevel: Option<Level>): seq<ScoredDrill>
  {
    Sort(drills, RankKey(userLevel))
  }

  /** What ranking promises: skill weight descending, then score descending, same drills, and no pair the comparator would swap. */
  lemma RankedOrder(drills: seq<ScoredDrill>, userLevel: Option<Level>)
    ensures var r := Ranked(drills, userLevel);
      && multiset(r) == multiset(drills)
      && forall i, j :: 0 <= i < j < |r| ==>
           SkillWeight(r[i].drill.difficulty, userLevel) > SkillWeight(r[j].drill.difficulty, userLevel) ||
           (SkillWeight(r[i].drill.difficulty, userLevel) == SkillWeight(r[j].drill.difficulty, userLevel) &&
            r[i].relevanceScore >= r[j].relevanceScore)
    ensures var r := Ranked(drills, userLevel);
      forall i, j :: 0 <= i < j < |r| ==> CompareDrills(r[i], r[j], userLevel) <= 0.0
  {
    SortSorted(drills, RankKey(userLevel));
    SortPermutes(drills, RankKey(userLevel));
  }

  predicate Increasing(ps: seq<nat>) {
    forall i, j :: 0 <= i < j < |ps| ==> ps[i] < ps[j]
  }

  /**
   * `drills.filter(d => d.difficulty === level)`, as the positions of the
   * kept drills. A drill without a difficulty is in no group.
   */
  function PositionsOf(drills: seq<ScoredDrill>, level: Level): (ps: seq<nat>)
  {
    if drills == [] then []
    else
      var n := |drills| - 1;
      PositionsOf(drills[..n], level) + (if drills[n].drill.difficulty == Some(level) then [n] else [])
  }

  /** The filter keeps only drills of difficulty `level`. */
  lemma {:induction false} PositionsOfLevel(drills: seq<ScoredDrill>, level: Level)
    ensures AllOfLevel(drills, PositionsOf(drills, level), level)
  {
    if drills != [] {
      var n := |drills| - 1;
      PositionsOfLevel(drills[..n], level);
      var init := PositionsOf(drills[..n], level);
      forall k | 0 <= k < |init|
        ensures init[k] < |drills| && drills[init[k]].drill.difficulty == Some(level)
      {
        assert drills[..n][init[k]] == drills[init[k]];
      }
    }
  }

  /** The filter keeps the input order. */
  lemma {:induction false} PositionsOfIncreasing(drills: seq<ScoredDrill>, level: Level)
    ensures Increasing(PositionsOf(drills, level))
  {
    if drills != [] {
      PositionsOfIncreasing(drills[..|drills| - 1], level);
      PositionsOfLevel(drills[..|drills| - 1], level);
    }
  }

  /** Every drill of difficulty `level` is in its group. */
  lemma {:induction false} PositionsOfComplete(drills: seq<ScoredDrill>, level: Level, i: nat)
    requires i < |drills| && drills[i].drill.difficulty == Some(level)
    ensures i in PositionsOf(drills, level)
  {
    var n := |drills| - 1;
    if i < n {
      PositionsOfComplete(drills[..n], level, i);
    }
  }

  /** `drills.filter(d => !selected.includes(d))`, as positions below `n`. */
  function Unselected(n: nat, selected: seq<nat>): (ps: seq<nat>)
    ensures forall k :: 0 <= k < |ps| ==> ps[k] < n && ps[k] !in selected
  {
    if n == 0 then []
    else Unselected(n - 1, selected) + (if n - 1 in selected then [] else [n - 1])
  }

  lemma {:induction false} UnselectedIncreasing(n: nat, selected: seq<nat>)
    ensures Increasing(Unselected(n, selected))
  {
    if n > 0 {
      UnselectedIncreasing(n - 1, selected);
    }
  }

  /** Every position below `n` that is not selected is offered for backfill. */
  lemma {:induction false} UnselectedComplete(n: nat, selected: seq<nat>, i: nat)
    requires i < n && i !in selected
    ensures i in Unselected(n, selected)
  {
    if i < n - 1 {
      UnselectedComplete(n - 1, selected, i);
    }
  }

  function ElementsBelow(ps: seq<nat>, n: nat): set<nat> {
    set x | x in ps && x < n
  }

  lemma {:induction false} UnselectedCount(n: nat, selected: seq<nat>)
    ensures |Unselected(n, selected)| + |ElementsBelow(selected, n)| == n
  {
    if n > 0 {
      UnselectedCount(n - 1, selected);
      if n - 1 in selected {
        assert ElementsBelow(selected, n) == ElementsBelow(selected, n - 1) + {n - 1};
      } else {
        assert ElementsBelow(selected, n) == ElementsBelow(selected, n - 1);
      }
    }
  }

  /** With distinct positions below `n`, exactly `n - |selected|` positions are left for backfill. */
  lemma UnselectedLength(n: nat, selected: seq<nat>)
    requires Distinct(selected)
    requires forall k :: 0 <= k < |selected| ==> selected[k] < n
    ensures |selected| <= n
    ensures |Unselected(n, selected)| == n - |selected|
  {
    UnselectedCount(n, selected);
    DistinctCard(selected);
    assert ElementsBelow(selected, n) == Elements(selected);
  }

  /** The first phase of the selection: up to a third each of beginners and intermediates, then advanced drills. */
  function Phase1(drills: seq<ScoredDrill>, blockSize: nat): (ps: seq<nat>)
    ensures |ps| <= blockSize
  {
    var targetSplit := blockSize / 3;
    var beginners := Take(PositionsOf(drills, Beginner), targetSplit);
    var intermediates := Take(PositionsOf(drills, Intermediate), targetSplit);
    beginners + intermediates + Take(PositionsOf(drills, Advanced), blockSize - |beginners| - |intermediates|)
  }

  /** All positions in `ps` hold drills of difficulty `level`. */
  predicate AllOfLevel(drills: seq<ScoredDrill>, ps: seq<nat>, level: Level) {
    forall i :: 0 <= i < |ps| ==> ps[i] < |drills| && drills[ps[i]].drill.difficulty == Some(level)
  }

  /** The first `k` drills of one difficulty: distinct positions, all of that difficulty. */
  lemma TakeOfLevel(drills: seq<ScoredDrill>, level: Level, k: nat)
    ensures Distinct(Take(PositionsOf(drills, level), k))
    ensures AllOfLevel(drills, Take(PositionsOf(drills, level), k), level)
  {
    PositionsOfIncreasing(drills, level);
    PositionsOfLevel(drills, level);
  }

  lemma LevelsDisjoint(drills: seq<ScoredDrill>, x: seq<nat>, lx: Level, y: seq<nat>, ly: Level)
    requires AllOfLevel(drills, x, lx) && AllOfLevel(drills, y, ly) && lx != ly
    ensures forall i, j :: 0 <= i < |x| && 0 <= j < |y| ==> x[i] != y[j]
  {
  }

  lemma Phase1Distinct(drills: seq<ScoredDrill>, blockSize: nat)
    ensures Distinct(Phase1(drills, blockSize))
    ensures forall k :: 0 <= k < |Phase1(drills, blockSize)| ==> Phase1(drills, blockSize)[k] < |drills|
  {
    var targetSplit := blockSize / 3;
    var b := Take(PositionsOf(drills, Beginner), targetSplit);
    var m := Take(PositionsOf(drills, Intermediate), targetSplit);
    var a := Take(PositionsOf(drills, Advanced), blockSize - |b| - |m|);
    TakeOfLevel(drills, Beginner, targetSplit);
    TakeOfLevel(drills, Intermediate, targetSplit);
    TakeOfLevel(drills, Advanced, blockSize - |b| - |m|);
    assert Phase1(drills, blockSize) == b + m + a;
    ThreeLevels(drills, b, m, a);
  }

  /** Distinct positions of three different difficulties, one group after the other, are distinct. */
  lemma ThreeLevels(drills: seq<ScoredDrill>, b: seq<nat>, m: seq<nat>, a: seq<nat>)
    requires Distinct(b) && AllOfLevel(drills, b, Beginner)
    requires Distinct(m) && AllOfLevel(drills, m, Intermediate)
    requires Distinct(a) && AllOfLevel(drills, a, Advanced)
    ensures Distinct(b + m + a)
    ensures forall k :: 0 <= k < |b + m + a| ==> (b + m + a)[k] < |drills|
  {
    LevelsDisjoint(drills, b, Beginner, m, Intermediate);
    DistinctAppend(b, m);
    LevelsDisjoint(drills, b, Beginner, a, Advanced);
    LevelsDisjoint(drills, m, Intermediate, a, Advanced);
    assert forall i, j :: 0 <= i < |b + m| && 0 <= j < |a| ==> (b + m)[i] != a[j];
    DistinctAppend(b + m, a);
  }

  /** Positions `ps` name every element of `pool` exactly once, and `block` lists them in that order. */
  ghost predicate IsRegrouping(block: seq<ScoredDrill>, pool: seq<ScoredDrill>) {
    exists ps: seq<nat> ::
      && |ps| == |block| == |pool|
      && Distinct(ps)
      && (forall k :: 0 <= k < |ps| ==> ps[k] < |pool| && block[k] == pool[ps[k]])
  }

  /** Backfilling distinct positions with unselected ones keeps them distinct, and fills up when there is room. */
  lemma Backfill(n: nat, phase1: seq<nat>, room: nat)
    requires Distinct(phase1)
    requires forall k :: 0 <= k < |phase1| ==> phase1[k] < n
    ensures |phase1| <= n
    ensures var ps := phase1 + Take(Unselected(n, phase1), room);
      && Distinct(ps)
      && (forall k :: 0 <= k < |ps| ==> ps[k] < n)
      && |ps| == |phase1| + (if room < n - |phase1| then room else n - |phase1|)
      && (room >= n - |phase1| ==> forall i :: 0 <= i < n ==> i in ps)
  {
    var remaining := Unselected(n, phase1);
    UnselectedLength(n, phase1);
    UnselectedIncreasing(n, phase1);
    var fill := Take(remaining, room);
    var ps := phase1 + fill;
    forall i, j | 0 <= i < |phase1| && 0 <= j < |fill|
      ensures phase1[i] != fill[j]
    {
      assert fill[j] == remaining[j];
    }
    DistinctAppend(phase1, fill);
    if room >= n - |phase1| {
      assert fill == remaining;
      forall i | 0 <= i < n
        ensures i in ps
      {
        if i !in phase1 {
          UnselectedComplete(n, phase1, i);
        }
      }
    }
  }

  /** The drills at positions `ps`, in the order of `ps`. */
  function At(drills: seq<ScoredDrill>, ps: seq<nat>): (r: seq<ScoredDrill>)
    requires forall k :: 0 <= k < |ps| ==> ps[k] < |drills|
    ensures |r| == |ps|
    ensures forall k :: 0 <= k < |ps| ==> r[k] == drills[ps[k]]
  {
    if ps == [] then [] else [drills[ps[0]]] + At(drills, ps[1..])
  }

  /**
   * The positions `applyProgressiveSelection` picks: the first phase, then
   * the leading positions it left out, up to the block size. No position is
   * picked twice, exactly `min(blockSize, |drills|)` are picked, and when the
   * list fits in the block every position is picked.
   */
  function SelectionPositions(drills: seq<ScoredDrill>, blockSize: nat): (ps: seq<nat>)
    ensures Distinct(ps)
    ensures forall k :: 0 <= k < |ps| ==> ps[k] < |drills|
    ensures |ps| == if blockSize < |drills| then blockSize else |drills|
    ensures |ps| >= |Phase1(drills, blockSize)| && ps[..|Phase1(drills, blockSize)|] == Phase1(drills, blockSize)
    ensures |drills| <= blockSize ==> forall i :: 0 <= i < |drills| ==> i in ps
  {
    var phase1 := Phase1(drills, blockSize);
    Phase1Distinct(drills, blockSize);
    Backfill(|drills|, phase1, blockSize - |phase1|);
    var ps := phase1 + Take(Unselected(|drills|, phase1), blockSize - |phase1|);
    assert ps[..|phase1|] == phase1;
    ps
  }

  /** The drills `applyProgressiveSelection` returns. */
  function ProgressiveSelection(drills: seq<ScoredDrill>, blockSize: nat): (selected: seq<ScoredDrill>)
  {
    At(drills, SelectionPositions(drills, blockSize))
  }

  /**
   * `applyProgressiveSelection`. JavaScript compares the drills by object
   * identity (`selected.includes(d)`); the model names each drill by its
   * position in `drills`.
   */
  method ApplyProgressiveSelection(drills: seq<ScoredDrill>, blockSize: nat) returns (selected: seq<ScoredDrill>)
    ensures selected == ProgressiveSelection(drills, blockSize)
  {
    var positions := SelectByLevel(drills, blockSize);
    ghost var phase1 := positions;
    Phase1Distinct(drills, blockSize);
    Backfill(|drills|, phase1, blockSize - |phase1|);

    // Fill the remaining slots from the drills not yet selected, in ranked order
    var remaining := Unselected(|drills|, positions);
    positions := positions + Take(remaining, blockSize - |positions|);
    assert |positions| <= blockSize;
    positions := Take(positions, blockSize);
    assert positions == SelectionPositions(drills, blockSize);
    selected := At(drills, positions);
  }

  /** The first phase, as the source runs it: append the leading drills of each level in turn. */
  method SelectByLevel(drills: seq<ScoredDrill>, blockSize: nat) returns (positions: seq<nat>)
    ensures positions == Phase1(drills, blockSize)
  {
    var beginner := PositionsOf(drills, Beginner);
    var intermediate := PositionsOf(drills, Intermediate);
    var advanced := PositionsOf(drills, Advanced);

    positions := [];
    var targetSplit := blockSize / 3;
    positions := positions + Take(beginner, targetSplit);
    positions := positions + Take(intermediate, targetSplit);
    assert |positions| <= 2 * targetSplit <= blockSize;
    positions := positions + Take(advanced, blockSize - |positions|);
  }

  /** What `createOptimizedDrillBlock` returns for `drills`; `None` is the source's `null`. */
  function OptimizedBlock(drills: seq<ScoredDrill>, userLevel: Option<Level>, blockSize: nat): Option<seq<ScoredDrill>>
  {
    if |drills| < 3 then None
    else
      var selected := ProgressiveSelection(Take(Ranked(drills, userLevel), blockSize), blockSize);
      if |selected| < 3 then None else Some(selected)
  }

  /**
   * The block is a regrouping of the ranked prefix: the pool is already cut
   * to `blockSize`, so the selection takes every drill of it exactly once.
   */
  lemma OptimizedBlockRegroups(drills: seq<ScoredDrill>, userLevel: Option<Level>, blockSize: nat)
    requires OptimizedBlock(drills, userLevel, blockSize).Some?
    ensures IsRegrouping(OptimizedBlock(drills, userLevel, blockSize).value, Take(Ranked(drills, userLevel), blockSize))
  {
    var pool := Take(Ranked(drills, userLevel), blockSize);
    var ps := SelectionPositions(pool, blockSize);
    assert |ps| == |pool|;
    assert At(pool, ps) == OptimizedBlock(drills, userLevel, blockSize).value;
  }

  /** With at least three candidates, the block is missing exactly when `blockSize` is below three. */
  lemma OptimizedBlockNull(drills: seq<ScoredDrill>, userLevel: Option<Level>, blockSize: nat)
    requires |drills| >= 3
    ensures OptimizedBlock(drills, userLevel, blockSize).None? <==> blockSize < 3
  {
    assert |Take(Ranked(drills, userLevel), blockSize)| == if blockSize < |drills| then blockSize else |drills|;
  }

  /**
   * `createOptimizedDrillBlock` without the language-model metadata: rank
   * the caller's array in place, keep the first `blockSize`, and select
   * progressively from them. `None` is the source's `null`.
   */
  method CreateOptimizedDrillBlock(relevantDrills: array<ScoredDrill>, blockTheme: string,
                                   userProgress: UserProgress, blockSize: nat)
    returns (block: Option<seq<ScoredDrill>>)
    modifies relevantDrills
    ensures relevantDrills.Length < 3 ==> relevantDrills[..] == old(relevantDrills[..])
    ensures relevantDrills.Length >= 3 ==>
      relevantDrills[..] == Ranked(old(relevantDrills[..]), userProgress.skillLevel)
    ensures block == OptimizedBlock(old(relevantDrills[..]), userProgress.skillLevel, blockSize)
  {
    if relevantDrills.Length < 3 {
      return None;
    }
    SortInPlace(relevantDrills, RankKey(userProgress.skillLevel));
    var sortedDrills := Take(relevantDrills[..], blockSize);

    var selectedDrills := ApplyProgressiveSelection(sortedDrills, blockSize);
    if |selectedDrills| < 3 {
      return None;
    }
    block := Some(selectedDrills);
  }

  /** `calculateBlockDifficulty`'s per-drill score: the level number, a missing difficulty counting as beginner. */
  function DifficultySum(drills: seq<Drill>): nat
  {
    if drills == [] then 0 else DifficultySum(drills[..|drills| - 1]) + LevelNumber(drills[|drills| - 1].difficulty)
  }

  /** Comparing an average with a threshold is comparing the sum with the threshold times the count. */
  lemma AverageAtMost(sum: real, n: real, t: real)
    requires n > 0.0
    ensures sum / n <= t <==> sum <= t * n
  {
    var avg := sum / n;
    assert avg * n == sum;
    if avg <= t {
      assert avg * n <= t * n;
    } else {
      assert avg * n > t * n;
    }
  }

  /**
   * `calculateBlockDifficulty`: the average level with thresholds 1.4 and
   * 2.4. For an empty list the average is 0/0, which is NaN in JavaScript
   * and fails both comparisons, so the label is advanced.
   */
  function CalculateBlockDifficulty(drills: seq<Drill>): (l: Level)
    ensures l == Beginner <==> |drills| > 0 && 5 * DifficultySum(drills) <= 7 * |drills|
    ensures l == Advanced <==> |drills| == 0 || 5 * DifficultySum(drills) > 12 * |drills|
  {
    if |drills| == 0 then Advanced
    else
      var n := |drills| as real;
      var avg := DifficultySum(drills) as real / n;
      AverageAtMost(DifficultySum(drills) as real, n, 1.4);
      AverageAtMost(DifficultySum(drills) as real, n, 2.4);
      if avg <= 1.4 then Beginner
      else if avg <= 2.4 then Intermediate
      else Advanced
  }

  lemma {:induction false} DifficultySumUniform(drills: seq<Drill>, level: Level)
    requires forall i :: 0 <= i < |drills| ==> drills[i].difficulty == Some(level)
    ensures DifficultySum(drills) == |drills| * LevelNumber(Some(level))
  {
    if drills != [] {
      DifficultySumUniform(drills[..|drills| - 1], level);
    }
  }

  /** A non-empty block whose drills all share one difficulty is labelled with it. */
  lemma UniformBlockDifficulty(drills: seq<Drill>, level: Level)
    requires |drills| > 0
    requires forall i :: 0 <= i < |drills| ==> drills[i].difficulty == Some(level)
    ensures CalculateBlockDifficulty(drills) == level
  {
    DifficultySumUniform(drills, level);
  }

  lemma {:induction false} DifficultySumMonotone(easier: seq<Drill>, harder: seq<Drill>)
    requires |easier| == |harder|
    requires forall i :: 0 <= i < |easier| ==> LevelNumber(easier[i].difficulty) <= LevelNumber(harder[i].difficulty)
    ensures DifficultySum(easier) <= DifficultySum(harder)
  {
    if easier != [] {
      DifficultySumMonotone(easier[..|easier| - 1], harder[..|harder| - 1]);
    }
  }

  /** Making drills harder one by one never makes the block's label easier. */
  lemma BlockDifficultyMonotone(easier: seq<Drill>, harder: seq<Drill>)
    requires |easier| == |harder| > 0
    requires forall i :: 0 <= i < |easier| ==> LevelNumber(easier[i].difficulty) <= LevelNumber(harder[i].difficulty)
    ensures LevelNumber(Some(CalculateBlockDifficulty(easier))) <= LevelNumber(Some(CalculateBlockDifficulty(harder)))
  {
    DifficultySumMonotone(easier, harder);
  }

  /** Some weak area of the user is among the drill's focus tags (`weakAreas?.some(a => focus?.includes(a))`). */
  predicate TargetsWeakArea(drill: Drill, userProgress: UserProgress) {
    userProgress.weakAreas.Some? && drill.focus.Some? &&
    exists area :: area in userProgress.weakAreas.value && area in drill.focus.value
  }

  /** `generateDrillReasoning`: weak-area targeting first, then a relevance above 0.8. */
  function GenerateDrillReasoning(drill: ScoredDrill, userProgress: UserProgress): (reason: string)
    ensures reason == "Targets your weak areas" <==> TargetsWeakArea(drill.drill, userProgress)
    ensures reason == "High relevance to your profile" <==>
      !TargetsWeakArea(drill.drill, userProgress) && drill.relevanceScore > 0.8
  {
    if TargetsWeakArea(drill.drill, userProgress) then "Targets your weak areas"
    else if drill.relevanceScore > 0.8 then "High relevance to your profile"
    else "Good skill progression match"
  }
}
