/**
 * The batch walk both indexers use: `for (i = 0; i < n; i += batchSize)`
 * over `xs.slice(i, i + batchSize)`, with batch number `floor(i / batchSize) + 1`.
 */
module Batching {
  import opened Drills

  /** `xs.slice(start, end)` for `start <= end`: indices clamped to the length. */
  function Slice<T>(xs: seq<T>, start: nat, end: nat): (r: seq<T>)
    requires start <= end
    ensures |r| == (if end <= |xs| then end else |xs|) - (if start <= |xs| then start else |xs|)
  {
    var hi := if end <= |xs| then end else |xs|;
    var lo := if start <= |xs| then start else |xs|;
    xs[lo..hi]
  }

  /**
   * The loop header `for (; i < n; i += size)` run for at most `fuel`
   * passes: how many passes it makes before its condition fails, or `None`
   * when it is still running after `fuel` passes. Nothing in the loop
   * checks `size`.
   */
  function LoopPasses(n: nat, size: nat, i: nat, fuel: nat): (r: Option<nat>)
    decreases fuel
  {
    if i >= n then Some(0)
    else if fuel == 0 then None
    else
      match LoopPasses(n, size, i + size, fuel - 1)
      case None => None
      case Some(k) => Some(k + 1)
  }

  /** As written, a batch size of zero never moves `i`: over a non-empty list the loop runs forever. */
  lemma {:induction false} ZeroSizeLoopRuns(n: nat, i: nat, fuel: nat)
    requires i < n
    ensures LoopPasses(n, 0, i, fuel) == None
    decreases fuel
  {
    if fuel > 0 {
      ZeroSizeLoopRuns(n, i, fuel - 1);
    }
  }

  /** With a positive batch size the loop ends, after one pass per batch of what is left from `i`. */
  lemma {:induction false} LoopPassesBatches<T>(xs: seq<T>, size: nat, i: nat, fuel: nat)
    requires size > 0 && i <= |xs| && |xs| - i <= fuel
    ensures LoopPasses(|xs|, size, i, fuel) == Some(|Batches(xs[i..], size)|)
    decreases fuel
  {
    if i < |xs| {
      if size <= |xs| - i {
        assert xs[i..][size..] == xs[i + size..];
        LoopPassesBatches(xs, size, i + size, fuel - 1);
      } else {
        assert xs[i..][|xs| - i..] == [];
      }
    }
  }

  lemma MulMonotone(a: int, c: int, size: nat)
    ensures a <= c ==> a * size <= c * size
  {
    assert c * size == a * size + (c - a) * size;
  }

  /** Where the walk's batch `b` (counting from zero) starts: `b` steps of `size`. */
  function Offset(b: nat, size: nat): nat {
    if b == 0 then 0 else Offset(b - 1, size) + size
  }

  lemma {:induction false} OffsetMul(b: nat, size: nat)
    ensures Offset(b, size) == b * size
  {
    if b > 0 {
      OffsetMul(b - 1, size);
      assert b * size == (b - 1) * size + size;
    }
  }

  /** `Math.floor(b * size / size)` is `b`: the walk's batch number is its position. */
  lemma DivExact(b: nat, size: nat)
    requires size > 0
    ensures (b * size) / size == b
  {
    var q := (b * size) / size;
    MulMonotone(q + 1, b, size);
    MulMonotone(b + 1, q, size);
  }

  /**
   * The batches of `xs`, in walk order: each is the next `size` elements,
   * or what is left when fewer remain.
   */
  function Batches<T>(xs: seq<T>, size: nat): seq<seq<T>>
    requires size > 0
    decreases |xs|
  {
    if |xs| == 0 then []
    else
      var k := if size <= |xs| then size else |xs|;
      [xs[..k]] + Batches(xs[k..], size)
  }

  /** Every batch holds at least one and at most `size` elements, and only the last may hold fewer than `size`. */
  predicate WellShaped<T>(bs: seq<seq<T>>, size: nat)
  {
    forall b :: 0 <= b < |bs| ==> 0 < |bs[b]| <= size && (b < |bs| - 1 ==> |bs[b]| == size)
  }

  lemma {:induction false} BatchesShape<T>(xs: seq<T>, size: nat)
    requires size > 0
    ensures WellShaped(Batches(xs, size), size)
    decreases |xs|
  {
    if |xs| > 0 {
      var k := if size <= |xs| then size else |xs|;
      var rest := Batches(xs[k..], size);
      BatchesShape(xs[k..], size);
      assert Batches(xs, size) == [xs[..k]] + rest;
      if k < size {
        assert xs[k..] == [];
        assert rest == [];
      }
    }
  }

  /** The batches one after the other. */
  function Concat<T>(bs: seq<seq<T>>): seq<T>
  {
    if bs == [] then [] else Concat(bs[..|bs| - 1]) + bs[|bs| - 1]
  }

  lemma {:induction false} ConcatCons<T>(x: seq<T>, bs: seq<seq<T>>)
    ensures Concat([x] + bs) == x + Concat(bs)
  {
    if bs != [] {
      var init := bs[..|bs| - 1];
      ConcatCons(x, init);
      assert ([x] + bs)[..|bs|] == [x] + init;
    } else {
      assert ([x] + bs)[..0] == [];
    }
  }

  /** Concatenation splits at any batch boundary. */
  lemma {:induction false} ConcatSplit<T>(bs: seq<seq<T>>, j: nat)
    requires j <= |bs|
    ensures Concat(bs) == Concat(bs[..j]) + Concat(bs[j..])
    decreases |bs|
  {
    if j == |bs| {
      assert bs[..j] == bs && bs[j..] == [];
    } else {
      var init := bs[..|bs| - 1];
      ConcatSplit(init, j);
      assert init[..j] == bs[..j];
      assert bs[j..][..|bs[j..]| - 1] == init[j..];
      assert bs[j..][|bs[j..]| - 1] == bs[|bs| - 1];
    }
  }

  /** All the batches together are `xs`: the walk covers `xs` in order, without gaps or repeats. */
  lemma {:induction false} BatchesCover<T>(xs: seq<T>, size: nat)
    requires size > 0
    ensures Concat(Batches(xs, size)) == xs
    decreases |xs|
  {
    if |xs| > 0 {
      var k := if size <= |xs| then size else |xs|;
      var rest := Batches(xs[k..], size);
      assert Batches(xs, size) == [xs[..k]] + rest;
      BatchesCover(xs[k..], size);
      assert Concat(rest) == xs[k..];
      ConcatCons(xs[..k], rest);
      assert xs[..k] + xs[k..] == xs;
    }
  }

  /** Batch `b` (counting from zero) exists exactly when its offset is inside `xs`. */
  lemma {:induction false} BatchCount<T>(xs: seq<T>, size: nat, b: nat)
    requires size > 0
    ensures b < |Batches(xs, size)| <==> Offset(b, size) < |xs|
    decreases |xs|
  {
    if |xs| > 0 {
      var k := if size <= |xs| then size else |xs|;
      var rest := Batches(xs[k..], size);
      assert Batches(xs, size) == [xs[..k]] + rest;
      if b > 0 {
        OffsetAtLeast(b, size);
        if k < size {
          assert xs[k..] == [] && rest == [];
        } else {
          BatchCount(xs[k..], size, b - 1);
        }
      }
    }
  }

  lemma {:induction false} OffsetAtLeast(b: nat, size: nat)
    requires b > 0
    ensures Offset(b, size) >= size
  {
    if b > 1 {
      OffsetAtLeast(b - 1, size);
    }
  }

  /** Batch `b` is `xs.slice(offset, offset + size)` at its offset: what the walk's loop cuts at that step. */
  lemma {:induction false} BatchAt<T>(xs: seq<T>, size: nat, b: nat)
    requires size > 0 && b < |Batches(xs, size)|
    ensures Offset(b, size) < |xs|
    ensures Batches(xs, size)[b] == Slice(xs, Offset(b, size), Offset(b, size) + size)
    decreases |xs|
  {
    var k := if size <= |xs| then size else |xs|;
    var rest := Batches(xs[k..], size);
    assert Batches(xs, size) == [xs[..k]] + rest;
    if b == 0 {
      assert Batches(xs, size)[0] == xs[..k];
    } else {
      assert |rest| > 0 && k == size;
      BatchAt(xs[k..], size, b - 1);
      SliceShift(xs, size, Offset(b - 1, size), size);
    }
  }

  /** Slicing after dropping `k` elements is slicing `k` further on. */
  lemma SliceShift<T>(xs: seq<T>, k: nat, start: nat, n: nat)
    requires k <= |xs|
    ensures Slice(xs[k..], start, start + n) == Slice(xs, start + k, start + k + n)
  {
  }

  /** The batches whose number (counting from one) is not `rejected`, one after the other. */
  function KeptBatches<T>(bs: seq<seq<T>>, rejected: nat -> bool): seq<T>
  {
    if bs == [] then []
    else KeptBatches(bs[..|bs| - 1], rejected) + (if rejected(|bs|) then [] else bs[|bs| - 1])
  }

  /** One more batch: kept unless its number is rejected. */
  lemma KeptSnoc<T>(done: seq<seq<T>>, b: seq<T>, rejected: nat -> bool)
    ensures KeptBatches(done + [b], rejected) == KeptBatches(done, rejected) + (if rejected(|done| + 1) then [] else b)
  {
    assert (done + [b])[..|done|] == done;
  }

  /** With no batch rejected, everything is kept. */
  lemma {:induction false} KeptAll<T>(bs: seq<seq<T>>, rejected: nat -> bool)
    requires forall k :: 1 <= k <= |bs| ==> !rejected(k)
    ensures KeptBatches(bs, rejected) == Concat(bs)
  {
    if bs != [] {
      KeptAll(bs[..|bs| - 1], rejected);
    }
  }

  /**
   * A rejected batch drops only its own elements: the batches before and
   * after it are kept, so the walk goes on past a failure.
   */
  lemma {:induction false} KeptAllBut<T>(bs: seq<seq<T>>, rejected: nat -> bool, j: nat)
    requires 1 <= j <= |bs|
    requires forall k :: 1 <= k <= |bs| ==> (rejected(k) <==> k == j)
    ensures KeptBatches(bs, rejected) == Concat(bs[..j - 1]) + Concat(bs[j..])
  {
    if |bs| == j {
      KeptAll(bs[..j - 1], rejected);
      assert bs[..|bs| - 1] == bs[..j - 1];
      assert bs[j..] == [];
    } else {
      var init := bs[..|bs| - 1];
      KeptAllBut(init, rejected, j);
      assert init[..j - 1] == bs[..j - 1];
      assert init[j..] == bs[j..|bs| - 1];
      assert bs[j..][..|bs[j..]| - 1] == bs[j..|bs| - 1];
    }
  }

  /** `Concat` of one more batch. */
  lemma ConcatSnoc<T>(done: seq<seq<T>>, b: seq<T>)
    ensures Concat(done + [b]) == Concat(done) + b
  {
    assert (done + [b])[..|done|] == done;
  }

  /**
   * The walk's state at offset `i` after the batches `done`: `i` is the
   * offset of batch `|done|`, and `done` are the first batches of `xs`.
   */
  ghost predicate Walked<T>(xs: seq<T>, size: nat, i: nat, done: seq<seq<T>>)
    requires size > 0
  {
    && i == Offset(|done|, size)
    && |done| <= |Batches(xs, size)|
    && done == Batches(xs, size)[..|done|]
  }

  lemma WalkStart<T>(xs: seq<T>, size: nat)
    requires size > 0
    ensures Walked(xs, size, 0, [])
  {
  }

  /** The batch at offset `i` is batch number `i / size + 1`. */
  lemma WalkNumber<T>(xs: seq<T>, size: nat, i: nat, done: seq<seq<T>>)
    requires size > 0 && Walked(xs, size, i, done)
    ensures i / size == |done|
  {
    OffsetMul(|done|, size);
    DivExact(|done|, size);
  }

  /** One step of the walk: the batch at offset `i` is the next batch of `xs`, and the walk goes on at `i + size`. */
  lemma WalkStep<T>(xs: seq<T>, size: nat, i: nat, done: seq<seq<T>>)
    requires size > 0 && i < |xs| && Walked(xs, size, i, done)
    ensures |done| < |Batches(xs, size)| && Batches(xs, size)[|done|] == Slice(xs, i, i + size)
    ensures Walked(xs, size, i + size, done + [Slice(xs, i, i + size)])
  {
    var bs := Batches(xs, size);
    BatchCount(xs, size, |done|);
    BatchAt(xs, size, |done|);
    assert bs[..|done| + 1] == bs[..|done|] + [bs[|done|]];
  }

  /** When the offset has passed the end, the walk has seen every batch. */
  lemma WalkEnd<T>(xs: seq<T>, size: nat, i: nat, done: seq<seq<T>>)
    requires size > 0 && i >= |xs| && Walked(xs, size, i, done)
    ensures done == Batches(xs, size)
  {
    BatchCount(xs, size, |done|);
  }
}
