/** The batch sizes for which the decode graph is captured, and the one a step is padded to. */
module GraphBuckets {
  import opened Types

  /** From one up to the maximum, never more than doubling. */
  ghost predicate Ladder(b: seq<nat>, max: nat) {
    && b != [] && b[0] == 1 && b[|b| - 1] == max
    && forall i :: 0 < i < |b| ==> b[i - 1] < b[i] <= 2 * b[i - 1]
  }

  lemma {:induction false} LadderSorted(b: seq<nat>, max: nat, i: nat, j: nat)
    requires Ladder(b, max) && i <= j < |b|
    ensures b[i] <= b[j] && (i < j ==> b[i] < b[j])
  {
    if i < j { LadderSorted(b, max, i, j - 1); }
  }

  /** A ladder so far, and the next size to put on it. */
  ghost predicate Growing(b: seq<nat>, next: nat) {
    if b == [] then next == 1 else Ladder(b, b[|b| - 1]) && next == 2 * b[|b| - 1]
  }

  lemma LadderGrows(b: seq<nat>, next: nat, x: nat)
    requires Growing(b, next) && x <= next && (b == [] ==> x == 1) && (b != [] ==> b[|b| - 1] < x)
    ensures Ladder(b + [x], x)
  {
  }

  lemma LadderEnds(b: seq<nat>, max: nat)
    requires Ladder(b, max)
    ensures b != [] && b[0] == 1 && b[|b| - 1] == max
  {
  }

  lemma LadderStep(b: seq<nat>, max: nat, i: nat)
    requires Ladder(b, max) && 0 < i < |b|
    ensures b[i] <= 2 * b[i - 1]
  {
  }

  class CudaGraphRunner {
    var buckets: seq<nat>
    ghost const max: pos

    constructor (maxNumTokens: pos)
      ensures max == maxNumTokens && Ladder(buckets, max)
    {
      max := maxNumTokens;
      buckets := [];
      new;
      hide Ladder;
      var size := 1;
      while size < maxNumTokens
        invariant 0 < size <= maxNumTokens && Growing(buckets, size)
        decreases maxNumTokens - size
      {
        LadderGrows(buckets, size, size);
        buckets := buckets + [size];
        if size > maxNumTokens / 2 {
          break;
        }
        size := size * 2;
      }
      LadderGrows(buckets, if buckets == [] then 1 else 2 * buckets[|buckets| - 1], maxNumTokens);
      buckets := buckets + [maxNumTokens];
    }

    /** The smallest bucket that holds the tokens: less than twice as many, and no more than
        the maximum. */
    method BucketSize(numTokens: nat) returns (size: nat)
      requires Ladder(buckets, max) && 0 < numTokens <= max
      ensures size in buckets && numTokens <= size < 2 * numTokens && size <= max
      ensures forall b :: b in buckets && numTokens <= b ==> size <= b
    {
      hide Ladder;
      var lo, count := 0, |buckets|;
      LadderEnds(buckets, max);
      while count > 0
        invariant 0 <= lo && 0 <= count && lo + count <= |buckets|
        invariant forall i :: 0 <= i < lo ==> buckets[i] < numTokens
        invariant forall i :: lo + count <= i < |buckets| ==> numTokens <= buckets[i]
        decreases count
      {
        var half := count / 2;
        if buckets[lo + half] < numTokens {
          forall i | 0 <= i < lo + half + 1
            ensures buckets[i] < numTokens
          {
            LadderSorted(buckets, max, i, lo + half);
          }
          lo, count := lo + half + 1, count - half - 1;
        } else {
          forall i | lo + half <= i < |buckets|
            ensures numTokens <= buckets[i]
          {
            LadderSorted(buckets, max, lo + half, i);
          }
          count := half;
        }
      }
      assert numTokens <= buckets[|buckets| - 1];
      LadderSorted(buckets, max, lo, |buckets| - 1);
      forall b | b in buckets && numTokens <= b
        ensures buckets[lo] <= b
      {
        var i :| 0 <= i < |buckets| && buckets[i] == b;
        LadderSorted(buckets, max, lo, i);
      }
      if lo > 0 { LadderStep(buckets, max, lo); }
      size := buckets[lo];
    }
  }
}
