/** Cutting a sequence into consecutive groups of a fixed size: the chunks of input that
    become initial runs, and the batches of runs that one merge pass merges together. */
module Chunks {
  import opened Arith
  import opened Runs

  /** Consecutive groups of `d` elements; the last group holds the remainder. */
  function Batches<T>(s: seq<T>, d: nat): seq<seq<T>>
    requires d >= 1
    decreases |s|
  {
    if |s| == 0 then []
    else
      var w := Min(d, |s|);
      [s[..w]] + Batches(s[w..], d)
  }

  /** There are `ceil(R / d)` batches. */
  lemma {:induction false} BatchesCount<T>(s: seq<T>, d: nat)
    requires d >= 1
    ensures |Batches(s, d)| == CeilDiv(|s|, d)
    decreases |s|
  {
    if |s| == 0 {
      CeilDivZero(d);
    } else if |s| <= d {
      CeilDivSmall(|s|, d);
      CeilDivZero(d);
    } else {
      BatchesCount(s[d..], d);
      CeilDivStep(|s|, d);
    }
  }

  /** Every run lands in exactly one batch, in order: the batches concatenate to the runs. */
  lemma {:induction false} BatchesFlatten<T>(s: seq<T>, d: nat)
    requires d >= 1
    ensures Flatten(Batches(s, d)) == s
    decreases |s|
  {
    if |s| > 0 {
      var w := Min(d, |s|);
      BatchesFlatten(s[w..], d);
      FlattenCons(s[..w], Batches(s[w..], d));
      assert s == s[..w] + s[w..];
    }
  }

  lemma SliceOfSuffix<T>(s: seq<T>, w: nat, a: nat, b: nat)
    requires w <= |s| && a <= b <= |s| - w
    ensures s[w..][a..b] == s[w + a .. w + b]
  {
  }

  /** Batch `i` holds the `min(d, R - i * d)` runs starting at position `i * d`: the index
      arithmetic of the reference's loop. */
  lemma {:induction false} BatchesIndex<T>(s: seq<T>, d: nat, i: nat)
    requires d >= 1 && i < |Batches(s, d)|
    ensures i * d < |s|
    ensures Batches(s, d)[i] == s[i * d .. i * d + Min(d, |s| - i * d)]
    decreases |s|
  {
    var w := Min(d, |s|);
    var bs := Batches(s, d);
    assert bs == [s[..w]] + Batches(s[w..], d);
    if i > 0 {
      assert |s| > d;
      var tail := s[d..];
      BatchesIndex(tail, d, i - 1);
      assert bs[i] == Batches(tail, d)[i - 1];
      IndexShift(s, d, i, tail, bs[i]);
    } else {
      assert 0 * d == 0;
    }
  }

  /** Group `i - 1` of the suffix after the first group is group `i` of the whole. */
  lemma IndexShift<T>(s: seq<T>, d: nat, i: nat, tail: seq<T>, group: seq<T>)
    requires d >= 1 && i >= 1 && d < |s| && tail == s[d..]
    requires (i - 1) * d < |tail|
    requires group == tail[(i - 1) * d .. (i - 1) * d + Min(d, |tail| - (i - 1) * d)]
    ensures i * d < |s|
    ensures group == s[i * d .. i * d + Min(d, |s| - i * d)]
  {
    var j := (i - 1) * d;
    MulSucc(i - 1, d);
    MulMonotone(0, i - 1, d);
    var len := Min(d, |tail| - j);
    SliceOfSuffix(s, d, j, j + len);
  }

  /** Each batch holds between one and `d` runs. */
  lemma {:induction false} BatchSizes<T>(s: seq<T>, d: nat, i: nat)
    requires d >= 1 && i < |Batches(s, d)|
    ensures 1 <= |Batches(s, d)[i]| <= d
    decreases |s|
  {
    var w := Min(d, |s|);
    var rest := Batches(s[w..], d);
    assert Batches(s, d) == [s[..w]] + rest;
    if i > 0 {
      BatchSizes(s[w..], d, i - 1);
      assert Batches(s, d)[i] == rest[i - 1];
    }
  }
}
