/** The k-way merge of one batch of runs.

    The reference keeps a min-heap of `(key, file_index)` pairs holding the current head of
    every run that still has keys, pops the least pair, writes its key and pushes the next
    key of the same run. Since each run has at most one pair in the heap, the popped pair is
    always the least `(head key, run index)` over the runs that are not yet drained; that
    selection is what this module models. The trace of popped pairs keeps the source index,
    so the tie-break rule can be stated. */
module KWayMerge {
  import opened Runs

  /** A key together with the index (within the batch) of the run it came from. */
  datatype Tagged = Tagged(key: Key, src: nat)

  /** The heap's order on `std::pair<int, int>`: by key, then by source index. */
  predicate Precedes(a: Tagged, b: Tagged) {
    a.key < b.key || (a.key == b.key && a.src <= b.src)
  }

  /** That order is total: reflexive, any two pairs compare, only equal pairs compare both
      ways, and it is transitive. */
  lemma PrecedesTotalOrder(a: Tagged, b: Tagged, c: Tagged)
    ensures Precedes(a, a)
    ensures Precedes(a, b) || Precedes(b, a)
    ensures Precedes(a, b) && Precedes(b, a) ==> a == b
    ensures Precedes(a, b) && Precedes(b, c) ==> Precedes(a, c)
  {
  }

  predicate LexSorted(t: seq<Tagged>) {
    forall i, j :: 0 <= i < j < |t| ==> Precedes(t[i], t[j])
  }

  /** A pair that precedes every pair of a trace in heap order can go in front of it. */
  lemma LexSortedCons(x: Tagged, rest: seq<Tagged>)
    requires LexSorted(rest)
    requires forall e :: e in rest ==> Precedes(x, e)
    ensures LexSorted([x] + rest)
  {
    var t := [x] + rest;
    forall a, b | 0 <= a < b < |t|
      ensures Precedes(t[a], t[b])
    {
      assert t[b] == rest[b - 1];
      if a == 0 {
        assert rest[b - 1] in rest;
      } else {
        assert t[a] == rest[a - 1];
      }
    }
  }

  /** The keys of a trace, in order. */
  function Keys(t: seq<Tagged>): (ks: seq<Key>)
    ensures |ks| == |t|
  {
    if t == [] then [] else [t[0].key] + Keys(t[1..])
  }

  /** A trace in heap order lists its keys in non-decreasing order. */
  lemma {:induction false} KeysSorted(t: seq<Tagged>)
    requires LexSorted(t)
    ensures Sorted(Keys(t))
  {
    if t != [] {
      assert LexSorted(t[1..]);
      KeysSorted(t[1..]);
      var ks := Keys(t);
      KeysIndex(t);
      forall i, j | 0 <= i < j < |ks|
        ensures ks[i] <= ks[j]
      {
        assert Precedes(t[i], t[j]);
      }
    }
  }

  lemma {:induction false} KeysIndex(t: seq<Tagged>)
    ensures forall i :: 0 <= i < |t| ==> Keys(t)[i] == t[i].key
  {
    if t != [] {
      KeysIndex(t[1..]);
      assert Keys(t) == [t[0].key] + Keys(t[1..]);
    }
  }

  /** The keys a trace took from source run `j`, in order. */
  function FromSource(t: seq<Tagged>, j: nat): seq<Key> {
    if t == [] then []
    else (if t[0].src == j then [t[0].key] else []) + FromSource(t[1..], j)
  }

  /** The heap entry of run `i`: its first key tagged with its index. */
  function Head(runs: seq<Run>, i: nat): Tagged
    requires i < |runs| && runs[i] != []
  {
    Tagged(runs[i][0], i)
  }

  /** The index of the least head among runs `j ..`, or `|runs|` when those are all drained. */
  function MinHeadFrom(runs: seq<Run>, j: nat): (i: nat)
    requires j <= |runs|
    ensures j <= i <= |runs|
    ensures i < |runs| ==> runs[i] != []
    ensures i < |runs| ==> forall t :: j <= t < |runs| && runs[t] != [] ==> Precedes(Head(runs, i), Head(runs, t))
    ensures i == |runs| <==> forall t :: j <= t < |runs| ==> runs[t] == []
    decreases |runs| - j
  {
    if j == |runs| then |runs|
    else
      var i := MinHeadFrom(runs, j + 1);
      if runs[j] == [] then i
      else if i == |runs| || runs[j][0] <= runs[i][0] then j
      else i
  }

  /** `pq.top()`: the run whose head the heap pops next, or `|runs|` once the heap is empty. */
  function MinHead(runs: seq<Run>): (i: nat)
    ensures i <= |runs|
    ensures i < |runs| ==> runs[i] != []
    ensures i < |runs| ==> forall t :: 0 <= t < |runs| && runs[t] != [] ==> Precedes(Head(runs, i), Head(runs, t))
    ensures i == |runs| <==> forall t :: 0 <= t < |runs| ==> runs[t] == []
  {
    MinHeadFrom(runs, 0)
  }

  /** The batch after popping the head of run `i`. */
  function Pop(runs: seq<Run>, i: nat): seq<Run>
    requires i < |runs| && runs[i] != []
  {
    runs[i := runs[i][1..]]
  }

  /** Popping one head removes exactly that key from the batch. */
  lemma PopFlatten(runs: seq<Run>, i: nat)
    requires i < |runs| && runs[i] != []
    ensures |Flatten(Pop(runs, i))| + 1 == |Flatten(runs)|
    ensures multiset(Flatten(runs)) == multiset(Flatten(Pop(runs, i))) + multiset{runs[i][0]}
  {
    var p := Pop(runs, i);
    FlattenSplit(runs, i);
    FlattenSplit(p, i);
    assert p[..i] == runs[..i] && p[i + 1..] == runs[i + 1..];
    assert runs[i] == [runs[i][0]] + p[i];
  }

  /** The sequence of `(key, index)` pairs the heap pops until it is empty. */
  function MergeTrace(runs: seq<Run>): seq<Tagged>
    decreases |Flatten(runs)|
  {
    var i := MinHead(runs);
    if i == |runs| then []
    else
      PopFlatten(runs, i);
      [Head(runs, i)] + MergeTrace(Pop(runs, i))
  }

  /** Every popped pair names a run of the batch and a key that run holds. */
  lemma {:induction false} MergeTraceMembers(runs: seq<Run>)
    ensures forall e :: e in MergeTrace(runs) ==> e.src < |runs| && e.key in runs[e.src]
    decreases |Flatten(runs)|
  {
    var i := MinHead(runs);
    if i < |runs| {
      var p := Pop(runs, i);
      PopFlatten(runs, i);
      MergeTraceMembers(p);
      assert MergeTrace(runs) == [Head(runs, i)] + MergeTrace(p);
      forall e | e in MergeTrace(runs)
        ensures e.src < |runs| && e.key in runs[e.src]
      {
        if e != Head(runs, i) {
          assert e in MergeTrace(p);
          if e.src == i {
            assert e.key in runs[i][1..];
          }
        }
      }
    }
  }

  /** The merge takes every run completely and in its own order: the keys popped from run `j`
      are exactly run `j`. So it stops only when all inputs are drained. */
  lemma {:induction false} MergeTraceDrains(runs: seq<Run>)
    ensures forall j :: 0 <= j < |runs| ==> FromSource(MergeTrace(runs), j) == runs[j]
    decreases |Flatten(runs)|
  {
    var i := MinHead(runs);
    if i < |runs| {
      var p := Pop(runs, i);
      PopFlatten(runs, i);
      MergeTraceDrains(p);
      var t := MergeTrace(runs);
      assert t == [Head(runs, i)] + MergeTrace(p);
      assert t[1..] == MergeTrace(p);
      forall j | 0 <= j < |runs|
        ensures FromSource(t, j) == runs[j]
      {
        if j == i {
          assert runs[i] == [runs[i][0]] + p[i];
        }
      }
    }
  }

  /** With sorted inputs the pops come out in heap order: non-decreasing by key, and among
      equal keys by increasing source index. */
  lemma {:induction false} MergeTraceLexSorted(runs: seq<Run>)
    requires AllSorted(runs)
    ensures LexSorted(MergeTrace(runs))
    decreases |Flatten(runs)|
  {
    var i := MinHead(runs);
    if i < |runs| {
      var p := Pop(runs, i);
      PopFlatten(runs, i);
      assert AllSorted(p);
      MergeTraceLexSorted(p);
      MergeTraceMembers(p);
      var x := Head(runs, i);
      var rest := MergeTrace(p);
      assert MergeTrace(runs) == [x] + rest;
      HeadPrecedesRest(runs, i, rest);
      LexSortedCons(x, rest);
    }
  }

  /** The least head comes before every key still left once it is popped. */
  lemma HeadPrecedesRest(runs: seq<Run>, i: nat, rest: seq<Tagged>)
    requires AllSorted(runs) && i == MinHead(runs) && i < |runs|
    requires forall e :: e in rest ==> e.src < |Pop(runs, i)| && e.key in Pop(runs, i)[e.src]
    ensures forall e :: e in rest ==> Precedes(Head(runs, i), e)
  {
    var x := Head(runs, i);
    forall e | e in rest
      ensures Precedes(x, e)
    {
      var s := e.src;
      if s == i {
        assert e.key in runs[i][1..];
      } else {
        assert e.key in runs[s];
        assert runs[s] != [] && runs[s][0] <= e.key;
        assert Precedes(x, Head(runs, s));
      }
    }
  }

  /** The popped keys are a permutation of the batch's keys. */
  lemma {:induction false} MergeTraceKeys(runs: seq<Run>)
    ensures multiset(Keys(MergeTrace(runs))) == multiset(Flatten(runs))
    decreases |Flatten(runs)|
  {
    var i := MinHead(runs);
    if i == |runs| {
      EmptyRunsFlatten(runs);
    } else {
      var p := Pop(runs, i);
      PopFlatten(runs, i);
      MergeTraceKeys(p);
      var rest := MergeTrace(p);
      assert MergeTrace(runs) == [Head(runs, i)] + rest;
      assert Keys([Head(runs, i)] + rest) == [runs[i][0]] + Keys(rest);
    }
  }

  lemma {:induction false} EmptyRunsFlatten(runs: seq<Run>)
    requires forall t :: 0 <= t < |runs| ==> runs[t] == []
    ensures Flatten(runs) == []
  {
    if runs != [] {
      EmptyRunsFlatten(runs[1..]);
    }
  }

  /** A key taken from run `j` appears in the trace tagged with `j`. */
  lemma {:induction false} FromSourceHead(t: seq<Tagged>, j: nat)
    requires FromSource(t, j) != []
    ensures exists p :: 0 <= p < |t| && t[p] == Tagged(FromSource(t, j)[0], j)
  {
    if t[0].src != j {
      FromSourceHead(t[1..], j);
      var p :| 0 <= p < |t[1..]| && t[1..][p] == Tagged(FromSource(t[1..], j)[0], j);
      assert t[p + 1] == Tagged(FromSource(t, j)[0], j);
    } else {
      assert t[0] == Tagged(FromSource(t, j)[0], j);
    }
  }

  /** A trace that takes every run whole, in order, and respects the heap order starts with
      the head the heap pops first. */
  lemma TraceStartsAtMinHead(runs: seq<Run>, t: seq<Tagged>)
    requires t != [] && LexSorted(t)
    requires forall e :: e in t ==> e.src < |runs|
    requires forall j :: 0 <= j < |runs| ==> FromSource(t, j) == runs[j]
    ensures MinHead(runs) < |runs| && t[0] == Head(runs, MinHead(runs))
  {
    var s := t[0].src;
    assert t[0] in t;
    assert FromSource(t, s) == [t[0].key] + FromSource(t[1..], s);
    assert runs[s] != [] && Head(runs, s) == t[0];
    var i := MinHead(runs);
    FromSourceHead(t, i);
    var p :| 0 <= p < |t| && t[p] == Head(runs, i);
    assert Precedes(t[0], t[p]);
    assert Precedes(Head(runs, i), Head(runs, s));
  }

  /** After its first pop, such a trace takes the popped batch whole and in order. */
  lemma TraceAfterPop(runs: seq<Run>, t: seq<Tagged>, i: nat)
    requires i < |runs| && runs[i] != [] && t != [] && t[0] == Head(runs, i)
    requires forall e :: e in t ==> e.src < |runs|
    requires forall j :: 0 <= j < |runs| ==> FromSource(t, j) == runs[j]
    ensures forall e :: e in t[1..] ==> e.src < |Pop(runs, i)|
    ensures forall j :: 0 <= j < |Pop(runs, i)| ==> FromSource(t[1..], j) == Pop(runs, i)[j]
  {
    var q := Pop(runs, i);
    forall e | e in t[1..]
      ensures e.src < |q|
    {
      assert e in t;
    }
    forall j | 0 <= j < |q|
      ensures FromSource(t[1..], j) == q[j]
    {
      assert FromSource(t, j) == (if j == i then [t[0].key] else []) + FromSource(t[1..], j);
      if j == i {
        assert runs[i] == [runs[i][0]] + q[i];
      }
    }
  }

  /** The heap order and the per-run order determine the merge: any trace that takes every
      run whole and in order, and is ordered by `(key, index)`, is the heap's trace. */
  lemma {:induction false} MergeTraceUnique(runs: seq<Run>, t: seq<Tagged>)
    requires LexSorted(t)
    requires forall e :: e in t ==> e.src < |runs|
    requires forall j :: 0 <= j < |runs| ==> FromSource(t, j) == runs[j]
    ensures t == MergeTrace(runs)
    decreases |t|
  {
    if t == [] {
      assert forall j :: 0 <= j < |runs| ==> runs[j] == FromSource(t, j);
      assert MinHead(runs) == |runs|;
    } else {
      TraceStartsAtMinHead(runs, t);
      var i := MinHead(runs);
      TraceAfterPop(runs, t, i);
      assert LexSorted(t[1..]);
      MergeTraceUnique(Pop(runs, i), t[1..]);
      assert MergeTrace(runs) == [Head(runs, i)] + MergeTrace(Pop(runs, i));
      assert t == [t[0]] + t[1..];
    }
  }

  /** For sorted runs, a trace is the heap's trace exactly when it takes every run whole and
      in order and is ordered by `(key, index)`. */
  lemma MergeTraceCharacterized(runs: seq<Run>, t: seq<Tagged>)
    requires AllSorted(runs)
    ensures t == MergeTrace(runs) <==>
      && LexSorted(t)
      && (forall e :: e in t ==> e.src < |runs|)
      && (forall j :: 0 <= j < |runs| ==> FromSource(t, j) == runs[j])
  {
    MergeTraceLexSorted(runs);
    MergeTraceMembers(runs);
    MergeTraceDrains(runs);
    if LexSorted(t) && (forall e :: e in t ==> e.src < |runs|) && (forall j :: 0 <= j < |runs| ==> FromSource(t, j) == runs[j]) {
      MergeTraceUnique(runs, t);
    }
  }

  /** A trace drawn from run `j` alone lists the keys it pops from `j`. */
  lemma {:induction false} FromSoleSource(t: seq<Tagged>, j: nat)
    requires forall e :: e in t ==> e.src == j
    ensures FromSource(t, j) == Keys(t)
  {
    if t != [] {
      assert forall e :: e in t[1..] ==> e in t;
      FromSoleSource(t[1..], j);
    }
  }

  /** Merging a single run copies it, in its own order. */
  lemma MergeOne(x: Run)
    ensures Merge([x]) == x
  {
    MergeTraceMembers([x]);
    MergeTraceDrains([x]);
    FromSoleSource(MergeTrace([x]), 0);
  }

  /** The merged run that one batch writes to its output file. */
  function Merge(runs: seq<Run>): (out: Run)
    ensures |out| == |Flatten(runs)|
    ensures multiset(out) == multiset(Flatten(runs))
    ensures AllSorted(runs) ==> Sorted(out)
  {
    var t := MergeTrace(runs);
    MergeTraceKeys(runs);
    assert |Keys(t)| == |multiset(Keys(t))| == |multiset(Flatten(runs))| == |Flatten(runs)|;
    MergeSorted(runs);
    Keys(t)
  }

  /** On sorted runs the heap writes its keys in non-decreasing order. */
  lemma MergeSorted(runs: seq<Run>)
    ensures AllSorted(runs) ==> Sorted(Keys(MergeTrace(runs)))
  {
    if AllSorted(runs) {
      MergeTraceLexSorted(runs);
      KeysSorted(MergeTrace(runs));
    }
  }
}
