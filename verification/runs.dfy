/** Keys, runs, and the sequence facts every phase of the external sort relies on:
    sortedness, flattening a list of runs, and the in-memory sort of one chunk. */
module Runs {

  /** One key, as `input >> key` reads it into an `int`. */
  type Key = int

  /** The keys of one temporary run file, in file order. */
  type Run = seq<Key>

  predicate Sorted(s: seq<int>) {
    forall i, j :: 0 <= i < j < |s| ==> s[i] <= s[j]
  }

  predicate AllSorted(rs: seq<Run>) {
    forall i :: 0 <= i < |rs| ==> Sorted(rs[i])
  }

  lemma AllSortedCons(x: Run, rs: seq<Run>)
    requires Sorted(x) && AllSorted(rs)
    ensures AllSorted([x] + rs)
  {
    forall i | 0 <= i < |[x] + rs|
      ensures Sorted(([x] + rs)[i])
    {
      if i > 0 {
        assert ([x] + rs)[i] == rs[i - 1];
      }
    }
  }

  /** The concatenation of a list of sequences, in order. */
  function Flatten<T>(ss: seq<seq<T>>): seq<T> {
    if ss == [] then [] else ss[0] + Flatten(ss[1..])
  }

  lemma {:induction false} FlattenAppend<T>(a: seq<seq<T>>, b: seq<seq<T>>)
    ensures Flatten(a + b) == Flatten(a) + Flatten(b)
  {
    if a == [] {
      assert a + b == b;
    } else {
      assert (a + b)[1..] == a[1..] + b;
      FlattenAppend(a[1..], b);
    }
  }

  lemma FlattenCons<T>(x: seq<T>, rest: seq<seq<T>>)
    ensures Flatten([x] + rest) == x + Flatten(rest)
  {
    assert ([x] + rest)[1..] == rest;
  }

  /** Flattening around position `i`. */
  lemma FlattenSplit<T>(ss: seq<seq<T>>, i: nat)
    requires i < |ss|
    ensures Flatten(ss) == Flatten(ss[..i]) + ss[i] + Flatten(ss[i + 1..])
  {
    SplitAround(ss, i);
    FlattenAppend(ss[..i], [ss[i]] + ss[i + 1..]);
    FlattenCons(ss[i], ss[i + 1..]);
    AppendAssoc(Flatten(ss[..i]), ss[i], Flatten(ss[i + 1..]));
  }

  lemma SplitAround<T>(s: seq<T>, i: nat)
    requires i < |s|
    ensures s == s[..i] + ([s[i]] + s[i + 1..])
  {
  }

  lemma AppendAssoc<T>(a: seq<T>, b: seq<T>, c: seq<T>)
    ensures a + (b + c) == a + b + c
  {
  }

  /** A lower bound on every element carries over to any permutation. */
  lemma PermutationBound(t: seq<int>, u: seq<int>, lo: int)
    requires multiset(t) == multiset(u)
    requires forall k :: 0 <= k < |u| ==> lo <= u[k]
    ensures forall k :: 0 <= k < |t| ==> lo <= t[k]
  {
    forall k | 0 <= k < |t|
      ensures lo <= t[k]
    {
      assert t[k] in multiset(t);
      assert t[k] in u;
    }
  }

  /** Insertion of one key into a sorted run. */
  function Insert(x: Key, s: Run): (r: Run)
    requires Sorted(s)
    ensures Sorted(r)
    ensures multiset(r) == multiset(s) + multiset{x}
  {
    if s == [] || x <= s[0] then
      SortedPrepend(x, s);
      [x] + s
    else
      var t := Insert(x, s[1..]);
      InsertStep(x, s, t);
      [s[0]] + t
  }

  /** A key no larger than the first of a sorted run can go in front of it. */
  lemma SortedPrepend(x: Key, s: Run)
    requires Sorted(s) && (s == [] || x <= s[0])
    ensures Sorted([x] + s)
  {
    SortedCons(x, s);
  }

  lemma SortedCons(x: Key, t: Run)
    requires Sorted(t) && forall k :: 0 <= k < |t| ==> x <= t[k]
    ensures Sorted([x] + t)
  {
    forall i, j | 0 <= i < j < |[x] + t|
      ensures ([x] + t)[i] <= ([x] + t)[j]
    {
      if i > 0 {
        assert ([x] + t)[i] == t[i - 1];
      }
      assert ([x] + t)[j] == t[j - 1];
    }
  }

  /** A key larger than the first of a sorted run goes into its tail. */
  lemma InsertStep(x: Key, s: Run, t: Run)
    requires Sorted(s) && s != [] && s[0] < x
    requires Sorted(t) && multiset(t) == multiset(s[1..]) + multiset{x}
    ensures Sorted([s[0]] + t)
    ensures multiset([s[0]] + t) == multiset(s) + multiset{x}
  {
    assert s == [s[0]] + s[1..];
    assert multiset(s[1..] + [x]) == multiset(s[1..]) + multiset{x};
    PermutationBound(t, s[1..] + [x], s[0]);
    SortedCons(s[0], t);
  }

  /** The in-memory sort of one chunk (`std::sort` in the reference). */
  function SortRun(s: Run): (r: Run)
    ensures Sorted(r)
    ensures multiset(r) == multiset(s)
  {
    if s == [] then []
    else
      assert s == [s[0]] + s[1..];
      Insert(s[0], SortRun(s[1..]))
  }

  /** Two sorted sequences holding the same keys are equal: a sorted permutation is unique. */
  lemma {:induction false} SortedPermutationUnique(a: seq<int>, b: seq<int>)
    requires Sorted(a) && Sorted(b)
    requires multiset(a) == multiset(b)
    ensures a == b
  {
    if a == [] || b == [] {
      assert |a| == |multiset(a)| == |multiset(b)| == |b|;
    } else {
      assert a[0] in multiset(a) && b[0] in multiset(b);
      SortedFirstLeast(b, a[0]);
      SortedFirstLeast(a, b[0]);
      TailKeys(a);
      TailKeys(b);
      SortedTail(a);
      SortedTail(b);
      SortedPermutationUnique(a[1..], b[1..]);
      HeadTailEqual(a, b);
    }
  }

  /** The first key of a sorted sequence is its least. */
  lemma SortedFirstLeast(a: seq<int>, x: int)
    requires Sorted(a) && x in a
    ensures a[0] <= x
  {
  }

  lemma TailKeys(a: seq<int>)
    requires a != []
    ensures multiset(a[1..]) == multiset(a) - multiset{a[0]}
  {
    assert a == [a[0]] + a[1..];
  }

  lemma SortedTail(a: seq<int>)
    requires a != [] && Sorted(a)
    ensures Sorted(a[1..])
  {
  }

  lemma HeadTailEqual(a: seq<int>, b: seq<int>)
    requires a != [] && b != [] && a[0] == b[0] && a[1..] == b[1..]
    ensures a == b
  {
    assert a == [a[0]] + a[1..];
    assert b == [b[0]] + b[1..];
  }

  /** Sorting a run that is already sorted leaves it unchanged. */
  lemma SortRunOfSorted(s: Run)
    requires Sorted(s)
    ensures SortRun(s) == s
  {
    SortedPermutationUnique(SortRun(s), s);
  }

  /** A permutation has the length of what it permutes. */
  lemma PermutationLength(out: seq<int>, keys: seq<int>)
    requires multiset(out) == multiset(keys)
    ensures |out| == |keys|
  {
    assert |out| == |multiset(out)| == |multiset(keys)| == |keys|;
  }

  /** Sorting a chunk keeps its length. */
  lemma SortRunLength(c: Run)
    ensures |SortRun(c)| == |c|
  {
    PermutationLength(SortRun(c), c);
  }
}
