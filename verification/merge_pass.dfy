/** One merge pass: the live runs are cut into consecutive batches of at most `m - 1` runs,
    and each batch is merged into one new run file. */
module Passes {
  import opened Arith
  import opened Runs
  import opened Configuration
  import opened Disk
  import opened KWayMerge
  import opened Chunks

  /** Each batch merged into its output run. */
  function MergeEach(batches: seq<seq<Run>>): (rs: seq<Run>)
    ensures |rs| == |batches|
  {
    if batches == [] then [] else [Merge(batches[0])] + MergeEach(batches[1..])
  }

  /** Merging each batch keeps the multiset of all keys. */
  lemma {:induction false} MergeEachKeys(batches: seq<seq<Run>>)
    ensures multiset(Flatten(MergeEach(batches))) == multiset(Flatten(Flatten(batches)))
  {
    if batches != [] {
      assert batches == [batches[0]] + batches[1..];
      MergeEachKeys(batches[1..]);
      MergeEachKeysStep(batches[0], batches[1..]);
    }
  }

  lemma MergeEachKeysStep(b0: seq<Run>, rest: seq<seq<Run>>)
    requires multiset(Flatten(MergeEach(rest))) == multiset(Flatten(Flatten(rest)))
    ensures multiset(Flatten(MergeEach([b0] + rest))) == multiset(Flatten(Flatten([b0] + rest)))
  {
    assert ([b0] + rest)[1..] == rest;
    assert MergeEach([b0] + rest) == [Merge(b0)] + MergeEach(rest);
    FlattenCons(Merge(b0), MergeEach(rest));
    FlattenCons(b0, rest);
    FlattenAppend(b0, Flatten(rest));
  }

  /** Batches of sorted runs merge into sorted runs. */
  lemma {:induction false} MergeEachSorted(s: seq<Run>, d: nat)
    requires d >= 1 && AllSorted(s)
    ensures AllSorted(MergeEach(Batches(s, d)))
    decreases |s|
  {
    if |s| > 0 {
      var w := Min(d, |s|);
      var head, tail := s[..w], s[w..];
      assert AllSorted(head) && AllSorted(tail);
      MergeEachSorted(tail, d);
      MergeEachSortedStep(s, d, w, head, tail);
    }
  }

  lemma MergeEachSortedStep(s: seq<Run>, d: nat, w: nat, head: seq<Run>, tail: seq<Run>)
    requires d >= 1 && |s| > 0 && w == Min(d, |s|) && head == s[..w] && tail == s[w..]
    requires AllSorted(head) && AllSorted(MergeEach(Batches(tail, d)))
    ensures AllSorted(MergeEach(Batches(s, d)))
  {
    var rest := Batches(tail, d);
    assert Batches(s, d) == [head] + rest;
    assert ([head] + rest)[1..] == rest;
    var out := MergeEach(rest);
    assert MergeEach(Batches(s, d)) == [Merge(head)] + out;
    AllSortedCons(Merge(head), out);
  }

  /** A pass keeps every key and, on sorted runs, produces sorted runs. */
  lemma PassKeys(live: seq<Run>, d: nat, out: seq<Run>)
    requires d >= 1 && out == MergeEach(Batches(live, d))
    ensures multiset(Flatten(out)) == multiset(Flatten(live))
    ensures AllSorted(live) ==> AllSorted(out)
  {
    BatchesFlatten(live, d);
    MergeEachKeys(Batches(live, d));
    if AllSorted(live) {
      MergeEachSorted(live, d);
    }
  }

  lemma MulAdd(a: int, b: int, c: int)
    ensures a * (b + c) == a * b + a * c
  {
  }

  /** What one batch of `runsToMerge` runs from id `cur` leaves behind as `r`: the merge of
      those runs written to the next id, every older file untouched, two seeks and
      `2 * bpr` transfers per input run, where `bpr` is the blocks charged per run. */
  ghost predicate BatchDone(bpr: nat, runsToMerge: nat, cur: nat, st: Machine, r: (Run, Machine))
    requires DiskInv(st)
    requires cur + runsToMerge <= st.tempCount
  {
    && r.0 == Merge(Live(st.disk, cur, runsToMerge))
    && DiskInv(r.1) && Extends(st, r.1)
    && r.1.tempCount == st.tempCount + 1
    && r.1.disk[st.tempCount] == r.0
    && r.1.seeks == st.seeks + 2
    && r.1.transfers == st.transfers + 2 * (bpr * runsToMerge)
  }

  /** One batch of a pass: charge the read of `runs_to_merge` full-size runs, allocate the
      output id, write the merged run, charge the write. */
  function MergeBatch(bpr: nat, runsToMerge: nat, cur: nat, st: Machine): (r: (Run, Machine))
    requires DiskInv(st)
    requires cur + runsToMerge <= st.tempCount
    ensures BatchDone(bpr, runsToMerge, cur, st, r)
  {
    var blocks := bpr * runsToMerge;
    var st1 := DiskRead(st, blocks);
    var out := Merge(Live(st1.disk, cur, runsToMerge));
    var (id, st2) := NewTempId(st1);
    var st3 := WriteRun(st2, id, out);
    NewFileKeepsInv(st1, out);
    (out, DiskWrite(st3, blocks))
  }

  /** What the batches of a pass still to do leave behind, from state `st` with `rem` runs
      not yet merged starting at id `cur`, as the result `r` of new runs and final state:
      one new file per batch, `ceil(rem / d)` of them, written in batch order at the next ids,
      holding the merge of each batch; two seeks per batch and `2 * bpr`
      transfers per input run; every older file untouched. */
  ghost predicate PassDone(bpr: nat, d: nat, rem: nat, cur: nat, st: Machine, r: (seq<Run>, Machine))
    requires d >= 1 && DiskInv(st)
    requires cur + rem <= st.tempCount
  {
    && DiskInv(r.1) && Extends(st, r.1)
    && r.1.tempCount == st.tempCount + |r.0|
    && |r.0| == CeilDiv(rem, d)
    && r.1.seeks == st.seeks + 2 * |r.0|
    && r.1.transfers == st.transfers + 2 * (bpr * rem)
    && Live(r.1.disk, st.tempCount, |r.0|) == r.0
    && r.0 == MergeEach(Batches(Live(st.disk, cur, rem), d))
  }

  /** Merging the first batch and then the batches of the rest is merging every batch. */
  lemma MergeEachStep(live: seq<Run>, d: nat, head: seq<Run>, tail: seq<Run>, out: Run, rest: seq<Run>)
    requires d >= 1 && |live| > 0 && |head| == Min(d, |live|)
    requires live == head + tail
    requires out == Merge(head)
    requires rest == MergeEach(Batches(tail, d))
    ensures [out] + rest == MergeEach(Batches(live, d))
  {
    var w := |head|;
    assert head == live[..w] && tail == live[w..];
    var bs := Batches(live, d);
    assert bs == [live[..w]] + Batches(live[w..], d);
    assert bs[0] == live[..w] && bs[1..] == Batches(live[w..], d);
  }

  /** The run and file counts of one batch followed by the rest of the pass. */
  lemma StepCounts(bpr: nat, d: nat, rem: nat, w: nat, k: nat)
    requires d >= 1 && rem > 0 && w == Min(d, rem) && k == CeilDiv(rem - w, d)
    ensures 1 + k == CeilDiv(rem, d)
    ensures bpr * w + bpr * (rem - w) == bpr * rem
  {
    if rem <= d {
      CeilDivSmall(rem, d);
      CeilDivZero(d);
    } else {
      CeilDivStep(rem, d);
    }
    MulAdd(bpr, Min(d, rem), rem - Min(d, rem));
  }

  /** The inductive step of a pass: one batch merged into `mb`, then the remaining batches
      done as `rest`, adds up to the whole of what the pass still had to do. */
  lemma PassStep(bpr: nat, d: nat, rem: nat, cur: nat, st: Machine, w: nat,
                 mb: (Run, Machine), rest: (seq<Run>, Machine))
    requires d >= 1 && DiskInv(st)
    requires cur + rem <= st.tempCount && rem > 0
    requires w == Min(d, rem)
    requires BatchDone(bpr, w, cur, st, mb)
    requires PassDone(bpr, d, rem - w, cur + w, mb.1, rest)
    ensures PassDone(bpr, d, rem, cur, st, ([mb.0] + rest.0, rest.1))
  {
    StepCounts(bpr, d, rem, w, |rest.0|);
    ExtendsTrans(st, mb.1, rest.1);
    PassStepWritten(bpr, d, rem, cur, st, w, mb, rest);
    PassStepMerged(bpr, d, rem, cur, st, w, mb, rest);
  }

  lemma PassStepMerged(bpr: nat, d: nat, rem: nat, cur: nat, st: Machine, w: nat,
                       mb: (Run, Machine), rest: (seq<Run>, Machine))
    requires d >= 1 && DiskInv(st)
    requires cur + rem <= st.tempCount && rem > 0
    requires w == Min(d, rem)
    requires BatchDone(bpr, w, cur, st, mb)
    requires PassDone(bpr, d, rem - w, cur + w, mb.1, rest)
    ensures [mb.0] + rest.0 == MergeEach(Batches(Live(st.disk, cur, rem), d))
  {
    var tail := Live(mb.1.disk, cur + w, rem - w);
    LiveFrameAt(st, mb.1, cur + w, rem - w, tail);
    PassStepContents(d, rem, cur, st, w, mb.0, tail, rest.0);
  }

  lemma PassStepWritten(bpr: nat, d: nat, rem: nat, cur: nat, st: Machine, w: nat,
                        mb: (Run, Machine), rest: (seq<Run>, Machine))
    requires d >= 1 && DiskInv(st)
    requires cur + rem <= st.tempCount && rem > 0
    requires w == Min(d, rem)
    requires BatchDone(bpr, w, cur, st, mb)
    requires PassDone(bpr, d, rem - w, cur + w, mb.1, rest)
    ensures Live(rest.1.disk, st.tempCount, 1 + |rest.0|) == [mb.0] + rest.0
  {
    assert st.tempCount in mb.1.disk;
    LiveFront(rest.1.disk, st.tempCount, mb.1.tempCount, mb.0, rest.0);
  }

  lemma PassStepContents(d: nat, rem: nat, cur: nat, st: Machine, w: nat,
                         out: Run, tail: seq<Run>, more: seq<Run>)
    requires d >= 1 && DiskInv(st)
    requires cur + rem <= st.tempCount && rem > 0
    requires w == Min(d, rem)
    requires out == Merge(Live(st.disk, cur, w))
    requires tail == Live(st.disk, cur + w, rem - w)
    requires more == MergeEach(Batches(tail, d))
    ensures [out] + more == MergeEach(Batches(Live(st.disk, cur, rem), d))
  {
    LiveSplitAt(st.disk, cur, w, rem);
    MergeEachStep(Live(st.disk, cur, rem), d, Live(st.disk, cur, w), tail, out, more);
  }

  /** The batches of one pass still to do, over the `rem` runs not yet merged, whose files
      start at id `cur` (the reference's `current_run`). The reference counts batches with
      `merge` up to `num_merges = ceil(R / d)` and sizes batch `merge` as
      `min(d, R - merge * d)`; here the recursion runs on the remaining count
      `rem = R - merge * d` instead, and `BatchesCount` and `BatchesIndex` show the two agree. */
  function PassFrom(bpr: nat, d: nat, rem: nat, cur: nat, st: Machine): (r: (seq<Run>, Machine))
    requires d >= 1 && DiskInv(st)
    requires cur + rem <= st.tempCount
    ensures PassDone(bpr, d, rem, cur, st, r)
    decreases rem
  {
    if rem == 0 then
      CeilDivZero(d);
      ([], st)
    else
      var w := Min(d, rem);
      var mb := MergeBatch(bpr, w, cur, st);
      var rest := PassFrom(bpr, d, rem - w, cur + w, mb.1);
      PassStep(bpr, d, rem, cur, st, w, mb, rest);
      ([mb.0] + rest.0, rest.1)
  }

  /** `mergePass`: merges the `numRuns` run files with ids `cur ..` in batches of `m - 1`
      and returns the new runs, which occupy the next `ceil(numRuns / (m - 1))` ids.
      Every batch is charged a read and a write of `BlocksPerRun(cfg)` blocks per input run,
      whatever the runs' true lengths. */
  function MergePass(cfg: Config, numRuns: nat, cur: nat, st: Machine): (r: (seq<Run>, Machine))
    requires Valid(cfg) && cfg.m >= 2 && DiskInv(st)
    requires cur + numRuns <= st.tempCount
    ensures |r.0| == CeilDiv(numRuns, cfg.m - 1)
    ensures r.0 == MergeEach(Batches(Live(st.disk, cur, numRuns), cfg.m - 1))
    ensures DiskInv(r.1) && Extends(st, r.1)
    ensures r.1.tempCount == st.tempCount + |r.0|
    ensures Live(r.1.disk, st.tempCount, |r.0|) == r.0
    ensures r.1.seeks == st.seeks + 2 * |r.0|
    ensures r.1.transfers == st.transfers + 2 * (BlocksPerRun(cfg) * numRuns)
    ensures multiset(Flatten(r.0)) == multiset(Flatten(Live(st.disk, cur, numRuns)))
    ensures AllSorted(Live(st.disk, cur, numRuns)) ==> AllSorted(r.0)
  {
    var r := PassFrom(BlocksPerRun(cfg), cfg.m - 1, numRuns, cur, st);
    PassOutcome(BlocksPerRun(cfg), cfg.m - 1, numRuns, cur, st, r);
    r
  }

  /** A finished pass keeps the keys of the runs it read, and their sortedness. */
  lemma PassOutcome(bpr: nat, d: nat, numRuns: nat, cur: nat, st: Machine, r: (seq<Run>, Machine))
    requires d >= 1 && DiskInv(st) && cur + numRuns <= st.tempCount
    requires PassDone(bpr, d, numRuns, cur, st, r)
    ensures |r.0| == CeilDiv(numRuns, d)
    ensures r.0 == MergeEach(Batches(Live(st.disk, cur, numRuns), d))
    ensures DiskInv(r.1) && Extends(st, r.1)
    ensures r.1.tempCount == st.tempCount + |r.0|
    ensures Live(r.1.disk, st.tempCount, |r.0|) == r.0
    ensures r.1.seeks == st.seeks + 2 * |r.0|
    ensures r.1.transfers == st.transfers + 2 * (bpr * numRuns)
    ensures multiset(Flatten(r.0)) == multiset(Flatten(Live(st.disk, cur, numRuns)))
    ensures AllSorted(Live(st.disk, cur, numRuns)) ==> AllSorted(r.0)
  {
    PassKeys(Live(st.disk, cur, numRuns), d, r.0);
  }

  /** One pass maps `R` runs to `ceil(R / (m - 1))`; with fan-in at least two and more than
      one run this is strictly fewer runs, and never zero. */
  lemma PassShrinks(numRuns: nat, d: nat)
    requires d >= 2 && numRuns > 1
    ensures 1 <= CeilDiv(numRuns, d) < numRuns
  {
    var q := CeilDiv(numRuns, d);
    if q >= numRuns {
      MulMonotone(numRuns - 1, q - 1, d);
      MulMonotone(2, d, numRuns - 1);
    }
  }

  /** Batches of one run each merge into copies of those runs. */
  lemma {:induction false} MergeEachSingles(s: seq<Run>)
    ensures MergeEach(Batches(s, 1)) == s
    decreases |s|
  {
    if |s| > 0 {
      var rest := Batches(s[1..], 1);
      assert Batches(s, 1) == [[s[0]]] + rest by {
        assert s[..1] == [s[0]];
      }
      assert ([[s[0]]] + rest)[1..] == rest;
      MergeOne(s[0]);
      MergeEachSingles(s[1..]);
      assert s == [s[0]] + s[1..];
    }
  }

  /** With `m = 2` the fan-in is one: every batch is a single run, so a pass copies each live
      run to a new file unchanged and leaves the run count as it was; the reference's pass
      loop never ends once there are two runs. */
  lemma FanInOneNoProgress(cfg: Config, numRuns: nat, cur: nat, st: Machine)
    requires Valid(cfg) && cfg.m == 2 && DiskInv(st) && cur + numRuns <= st.tempCount
    ensures MergePass(cfg, numRuns, cur, st).0 == Live(st.disk, cur, numRuns)
    ensures |MergePass(cfg, numRuns, cur, st).0| == numRuns
  {
    MergeEachSingles(Live(st.disk, cur, numRuns));
  }
}
