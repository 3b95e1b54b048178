/** The whole sort (`externalMergeSort`): the formation phase, the pass loop that merges
    until at most one run is left, and the promotion of the last run file to the output.

    Each pass here reads the runs the previous phase wrote, the `numRuns` files just below
    the id counter. The reference instead restarts every pass at file 0; that behaviour is
    modelled separately as `AsWritten.AsWrittenSort`. */
module ExternalSort {
  import opened Arith
  import opened Runs
  import opened Configuration
  import opened Disk
  import opened Chunks
  import opened Passes
  import opened Formation

  /** The passes the pass loop makes from `numRuns` runs with fan-in `d`: none for at most
      one run, otherwise one more than from the `ceil(numRuns / d)` runs a pass leaves. */
  function PassCount(numRuns: nat, d: nat): (r: nat)
    requires numRuns <= 1 || d >= 2
    ensures r == 0 <==> numRuns <= 1
    decreases numRuns
  {
    if numRuns <= 1 then 0
    else
      PassShrinks(numRuns, d);
      1 + PassCount(CeilDiv(numRuns, d), d)
  }

  /** The runs all passes together write, one per batch. */
  function RunsWritten(numRuns: nat, d: nat): nat
    requires numRuns <= 1 || d >= 2
    decreases numRuns
  {
    if numRuns <= 1 then 0
    else
      PassShrinks(numRuns, d);
      var next := CeilDiv(numRuns, d);
      next + RunsWritten(next, d)
  }

  /** The runs all passes together read: every pass reads each of its input runs once. */
  function RunsRead(numRuns: nat, d: nat): nat
    requires numRuns <= 1 || d >= 2
    decreases numRuns
  {
    if numRuns <= 1 then 0
    else
      PassShrinks(numRuns, d);
      numRuns + RunsRead(CeilDiv(numRuns, d), d)
  }

  function Pow(d: nat, e: nat): nat
    decreases e
  {
    if e == 0 then 1 else d * Pow(d, e - 1)
  }

  /** The number of passes is `ceil(log_d(numRuns))`: `d` to that power covers the runs, and
      one pass fewer would not. */
  lemma {:induction false} PassesLogarithmic(numRuns: nat, d: nat)
    requires d >= 2 && numRuns >= 1
    ensures numRuns <= Pow(d, PassCount(numRuns, d))
    ensures PassCount(numRuns, d) > 0 ==> Pow(d, PassCount(numRuns, d) - 1) < numRuns
    decreases numRuns
  {
    if numRuns > 1 {
      PassShrinks(numRuns, d);
      var q := CeilDiv(numRuns, d);
      var p := PassCount(q, d);
      assert PassCount(numRuns, d) == 1 + p;
      PassesLogarithmic(q, d);
      assert Pow(d, p + 1) == d * Pow(d, p);
      MulMonotone(q, Pow(d, p), d);
      if p > 0 {
        assert Pow(d, p) == d * Pow(d, p - 1);
        MulMonotone(Pow(d, p - 1), q - 1, d);
      }
    }
  }

  /** The file the final rename promotes: the one with the highest id handed out. */
  function Final(st: Machine): Run
    requires DiskInv(st) && st.tempCount >= 1
  {
    st.disk[st.tempCount - 1]
  }

  /** What `MergePass` establishes, in terms of the blocks per run `bpr` and the fan-in `d`. */
  ghost predicate PassResult(bpr: nat, d: nat, numRuns: nat, cur: nat, st: Machine, p: (seq<Run>, Machine))
    requires d >= 1 && DiskInv(st) && cur + numRuns <= st.tempCount
  {
    && |p.0| == CeilDiv(numRuns, d)
    && DiskInv(p.1) && Extends(st, p.1)
    && p.1.tempCount == st.tempCount + |p.0|
    && Live(p.1.disk, st.tempCount, |p.0|) == p.0
    && p.1.seeks == st.seeks + 2 * |p.0|
    && p.1.transfers == st.transfers + 2 * (bpr * numRuns)
    && multiset(Flatten(p.0)) == multiset(Flatten(Live(st.disk, cur, numRuns)))
    && (AllSorted(Live(st.disk, cur, numRuns)) ==> AllSorted(p.0))
  }

  /** `MergePass`, seen only through `PassResult`. */
  function Pass(cfg: Config, numRuns: nat, cur: nat, st: Machine): (p: (seq<Run>, Machine))
    requires Valid(cfg) && cfg.m >= 2 && DiskInv(st) && cur + numRuns <= st.tempCount
    ensures PassResult(BlocksPerRun(cfg), cfg.m - 1, numRuns, cur, st, p)
  {
    MergePass(cfg, numRuns, cur, st)
  }

  /** What the pass loop leaves behind as `r` from the `numRuns` runs just below the id
      counter of `st`: `PassCount` passes, `RunsWritten` new files (two seeks each), a read
      and a write of `bpr` blocks per run read, and, if there was any run, a last file
      holding exactly the keys of those runs, sorted if they were. */
  ghost predicate LadderDone(bpr: nat, d: nat, numRuns: nat, st: Machine, r: (nat, Machine))
    requires numRuns <= 1 || d >= 2
    requires DiskInv(st) && numRuns <= st.tempCount
  {
    && DiskInv(r.1) && Extends(st, r.1)
    && r.0 == PassCount(numRuns, d)
    && r.1.tempCount == st.tempCount + RunsWritten(numRuns, d)
    && r.1.seeks == st.seeks + 2 * RunsWritten(numRuns, d)
    && r.1.transfers == st.transfers + 2 * (bpr * RunsRead(numRuns, d))
    && (numRuns >= 1 ==>
          && r.1.tempCount >= 1
          && multiset(Final(r.1)) == multiset(Flatten(Live(st.disk, st.tempCount - numRuns, numRuns)))
          && (AllSorted(Live(st.disk, st.tempCount - numRuns, numRuns)) ==> Sorted(Final(r.1))))
  }

  /** No pass for at most one run: the last file is that run. */
  lemma LadderBase(bpr: nat, d: nat, numRuns: nat, st: Machine)
    requires numRuns <= 1 && DiskInv(st) && numRuns <= st.tempCount
    ensures LadderDone(bpr, d, numRuns, st, (0, st))
  {
    if numRuns == 1 {
      var live := Live(st.disk, st.tempCount - 1, 1);
      assert live == [Final(st)];
      FlattenCons(Final(st), []);
      assert Flatten(live) == Final(st);
    }
  }

  /** One pass, then the loop on what it left. */
  lemma LadderStep(bpr: nat, d: nat, numRuns: nat, st: Machine, next: nat,
                   p: (seq<Run>, Machine), rest: (nat, Machine))
    requires d >= 2 && DiskInv(st) && 1 < numRuns <= st.tempCount
    requires PassResult(bpr, d, numRuns, st.tempCount - numRuns, st, p)
    requires next == |p.0| && next <= p.1.tempCount
    requires LadderDone(bpr, d, next, p.1, rest)
    ensures LadderDone(bpr, d, numRuns, st, (rest.0 + 1, rest.1))
  {
    PassShrinks(numRuns, d);
    ExtendsTrans(st, p.1, rest.1);
    LadderCounts(bpr, d, numRuns, next, st, p.1, rest.1);
    assert p.1.tempCount - next == st.tempCount;
  }

  /** The counters after one pass and the rest of the loop. */
  lemma LadderCounts(bpr: nat, d: nat, numRuns: nat, next: nat, st: Machine, mid: Machine, fin: Machine)
    requires d >= 2 && 1 < numRuns && next == CeilDiv(numRuns, d)
    requires mid.tempCount == st.tempCount + next && mid.seeks == st.seeks + 2 * next
    requires mid.transfers == st.transfers + 2 * (bpr * numRuns)
    requires fin.tempCount == mid.tempCount + RunsWritten(next, d)
    requires fin.seeks == mid.seeks + 2 * RunsWritten(next, d)
    requires fin.transfers == mid.transfers + 2 * (bpr * RunsRead(next, d))
    ensures PassCount(numRuns, d) == PassCount(next, d) + 1
    ensures fin.tempCount == st.tempCount + RunsWritten(numRuns, d)
    ensures fin.seeks == st.seeks + 2 * RunsWritten(numRuns, d)
    ensures fin.transfers == st.transfers + 2 * (bpr * RunsRead(numRuns, d))
  {
    assert RunsWritten(numRuns, d) == next + RunsWritten(next, d);
    assert RunsRead(numRuns, d) == numRuns + RunsRead(next, d);
    MulAdd(bpr, numRuns, RunsRead(next, d));
  }

  /** The pass loop of `externalMergeSort`, starting from the `numRuns` runs just below the
      id counter: while more than one run is left, one `MergePass` over them. */
  function Ladder(cfg: Config, numRuns: nat, st: Machine): (r: (nat, Machine))
    requires Valid(cfg) && cfg.m >= 3 && DiskInv(st) && numRuns <= st.tempCount
    ensures LadderDone(BlocksPerRun(cfg), cfg.m - 1, numRuns, st, r)
    decreases numRuns
  {
    if numRuns <= 1 then
      LadderBase(BlocksPerRun(cfg), cfg.m - 1, numRuns, st);
      (0, st)
    else
      var p := Pass(cfg, numRuns, st.tempCount - numRuns, st);
      PassShrinks(numRuns, cfg.m - 1);
      var rest := Ladder(cfg, |p.0|, p.1);
      LadderStep(BlocksPerRun(cfg), cfg.m - 1, numRuns, st, |p.0|, p, rest);
      (rest.0 + 1, rest.1)
  }

  /** What the sort reports: the sorted output and the three totals it prints. */
  datatype Report = Report(output: Run, passes: nat, seeks: nat, transfers: nat)

  /** `externalMergeSort`. It fails when there are several initial runs and a fan-in
      `m - 1` below two (the reference's pass loop would never end at `m = 2` and is
      undefined at `m = 1`), and when there is no run at all (`n = 0`: the reference
      renames the nonexistent `temp_run_-1.txt`). Otherwise the output is the keys read,
      sorted: a sorted permutation of them. It takes `ceil(log_(m-1) C)` passes for `C`
      initial runs, two seeks per run written, and on a complete input the formation
      charge plus `BlocksPerRun` blocks per run read in the passes, each counted for the
      read and again for the write. */
  function ExternalMergeSort(cfg: Config, input: seq<Key>): (r: Result<Report>)
    requires Valid(cfg) && cfg.m >= 1
    ensures r.Ok? <==> cfg.n > 0 && (cfg.m >= 3 || RunCount(cfg) <= 1)
    ensures r.Err? ==> r.error == if cfg.n == 0 then RenameFailed else NoMergeProgress
    ensures r.Ok? ==> r.value.output == SortRun(ReadKeys(cfg, input))
    ensures r.Ok? ==> Sorted(r.value.output) && multiset(r.value.output) == multiset(ReadKeys(cfg, input))
    ensures r.Ok? ==> r.value.passes == PassCount(RunCount(cfg), cfg.m - 1)
    ensures r.Ok? ==> r.value.seeks == 2 * RunCount(cfg) + 2 * RunsWritten(RunCount(cfg), cfg.m - 1)
    ensures r.Ok? && cfg.n <= |input| ==>
      r.value.transfers == 2 * FormationCharge(cfg) + 2 * (BlocksPerRun(cfg) * RunsRead(RunCount(cfg), cfg.m - 1))
    ensures r.Ok? ==>
      r.value.transfers == InitialRuns(cfg, input, Start).1.transfers + 2 * (BlocksPerRun(cfg) * RunsRead(RunCount(cfg), cfg.m - 1))
  {
    var formed := InitialRuns(cfg, input, Start);
    if |formed.0| > 1 && cfg.m < 3 then Err(NoMergeProgress)
    else
      var lad := if |formed.0| > 1 then Ladder(cfg, |formed.0|, formed.1) else (0, formed.1);
      FormedOutcome(cfg, input, lad);
      match Promote(lad.1)
      case Err(e) => Err(e)
      case Ok(out) => Ok(Report(out, lad.0, lad.1.seeks, lad.1.transfers))
  }

  /** The outcome of `externalMergeSort` from the initial runs and the pass loop's result. */
  lemma FormedOutcome(cfg: Config, input: seq<Key>, lad: (nat, Machine))
    requires Valid(cfg) && cfg.m >= 1
    requires |InitialRuns(cfg, input, Start).0| <= 1 ==> lad == (0, InitialRuns(cfg, input, Start).1)
    requires |InitialRuns(cfg, input, Start).0| > 1 ==>
      && cfg.m >= 3
      && LadderDone(BlocksPerRun(cfg), cfg.m - 1, |InitialRuns(cfg, input, Start).0|, InitialRuns(cfg, input, Start).1, lad)
    ensures lad.0 == PassCount(RunCount(cfg), cfg.m - 1)
    ensures lad.1.seeks == 2 * RunCount(cfg) + 2 * RunsWritten(RunCount(cfg), cfg.m - 1)
    ensures lad.1.transfers == InitialRuns(cfg, input, Start).1.transfers + 2 * (BlocksPerRun(cfg) * RunsRead(RunCount(cfg), cfg.m - 1))
    ensures Promote(lad.1).Ok? <==> cfg.n > 0
    ensures cfg.n > 0 ==> Final(lad.1) == SortRun(ReadKeys(cfg, input))
  {
    var formed := InitialRuns(cfg, input, Start);
    SortOutcome(cfg.n, ReadKeys(cfg, input), formed.0, formed.1, BlocksPerRun(cfg), cfg.m - 1, lad);
  }

  /** After the pass loop, whether or not it had anything to merge: the totals, and a last
      file that is the sorted keys read and exists exactly when some key was wanted. */
  lemma SortOutcome(n: nat, keys: seq<Key>, runs: seq<Run>, st: Machine, bpr: nat, d: nat, lad: (nat, Machine))
    requires DiskInv(st) && st.tempCount == |runs| && Live(st.disk, 0, |runs|) == runs
    requires multiset(Flatten(runs)) == multiset(keys) && AllSorted(runs)
    requires n == 0 ==> runs == []
    requires n > 0 ==> |runs| >= 1
    requires |runs| <= 1 ==> lad == (0, st)
    requires |runs| > 1 ==> d >= 2 && LadderDone(bpr, d, |runs|, st, lad)
    ensures lad.0 == PassCount(|runs|, d)
    ensures lad.1.seeks == st.seeks + 2 * RunsWritten(|runs|, d)
    ensures lad.1.transfers == st.transfers + 2 * (bpr * RunsRead(|runs|, d))
    ensures Promote(lad.1).Ok? <==> n > 0
    ensures n > 0 ==> Final(lad.1) == SortRun(keys)
  {
    if |runs| == 1 {
      LadderBase(0, 0, 1, st);
    }
    if n > 0 {
      SortedPermutationUnique(Final(lad.1), SortRun(keys));
    }
  }

  /** Sorting the output again, with `n` its length, gives it back unchanged. */
  lemma SortIdempotent(cfg: Config, input: seq<Key>, cfg2: Config)
    requires Valid(cfg) && cfg.m >= 1 && ExternalMergeSort(cfg, input).Ok?
    requires Valid(cfg2) && cfg2.m >= 1 && cfg2.n == |ExternalMergeSort(cfg, input).value.output|
    requires ExternalMergeSort(cfg2, ExternalMergeSort(cfg, input).value.output).Ok?
    ensures ExternalMergeSort(cfg2, ExternalMergeSort(cfg, input).value.output).value.output
            == ExternalMergeSort(cfg, input).value.output
  {
    SortSortedKeys(cfg2, ExternalMergeSort(cfg, input).value.output);
  }

  /** Reading all of an already sorted input and sorting it gives it back. */
  lemma SortSortedKeys(cfg: Config, keys: seq<Key>)
    requires Valid(cfg) && cfg.n == |keys| && Sorted(keys)
    ensures SortRun(ReadKeys(cfg, keys)) == keys
  {
    assert ReadKeys(cfg, keys) == keys;
    SortRunOfSorted(keys);
  }
}
