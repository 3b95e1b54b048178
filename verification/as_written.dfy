/** The pass loop as the reference writes it, for `m >= 3`. With a smaller `m` and more than
    one run the reference's pass loop never ends (`m = 2`) or is undefined (`m = 1`), and the
    model reports no progress as the corrected sort does. `mergePass` starts every pass with
    `current_run = 0`, so every pass reads the files from id 0 on, which are the initial
    runs; only the first pass's inputs are at those ids. Passes two and later therefore
    merge initial runs again instead of the runs the previous pass wrote, and when there is
    more than one pass the output keeps only the keys of the first few initial runs.

    The cost totals come out the same as in the corrected loop of `ExternalSort`, because
    the counts of runs read and written do not depend on which files are read. */
module AsWritten {
  import opened Arith
  import opened Runs
  import opened Configuration
  import opened Disk
  import opened Chunks
  import opened Passes
  import opened Formation
  import opened ExternalSort

  /** The runs that enter the last pass, starting from `numRuns` runs with fan-in `d`: the
      count after which one more pass leaves a single run. */
  function LastBatch(numRuns: nat, d: nat): (last: nat)
    requires numRuns <= 1 || d >= 2
    ensures numRuns <= 1 ==> last == numRuns
    ensures numRuns > 1 ==> 1 < last <= numRuns && last <= d
    decreases numRuns
  {
    if numRuns <= 1 then numRuns
    else
      PassShrinks(numRuns, d);
      var next := CeilDiv(numRuns, d);
      if next <= 1 then
        LastFitsOneBatch(numRuns, d);
        numRuns
      else LastBatch(next, d)
  }

  /** Runs that one pass merges into a single run are at most `d`. */
  lemma LastFitsOneBatch(numRuns: nat, d: nat)
    requires d >= 1 && CeilDiv(numRuns, d) <= 1
    ensures numRuns <= d
  {
    var q := CeilDiv(numRuns, d);
    if q == 0 {
      assert q * d == 0;
    } else {
      assert q * d == d;
    }
  }

  /** What the as-written pass loop leaves behind from `numRuns` runs at ids `0 ..` of `st`:
      the same counts as the corrected loop (`LadderDone`), no change at all for at most one
      run, and otherwise a last file holding exactly the keys of the files
      `0 .. LastBatch - 1` of `st`, sorted if those were. */
  ghost predicate AsWrittenDone(bpr: nat, d: nat, numRuns: nat, st: Machine, r: (nat, Machine))
    requires numRuns <= 1 || d >= 2
    requires DiskInv(st) && numRuns <= st.tempCount
  {
    && DiskInv(r.1) && Extends(st, r.1)
    && r.0 == PassCount(numRuns, d)
    && r.1.tempCount == st.tempCount + RunsWritten(numRuns, d)
    && r.1.seeks == st.seeks + 2 * RunsWritten(numRuns, d)
    && r.1.transfers == st.transfers + 2 * (bpr * RunsRead(numRuns, d))
    && (numRuns <= 1 ==> r == (0, st))
    && (numRuns > 1 ==>
          && r.1.tempCount >= 1
          && multiset(Final(r.1)) == multiset(Flatten(Live(st.disk, 0, LastBatch(numRuns, d))))
          && (AllSorted(Live(st.disk, 0, LastBatch(numRuns, d))) ==> Sorted(Final(r.1))))
  }

  /** The loop of `externalMergeSort` over the reference's `mergePass`: each pass reads the
      files from id 0. */
  function AsWrittenLadder(cfg: Config, numRuns: nat, st: Machine): (r: (nat, Machine))
    requires Valid(cfg) && cfg.m >= 3 && DiskInv(st) && numRuns <= st.tempCount
    ensures AsWrittenDone(BlocksPerRun(cfg), cfg.m - 1, numRuns, st, r)
    decreases numRuns
  {
    if numRuns <= 1 then (0, st)
    else
      var p := Pass(cfg, numRuns, 0, st);
      PassShrinks(numRuns, cfg.m - 1);
      var rest := AsWrittenLadder(cfg, |p.0|, p.1);
      AsWrittenStep(BlocksPerRun(cfg), cfg.m - 1, numRuns, st, |p.0|, p, rest);
      (rest.0 + 1, rest.1)
  }

  /** One as-written pass, then the as-written loop on what it left. */
  lemma AsWrittenStep(bpr: nat, d: nat, numRuns: nat, st: Machine, next: nat,
                      p: (seq<Run>, Machine), rest: (nat, Machine))
    requires d >= 2 && DiskInv(st) && 1 < numRuns <= st.tempCount
    requires PassResult(bpr, d, numRuns, 0, st, p)
    requires next == |p.0| && next <= p.1.tempCount
    requires AsWrittenDone(bpr, d, next, p.1, rest)
    ensures AsWrittenDone(bpr, d, numRuns, st, (rest.0 + 1, rest.1))
  {
    PassShrinks(numRuns, d);
    ExtendsTrans(st, p.1, rest.1);
    LadderCounts(bpr, d, numRuns, next, st, p.1, rest.1);
    if next <= 1 {
      LastPass(bpr, d, numRuns, st, p, rest.1);
    } else {
      var last := LastBatch(next, d);
      LiveFrame(st, p.1, 0, last);
    }
  }

  /** A pass that leaves a single run: that run is the last file, and it holds the keys of
      all `numRuns` runs the pass read. */
  lemma LastPass(bpr: nat, d: nat, numRuns: nat, st: Machine, p: (seq<Run>, Machine), fin: Machine)
    requires d >= 2 && DiskInv(st) && 1 < numRuns <= st.tempCount
    requires PassResult(bpr, d, numRuns, 0, st, p)
    requires |p.0| <= 1 && fin == p.1
    ensures fin.tempCount >= 1 && DiskInv(fin)
    ensures LastBatch(numRuns, d) == numRuns
    ensures multiset(Final(fin)) == multiset(Flatten(Live(st.disk, 0, numRuns)))
    ensures AllSorted(Live(st.disk, 0, numRuns)) ==> Sorted(Final(fin))
  {
    PassShrinks(numRuns, d);
    assert |p.0| == 1;
    assert Live(p.1.disk, st.tempCount, 1) == p.0;
    assert Final(fin) == p.0[0];
    assert p.0 == [p.0[0]] + [];
    FlattenCons(p.0[0], []);
  }

  /** The keys the as-written loop keeps of `runs` at ids `0 ..` with fan-in `d`: those of
      the first `LastBatch` runs. */
  function KeptKeys(runs: seq<Run>, d: nat): seq<Key>
    requires |runs| <= 1 || d >= 2
  {
    Flatten(runs[..LastBatch(|runs|, d)])
  }

  /** The keys of the initial runs that the as-written loop keeps. */
  function InitialKept(cfg: Config, input: seq<Key>): seq<Key>
    requires Valid(cfg) && cfg.m >= 1 && (RunCount(cfg) <= 1 || cfg.m >= 3)
  {
    KeptKeys(InitialRuns(cfg, input, Start).0, cfg.m - 1)
  }

  /** `externalMergeSort` with the reference's `mergePass`. It fails exactly when the
      corrected sort does, with the same totals. For `m < 3` with more than one run, where the
      reference's pass loop never ends (`m = 2`) or is undefined (`m = 1`), both report no
      progress. With at most one initial run the output is the sorted keys, and otherwise it
      is a sorted run of exactly the keys of the first `LastBatch` initial runs. */
  function AsWrittenSort(cfg: Config, input: seq<Key>): (r: Result<Report>)
    requires Valid(cfg) && cfg.m >= 1
    ensures r.Ok? <==> cfg.n > 0 && (cfg.m >= 3 || RunCount(cfg) <= 1)
    ensures r.Err? ==> r.error == if cfg.n == 0 then RenameFailed else NoMergeProgress
    ensures r.Ok? ==> r.value.passes == PassCount(RunCount(cfg), cfg.m - 1)
    ensures r.Ok? ==> r.value.seeks == 2 * RunCount(cfg) + 2 * RunsWritten(RunCount(cfg), cfg.m - 1)
    ensures r.Ok? && cfg.n <= |input| ==>
      r.value.transfers == 2 * FormationCharge(cfg) + 2 * (BlocksPerRun(cfg) * RunsRead(RunCount(cfg), cfg.m - 1))
    ensures r.Ok? ==> Sorted(r.value.output)
    ensures r.Ok? && RunCount(cfg) <= 1 ==> multiset(r.value.output) == multiset(ReadKeys(cfg, input))
    ensures r.Ok? && RunCount(cfg) > 1 ==>
      multiset(r.value.output)
      == multiset(InitialKept(cfg, input))
    ensures r.Ok? ==>
      r.value.transfers == InitialRuns(cfg, input, Start).1.transfers + 2 * (BlocksPerRun(cfg) * RunsRead(RunCount(cfg), cfg.m - 1))
  {
    var formed := InitialRuns(cfg, input, Start);
    if |formed.0| > 1 && cfg.m < 3 then Err(NoMergeProgress)
    else
      var lad := if |formed.0| > 1 then AsWrittenLadder(cfg, |formed.0|, formed.1) else (0, formed.1);
      AsWrittenFormedOutcome(cfg, input, lad);
      match Promote(lad.1)
      case Err(e) => Err(e)
      case Ok(out) => Ok(Report(out, lad.0, lad.1.seeks, lad.1.transfers))
  }

  /** The outcome of the as-written sort from the initial runs and its pass loop's result. */
  lemma AsWrittenFormedOutcome(cfg: Config, input: seq<Key>, lad: (nat, Machine))
    requires Valid(cfg) && cfg.m >= 1
    requires |InitialRuns(cfg, input, Start).0| <= 1 ==> lad == (0, InitialRuns(cfg, input, Start).1)
    requires |InitialRuns(cfg, input, Start).0| > 1 ==>
      && cfg.m >= 3
      && AsWrittenDone(BlocksPerRun(cfg), cfg.m - 1, |InitialRuns(cfg, input, Start).0|, InitialRuns(cfg, input, Start).1, lad)
    ensures lad.0 == PassCount(RunCount(cfg), cfg.m - 1)
    ensures lad.1.seeks == 2 * RunCount(cfg) + 2 * RunsWritten(RunCount(cfg), cfg.m - 1)
    ensures lad.1.transfers == InitialRuns(cfg, input, Start).1.transfers + 2 * (BlocksPerRun(cfg) * RunsRead(RunCount(cfg), cfg.m - 1))
    ensures Promote(lad.1).Ok? <==> cfg.n > 0
    ensures cfg.n > 0 ==> Sorted(Final(lad.1))
    ensures cfg.n > 0 && RunCount(cfg) <= 1 ==> multiset(Final(lad.1)) == multiset(ReadKeys(cfg, input))
    ensures RunCount(cfg) > 1 ==> multiset(Final(lad.1)) == multiset(InitialKept(cfg, input))
  {
    var formed := InitialRuns(cfg, input, Start);
    AsWrittenOutcome(cfg.n, ReadKeys(cfg, input), formed.0, formed.1, BlocksPerRun(cfg), cfg.m - 1, lad);
  }

  /** After the as-written loop: the totals, and what the last file holds. */
  lemma AsWrittenOutcome(n: nat, keys: seq<Key>, runs: seq<Run>, st: Machine, bpr: nat, d: nat, lad: (nat, Machine))
    requires DiskInv(st) && st.tempCount == |runs| && Live(st.disk, 0, |runs|) == runs
    requires multiset(Flatten(runs)) == multiset(keys) && AllSorted(runs)
    requires n == 0 ==> runs == []
    requires n > 0 ==> |runs| >= 1
    requires |runs| <= 1 ==> lad == (0, st)
    requires |runs| > 1 ==> d >= 2 && AsWrittenDone(bpr, d, |runs|, st, lad)
    ensures lad.0 == PassCount(|runs|, d)
    ensures lad.1.seeks == st.seeks + 2 * RunsWritten(|runs|, d)
    ensures lad.1.transfers == st.transfers + 2 * (bpr * RunsRead(|runs|, d))
    ensures Promote(lad.1).Ok? <==> n > 0
    ensures n > 0 ==> Sorted(Final(lad.1))
    ensures 0 < |runs| <= 1 ==> multiset(Final(lad.1)) == multiset(keys)
    ensures |runs| > 1 ==> multiset(Final(lad.1)) == multiset(KeptKeys(runs, d))
  {
    if |runs| == 1 {
      LadderBase(0, 0, 1, st);
    } else if |runs| > 1 {
      var last := LastBatch(|runs|, d);
      LiveSplitAt(st.disk, 0, last, |runs|);
      assert Live(st.disk, 0, last) == runs[..last];
      AllSortedPrefix(runs, last);
    }
  }

  lemma AllSortedPrefix(runs: seq<Run>, k: nat)
    requires AllSorted(runs) && k <= |runs|
    ensures AllSorted(runs[..k])
  {
    assert forall i :: 0 <= i < k ==> runs[..k][i] == runs[i];
  }

  /** With at most `m - 1` initial runs there is at most one pass, it reads the right files,
      and the reference's result is the corrected one. */
  lemma AsWrittenAgreesOnOnePass(cfg: Config, input: seq<Key>)
    requires Valid(cfg) && cfg.m >= 1
    requires RunCount(cfg) <= 1 || (cfg.m >= 3 && RunCount(cfg) <= cfg.m - 1)
    ensures AsWrittenSort(cfg, input) == ExternalMergeSort(cfg, input)
  {
    if RunCount(cfg) > 1 {
      FormedLaddersAgree(cfg, input);
    }
  }

  /** `LaddersAgree` on the runs the formation phase leaves. */
  lemma FormedLaddersAgree(cfg: Config, input: seq<Key>)
    requires Valid(cfg) && cfg.m >= 3 && 1 < RunCount(cfg) <= cfg.m - 1
    ensures var formed := InitialRuns(cfg, input, Start);
      AsWrittenLadder(cfg, |formed.0|, formed.1) == Ladder(cfg, |formed.0|, formed.1)
  {
    var formed := InitialRuns(cfg, input, Start);
    LaddersAgree(cfg, |formed.0|, formed.1);
  }

  /** From the runs at ids `0 .. numRuns - 1` with at most `m - 1` of them, the as-written
      loop and the corrected one do the same single pass. */
  lemma LaddersAgree(cfg: Config, numRuns: nat, st: Machine)
    requires Valid(cfg) && cfg.m >= 3 && DiskInv(st) && numRuns == st.tempCount
    requires 1 < numRuns <= cfg.m - 1
    ensures AsWrittenLadder(cfg, numRuns, st) == Ladder(cfg, numRuns, st)
  {
    CeilDivSmall(numRuns, cfg.m - 1);
    var p := Pass(cfg, numRuns, 0, st);
    assert |p.0| == 1;
  }

  /** With two passes or more the reference loses keys: on an input holding the `n` keys
      wanted, the corrected sort outputs all `n` of them and the reference fewer. The last
      pass merges only the first `LastBatch` initial runs, and the last initial run, which
      is not among them, holds at least one key. */
  lemma AsWrittenLosesKeys(cfg: Config, input: seq<Key>)
    requires Valid(cfg) && cfg.m >= 3 && cfg.n <= |input|
    requires PassCount(RunCount(cfg), cfg.m - 1) >= 2
    ensures AsWrittenSort(cfg, input).Ok? && ExternalMergeSort(cfg, input).Ok?
    ensures |ExternalMergeSort(cfg, input).value.output| == cfg.n
    ensures |AsWrittenSort(cfg, input).value.output| < cfg.n
  {
    TwoPassesSkipRuns(RunCount(cfg), cfg.m - 1);
    KeysWanted(cfg);
    AsWrittenOutputShort(cfg, input);
    CorrectOutputComplete(cfg, input);
  }

  lemma AsWrittenOutputShort(cfg: Config, input: seq<Key>)
    requires Valid(cfg) && cfg.m >= 3 && 0 < cfg.n <= |input|
    requires RunCount(cfg) > 1 && LastBatch(RunCount(cfg), cfg.m - 1) < RunCount(cfg)
    ensures AsWrittenSort(cfg, input).Ok?
    ensures |AsWrittenSort(cfg, input).value.output| < cfg.n
  {
    InitialKeptFewer(cfg, input);
    PermutationLength(AsWrittenSort(cfg, input).value.output, InitialKept(cfg, input));
  }

  lemma CorrectOutputComplete(cfg: Config, input: seq<Key>)
    requires Valid(cfg) && cfg.m >= 3 && 0 < cfg.n <= |input|
    ensures ExternalMergeSort(cfg, input).Ok?
    ensures |ExternalMergeSort(cfg, input).value.output| == cfg.n
  {
    PermutationLength(ExternalMergeSort(cfg, input).value.output, ReadKeys(cfg, input));
  }

  lemma InitialKeptFewer(cfg: Config, input: seq<Key>)
    requires Valid(cfg) && cfg.m >= 3 && cfg.n <= |input|
    requires RunCount(cfg) > 1 && LastBatch(RunCount(cfg), cfg.m - 1) < RunCount(cfg)
    ensures |InitialKept(cfg, input)| < cfg.n
  {
    MemoryKeysAtLeastM(cfg);
    KeptFewer(InitialRuns(cfg, input, Start).0, ReadKeys(cfg, input), cfg.memoryKeys, cfg.m - 1);
  }

  /** With at least two passes, the runs the as-written loop keeps of the initial runs of
      a complete input hold fewer keys than were read. */
  lemma KeptFewer(runs: seq<Run>, keys: seq<Key>, mk: nat, d: nat)
    requires mk >= 1 && d >= 2 && |runs| == CeilDiv(|keys|, mk) && |runs| > 1
    requires runs == SortEach(Batches(keys, mk)) + Empties(|runs| - CeilDiv(|keys|, mk))
    requires multiset(Flatten(runs)) == multiset(keys)
    requires LastBatch(|runs|, d) < |runs|
    ensures |KeptKeys(runs, d)| < |keys|
  {
    LastRunHoldsKeys(keys, mk, runs);
    DroppedKeys(runs, keys, LastBatch(|runs|, d));
  }

  /** With at least two passes, the last pass reads fewer runs than there are initial runs. */
  lemma TwoPassesSkipRuns(c: nat, d: nat)
    requires d >= 2 && PassCount(c, d) >= 2
    ensures c > 1 && LastBatch(c, d) < c
  {
    PassShrinks(c, d);
    var next := CeilDiv(c, d);
    assert next > 1;
  }

  /** More than one initial run means some key is wanted. */
  lemma KeysWanted(cfg: Config)
    requires Valid(cfg) && cfg.m >= 1 && RunCount(cfg) > 1
    ensures cfg.n > 0
  {
    MemoryKeysAtLeastM(cfg);
    if cfg.n == 0 {
      CeilDivZero(cfg.memoryKeys);
    }
  }

  /** When all wanted keys are read, the last initial run is a sorted chunk, not an empty
      run, and so holds at least one key. */
  lemma LastRunHoldsKeys(keys: seq<Key>, mk: nat, runs: seq<Run>)
    requires mk >= 1 && |runs| == CeilDiv(|keys|, mk) && |runs| >= 1
    requires runs == SortEach(Batches(keys, mk)) + Empties(|runs| - CeilDiv(|keys|, mk))
    ensures runs[|runs| - 1] != []
  {
    var cs := Batches(keys, mk);
    BatchesCount(keys, mk);
    assert runs == SortEach(cs);
    SortEachIndex(cs, |runs| - 1);
    BatchSizes(keys, mk, |runs| - 1);
    SortRunLength(cs[|runs| - 1]);
  }

  /** The runs before `last` miss the keys of the last run. */
  lemma DroppedKeys(runs: seq<Run>, keys: seq<Key>, last: nat)
    requires last < |runs| && runs[|runs| - 1] != []
    requires multiset(Flatten(runs)) == multiset(keys)
    ensures |Flatten(runs[..last])| < |keys|
  {
    var tail := runs[last..];
    assert runs == runs[..last] + tail;
    FlattenAppend(runs[..last], tail);
    FlattenSplit(tail, |tail| - 1);
    assert |keys| == |multiset(keys)| == |Flatten(runs)|;
  }

  /** The configuration `n = 7, k = 1, b = 1, m = 3`: one key per block and three keys in
      memory, so three initial runs merged two at a time in two passes. On any input of at
      least seven keys, `[0, 0, 0, 0, 0, 0, 1]` say, the reference therefore outputs fewer
      than seven keys: the second pass merges files 0 and 1 again. */
  const Small: Config := Config(7, 1, 1, 3, 1, 3)

  lemma SmallTakesTwoPasses()
    ensures NewSorter(7, 1, 1, 3) == Ok(Small)
    ensures Valid(Small) && Small.m >= 3 && RunCount(Small) == 3
    ensures PassCount(RunCount(Small), Small.m - 1) == 2
  {
    assert TruncDiv(3 * 1, 1) == 3;
    MemoryKeysAtLeastM(Small);
    CeilDivUnique(7, 3, 3);
    CeilDivUnique(3, 2, 2);
    CeilDivSmall(2, 2);
    assert PassCount(1, 2) == 0;
    assert PassCount(2, 2) == 1;
  }

  /** Under `Small`, any input of seven keys or more loses keys in the reference and keeps
      all seven in the corrected sort. */
  lemma SmallLosesKeys(input: seq<Key>)
    requires |input| >= 7
    ensures AsWrittenSort(Small, input).Ok? && ExternalMergeSort(Small, input).Ok?
    ensures |AsWrittenSort(Small, input).value.output| < 7
    ensures |ExternalMergeSort(Small, input).value.output| == 7
  {
    SmallTakesTwoPasses();
    AsWrittenLosesKeys(Small, input);
  }
}
