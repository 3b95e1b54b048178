/** The initial sorted-run phase (`initialRuns`).

    The input file is read as a stream: each of the `ceil(n / memory_keys)` rounds wants
    `min(memory_keys, n - keys_processed)` keys, takes what the stream still has, sorts the
    chunk in memory and writes it to the next temporary run file. The stream is the rest of
    the input file and `budget` is `n - keys_processed`; `FormChunksTruncate` shows that no
    round reads past the `n`-th key. The cost charged for a round depends on the keys
    wanted, not on the keys the stream delivered. */
module Formation {
  import opened Arith
  import opened Runs
  import opened Configuration
  import opened Disk
  import opened Chunks

  /** Every chunk sorted on its own. */
  function SortEach(chunks: seq<Run>): (rs: seq<Run>)
    ensures |rs| == |chunks|
  {
    if chunks == [] then [] else [SortRun(chunks[0])] + SortEach(chunks[1..])
  }

  /** `c` empty runs (none when `c` is not positive): the files written by the rounds that
      find the input stream already exhausted. */
  function Empties(c: int): (rs: seq<Run>)
    ensures |rs| == if c <= 0 then 0 else c
    decreases c
  {
    if c <= 0 then [] else [[]] + Empties(c - 1)
  }

  /** How many keys one round takes from the stream `stream` when it wants `min(mk, budget)`:
      all of them, unless the stream runs out first. */
  function Got(mk: nat, budget: nat, stream: seq<Key>): (got: nat)
    ensures got <= |stream| && got <= budget && got <= mk
    ensures got == Min(mk, budget) || got == |stream|
  {
    Min(Min(mk, budget), |stream|)
  }

  /** The keys each of the remaining `rounds` rounds takes from the stream, in order. */
  function FormChunks(mk: nat, budget: nat, stream: seq<Key>, rounds: nat): (cs: seq<Run>)
    ensures |cs| == rounds
    decreases rounds
  {
    if rounds == 0 then []
    else
      var got := Got(mk, budget, stream);
      [stream[..got]] + FormChunks(mk, budget - got, stream[got..], rounds - 1)
  }

  /** The blocks the remaining `rounds` rounds charge, each `ceil(min(mk, budget) / kpb)`. */
  function FormBlocks(mk: nat, kpb: nat, budget: nat, stream: seq<Key>, rounds: nat): nat
    requires kpb >= 1
    decreases rounds
  {
    if rounds == 0 then 0
    else
      var got := Got(mk, budget, stream);
      CeilDiv(Min(mk, budget), kpb) + FormBlocks(mk, kpb, budget - got, stream[got..], rounds - 1)
  }

  /** One round of `FormChunks`. */
  lemma FormChunksUnfold(mk: nat, budget: nat, stream: seq<Key>, rounds: nat, got: nat,
                         budget2: nat, next: seq<Key>, rounds2: nat, more: seq<Run>)
    requires rounds > 0 && got == Got(mk, budget, stream)
    requires budget2 == budget - got && next == stream[got..] && rounds2 == rounds - 1
    requires more == FormChunks(mk, budget2, next, rounds2)
    ensures FormChunks(mk, budget, stream, rounds) == [stream[..got]] + more
  {
  }

  /** One round of `FormBlocks`. */
  lemma FormBlocksUnfold(mk: nat, kpb: nat, budget: nat, stream: seq<Key>, rounds: nat, got: nat,
                         budget2: nat, next: seq<Key>, rounds2: nat, more: nat)
    requires kpb >= 1 && rounds > 0 && got == Got(mk, budget, stream)
    requires budget2 == budget - got && next == stream[got..] && rounds2 == rounds - 1
    requires more == FormBlocks(mk, kpb, budget2, next, rounds2)
    ensures FormBlocks(mk, kpb, budget, stream, rounds) == CeilDiv(Min(mk, budget), kpb) + more
  {
  }

  /** The blocks charged for the first `n` keys of an input that holds them all, in chunks
      of `mk`. */
  function ChunkBlocks(mk: nat, kpb: nat, n: nat): nat
    requires mk >= 1 && kpb >= 1
    decreases n
  {
    if n == 0 then 0 else CeilDiv(Min(mk, n), kpb) + ChunkBlocks(mk, kpb, n - Min(mk, n))
  }

  /** The closed form of the formation charge: `n / mk` full chunks of `ceil(mk / kpb)` blocks
      and one partial chunk of `ceil((n % mk) / kpb)` blocks. */
  lemma {:induction false} ChunkBlocksClosed(mk: nat, kpb: nat, n: nat)
    requires mk >= 1 && kpb >= 1
    ensures ChunkBlocks(mk, kpb, n) == (n / mk) * CeilDiv(mk, kpb) + CeilDiv(n % mk, kpb)
    decreases n
  {
    if n == 0 {
      CeilDivZero(kpb);
      DivSmall(0, mk);
    } else if n < mk {
      DivSmall(n, mk);
      CeilDivZero(kpb);
      assert ChunkBlocks(mk, kpb, n) == CeilDiv(n, kpb) + ChunkBlocks(mk, kpb, 0);
    } else {
      var full := CeilDiv(mk, kpb);
      assert ChunkBlocks(mk, kpb, n) == full + ChunkBlocks(mk, kpb, n - mk);
      ChunkBlocksClosed(mk, kpb, n - mk);
      DivStep(n, mk);
      MulSucc((n - mk) / mk, full);
    }
  }

  /** On a stream holding every wanted key, the rounds charge exactly `ChunkBlocks`, provided
      there are enough rounds to want them all. */
  lemma {:induction false} FormBlocksComplete(mk: nat, kpb: nat, budget: nat, stream: seq<Key>, rounds: nat)
    requires mk >= 1 && kpb >= 1
    requires budget <= |stream| && CeilDiv(budget, mk) <= rounds
    ensures FormBlocks(mk, kpb, budget, stream, rounds) == ChunkBlocks(mk, kpb, budget)
    decreases rounds
  {
    if rounds > 0 {
      var got := Got(mk, budget, stream);
      var budget2: nat, next, rounds2: nat := budget - got, stream[got..], rounds - 1;
      RoundsLeft(mk, budget, got, rounds);
      FormBlocksComplete(mk, kpb, budget2, next, rounds2);
      var more := FormBlocks(mk, kpb, budget2, next, rounds2);
      FormBlocksUnfold(mk, kpb, budget, stream, rounds, got, budget2, next, rounds2, more);
      ChunkBlocksUnfold(mk, kpb, budget, got, budget2);
    }
  }

  /** A round that takes `min(mk, budget)` keys leaves enough rounds for the rest. */
  lemma RoundsLeft(mk: nat, budget: nat, got: nat, rounds: nat)
    requires mk >= 1 && got == Min(mk, budget) && CeilDiv(budget, mk) <= rounds && rounds > 0
    ensures CeilDiv(budget - got, mk) <= rounds - 1
  {
    if budget <= mk {
      CeilDivZero(mk);
    } else {
      CeilDivStep(budget, mk);
    }
  }

  lemma ChunkBlocksUnfold(mk: nat, kpb: nat, budget: nat, got: nat, budget2: nat)
    requires mk >= 1 && kpb >= 1 && got == Min(mk, budget) && budget2 == budget - got
    ensures ChunkBlocks(mk, kpb, budget) == CeilDiv(got, kpb) + ChunkBlocks(mk, kpb, budget2)
  {
    if budget == 0 {
      CeilDivZero(kpb);
    }
  }

  /** Round by round, the rounds take the keys the stream still holds in chunks of `mk`,
      then nothing once it is exhausted. */
  lemma {:induction false} FormChunksBatches(mk: nat, budget: nat, stream: seq<Key>, rounds: nat)
    requires mk >= 1 && |stream| <= budget
    requires |Batches(stream, mk)| <= rounds
    ensures FormChunks(mk, budget, stream, rounds)
            == Batches(stream, mk) + Empties(rounds - |Batches(stream, mk)|)
    decreases rounds
  {
    if rounds > 0 {
      var got := Got(mk, budget, stream);
      var budget2: nat, next, rounds2: nat := budget - got, stream[got..], rounds - 1;
      BatchesDrop(mk, budget, stream, got, next);
      FormChunksBatches(mk, budget2, next, rounds2);
      var more := FormChunks(mk, budget2, next, rounds2);
      FormChunksUnfold(mk, budget, stream, rounds, got, budget2, next, rounds2, more);
      BatchesStep(mk, stream, got, next, rounds, rounds2, more);
    } else {
      assert Batches(stream, mk) == [];
    }
  }

  /** The step of `FormChunksBatches`: the chunk taken, then the rest of the stream's
      batches and the empty chunks after them. */
  lemma BatchesStep(mk: nat, stream: seq<Key>, got: nat, next: seq<Key>, rounds: nat, rounds2: nat,
                    more: seq<Run>)
    requires mk >= 1 && rounds2 == rounds - 1 && got <= |stream| && next == stream[got..]
    requires stream == [] ==> stream[..got] == [] && Batches(stream, mk) == [] && Batches(next, mk) == []
    requires stream != [] ==> Batches(stream, mk) == [stream[..got]] + Batches(next, mk)
    requires more == Batches(next, mk) + Empties(rounds2 - |Batches(next, mk)|)
    ensures [stream[..got]] + more == Batches(stream, mk) + Empties(rounds - |Batches(stream, mk)|)
  {
    var tail := Empties(rounds2 - |Batches(next, mk)|);
    if stream == [] {
      EmptiesCons(rounds, stream[..got], tail);
    } else {
      assert rounds - |Batches(stream, mk)| == rounds2 - |Batches(next, mk)|;
      ConsAppend(stream[..got], Batches(next, mk), tail);
    }
  }

  /** Taking one chunk off the stream leaves one batch fewer (none of none). */
  lemma BatchesDrop(mk: nat, budget: nat, stream: seq<Key>, got: nat, next: seq<Key>)
    requires mk >= 1 && |stream| <= budget && got == Got(mk, budget, stream) && next == stream[got..]
    ensures stream == [] ==> stream[..got] == [] && Batches(stream, mk) == [] && Batches(next, mk) == []
    ensures stream != [] ==> Batches(stream, mk) == [stream[..got]] + Batches(next, mk)
    ensures |next| <= budget - got
  {
    if stream == [] {
      assert next == [];
    } else {
      assert got == Min(mk, |stream|);
    }
  }

  lemma EmptiesCons(c: int, e: Run, tail: seq<Run>)
    requires c >= 1 && e == [] && tail == Empties(c - 1)
    ensures [e] + tail == Empties(c)
  {
  }

  lemma ConsAppend<T>(x: T, xs: seq<T>, ys: seq<T>)
    ensures ([x] + xs) + ys == [x] + (xs + ys)
  {
  }

  /** What one round leaves behind as `c`: the sorted chunk it took written to the next id,
      older files untouched, two seeks, and a read and a write of
      `ceil(min(mk, budget) / kpb)` blocks. */
  ghost predicate ChunkDone(mk: nat, kpb: nat, budget: nat, stream: seq<Key>, st: Machine,
                            c: (Run, Machine))
    requires kpb >= 1 && DiskInv(st)
  {
    && c.0 == SortRun(stream[..Got(mk, budget, stream)])
    && DiskInv(c.1) && Extends(st, c.1)
    && c.1.tempCount == st.tempCount + 1
    && c.1.disk[st.tempCount] == c.0
    && c.1.seeks == st.seeks + 2
    && c.1.transfers == st.transfers + 2 * CeilDiv(Min(mk, budget), kpb)
  }

  /** One round of `initialRuns`: read, sort, allocate a file name, write. */
  function FormChunk(mk: nat, kpb: nat, budget: nat, stream: seq<Key>, st: Machine): (c: (Run, Machine))
    requires kpb >= 1 && DiskInv(st)
    ensures ChunkDone(mk, kpb, budget, stream, st, c)
  {
    var blocks := CeilDiv(Min(mk, budget), kpb);
    var st1 := DiskRead(st, blocks);
    var run := SortRun(stream[..Got(mk, budget, stream)]);
    var (id, st2) := NewTempId(st1);
    var st3 := WriteRun(st2, id, run);
    NewFileKeepsInv(st1, run);
    (run, DiskWrite(st3, blocks))
  }

  /** What the remaining `rounds` rounds leave behind as `r`: the sorted chunks at the next
      `rounds` ids, older files untouched, two seeks and `2 * FormBlocks` transfers. */
  ghost predicate FormDone(mk: nat, kpb: nat, budget: nat, stream: seq<Key>, rounds: nat,
                           st: Machine, r: (seq<Run>, Machine))
    requires kpb >= 1 && DiskInv(st)
  {
    && DiskInv(r.1) && Extends(st, r.1)
    && r.1.tempCount == st.tempCount + rounds
    && |r.0| == rounds
    && r.1.seeks == st.seeks + 2 * rounds
    && r.1.transfers == st.transfers + 2 * FormBlocks(mk, kpb, budget, stream, rounds)
    && Live(r.1.disk, st.tempCount, rounds) == r.0
    && r.0 == SortEach(FormChunks(mk, budget, stream, rounds))
  }

  /** The inductive step of the formation phase: one round `c`, then the remaining rounds as
      `more`, add up to what the rounds still had to do. */
  lemma FormStep(mk: nat, kpb: nat, budget: nat, stream: seq<Key>, rounds: nat, st: Machine,
                 got: nat, budget2: nat, next: seq<Key>, rounds2: nat,
                 c: (Run, Machine), more: (seq<Run>, Machine))
    requires kpb >= 1 && DiskInv(st) && rounds >= 1
    requires got == Got(mk, budget, stream)
    requires budget2 == budget - got && next == stream[got..] && rounds2 == rounds - 1
    requires ChunkDone(mk, kpb, budget, stream, st, c)
    requires FormDone(mk, kpb, budget2, next, rounds2, c.1, more)
    ensures FormDone(mk, kpb, budget, stream, rounds, st, ([c.0] + more.0, more.1))
  {
    ExtendsTrans(st, c.1, more.1);
    assert st.tempCount in c.1.disk;
    LiveFront(more.1.disk, st.tempCount, c.1.tempCount, c.0, more.0);
    var chunks := FormChunks(mk, budget2, next, rounds2);
    FormChunksUnfold(mk, budget, stream, rounds, got, budget2, next, rounds2, chunks);
    SortEachCons(stream[..got], chunks, more.0);
    FormBlocksUnfold(mk, kpb, budget, stream, rounds, got, budget2, next, rounds2,
                     FormBlocks(mk, kpb, budget2, next, rounds2));
  }

  /** The rounds of `initialRuns` still to do. */
  function FormFrom(mk: nat, kpb: nat, budget: nat, stream: seq<Key>, rounds: nat, st: Machine)
    : (r: (seq<Run>, Machine))
    requires kpb >= 1 && DiskInv(st)
    ensures FormDone(mk, kpb, budget, stream, rounds, st, r)
    decreases rounds
  {
    if rounds == 0 then ([], st)
    else
      var got := Got(mk, budget, stream);
      var budget2: nat, next, rounds2: nat := budget - got, stream[got..], rounds - 1;
      var c := FormChunk(mk, kpb, budget, stream, st);
      var more := FormFrom(mk, kpb, budget2, next, rounds2, c.1);
      FormStep(mk, kpb, budget, stream, rounds, st, got, budget2, next, rounds2, c, more);
      ([c.0] + more.0, more.1)
  }

  /** The rounds never look past the first `budget` keys of the stream: forming from the
      whole stream takes the same chunks as forming from that prefix. */
  lemma {:induction false} FormChunksTruncate(mk: nat, budget: nat, stream: seq<Key>, rounds: nat)
    ensures FormChunks(mk, budget, stream, rounds)
            == FormChunks(mk, budget, stream[..Min(budget, |stream|)], rounds)
    decreases rounds
  {
    if rounds > 0 {
      var t := stream[..Min(budget, |stream|)];
      var got := Got(mk, budget, stream);
      var budget2: nat, next, rounds2: nat := budget - got, stream[got..], rounds - 1;
      TruncateStep(mk, budget, stream, t, got, next);
      FormChunksTruncate(mk, budget2, next, rounds2);
      var more := FormChunks(mk, budget2, next, rounds2);
      FormChunksUnfold(mk, budget, stream, rounds, got, budget2, next, rounds2, more);
      FormChunksUnfold(mk, budget, t, rounds, got, budget2, t[got..], rounds2, more);
    }
  }

  /** Likewise the charge of the rounds depends only on the first `budget` keys. */
  lemma {:induction false} FormBlocksTruncate(mk: nat, kpb: nat, budget: nat, stream: seq<Key>,
                                              rounds: nat)
    requires kpb >= 1
    ensures FormBlocks(mk, kpb, budget, stream, rounds)
            == FormBlocks(mk, kpb, budget, stream[..Min(budget, |stream|)], rounds)
    decreases rounds
  {
    if rounds > 0 {
      var t := stream[..Min(budget, |stream|)];
      var got := Got(mk, budget, stream);
      var budget2: nat, next, rounds2: nat := budget - got, stream[got..], rounds - 1;
      TruncateStep(mk, budget, stream, t, got, next);
      FormBlocksTruncate(mk, kpb, budget2, next, rounds2);
      var more := FormBlocks(mk, kpb, budget2, next, rounds2);
      FormBlocksUnfold(mk, kpb, budget, stream, rounds, got, budget2, next, rounds2, more);
      FormBlocksUnfold(mk, kpb, budget, t, rounds, got, budget2, t[got..], rounds2, more);
    }
  }

  /** One round on the stream and on its first `budget` keys takes the same chunk and leaves
      the stream's rest and the prefix's rest in the same relation. */
  lemma TruncateStep(mk: nat, budget: nat, stream: seq<Key>, t: seq<Key>, got: nat, next: seq<Key>)
    requires t == stream[..Min(budget, |stream|)] && got == Got(mk, budget, stream)
    requires next == stream[got..]
    ensures Got(mk, budget, t) == got && t[..got] == stream[..got]
    ensures t[got..] == next[..Min(budget - got, |next|)]
  {
  }

  /** The keys `initialRuns` reads: the first `n` of the input, or all of it if it is shorter. */
  function ReadKeys(cfg: Config, input: seq<Key>): (ks: seq<Key>)
    ensures |ks| == Min(cfg.n, |input|)
    ensures ks == input[..|ks|]
  {
    input[..Min(cfg.n, |input|)]
  }

  /** The number of initial runs, `ceil(n / memory_keys)`: the fewest memory loads that
      hold `n` keys. */
  function RunCount(cfg: Config): (r: nat)
    requires Valid(cfg) && cfg.m >= 1
    ensures r * cfg.memoryKeys >= cfg.n && (r - 1) * cfg.memoryKeys < cfg.n
  {
    MemoryKeysAtLeastM(cfg);
    CeilDiv(cfg.n, cfg.memoryKeys)
  }

  /** The runs of the formation phase, from the keys read with `n` keys wanted and
      `ceil(n / mk)` rounds: those keys in chunks of `mk`, each sorted, then empty runs;
      together they are sorted runs holding exactly the keys read. */
  lemma FormationRuns(mk: nat, n: nat, keys: seq<Key>, rounds: nat)
    requires mk >= 1 && rounds == CeilDiv(n, mk) && |keys| <= n
    ensures SortEach(FormChunks(mk, n, keys, rounds))
            == SortEach(Batches(keys, mk)) + Empties(rounds - CeilDiv(|keys|, mk))
    ensures multiset(Flatten(SortEach(FormChunks(mk, n, keys, rounds)))) == multiset(keys)
    ensures AllSorted(SortEach(FormChunks(mk, n, keys, rounds)))
  {
    BatchesCount(keys, mk);
    CeilDivMonotone(|keys|, n, mk);
    FormChunksBatches(mk, n, keys, rounds);
    var left := rounds - CeilDiv(|keys|, mk);
    SortEachAppend(Batches(keys, mk), Empties(left));
    SortEachEmpties(left);
    RunsHoldKeys(keys, mk, left);
  }

  /** Sorting chunk by chunk distributes over concatenation. */
  lemma {:induction false} SortEachAppend(a: seq<Run>, b: seq<Run>)
    ensures SortEach(a + b) == SortEach(a) + SortEach(b)
  {
    if a != [] {
      SortEachAppend(a[1..], b);
      assert (a + b)[1..] == a[1..] + b;
    } else {
      assert a + b == b;
    }
  }

  /** Empty runs stay empty when sorted. */
  lemma {:induction false} SortEachEmpties(c: int)
    ensures SortEach(Empties(c)) == Empties(c)
    decreases c
  {
    if c > 0 {
      SortEachEmpties(c - 1);
      assert |multiset(SortRun([]))| == 0;
      assert Empties(c)[1..] == Empties(c - 1);
    }
  }

  /** Sorting a chunk in front of others. */
  lemma SortEachCons(x: Run, xs: seq<Run>, rest: seq<Run>)
    requires rest == SortEach(xs)
    ensures SortEach([x] + xs) == [SortRun(x)] + rest
  {
    assert ([x] + xs)[1..] == xs;
  }

  /** The charge of the formation phase when all `n` wanted keys are there to be read. */
  lemma FormationBlocks(mk: nat, kpb: nat, n: nat, keys: seq<Key>, rounds: nat)
    requires mk >= 1 && kpb >= 1 && rounds == CeilDiv(n, mk)
    ensures |keys| == n ==> FormBlocks(mk, kpb, n, keys, rounds) == BlockCharge(mk, kpb, n)
  {
    if |keys| == n {
      FormBlocksComplete(mk, kpb, n, keys, rounds);
      ChunkBlocksClosed(mk, kpb, n);
    }
  }

  /** The blocks the formation phase charges for reading (and again for writing) a complete
      input of `n` keys: `n / mk` full chunks of `ceil(mk / kpb)` blocks and one partial
      chunk of `ceil((n % mk) / kpb)` blocks. */
  function BlockCharge(mk: nat, kpb: nat, n: nat): nat
    requires mk >= 1 && kpb >= 1
  {
    MulMonotone(0, n / mk, CeilDiv(mk, kpb));
    (n / mk) * CeilDiv(mk, kpb) + CeilDiv(n % mk, kpb)
  }

  function FormationCharge(cfg: Config): nat
    requires Valid(cfg) && cfg.m >= 1
  {
    MemoryKeysAtLeastM(cfg);
    BlockCharge(cfg.memoryKeys, cfg.keysPerBlock, cfg.n)
  }

  /** `initialRuns`: `ceil(n / memory_keys)` sorted runs at the next ids. They are the keys
      read, cut into chunks of `memory_keys` and each sorted, followed by empty runs if the
      input ended early; together they hold exactly the keys read. Two seeks per run, and on
      an input of at least `n` keys a read and a write of
      `(n / mk) * ceil(mk / kpb) + ceil((n % mk) / kpb)` blocks. */
  function InitialRuns(cfg: Config, input: seq<Key>, st: Machine): (r: (seq<Run>, Machine))
    requires Valid(cfg) && cfg.m >= 1 && DiskInv(st)
    ensures |r.0| == RunCount(cfg)
    ensures r.0 == SortEach(Batches(ReadKeys(cfg, input), cfg.memoryKeys))
                   + Empties(RunCount(cfg) - CeilDiv(|ReadKeys(cfg, input)|, cfg.memoryKeys))
    ensures multiset(Flatten(r.0)) == multiset(ReadKeys(cfg, input))
    ensures AllSorted(r.0)
    ensures DiskInv(r.1) && Extends(st, r.1)
    ensures r.1.tempCount == st.tempCount + |r.0|
    ensures Live(r.1.disk, st.tempCount, |r.0|) == r.0
    ensures r.1.seeks == st.seeks + 2 * |r.0|
    ensures cfg.n <= |input| ==> r.1.transfers == st.transfers + 2 * FormationCharge(cfg)
  {
    MemoryKeysAtLeastM(cfg);
    var mk, kpb, n := cfg.memoryKeys, cfg.keysPerBlock, cfg.n;
    var rounds := RunCount(cfg);
    var keys := ReadKeys(cfg, input);
    var r := FormFrom(mk, kpb, n, input, rounds, st);
    FormChunksTruncate(mk, n, input, rounds);
    FormBlocksTruncate(mk, kpb, n, input, rounds);
    FormationRuns(mk, n, keys, rounds);
    FormationBlocks(mk, kpb, n, keys, rounds);
    r
  }

  /** Sorted chunks followed by empty runs: all sorted, and together a permutation of the
      keys that were cut into chunks. */
  lemma RunsHoldKeys(keys: seq<Key>, mk: nat, empties: int)
    requires mk >= 1
    ensures var rs := SortEach(Batches(keys, mk)) + Empties(empties);
      && multiset(Flatten(rs)) == multiset(keys)
      && AllSorted(rs)
  {
    var cs := Batches(keys, mk);
    SortEachKeys(cs);
    BatchesFlatten(keys, mk);
    EmptiesFlatten(empties);
    FlattenAppend(SortEach(cs), Empties(empties));
    SortEachSorted(cs);
    EmptiesSorted(empties);
    AllSortedAppend(SortEach(cs), Empties(empties));
  }

  lemma AllSortedAppend(a: seq<Run>, b: seq<Run>)
    requires AllSorted(a) && AllSorted(b)
    ensures AllSorted(a + b)
  {
    var c := a + b;
    forall i | 0 <= i < |c|
      ensures Sorted(c[i])
    {
      if i >= |a| {
        assert c[i] == b[i - |a|];
      }
    }
  }

  lemma {:induction false} SortEachKeys(cs: seq<Run>)
    ensures multiset(Flatten(SortEach(cs))) == multiset(Flatten(cs))
  {
    if cs != [] {
      SortEachKeys(cs[1..]);
      FlattenCons(SortRun(cs[0]), SortEach(cs[1..]));
      assert cs == [cs[0]] + cs[1..];
      FlattenCons(cs[0], cs[1..]);
    }
  }

  lemma {:induction false} SortEachSorted(cs: seq<Run>)
    ensures AllSorted(SortEach(cs))
  {
    if cs != [] {
      SortEachSorted(cs[1..]);
      var rs := SortEach(cs);
      assert rs == [SortRun(cs[0])] + SortEach(cs[1..]);
      forall i | 0 <= i < |rs|
        ensures Sorted(rs[i])
      {
        if i > 0 {
          assert rs[i] == SortEach(cs[1..])[i - 1];
        }
      }
    }
  }

  lemma {:induction false} EmptiesFlatten(c: int)
    ensures Flatten(Empties(c)) == []
    decreases c
  {
    if c > 0 {
      EmptiesFlatten(c - 1);
      FlattenCons([], Empties(c - 1));
    }
  }

  lemma {:induction false} EmptiesSorted(c: int)
    ensures AllSorted(Empties(c))
    decreases c
  {
    if c > 0 {
      EmptiesSorted(c - 1);
      var rs := Empties(c);
      forall i | 0 <= i < |rs|
        ensures Sorted(rs[i])
      {
        if i > 0 {
          assert rs[i] == Empties(c - 1)[i - 1];
        }
      }
    }
  }

  /** No initial run holds more than `memory_keys` keys: each fits the in-memory buffer. */
  lemma RunsFitInMemory(keys: seq<Key>, mk: nat, empties: int, i: nat)
    requires mk >= 1 && i < |SortEach(Batches(keys, mk)) + Empties(empties)|
    ensures |(SortEach(Batches(keys, mk)) + Empties(empties))[i]| <= mk
  {
    var cs := Batches(keys, mk);
    if i < |cs| {
      SortEachIndex(cs, i);
      BatchSizes(keys, mk, i);
      assert |SortRun(cs[i])| == |multiset(SortRun(cs[i]))| == |cs[i]|;
    } else {
      EmptiesIndex(empties, i - |cs|);
    }
  }

  lemma {:induction false} SortEachIndex(cs: seq<Run>, i: nat)
    requires i < |cs|
    ensures SortEach(cs)[i] == SortRun(cs[i])
  {
    if i > 0 {
      SortEachIndex(cs[1..], i - 1);
    }
  }

  lemma {:induction false} EmptiesIndex(c: int, i: nat)
    requires i < |Empties(c)|
    ensures Empties(c)[i] == []
    decreases c
  {
    if i > 0 {
      EmptiesIndex(c - 1, i - 1);
    }
  }
}
