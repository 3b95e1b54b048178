# External merge sort with simulated disk cost

A Dafny model of the `ExternalMergeSort` class in `mergesort.cpp`. The class sorts a key
file that does not fit in memory and counts the simulated disk cost as it goes: seeks and
block transfers. It runs in two phases.

- **Formation.** `initialRuns` reads the input in chunks of `memory_keys = m * b / k`
  keys. It sorts each chunk in memory and writes it to a temporary run file
  `temp_run_<id>.txt`.
- **Merging.** `externalMergeSort` calls `mergePass` while more than one run is left.
  Each pass merges the runs in batches of `m - 1` through a min-heap of
  `(key, file index)` pairs. The last run written is then renamed to the output file.

Every read and every write costs one seek. Its transfers are the blocks charged for it. A
merge batch is charged `ceil(memory_keys / keys_per_block)` blocks per input run, whatever
that run's real length.

The model has no files, streams or mutable fields. One immutable `Machine` value holds
the two cost counters, the temporary-file counter, and the "disk": a map from run id to
the run's keys. Each phase is a pure function from one `Machine` to the next. The input
file is a sequence of keys. The modules follow the reference's structure:

- `Configuration` (config.dfy): the constructor and its validation.
- `Disk` (disk.dfy): `simulateDiskRead`, `simulateDiskWrite`, `getTempFilename`, and the
  final rename.
- `Runs` (runs.dfy): sortedness, and the in-memory sort of one chunk.
- `Chunks` (chunks.dfy): cutting a sequence into groups of a fixed size.
- `Formation` (formation.dfy): `initialRuns`.
- `KWayMerge` (kway_merge.dfy): the heap merge of one batch.
- `Passes` (merge_pass.dfy): `mergePass`.
- `ExternalSort` (external_sort.dfy): `externalMergeSort`.
- `AsWritten` (as_written.dfy): the pass loop as the reference writes it, for `m >= 3`.
- `Arith` (arith.dfy): integer helpers.

**The reference rereads the initial runs.** `mergePass` sets `current_run = 0` at the start
of every pass (mergesort.cpp:129). It then opens `temp_run_<current_run + i>` (line 141).
So every pass reads the files from id 0 on. Those are the initial runs, but only the first
pass's inputs live there. Pass two and later should read the runs the previous pass wrote.
Instead, they merge initial runs again. With two or more passes the output lacks the keys
of the initial runs that the last pass does not reach.

The model states and proves this defect, listed under "## Findings". The rest of the model
uses the evidently intended loop (`ExternalSort.Ladder`): each pass reads the `R` files
just below the id counter, which are exactly the runs the previous phase wrote. The
behaviour as written (`AsWritten.AsWrittenSort`) is proved, for `m >= 3`, to differ only
in its output keys, and only when there are two or more passes.

Apart from that defect, the model does what the code does, including two behaviours that
a reader of the loop might not expect:

- A formation round charges `ceil(min(memory_keys, n - keys_processed) / keys_per_block)`
  blocks: the keys it wants, not the keys the stream delivered (lines 77-78).
- `n = 0` makes the final rename look for `temp_run_-1.txt`, which fails (lines 201-204).
  The model returns `Err(RenameFailed)`. It does not give an empty output.

With `m = 2` the fan-in `m - 1` is one, and the loop `while (num_runs > 1)` never ends once
there are two runs. Every pass copies each run to a new file and leaves the run count
unchanged (`Passes.FanInOneNoProgress`).
The model returns `Err(NoMergeProgress)` whenever there is more than one run and `m < 3`.

## Model

| member | source | states |
|---|---|---|
| Configuration.NewSorter | mergesort.cpp:48-56 | fails exactly when `b < k`, with the block-size error; otherwise keeps `n, k, b, m`, and `keys_per_block` and `memory_keys` are the floor quotients `b / k` and `m * b / k` (bounded on both sides) |
| Configuration.BlocksPerRun | mergesort.cpp:133 | `run_size_blocks` (and `blocks_per_run` at line 68): `ceil(memory_keys / keys_per_block)`, the fewest blocks that hold a full memory load, at least one |
| Configuration.MemoryKeysAtLeastM | mergesort.cpp:54-55 | with `m >= 1` memory holds at least `m` keys, because a block holds at least one key |
| Disk.DiskRead | mergesort.cpp:30-33 | one more seek and `blocks` more transfers; the files and the id counter are unchanged |
| Disk.DiskWrite | mergesort.cpp:36-39 | one more seek and `blocks` more transfers; the files and the id counter are unchanged |
| Disk.NewTempId | mergesort.cpp:42-44 | hands out the current counter value and advances it by one; the id is fresh, with no file under it and every existing file below it |
| Disk.Decimal | mergesort.cpp:43 | `std::to_string` of a count: a non-empty string of decimal digits, one digit exactly for values below ten |
| Disk.DecimalValue | mergesort.cpp:43 | those digits spell the count: read back as a decimal number they give it |
| Disk.TempFilename | mergesort.cpp:42-44 | the name is `temp_run_`, then the decimal digits of the id, then `.txt` |
| Disk.TempFilenameInjective | mergesort.cpp:43 | distinct ids give distinct `temp_run_<id>.txt` names, so no run file is overwritten |
| Disk.WriteRun | mergesort.cpp:96-104 | the file of the given id holds the run written; every other file, the cost counters and the id counter are unchanged |
| Disk.NewFileKeepsInv | mergesort.cpp:96-97 | allocating a name and writing under it keeps "files exist exactly for the ids handed out" and leaves every older file unchanged |
| Disk.Live | mergesort.cpp:140-145 | the files a batch opens, `temp_run_<current_run + i>` for `i < runs_to_merge`: one per id in the range |
| Disk.LiveIndex | mergesort.cpp:140-142 | entry `i` of that listing is the file of id `current_run + i` |
| Disk.LiveFrame | mergesort.cpp:140-145 | a later state that only adds files lists the same contents for any range of older ids |
| Disk.Promote | mergesort.cpp:201-204 | the rename succeeds exactly when an id has been handed out and the file `temp_file_count - 1` exists, and it yields that file; otherwise rename-failed |
| Runs.SortRun | mergesort.cpp:94 | `std::sort` of a chunk: a sorted permutation of it |
| Runs.SortedPermutationUnique | mergesort.cpp:94 | two sorted permutations of the same keys are equal, so a sorted chunk is determined by its keys |
| Runs.SortRunOfSorted | mergesort.cpp:94 | sorting a sorted chunk leaves it unchanged |
| Chunks.Batches | mergesort.cpp:131-151 | consecutive groups of `d` items, the last holding the remainder: the runs `current_run ..` that each merge takes. It has no contract of its own; the four rows below state its properties |
| Chunks.BatchesCount | mergesort.cpp:124 | cutting `R` items into groups of `d` gives `ceil(R / d)` groups (`num_merges`) |
| Chunks.BatchSizes | mergesort.cpp:132 | every group holds between one and `d` items (`runs_to_merge`) |
| Chunks.BatchesIndex | mergesort.cpp:131-132 | group `i` is the items from position `i * d`, `min(d, R - i * d)` of them: the loop's index arithmetic |
| Chunks.BatchesFlatten | mergesort.cpp:131-151 | the groups concatenate back to the items: each lands in exactly one group, in order |
| Formation.FormChunksTruncate | mergesort.cpp:76-89 | the rounds never read past the `n`-th key: forming from the whole input takes the same chunks as forming from its first `min(n, input length)` keys |
| Formation.FormBlocksTruncate | mergesort.cpp:76-78 | likewise the blocks charged depend only on those first keys |
| Formation.Got | mergesort.cpp:77-89 | one round takes no more keys than the stream holds, than are still wanted, or than fit in memory, and stops short of `min(memory_keys, n - keys_processed)` only when the stream is exhausted |
| Formation.FormChunks | mergesort.cpp:76-89 | the keys each remaining round reads from the stream, in round order. It has no contract of its own; `FormChunksTruncate` and `FormChunksBatches` state its properties |
| Formation.FormBlocks | mergesort.cpp:77-78 | the blocks the remaining rounds charge, `ceil(min(memory_keys, n - keys_processed) / keys_per_block)` each. It has no contract of its own; `FormBlocksTruncate` and `FormBlocksComplete` state its properties |
| Formation.FormChunk | mergesort.cpp:76-108 | one round writes its sorted chunk to the next id, leaves older files unchanged, costs two seeks, and charges `ceil(min(mk, budget) / kpb)` blocks for the read and again for the write |
| Formation.FormFrom | mergesort.cpp:76-108 | the remaining rounds write their sorted chunks at the next ids in round order, with two seeks per round, and leave older files unchanged |
| Formation.FormChunksBatches | mergesort.cpp:76-89 | round by round the chunks are the keys still to read, cut in groups of `memory_keys`, then empty chunks once the stream is exhausted |
| Formation.FormBlocksComplete | mergesort.cpp:77-78 | when the stream holds every wanted key, the per-round charges add up to the chunk-by-chunk total |
| Formation.ChunkBlocksClosed | mergesort.cpp:77-78 | that total is `(n / mk) * ceil(mk / kpb) + ceil((n % mk) / kpb)` |
| Formation.RunCount | mergesort.cpp:67 | `runs = ceil(n / memory_keys)`: the fewest memory loads that together hold `n` keys |
| Formation.FormationRuns | mergesort.cpp:67-108 | the runs formed are the sorted chunks followed by empty runs; together they are sorted and hold exactly the keys read |
| Formation.RunsFitInMemory | mergesort.cpp:73-89 | no initial run holds more than `memory_keys` keys |
| Formation.InitialRuns | mergesort.cpp:59-117 | `ceil(n / memory_keys)` runs at the next ids: the sorted chunks of the keys read, then empty runs if the input ended early. They are all sorted and hold exactly the keys read. Two seeks per run; on a complete input, a read and a write of the closed-form block total |
| KWayMerge.Precedes | mergesort.cpp:136-138 | the heap's `std::greater<std::pair<int, int>>` order: by key, then by file index. A predicate without a contract; `PrecedesTotalOrder` states its properties |
| KWayMerge.PrecedesTotalOrder | mergesort.cpp:136-138 | that order is total: reflexive, any two pairs compare, only equal pairs compare both ways, transitive |
| KWayMerge.MergeTrace | mergesort.cpp:163-171 | the `(key, index)` pairs the heap pops until it is empty. Defined by recursion without a contract; `MergeTraceMembers`, `MergeTraceDrains`, `MergeTraceLexSorted` and `MergeTraceCharacterized` state its properties |
| KWayMerge.MinHead | mergesort.cpp:163-165 | `pq.top()`: the run whose head is least by `(key, index)` among the non-drained runs, or none exactly when all are drained |
| KWayMerge.MergeTraceMembers | mergesort.cpp:163-171 | every popped pair names a run of the batch and a key that run holds |
| KWayMerge.MergeTraceDrains | mergesort.cpp:163-171 | the keys popped from run `j` are exactly run `j`, in order: the merge drains every input |
| KWayMerge.MergeTraceKeys | mergesort.cpp:163-171 | the keys written are a permutation of the batch's keys |
| KWayMerge.MergeTraceLexSorted | mergesort.cpp:136-138 | on sorted runs the pops come out in `(key, index)` order: ties go to the lower file index |
| KWayMerge.MergeTraceUnique | mergesort.cpp:136-171 | any trace that takes every run whole and in order and respects that order is the heap's trace |
| KWayMerge.MergeTraceCharacterized | mergesort.cpp:136-171 | for sorted runs: a trace is the heap's exactly when it is `(key, index)`-ordered and takes every run whole and in order |
| KWayMerge.Merge | mergesort.cpp:135-171 | the merged run has the batch's length and keys, and is sorted when the runs are |
| KWayMerge.MergeSorted | mergesort.cpp:136-171 | on sorted runs the heap writes its keys in non-decreasing order |
| KWayMerge.MergeOne | mergesort.cpp:163-171 | merging a single run copies it unchanged, in its own order |
| Passes.MergeEach | mergesort.cpp:131-185 | the runs the batch loop writes, the merge of each batch in order. Its only contract is the count; `MergeEachKeys`, `MergeEachSorted` and `MergeEachSingles` state its properties |
| Passes.MergeEachKeys | mergesort.cpp:131-185 | merging each batch keeps the multiset of all keys |
| Passes.MergeEachSorted | mergesort.cpp:131-185 | batches of sorted runs merge into sorted runs |
| Passes.PassKeys | mergesort.cpp:131-185 | a pass keeps every key, and on sorted runs produces sorted runs |
| Passes.MergeBatch | mergesort.cpp:132-181 | one batch writes the merge of its runs to the next id, leaves older files unchanged, costs two seeks, and charges `bpr` blocks per input run for the read and again for the write |
| Passes.PassFrom | mergesort.cpp:131-185 | the remaining batches write `ceil(rem / d)` runs at the next ids in batch order, each the merge of its batch, with two seeks per batch and `2 * bpr` transfers per input run |
| Passes.MergePass | mergesort.cpp:120-189 | `mergePass` over the runs at ids `cur ..`: `ceil(R / (m - 1))` new runs at the next ids, each the merge of one batch; keys kept, sortedness kept, older files unchanged; the seek and transfer totals |
| Passes.PassShrinks | mergesort.cpp:124-125 | with fan-in at least two and more than one run, a pass leaves fewer runs, and at least one |
| Passes.MergeEachSingles | mergesort.cpp:131-171 | batches of one run each merge into copies of those runs |
| Passes.FanInOneNoProgress | mergesort.cpp:123-185 | with `m = 2` a pass over `R` runs writes `R` new runs that are copies of the runs it read, so the loop at lines 196-199 never ends once there are two runs |
| ExternalSort.PassCount | mergesort.cpp:194-199 | `merge_passes`: one pass per loop iteration; none exactly when there is at most one run |
| ExternalSort.PassesLogarithmic | mergesort.cpp:196-199 | the loop makes `ceil(log_(m-1) R)` passes: `(m-1)` to that power covers `R`, one pass fewer does not |
| ExternalSort.LadderStep | mergesort.cpp:196-199 | one pass followed by the loop on what it left adds up to the loop's totals, and its last file holds the keys of the runs it started from |
| ExternalSort.Ladder | mergesort.cpp:193-199 | the intended loop: `PassCount` passes, `RunsWritten` new files at two seeks each, `2 * bpr` transfers per run read; the last file holds exactly the keys of the starting runs, sorted if they were |
| ExternalSort.ExternalMergeSort | mergesort.cpp:192-210 | fails exactly when `n = 0` (rename-failed) or more than one run with `m < 3` (no progress). Otherwise the output is the keys read, sorted (a sorted permutation of them), with the pass count `PassCount` and the seek and transfer totals stated through `RunsWritten` and `RunsRead`, the runs the passes write and read, which are recursive functions of the run count and the fan-in alone |
| ExternalSort.SortIdempotent | mergesort.cpp:192-210 | sorting the output again, with `n` its length, gives it back unchanged |
| ExternalSort.SortSortedKeys | mergesort.cpp:81-94 | reading all of an already sorted input and sorting it gives it back |
| AsWritten.LastBatch | mergesort.cpp:129-151 | the runs that enter the last pass: more than one, at most the fan-in, and at most the starting count |
| AsWritten.AsWrittenLadder | mergesort.cpp:129-151 | the loop with `current_run = 0` in every pass: the same counts as the intended loop, but the last file holds only the keys of files `0 .. LastBatch - 1` |
| AsWritten.AsWrittenStep | mergesort.cpp:129-151 | one pass reading from id 0, followed by the as-written loop, adds up to the as-written totals and contents |
| AsWritten.LastPass | mergesort.cpp:129-151 | a pass that leaves one run leaves, as the last file, a run holding the keys of every run it read |
| AsWritten.AsWrittenSort | mergesort.cpp:129-210 | the reference's sort for `m >= 3`: fails exactly when the intended one does, with the same totals. The output is sorted; it holds the keys read when there is at most one run, and otherwise only the keys of the first `LastBatch` initial runs |
| AsWritten.LaddersAgree | mergesort.cpp:129-151 | with at most `m - 1` runs at ids `0 ..`, the as-written and the intended loop do the same single pass |
| AsWritten.AsWrittenAgreesOnOnePass | mergesort.cpp:129-151 | with at most `m - 1` initial runs, the reference's result equals the intended one |
| AsWritten.TwoPassesSkipRuns | mergesort.cpp:129-151 | with two passes or more, the last pass reads fewer runs than there are initial runs |
| AsWritten.LastRunHoldsKeys | mergesort.cpp:76-89 | on a complete input the last initial run is a non-empty chunk |
| AsWritten.KeptFewer | mergesort.cpp:129-151 | those first `LastBatch` runs hold fewer keys than were read |
| AsWritten.AsWrittenLosesKeys | mergesort.cpp:129-151 | with two passes or more, on a complete input, the intended sort outputs all `n` keys and the reference fewer |
| AsWritten.SmallTakesTwoPasses | mergesort.cpp:48-56 | `n = 7, k = 1, b = 1, m = 3` is accepted and gives three initial runs and two passes |
| AsWritten.SmallLosesKeys | mergesort.cpp:129-151 | under that configuration, any input of seven keys or more loses keys in the reference and keeps all seven in the intended sort |

## Left out

- File I/O is not modelled: opening, reading and writing files, and the `runtime_error`s
  for files that cannot be opened. The input file is a sequence of keys, and the files
  `temp_run_<id>.txt` are entries of a map from id to keys. In the model a file that a
  pass opens always exists.
- All console output is left out: the phase reports, the per-merge lines and the final
  totals. The totals appear instead as the `passes`, `seeks` and `transfers` fields of the
  returned `Report`.
- `main` and its argument parsing with `atoll`/`atoi` are left out. `file_create.cpp` is not
  part of this model.
- The `std::ceil` of a `double` quotient (lines 67, 68, 78, 124, 133) is modelled as exact
  integer ceiling division. Precision loss for very large counts is not modelled.
- Integer widths are not modelled: the model does not overflow the `int` and `long long`
  counters, run counts and block counts. Keys are unbounded integers, not `int`.
- Configuration.NewSorter: takes `n` as a natural number and requires `k > 0`. The
  reference takes a `long long` `n`; a negative `n` gives no initial runs, so it behaves
  like `n = 0` and fails at the rename. With `k = 0` the reference divides by zero, and a
  negative `k` passes the `b < k` check and gives negative block and memory sizes, which
  the model does not represent.
- The sort functions require `m >= 1`, and the model represents neither failure below it.
  With `m = 0`, `memory_keys` is zero and line 67 converts the infinite (or, for `n = 0`,
  not-a-number) quotient to `int`, which is undefined. With `m < 0`, `memory_keys` is
  negative and `buffer.reserve(memory_keys)` at line 74 throws `std::length_error`, which
  `main` reports as an error (lines 232-234).
- `m = 1` with more than one run gives fan-in zero: line 124 divides by zero in floating
  point and converts the infinite quotient to `int`, which is undefined. The model reports
  `NoMergeProgress` there, as for `m = 2`.
- `std::sort` is modelled as insertion sort. Only its result matters: a sorted permutation,
  which is unique.
- Temporary files are never deleted in the reference, and the model keeps them all as
  well.
- The line-based text encoding of keys in the files is left out. A run is its sequence of
  keys.
- Formation.InitialRuns: the transfer total is stated in closed form only for an input that
  holds at least `n` keys. On a shorter input, `Formation.FormFrom` states the charge
  round by round.
- ExternalSort.ExternalMergeSort: on an input shorter than `n`, the transfer total is
  stated relative to the formation phase's total. The seek and transfer totals of the
  passes are stated through the recursive `RunsWritten` and `RunsRead`, not in closed form.
- AsWritten.AsWrittenSort: for `m < 3` with more than one run the reference does not end
  (`m = 2`) or is undefined (`m = 1`). The model returns `Err(NoMergeProgress)` there, as
  the corrected sort does, so it models the reference only for `m >= 3`.

## Findings

| source | as written | input that shows it | evidently intended | confidence | as-written member | corrected member |
|---|---|---|---|---|---|---|
| mergesort.cpp:129 | `current_run = 0` is set at the start of every pass, so every pass opens the files `temp_run_0 ..` (lines 141, 151). Passes two and later merge initial runs again, not the runs the previous pass wrote | `n = 7, k = 1, b = 1, m = 3` with input `0 0 0 0 0 0 1`: three initial runs, two passes; the second pass merges `temp_run_0` and `temp_run_1` again, and the output has six keys, missing the `1` | each pass reads the `R` runs the previous phase wrote, the ids just below the counter; the output is all `n` keys, sorted | not executed | AsWritten.AsWrittenLosesKeys | ExternalSort.ExternalMergeSort |
| mergesort.cpp:196-199 | with `m = 2` the merge degree is one, and a pass maps `R` runs to `R` runs, so `while (num_runs > 1)` never ends | `n = 3, k = 1, b = 1, m = 2` with input `0 1 2`: memory holds two keys, so two initial runs, and every pass writes copies of the two runs it read | configurations whose fan-in `m - 1` is below two are refused when there is more than one run | not executed | Passes.FanInOneNoProgress | ExternalSort.ExternalMergeSort |
