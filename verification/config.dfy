/** The sorter's configuration: the constructor of `ExternalMergeSort` with its validation
    and its two derived capacities, plus the failure kinds the whole pipeline can report. */
module Configuration {
  import opened Arith

  /** The failures the reference raises, as values. */
  datatype Error =
    | BlockSmallerThanKey  // the constructor's `invalid_argument` when `b < k`
    | NoMergeProgress      // more than one run with fan-in `m - 1 < 2`: the pass loop
                           // never ends (`m = 2`) or is undefined (`m = 1`)
    | RenameFailed         // the final run file to promote to `output.txt` does not exist

  datatype Result<T> = Ok(value: T) | Err(error: Error)

  /** Declared key count `n`, key size `k`, block size `b`, memory size `m` in blocks,
      and the derived capacities. */
  datatype Config = Config(n: nat, k: int, b: int, m: int, keysPerBlock: int, memoryKeys: int)

  /** What the constructor establishes. `memoryKeys` is the 64-bit product `m * b`
      divided by `k` with C++ truncation. */
  predicate Valid(c: Config) {
    && c.k > 0
    && c.b >= c.k
    && c.keysPerBlock == c.b / c.k
    && c.memoryKeys == TruncDiv(c.m * c.b, c.k)
  }

  /** The constructor: rejects a block smaller than a key, otherwise derives how many keys
      fit in one block and in memory. */
  function NewSorter(n: nat, k: int, b: int, m: int): (r: Result<Config>)
    requires k > 0
    ensures r.Err? <==> b < k
    ensures r.Err? ==> r.error == BlockSmallerThanKey
    ensures r.Ok? ==> Valid(r.value)
    ensures r.Ok? ==> r.value.n == n && r.value.k == k && r.value.b == b && r.value.m == m
    ensures r.Ok? ==> r.value.keysPerBlock >= 1
    ensures r.Ok? ==> r.value.keysPerBlock * k <= b < r.value.keysPerBlock * k + k
    ensures r.Ok? && m >= 0 ==> r.value.memoryKeys * k <= m * b < r.value.memoryKeys * k + k
  {
    if b < k then Err(BlockSmallerThanKey)
    else Ok(Config(n, k, b, m, b / k, TruncDiv(m * b, k)))
  }

  /** With at least one memory block, memory holds at least `m` keys (so at least one). */
  lemma MemoryKeysAtLeastM(c: Config)
    requires Valid(c) && c.m >= 1
    ensures c.memoryKeys >= c.m
  {
    MulMonotone(c.k, c.b, c.m);
    assert c.m * c.k <= c.m * c.b;
    var q := c.memoryKeys;
    assert q * c.k <= c.m * c.b < q * c.k + c.k;
    if q < c.m {
      MulMonotone(q + 1, c.m, c.k);
    }
  }

  /** Blocks charged per run in a merge batch: `ceil(memory_keys / keys_per_block)`, the
      fewest blocks that hold a full memory load, and at least one. */
  function BlocksPerRun(c: Config): (r: nat)
    requires Valid(c) && c.m >= 1
    ensures r * c.keysPerBlock >= c.memoryKeys && (r - 1) * c.keysPerBlock < c.memoryKeys
    ensures r >= 1
  {
    MemoryKeysAtLeastM(c);
    CeilDiv(c.memoryKeys, c.keysPerBlock)
  }
}
