/** The RandomX state the worker pool shares among its threads
    (`Workers::updateDataset`, `Workers::getDataset`): the seed hash the
    cache was last built from, the counter the threads use to meet, and the
    cache and dataset handles. The library calls are abstract: a cache
    initialisation is counted, an allocation is a parameter saying what the
    allocator returns (`None` is a null pointer), and a dataset fill is
    recorded as the range it covers. */
module RxDataset {
  import opened Wrappers
  import opened DatasetPartition

  const SeedSize: nat := 32

  /** `uint8_t[32]`, compared with `memcmp` and copied with `memcpy`. */
  type Seed = s: seq<bv8> | |s| == SeedSize witness ZeroBytes

  const ZeroBytes: seq<bv8> := [0, 0, 0, 0, 0, 0, 0, 0, 0, 0, 0, 0, 0, 0, 0, 0, 0, 0, 0, 0, 0, 0, 0, 0, 0, 0, 0, 0, 0, 0, 0, 0]
  const ZeroSeed: Seed := ZeroBytes

  datatype RxState = RxState(
    seed: Seed,
    counter: nat,
    cacheInits: nat,
    cache: Option<nat>,
    dataset: Option<nat>)

  /** The static initialisers: a zero seed, no cache, no dataset. */
  function Initial(): (r: RxState)
    ensures r.counter == 0 && r.cacheInits == 0 && r.cache.None? && r.dataset.None?
    // the first update with any seed but the zero one enters, as thread 0
    ensures forall s: Seed :: s != ZeroSeed ==> Enter(r, s).1 == Some(0)
  {
    RxState(ZeroSeed, 0, 0, None, None)
  }

  // --- entering the update ----------------------------------------------------

  /** The first step of a thread: with the stored seed already equal to the
      new one it leaves at once, without touching the counter; otherwise it
      takes the counter's value as its index and increments it. Returns the
      state and the index, if the thread entered. */
  function Enter(st: RxState, newSeed: Seed): (r: (RxState, Option<nat>))
    ensures r.1.None? <==> st.seed == newSeed
    ensures r.1.None? ==> r.0 == st
    ensures r.1.Some? ==> r.1.value == st.counter && r.0 == st.(counter := st.counter + 1)
  {
    if st.seed == newSeed then (st, None) else (st.(counter := st.counter + 1), Some(st.counter))
  }

  // --- the wait loops ---------------------------------------------------------

  /** What one pass of a wait loop reads: the pool's sequence, then the
      counter. */
  datatype Observation = Observation(sequence: nat, counter: nat)

  datatype WaitEnd = Stopped(at: nat) | Released(at: nat) | StillWaiting

  /** No pass of `obs` ends the wait for `target`. */
  predicate Quiet(obs: seq<Observation>, target: nat) {
    forall j :: 0 <= j < |obs| ==> obs[j].sequence != 0 && obs[j].counter != target
  }

  /** The `do { if (sequence == 0) return; yield(); } while (counter != target)`
      loops over the passes `obs`: the first pass that sees the sentinel
      returns from `updateDataset`, the first that sees the counter at
      `target` lets the thread on. */
  function Wait(obs: seq<Observation>, target: nat): (r: WaitEnd)
    ensures r.StillWaiting? <==> Quiet(obs, target)
    ensures r.Stopped? ==> r.at < |obs| && obs[r.at].sequence == 0 && Quiet(obs[..r.at], target)
    ensures r.Released? ==>
      && r.at < |obs| && obs[r.at].sequence != 0 && obs[r.at].counter == target
      && Quiet(obs[..r.at], target)
  {
    if |obs| == 0 then StillWaiting
    else if obs[0].sequence == 0 then Stopped(0)
    else if obs[0].counter == target then Released(0)
    else
      match Wait(obs[1..], target)
      case StillWaiting => StillWaiting
      case Stopped(i) => assert obs[..i + 1] == [obs[0]] + obs[1..][..i]; Stopped(i + 1)
      case Released(i) => assert obs[..i + 1] == [obs[0]] + obs[1..][..i]; Released(i + 1)
  }

  /** Once the pool is stopped the wait ends at the latest on the first pass
      that sees the sentinel, whatever the counter does. */
  lemma StopEndsWait(obs: seq<Observation>, target: nat, k: nat)
    requires k < |obs| && obs[k].sequence == 0
    ensures !Wait(obs, target).StillWaiting? && Wait(obs, target).at <= k
  {
  }

  // --- the locked cache refresh -----------------------------------------------

  /** The step under the write lock: the seed is compared again, and only a
      thread that still sees another seed copies it and initialises the
      cache. */
  function Refresh(st: RxState, newSeed: Seed): (r: RxState)
    ensures r.seed == newSeed
    ensures r.cacheInits == st.cacheInits + if st.seed == newSeed then 0 else 1
    ensures r.(seed := st.seed, cacheInits := st.cacheInits) == st
  {
    if st.seed != newSeed then st.(seed := newSeed, cacheInits := st.cacheInits + 1) else st
  }

  /** `k` threads passing the lock one after another. */
  function RefreshAll(st: RxState, newSeed: Seed, k: nat): RxState {
    if k == 0 then st else Refresh(RefreshAll(st, newSeed, k - 1), newSeed)
  }

  /** However many threads pass the lock, the cache is initialised once for a
      new seed and not at all for the current one. */
  lemma {:induction false} RefreshOncePerSeed(st: RxState, newSeed: Seed, k: nat)
    requires k >= 1
    ensures RefreshAll(st, newSeed, k).seed == newSeed
    ensures RefreshAll(st, newSeed, k).cacheInits == st.cacheInits + if st.seed == newSeed then 0 else 1
    ensures RefreshAll(st, newSeed, k).(seed := st.seed, cacheInits := st.cacheInits) == st
  {
    if k > 1 {
      RefreshOncePerSeed(st, newSeed, k - 1);
    }
  }

  // --- a whole update ---------------------------------------------------------

  /** `randomx_init_dataset(dataset, cache, start, length)`. */
  datatype Fill = Fill(start: nat, length: nat)

  /** `n` threads calling `updateDataset` with the same new seed while the
      pool runs, in the serial order the barriers allow: all enter, then pass
      the lock one by one, then each fills its share of the `count` items and
      leaves. Returns the state and the fills of threads 0 to n - 1; the
      shares are those of `DatasetPartition`, which split the dataset. */
  method UpdateRound(st: RxState, newSeed: Seed, n: nat, count: nat) returns (r: RxState, fills: seq<Fill>)
    requires n >= 1 && st.counter == 0
    // with the current seed every thread leaves at once
    ensures st.seed == newSeed ==> r == st && fills == []
    // with a new seed the cache is initialised once, the counter is back at 0
    ensures st.seed != newSeed ==>
      && r.seed == newSeed && r.cacheInits == st.cacheInits + 1 && r.counter == 0
      && r.(seed := st.seed, cacheInits := st.cacheInits) == st
    // and thread i fills exactly the i-th of the n ranges
    ensures st.seed != newSeed ==>
      && |fills| == n
      && forall i :: 0 <= i < n ==> fills[i].start == Lo(count, n, i) && fills[i].length == Len(count, n, i)
  {
    if st.seed == newSeed {
      return st, [];
    }
    // every thread enters and takes its index
    var ids: seq<nat> := [];
    r := st;
    while |ids| < n
      invariant |ids| <= n
      invariant r == st.(counter := |ids|)
      invariant forall i :: 0 <= i < |ids| ==> ids[i] == i
    {
      var (next, id) := Enter(r, newSeed);
      ids := ids + [id.value];
      r := next;
    }
    // the counter has reached n: the first barrier opens and the threads
    // pass the lock one by one
    var k := 0;
    var entered := r;
    while k < n
      invariant 0 <= k <= n
      invariant r == RefreshAll(entered, newSeed, k)
    {
      r := Refresh(r, newSeed);
      k := k + 1;
    }
    RefreshOncePerSeed(entered, newSeed, n);
    // each thread fills its range and decrements the counter
    fills := [];
    while |fills| < n
      invariant |fills| <= n
      invariant r == st.(seed := newSeed, cacheInits := st.cacheInits + 1, counter := n - |fills|)
      invariant forall i :: 0 <= i < |fills| ==>
        fills[i].start == Lo(count, n, ids[i]) && fills[i].length == Len(count, n, ids[i])
    {
      var id := ids[|fills|];
      fills := fills + [Fill(Lo(count, n, id), Len(count, n, id))];
      r := r.(counter := r.counter - 1);
    }
  }

  // --- lazy allocation --------------------------------------------------------

  /** What the allocator returns for each request `getDataset` can make. */
  datatype Allocator = Allocator(
    datasetLargePages: Option<nat>,
    datasetDefault: Option<nat>,
    cacheJitLargePages: Option<nat>,
    cacheJit: Option<nat>)

  datatype AllocCall = DatasetLargePages | DatasetDefault | CacheJitLargePages | CacheJit

  /** The state after the call, the dataset returned, and the allocation
      requests made, in order. */
  datatype Lookup = Lookup(state: RxState, dataset: Option<nat>, calls: seq<AllocCall>)

  /** `Workers::getDataset`: allocates the dataset and the cache the first
      time, large pages first, and afterwards returns the same dataset. */
  function GetDataset(st: RxState, alloc: Allocator): (r: Lookup)
    ensures r.dataset == r.state.dataset
    ensures r.state.(cache := st.cache, dataset := st.dataset) == st
    ensures st.dataset.Some? ==> r.state == st && r.calls == []
    ensures st.dataset.None? ==>
      && |r.calls| >= 2 && r.calls[0] == DatasetLargePages
      && r.dataset == (if alloc.datasetLargePages.Some? then alloc.datasetLargePages else alloc.datasetDefault)
      && r.state.cache == (if alloc.cacheJitLargePages.Some? then alloc.cacheJitLargePages else alloc.cacheJit)
    // a fallback is requested exactly when the large-page request failed
    ensures DatasetDefault in r.calls <==> st.dataset.None? && alloc.datasetLargePages.None?
    ensures CacheJit in r.calls <==> st.dataset.None? && alloc.cacheJitLargePages.None?
  {
    if st.dataset.Some? then Lookup(st, st.dataset, [])
    else
      var (dataset, datasetCalls) :=
        if alloc.datasetLargePages.Some? then (alloc.datasetLargePages, [DatasetLargePages])
        else (alloc.datasetDefault, [DatasetLargePages, DatasetDefault]);
      var (cache, cacheCalls) :=
        if alloc.cacheJitLargePages.Some? then (alloc.cacheJitLargePages, [CacheJitLargePages])
        else (alloc.cacheJit, [CacheJitLargePages, CacheJit]);
      Lookup(st.(cache := cache, dataset := dataset), dataset, datasetCalls + cacheCalls)
  }

  /** Once a dataset has been handed out, every later call returns it again
      without allocating, whatever the allocator would do. */
  lemma GetDatasetIdempotent(st: RxState, first: Allocator, later: Allocator)
    requires GetDataset(st, first).dataset.Some?
    ensures var r := GetDataset(st, first);
      GetDataset(r.state, later) == Lookup(r.state, r.dataset, [])
  {
  }
}
