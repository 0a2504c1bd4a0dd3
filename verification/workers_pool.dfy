/** The shared state of the worker pool (`class Workers`, all static) as one
    record, with each entry point a transition on it. The threads are
    abstracted away: each transition is the serialised effect of one call.
    Workers poll `sequence` to see whether their job is still current, and
    the value 0 tells them to shut down. */
module WorkerPool {
  import opened MachineInt

  /** A mining job; the pool only stores it and hands it out. */
  datatype Job = Job(id: string, blob: seq<bv8>)

  const EmptyJob: Job := Job("", [])

  /** A share found by a worker, waiting to be handed to the listener. */
  datatype JobResult = JobResult(jobId: string, nonce: nat, hash: seq<bv8>)

  /** A worker thread's handle; `hasWorker` turns true once the thread has
      created its hashing worker (`Workers::onReady`). */
  datatype Handle = Handle(threadId: nat, threads: nat, affinity: int, priority: int, hasWorker: bool)

  datatype Pool = Pool(
    active: bool,
    enabled: bool,
    paused: int,
    sequence: nat,
    job: Job,
    queue: seq<JobResult>,
    handles: seq<Handle>,
    ticks: nat)

  /** The static initialisers: enabled but not active, the atomics zeroed. */
  function Initial(): (r: Pool)
    ensures Valid(r) && IsEnabled(r) && !r.active && !IsPaused(r)
    // the sequence starts at the sentinel value; `start` moves it to 1
    ensures IsStopped(r)
    ensures r.queue == [] && r.handles == [] && r.ticks == 0
  {
    Pool(false, true, 0, 0, EmptyJob, [], [], 0)
  }

  /** The ranges of the source's types: `sequence` and `ticks` are `uint64_t`,
      and `paused` only ever holds 0 or 1. */
  predicate Valid(p: Pool) {
    IsUint64(p.sequence) && IsUint64(p.ticks) && p.paused in {0, 1}
  }

  // --- the inline accessors -------------------------------------------------

  /** A worker holding sequence `s` must drop its job. */
  predicate IsOutdated(p: Pool, s: nat) { p.sequence != s }

  predicate IsPaused(p: Pool) { p.paused == 1 }

  function Sequence(p: Pool): nat { p.sequence }

  predicate IsEnabled(p: Pool) { p.enabled }

  /** The pool has been stopped: workers leave their loops. */
  predicate IsStopped(p: Pool) { p.sequence == 0 }

  /** Reading the pool through the accessors changes nothing, and they agree
      with one another: a worker is outdated exactly when it holds another
      sequence than the one reported. */
  lemma AccessorsAgree(p: Pool, s: nat)
    ensures IsOutdated(p, s) <==> Sequence(p) != s
    ensures !IsOutdated(p, Sequence(p))
    ensures IsStopped(p) <==> Sequence(p) == 0
  {
  }

  // --- lifecycle ------------------------------------------------------------

  /** The handles `start` creates: one per thread index. */
  function NewHandles(threads: nat, affinity: int, priority: int): (hs: seq<Handle>)
    ensures |hs| == threads
    ensures forall i :: 0 <= i < threads ==>
      hs[i].threadId == i && hs[i].threads == threads && !hs[i].hasWorker
      && hs[i].affinity == affinity && hs[i].priority == priority
  {
    seq(threads, i requires 0 <= i < threads => Handle(i, threads, affinity, priority, false))
  }

  /** `Workers::start`: sequence 1, paused, and one new handle per thread,
      added after any earlier ones. */
  function Start(p: Pool, threads: nat, affinity: int, priority: int): (r: Pool)
    requires Valid(p)
    ensures Valid(r) && !IsStopped(r) && IsPaused(r) && Sequence(r) == 1
    ensures |r.handles| == |p.handles| + threads && r.handles[..|p.handles|] == p.handles
    ensures forall i :: |p.handles| <= i < |r.handles| ==>
      r.handles[i].threadId == i - |p.handles| && !r.handles[i].hasWorker
    ensures r.(paused := p.paused, sequence := p.sequence, handles := p.handles) == p
  {
    p.(sequence := 1, paused := 1, handles := p.handles + NewHandles(threads, affinity, priority))
  }

  /** `Workers::onReady`: thread `k` has created its worker. */
  function OnReady(p: Pool, k: nat): (r: Pool)
    requires k < |p.handles|
    ensures |r.handles| == |p.handles|
    ensures r.handles[k].hasWorker && r.handles[k].threadId == p.handles[k].threadId
    ensures forall i :: 0 <= i < |p.handles| && i != k ==> r.handles[i] == p.handles[i]
    ensures r.(handles := p.handles) == p
  {
    p.(handles := p.handles[k := p.handles[k].(hasWorker := true)])
  }

  /** `Workers::stop`: the shutdown sentinel. */
  function Stop(p: Pool): (r: Pool)
    requires Valid(p)
    ensures Valid(r) && IsStopped(r) && !IsPaused(r)
    ensures r.(paused := p.paused, sequence := p.sequence) == p
  {
    p.(paused := 0, sequence := 0)
  }

  // --- job and enable switches ----------------------------------------------

  /** `Workers::setEnabled`. */
  function SetEnabled(p: Pool, e: bool): (r: Pool)
    requires Valid(p)
    ensures Valid(r) && IsEnabled(r) == e
    ensures p.enabled == e ==> r == p
    // before the first job only the switch moves; the workers are not told
    ensures p.enabled != e && !p.active ==> r == p.(enabled := e)
    // on an active pool the workers pause or resume, and their job is outdated
    ensures p.enabled != e && p.active ==>
      && (IsPaused(r) <==> !e)
      && IsOutdated(r, Sequence(p))
      && Sequence(r) == Inc64(Sequence(p))
    ensures r.(enabled := p.enabled, paused := p.paused, sequence := p.sequence) == p
  {
    if p.enabled == e then p
    else if !p.active then p.(enabled := e)
    else p.(enabled := e, paused := if e then 0 else 1, sequence := Inc64(p.sequence))
  }

  /** `Workers::setJob`. */
  function SetJob(p: Pool, job: Job): (r: Pool)
    requires Valid(p)
    ensures Valid(r) && r.job == job && r.active
    ensures p.enabled ==> !IsPaused(r) && Sequence(r) == Inc64(Sequence(p)) && IsOutdated(r, Sequence(p))
    ensures !p.enabled ==> r.paused == p.paused && Sequence(r) == Sequence(p)
    ensures r.(job := p.job, active := p.active, paused := p.paused, sequence := p.sequence) == p
  {
    var q := p.(job := job, active := true);
    if !p.enabled then q else q.(sequence := Inc64(p.sequence), paused := 0)
  }

  /** `Workers::pause`. */
  function Pause(p: Pool): (r: Pool)
    requires Valid(p)
    ensures Valid(r) && !r.active && IsPaused(r)
    ensures Sequence(r) == Inc64(Sequence(p))
    ensures IsEnabled(r) == IsEnabled(p)
    ensures r.(active := p.active, paused := p.paused, sequence := p.sequence) == p
  {
    p.(active := false, paused := 1, sequence := Inc64(p.sequence))
  }

  /** A worker that read the sequence before `pause` drops its job: the
      increment changes the value even when it wraps. */
  lemma PauseOutdates(p: Pool, s: nat)
    requires Valid(p) && s == Sequence(p)
    ensures IsOutdated(Pause(p), s)
  {
  }

  /** While the pool is switched off, new jobs are stored but the workers
      keep their state and are not told. */
  lemma DisabledJobIsSilent(p: Pool, job: Job)
    requires Valid(p) && !IsEnabled(p)
    ensures IsPaused(SetJob(p, job)) == IsPaused(p)
    ensures !IsOutdated(SetJob(p, job), Sequence(p))
  {
  }

  /** Switching the pool off and on again after a job resumes the workers
      with a job they must fetch afresh. */
  lemma OffOnResumes(p: Pool, job: Job, s: nat)
    requires Valid(p) && IsEnabled(p) && s == Sequence(p)
    ensures var q := SetEnabled(SetEnabled(SetJob(p, job), false), true);
      !IsPaused(q) && IsEnabled(q) && q.job == job && IsOutdated(q, s)
  {
    var a := SetJob(p, job);
    var b := SetEnabled(a, false);
    var q := SetEnabled(b, true);
    assert IsOutdated(b, Sequence(a));
    assert Sequence(q) == Inc64(Sequence(b));
    if Sequence(q) == s {
      assert Sequence(a) == Inc64(s);
      assert Sequence(b) == Inc64(Sequence(a));
      ThreeIncrementsMove(s);
      assert false;
    }
  }

  /** Three increments of a 64-bit counter never come back to the start. */
  lemma ThreeIncrementsMove(s: nat)
    requires IsUint64(s)
    ensures Inc64(Inc64(Inc64(s))) != s
  {
  }

  /** Until the counter wraps, nothing but `stop` sets the sentinel: on a
      running pool `setJob`, `setEnabled` and `pause` keep it running. */
  lemma RunningUntilStopped(p: Pool, job: Job, e: bool)
    requires Valid(p) && !IsStopped(p) && Sequence(p) < TwoTo64 - 1
    ensures !IsStopped(SetJob(p, job))
    ensures !IsStopped(SetEnabled(p, e))
    ensures !IsStopped(Pause(p))
  {
  }

  // --- the result queue -------------------------------------------------------

  /** `Workers::submit`: the result goes to the back of the queue. */
  function Submit(p: Pool, res: JobResult): (r: Pool)
    ensures r.queue == p.queue + [res]
    ensures r.(queue := p.queue) == p
  {
    p.(queue := p.queue + [res])
  }

  /** Results submitted one after another. */
  function SubmitAll(p: Pool, rs: seq<JobResult>): Pool
    decreases |rs|
  {
    if |rs| == 0 then p else SubmitAll(Submit(p, rs[0]), rs[1..])
  }

  /** Submitting keeps the order: the queue grows by the results as given. */
  lemma {:induction false} SubmitAllAppends(p: Pool, rs: seq<JobResult>)
    ensures SubmitAll(p, rs).queue == p.queue + rs
    ensures SubmitAll(p, rs).(queue := p.queue) == p
    decreases |rs|
  {
    if |rs| > 0 {
      SubmitAllAppends(Submit(p, rs[0]), rs[1..]);
      assert p.queue + [rs[0]] + rs[1..] == p.queue + rs;
    }
  }

  /** `Workers::onResult`: the queue is moved, front first, into a local
      list, which is then handed to the listener in order. Returns the pool
      and the results in the order the listener receives them. */
  method OnResult(p: Pool) returns (r: Pool, delivered: seq<JobResult>)
    ensures delivered == p.queue
    ensures r.queue == []
    ensures r.(queue := p.queue) == p
  {
    var results: seq<JobResult> := [];
    r := p;
    while |r.queue| > 0
      invariant results + r.queue == p.queue
      invariant r.(queue := p.queue) == p
      decreases |r.queue|
    {
      results := results + [r.queue[0]];
      r := r.(queue := r.queue[1..]);
    }
    delivered := [];
    var i := 0;
    while i < |results|
      invariant 0 <= i <= |results|
      invariant delivered == results[..i]
    {
      delivered := delivered + [results[i]];
      i := i + 1;
    }
  }

  /** Every result submitted since the last delivery reaches the listener
      once, in submission order, after those already waiting. */
  method SubmitThenDeliver(p: Pool, rs: seq<JobResult>) returns (r: Pool, delivered: seq<JobResult>)
    ensures delivered == p.queue + rs
    ensures r.queue == []
  {
    SubmitAllAppends(p, rs);
    r, delivered := OnResult(SubmitAll(p, rs));
  }

  // --- the hashrate timer -------------------------------------------------------

  /** What one timer tick does: the pool afterwards, the thread ids whose
      hash counts were sampled, and whether the highest rate was updated. */
  datatype Tick = Tick(pool: Pool, sampled: seq<nat>, updatedHighest: bool)

  predicate AllReady(hs: seq<Handle>) {
    forall i :: 0 <= i < |hs| ==> hs[i].hasWorker
  }

  function ThreadIds(hs: seq<Handle>): (ids: seq<nat>)
    ensures |ids| == |hs| && forall i :: 0 <= i < |hs| ==> ids[i] == hs[i].threadId
  {
    seq(|hs|, i requires 0 <= i < |hs| => hs[i].threadId)
  }

  /** `(m_ticks++ & 0xF) == 0` on the 64-bit counter. */
  predicate HighestDue(ticks: nat) { ticks % 16 == 0 }

  /** The counter step of a complete tick: the count after it, and whether the
      highest rate is updated. */
  function TickStep(ticks: nat): (r: (nat, bool))
    requires IsUint64(ticks)
    ensures IsUint64(r.0)
  {
    (Inc64(ticks), HighestDue(ticks))
  }

  /** `Workers::onTick`: handles are sampled in order; at the first one
      without a worker the tick ends early, without counting. */
  method OnTick(p: Pool) returns (t: Tick)
    requires Valid(p)
    ensures Valid(t.pool) && t.pool.(ticks := p.ticks) == p
    ensures AllReady(p.handles) ==>
      && t.sampled == ThreadIds(p.handles)
      && (t.pool.ticks, t.updatedHighest) == TickStep(p.ticks)
      && t.pool.ticks == Inc64(p.ticks)
      && (t.updatedHighest <==> HighestDue(p.ticks))
    ensures !AllReady(p.handles) ==>
      && t.pool == p && !t.updatedHighest
      && |t.sampled| < |p.handles|
      && AllReady(p.handles[..|t.sampled|]) && !p.handles[|t.sampled|].hasWorker
      && t.sampled == ThreadIds(p.handles[..|t.sampled|])
  {
    var sampled: seq<nat> := [];
    var i := 0;
    while i < |p.handles|
      invariant 0 <= i <= |p.handles|
      invariant AllReady(p.handles[..i])
      invariant sampled == ThreadIds(p.handles[..i])
    {
      if !p.handles[i].hasWorker {
        return Tick(p, sampled, false);
      }
      assert p.handles[..i + 1] == p.handles[..i] + [p.handles[i]];
      sampled := sampled + [p.handles[i].threadId];
      i := i + 1;
    }
    assert p.handles[..i] == p.handles;
    var (ticks, highest) := TickStep(p.ticks);
    t := Tick(p.(ticks := ticks), sampled, highest);
  }

  /** The tick count after `k` complete ticks from a fresh counter, and how
      often the highest rate was updated on the way: `k` runs of the counter
      step of `OnTick`. */
  function CompleteTicks(k: nat): (r: (nat, nat))
    ensures IsUint64(r.0)
  {
    if k == 0 then (0, 0)
    else
      var (ticks, highest) := CompleteTicks(k - 1);
      var (next, due) := TickStep(ticks);
      (next, highest + if due then 1 else 0)
  }

  /** From a fresh counter, the highest rate is updated on ticks 0, 16, 32,
      ...: once in every sixteen, starting with the first. */
  lemma {:induction false} HighestCadence(k: nat)
    requires k <= TwoTo64
    ensures CompleteTicks(k).0 == k % TwoTo64
    ensures CompleteTicks(k).1 == (k + 15) / 16
  {
    if k > 0 {
      HighestCadence(k - 1);
      var prev := CompleteTicks(k - 1);
      BelowModulus(k - 1);
      assert prev.0 == k - 1;
      BelowModulus(k);
      CeilingStep(k - 1);
    }
  }

  /** Reduction modulo 2^64 up to and including the modulus. */
  lemma BelowModulus(k: nat)
    requires k <= TwoTo64
    ensures k % TwoTo64 == if k == TwoTo64 then 0 else k
  {
  }

  /** One more tick adds one to the count of multiples of 16 below it exactly
      when the tick before it was one. */
  lemma CeilingStep(m: nat)
    ensures (m + 16) / 16 == (m + 15) / 16 + if m % 16 == 0 then 1 else 0
  {
    var q := m / 16;
    assert m == q * 16 + m % 16;
  }
}
