/**
 * The job queue of `internal/queue/queue.go`: every job ever admitted, an
 * index by ID, the buffered work channel that feeds the single worker, and
 * the counters of light jobs, which bypass the channel.
 *
 * A Go `*Job` shared between the list, the index and the channel is a
 * handle: the job's position in `jobs`. A retry goroutine sleeping before
 * it re-sends its job is an element of `retryWaiting`; the job the worker
 * holds is `active`.
 */
module JobQueue {
  import opened Wrappers
  import opened Jobs

  /** Capacity of the work channel. */
  const ChanCapacity: nat := 100

  // ---------------------------------------------------------------------
  // Views of the job list
  // ---------------------------------------------------------------------

  /** The Pending jobs of a list, in list order. */
  function PendingOf(js: seq<Job>): seq<Job>
    decreases |js|
  {
    if js == [] then []
    else
      var last := js[|js| - 1];
      PendingOf(js[..|js| - 1]) + (if last.status == Pending then [last] else [])
  }

  /** Taking the Pending jobs commutes with concatenation, so list order is kept. */
  lemma {:induction false} PendingOfAppend(a: seq<Job>, b: seq<Job>)
    ensures PendingOf(a + b) == PendingOf(a) + PendingOf(b)
    decreases |b|
  {
    if b == [] {
      assert a + b == a;
    } else {
      var b' := b[..|b| - 1];
      assert (a + b)[..|a + b| - 1] == a + b';
      assert (a + b)[|a + b| - 1] == b[|b| - 1];
      PendingOfAppend(a, b');
    }
  }

  /** Each job occurs in the result as often as in the list if it is Pending, and not at all otherwise. */
  lemma {:induction false} PendingOfCounts(js: seq<Job>)
    ensures forall j :: multiset(PendingOf(js))[j] == if j.status == Pending then multiset(js)[j] else 0
    decreases |js|
  {
    if js != [] {
      var init := js[..|js| - 1];
      PendingOfCounts(init);
      assert js == init + [js[|js| - 1]];
    }
  }

  /** Number of heavy jobs of a list in status `s`. */
  function HeavyCount(js: seq<Job>, s: Status): nat
    decreases |js|
  {
    if js == [] then 0
    else
      var last := js[|js| - 1];
      HeavyCount(js[..|js| - 1], s) + (if !last.isLight && last.status == s then 1 else 0)
  }

  /** Number of heavy jobs of a list. */
  function HeavyTotal(js: seq<Job>): nat
    decreases |js|
  {
    if js == [] then 0 else HeavyTotal(js[..|js| - 1]) + (if js[|js| - 1].isLight then 0 else 1)
  }

  /** The four heavy counts partition the heavy jobs. */
  lemma {:induction false} HeavyPartition(js: seq<Job>)
    ensures HeavyCount(js, Pending) + HeavyCount(js, Processing) + HeavyCount(js, Completed) + HeavyCount(js, Failed)
            == HeavyTotal(js)
    ensures HeavyTotal(js) <= |js|
    decreases |js|
  {
    if js != [] {
      HeavyPartition(js[..|js| - 1]);
    }
  }

  // ---------------------------------------------------------------------
  // Scheduling invariant
  // ---------------------------------------------------------------------

  /** Handle `h` names a heavy job waiting for an attempt. */
  predicate Waiting(jobs: seq<Job>, h: nat) {
    h < |jobs| && !jobs[h].isLight && jobs[h].status == Pending
  }

  /** How many times job `h` is due to reach the worker: in the channel, asleep before a re-send, or in hand. */
  function Deliveries(chan: seq<nat>, retry: multiset<nat>, active: Option<nat>, h: nat): nat {
    multiset(chan)[h] + retry[h] + (if active == Some(h) then 1 else 0)
  }

  /** Everything due for delivery is a heavy job waiting for an attempt. */
  predicate DueWaiting(jobs: seq<Job>, chan: seq<nat>, retry: multiset<nat>) {
    (forall i :: 0 <= i < |chan| ==> Waiting(jobs, chan[i]))
    && (forall h :: h in retry ==> Waiting(jobs, h))
  }

  /** The job in hand is heavy and Processing, and no other heavy job is. */
  predicate InHand(jobs: seq<Job>, active: Option<nat>) {
    (active.Some? ==> active.value < |jobs| && !jobs[active.value].isLight && jobs[active.value].status == Processing)
    && (forall h :: 0 <= h < |jobs| && !jobs[h].isLight && jobs[h].status == Processing ==> active == Some(h))
  }

  /** Every heavy job keeps its retry accounting. */
  predicate Accounted(jobs: seq<Job>, maxRetries: int) {
    forall h :: 0 <= h < |jobs| && !jobs[h].isLight ==> RetryAccounted(jobs[h], maxRetries)
  }

  /** No job is due for delivery twice. */
  ghost predicate DueOnce(chan: seq<nat>, retry: multiset<nat>, active: Option<nat>) {
    forall h :: Deliveries(chan, retry, active, h) <= 1
  }

  /**
   * What the worker loop and `processJob` maintain: whatever is due for
   * delivery is a waiting heavy job and is due at most once; the job in hand
   * is the only heavy job Processing; every heavy job keeps its retry
   * accounting.
   */
  ghost predicate Scheduled(jobs: seq<Job>, chan: seq<nat>, retry: multiset<nat>, active: Option<nat>, maxRetries: int) {
    DueWaiting(jobs, chan, retry) && InHand(jobs, active) && Accounted(jobs, maxRetries) && DueOnce(chan, retry, active)
  }

  /** At most one heavy job is Processing at any time: the queue runs them one by one. */
  lemma OneHeavyAtATime(jobs: seq<Job>, chan: seq<nat>, retry: multiset<nat>, active: Option<nat>, maxRetries: int, a: nat, b: nat)
    requires Scheduled(jobs, chan, retry, active, maxRetries)
    requires a < |jobs| && b < |jobs| && !jobs[a].isLight && !jobs[b].isLight
    requires jobs[a].status == Processing && jobs[b].status == Processing
    ensures a == b
  {
  }

  /** A heavy job that is Completed or Failed is never delivered again. */
  lemma SettledNotDue(jobs: seq<Job>, chan: seq<nat>, retry: multiset<nat>, active: Option<nat>, maxRetries: int, h: nat)
    requires Scheduled(jobs, chan, retry, active, maxRetries)
    requires h < |jobs| && (jobs[h].status == Completed || jobs[h].status == Failed)
    ensures Deliveries(chan, retry, active, h) == 0
  {
    assert h !in chan;
  }

  /** A handle outside the job list is not due for delivery. */
  lemma NewHandleNotDue(jobs: seq<Job>, chan: seq<nat>, retry: multiset<nat>, active: Option<nat>, maxRetries: int)
    requires Scheduled(jobs, chan, retry, active, maxRetries)
    ensures Deliveries(chan, retry, active, |jobs|) == 0
  {
    assert |jobs| !in chan;
  }

  /** Admitting a fresh heavy job keeps the schedule, whether or not it reaches the channel. */
  lemma AdmitKeeps(jobs: seq<Job>, chan: seq<nat>, retry: multiset<nat>, active: Option<nat>, maxRetries: int, job: Job)
    requires Scheduled(jobs, chan, retry, active, maxRetries)
    requires !job.isLight && job.status == Pending && RetryAccounted(job, maxRetries)
    ensures Scheduled(jobs + [job], chan, retry, active, maxRetries)
    ensures Scheduled(jobs + [job], chan + [|jobs|], retry, active, maxRetries)
  {
    var js := jobs + [job];
    NewHandleNotDue(jobs, chan, retry, active, maxRetries);
    forall h: nat | h < |jobs| ensures Waiting(js, h) == Waiting(jobs, h) {
      assert js[h] == jobs[h];
    }
    var n: nat := |jobs|;
    assert DueOnce(chan + [n], retry, active) by {
      forall h ensures Deliveries(chan + [n], retry, active, h) <= 1 {
        assert multiset(chan + [n]) == multiset(chan) + multiset{n};
        assert Deliveries(chan, retry, active, h) <= 1;
        if h == n {
          assert Deliveries(chan + [n], retry, active, h) == Deliveries(chan, retry, active, h) + 1;
        } else {
          assert Deliveries(chan + [n], retry, active, h) == Deliveries(chan, retry, active, h);
        }
      }
    }
  }

  /** Registering a light job leaves the schedule as it was. */
  lemma RegisterLightKeeps(jobs: seq<Job>, chan: seq<nat>, retry: multiset<nat>, active: Option<nat>, maxRetries: int, job: Job)
    requires Scheduled(jobs, chan, retry, active, maxRetries) && job.isLight
    ensures Scheduled(jobs + [job], chan, retry, active, maxRetries)
  {
    var js := jobs + [job];
    forall h: nat | h < |jobs| ensures Waiting(js, h) == Waiting(jobs, h) {
      assert js[h] == jobs[h];
    }
  }

  /** Rewriting a light job as another light job leaves the schedule as it was. */
  lemma UpdateLightKeeps(jobs: seq<Job>, chan: seq<nat>, retry: multiset<nat>, active: Option<nat>, maxRetries: int, h: nat, j: Job)
    requires Scheduled(jobs, chan, retry, active, maxRetries)
    requires h < |jobs| && jobs[h].isLight && j.isLight
    ensures Scheduled(jobs[h := j], chan, retry, active, maxRetries)
  {
    var js := jobs[h := j];
    forall x: nat | x < |jobs| ensures Waiting(js, x) == Waiting(jobs, x) {
    }
  }

  /** The job the worker takes from the head of the channel. */
  function Taken(jobs: seq<Job>, k: nat, now: Stamp): seq<Job>
    requires k < |jobs|
  {
    jobs[k := jobs[k].(status := Processing, startedAt := now)]
  }

  /** Taking the head of the channel while nothing is in hand keeps the schedule. */
  lemma ReceiveKeeps(jobs: seq<Job>, chan: seq<nat>, retry: multiset<nat>, maxRetries: int, now: Stamp)
    requires Scheduled(jobs, chan, retry, None, maxRetries) && chan != []
    ensures chan[0] < |jobs|
    ensures Scheduled(Taken(jobs, chan[0], now), chan[1..], retry, Some(chan[0]), maxRetries)
  {
    var k := chan[0];
    assert Waiting(jobs, k);
    var js := Taken(jobs, k, now);
    var rest := chan[1..];
    assert chan == [k] + rest;
    assert multiset(chan) == multiset{k} + multiset(rest);
    assert Deliveries(chan, retry, None, k) <= 1;
    assert k !in multiset(rest) && k !in retry;
    assert DueOnce(rest, retry, Some(k)) by {
      forall x ensures Deliveries(rest, retry, Some(k), x) <= 1 {
        assert Deliveries(rest, retry, Some(k), x) == Deliveries(chan, retry, None, x);
      }
    }
    assert DueWaiting(js, rest, retry) by {
      forall i | 0 <= i < |rest| ensures Waiting(js, rest[i]) {
        assert rest[i] in multiset(rest);
        assert rest[i] == chan[i + 1];
      }
    }
  }

  /**
   * Settling the job in hand keeps the schedule: it is either due once more,
   * through a retry, or not at all.
   */
  lemma FinishKeeps(jobs: seq<Job>, chan: seq<nat>, retry: multiset<nat>, k: nat, maxRetries: int,
                    work: Progress, err: Option<string>, now: Stamp)
    requires Scheduled(jobs, chan, retry, Some(k), maxRetries)
    ensures k < |jobs|
    ensures var s := Settle(WithProgress(jobs[k], work), err, maxRetries, now);
            Scheduled(jobs[k := s.0], chan, if s.1 then retry + multiset{k} else retry, None, maxRetries)
  {
    var s := Settle(WithProgress(jobs[k], work), err, maxRetries, now);
    SettleAccounted(WithProgress(jobs[k], work), err, maxRetries, now);
    var js := jobs[k := s.0];
    var retry' := if s.1 then retry + multiset{k} else retry;
    assert Deliveries(chan, retry, Some(k), k) <= 1;
    assert k !in chan && k !in retry;
    assert DueOnce(chan, retry', None) by {
      forall x ensures Deliveries(chan, retry', None, x) <= 1 {
        assert Deliveries(chan, retry', None, x) <= Deliveries(chan, retry, Some(k), x);
      }
    }
    assert DueWaiting(js, chan, retry') by {
      forall i | 0 <= i < |chan| ensures Waiting(js, chan[i]) {
        assert chan[i] != k;
      }
    }
  }

  /** A retry goroutine re-sending its job keeps the schedule. */
  lemma RedeliverKeeps(jobs: seq<Job>, chan: seq<nat>, retry: multiset<nat>, active: Option<nat>, maxRetries: int, h: nat)
    requires Scheduled(jobs, chan, retry, active, maxRetries) && h in retry
    ensures Scheduled(jobs, chan + [h], retry - multiset{h}, active, maxRetries)
  {
    assert multiset(chan + [h]) == multiset(chan) + multiset{h};
    assert DueOnce(chan + [h], retry - multiset{h}, active) by {
      forall x ensures Deliveries(chan + [h], retry - multiset{h}, active, x) <= 1 {
        assert Deliveries(chan + [h], retry - multiset{h}, active, x) == Deliveries(chan, retry, active, x);
      }
    }
  }

  class Queue {
    var jobs: seq<Job>
    var jobMap: map<string, nat>
    var jobsChan: seq<nat>
    var retryWaiting: multiset<nat>
    var active: Option<nat>
    var lightCompleted: int
    var lightFailed: int
    const maxRetries: int

    /** Handles in range, the channel within capacity, the index pointing at jobs with that ID. */
    predicate Valid()
      reads this
    {
      |jobsChan| <= ChanCapacity
      && (forall i :: 0 <= i < |jobsChan| ==> jobsChan[i] < |jobs|)
      && (forall h :: h in retryWaiting ==> h < |jobs|)
      && (active.Some? ==> active.value < |jobs|)
      && (forall id :: id in jobMap ==> jobMap[id] < |jobs| && jobs[jobMap[id]].id == id)
    }

    ghost predicate Consistent()
      reads this
    {
      Scheduled(jobs, jobsChan, retryWaiting, active, maxRetries)
    }

    /** `New`: no jobs, an empty channel, zero counters. */
    constructor(maxRetries: int)
      ensures Valid() && Consistent()
      ensures jobs == [] && jobMap == map[] && jobsChan == [] && retryWaiting == multiset{} && active == None
      ensures lightCompleted == 0 && lightFailed == 0 && this.maxRetries == maxRetries
    {
      jobs := [];
      jobMap := map[];
      jobsChan := [];
      retryWaiting := multiset{};
      active := None;
      lightCompleted := 0;
      lightFailed := 0;
      this.maxRetries := maxRetries;
    }

    /**
     * `Enqueue`: record the job and index it by ID, then offer it to the
     * channel without blocking. When the channel is full the job stays in
     * the list, Pending, with nothing scheduled to deliver it.
     */
    method Enqueue(job: Job) returns (queued: bool)
      requires Valid()
      modifies this
      ensures Valid()
      ensures jobs == old(jobs) + [job] && jobMap == old(jobMap)[job.id := |old(jobs)|]
      ensures queued <==> |old(jobsChan)| < ChanCapacity
      ensures jobsChan == if queued then old(jobsChan) + [|old(jobs)|] else old(jobsChan)
      ensures retryWaiting == old(retryWaiting) && active == old(active)
      ensures lightCompleted == old(lightCompleted) && lightFailed == old(lightFailed)
      ensures old(Consistent()) && !job.isLight && job.status == Pending && RetryAccounted(job, maxRetries) ==> Consistent()
    {
      if Consistent() && !job.isLight && job.status == Pending && RetryAccounted(job, maxRetries) {
        AdmitKeeps(jobs, jobsChan, retryWaiting, active, maxRetries, job);
      }
      var h := |jobs|;
      jobs := jobs + [job];
      jobMap := jobMap[job.id := h];
      queued := |jobsChan| < ChanCapacity;
      if queued {
        jobsChan := jobsChan + [h];
      }
    }

    /** `RegisterLightJob`: record and index the job; the channel is not touched. */
    method RegisterLightJob(job: Job)
      requires Valid()
      modifies this
      ensures Valid()
      ensures jobs == old(jobs) + [job] && jobMap == old(jobMap)[job.id := |old(jobs)|]
      ensures jobsChan == old(jobsChan) && retryWaiting == old(retryWaiting) && active == old(active)
      ensures lightCompleted == old(lightCompleted) && lightFailed == old(lightFailed)
      ensures old(Consistent()) && job.isLight ==> Consistent()
    {
      if Consistent() && job.isLight {
        RegisterLightKeeps(jobs, jobsChan, retryWaiting, active, maxRetries, job);
      }
      jobs := jobs + [job];
      jobMap := jobMap[job.id := |jobs| - 1];
    }

    method MarkLightJobCompleted()
      modifies this
      ensures lightCompleted == old(lightCompleted) + 1 && lightFailed == old(lightFailed)
      ensures jobs == old(jobs) && jobMap == old(jobMap) && jobsChan == old(jobsChan)
      ensures retryWaiting == old(retryWaiting) && active == old(active)
    {
      lightCompleted := lightCompleted + 1;
    }

    method MarkLightJobFailed()
      modifies this
      ensures lightFailed == old(lightFailed) + 1 && lightCompleted == old(lightCompleted)
      ensures jobs == old(jobs) && jobMap == old(jobMap) && jobsChan == old(jobsChan)
      ensures retryWaiting == old(retryWaiting) && active == old(active)
    {
      lightFailed := lightFailed + 1;
    }

    /**
     * The handler's writes through its pointer to a job: the job at `h`
     * becomes `j`. Writing a light job leaves the scheduling untouched.
     */
    method UpdateJob(h: nat, j: Job)
      requires Valid() && h < |jobs| && j.id == jobs[h].id
      modifies this
      ensures Valid()
      ensures jobs == old(jobs)[h := j]
      ensures jobMap == old(jobMap) && jobsChan == old(jobsChan) && retryWaiting == old(retryWaiting) && active == old(active)
      ensures lightCompleted == old(lightCompleted) && lightFailed == old(lightFailed)
      ensures old(Consistent()) && old(jobs[h].isLight) && j.isLight ==> Consistent()
    {
      if Consistent() && jobs[h].isLight && j.isLight {
        UpdateLightKeeps(jobs, jobsChan, retryWaiting, active, maxRetries, h, j);
      }
      jobs := jobs[h := j];
    }

    /** `GetJob`: the job last indexed under `id`, if any. */
    method GetJob(id: string) returns (r: Option<Job>)
      requires Valid()
      ensures r.Some? <==> id in jobMap
      ensures r.Some? ==> r.value == jobs[jobMap[id]] && r.value.id == id
    {
      if id in jobMap {
        r := Some(jobs[jobMap[id]]);
      } else {
        r := None;
      }
    }

    /** `GetAllJobs`: a copy of the job list. */
    method GetAllJobs() returns (r: seq<Job>)
      ensures r == jobs
    {
      r := jobs;
    }

    /** `GetPendingJobs`: the Pending jobs in the order they were admitted. */
    method GetPendingJobs() returns (pending: seq<Job>)
      ensures pending == PendingOf(jobs)
    {
      pending := [];
      var i := 0;
      while i < |jobs|
        invariant 0 <= i <= |jobs|
        invariant pending == PendingOf(jobs[..i])
      {
        assert jobs[..i + 1][..i] == jobs[..i];
        if jobs[i].status == Pending {
          pending := pending + [jobs[i]];
        }
        i := i + 1;
      }
      assert jobs[..i] == jobs;
    }

    /**
     * `GetQueueStats`: the total number of jobs, light ones included; the
     * heavy jobs counted by status; and the two light-job counters, which
     * are kept apart from any job's status.
     */
    method GetQueueStats() returns (stats: map<string, int>)
      ensures stats.Keys == {"total", "heavy_pending", "heavy_processing", "heavy_completed", "heavy_failed", "light_completed", "light_failed"}
      ensures stats["total"] == |jobs|
      ensures stats["heavy_pending"] == HeavyCount(jobs, Pending)
      ensures stats["heavy_processing"] == HeavyCount(jobs, Processing)
      ensures stats["heavy_completed"] == HeavyCount(jobs, Completed)
      ensures stats["heavy_failed"] == HeavyCount(jobs, Failed)
      ensures stats["light_completed"] == lightCompleted && stats["light_failed"] == lightFailed
    {
      var heavyPending, heavyProcessing, heavyCompleted, heavyFailed := 0, 0, 0, 0;
      var i := 0;
      while i < |jobs|
        invariant 0 <= i <= |jobs|
        invariant heavyPending == HeavyCount(jobs[..i], Pending)
        invariant heavyProcessing == HeavyCount(jobs[..i], Processing)
        invariant heavyCompleted == HeavyCount(jobs[..i], Completed)
        invariant heavyFailed == HeavyCount(jobs[..i], Failed)
      {
        assert jobs[..i + 1][..i] == jobs[..i];
        var job := jobs[i];
        if !job.isLight {
          match job.status {
            case Pending => heavyPending := heavyPending + 1;
            case Processing => heavyProcessing := heavyProcessing + 1;
            case Completed => heavyCompleted := heavyCompleted + 1;
            case Failed => heavyFailed := heavyFailed + 1;
          }
        }
        i := i + 1;
      }
      assert jobs[..i] == jobs;
      stats := map[
        "total" := |jobs|,
        "heavy_pending" := heavyPending,
        "heavy_processing" := heavyProcessing,
        "heavy_completed" := heavyCompleted,
        "heavy_failed" := heavyFailed,
        "light_completed" := lightCompleted,
        "light_failed" := lightFailed];
    }

    /**
     * The worker takes the job at the head of the channel and `processJob`
     * marks it Processing. With an empty channel the worker waits and
     * nothing changes.
     */
    method Receive(now: Stamp) returns (h: Option<nat>)
      requires Valid() && active.None?
      modifies this
      ensures Valid()
      ensures old(jobsChan) == [] ==> h.None? && jobs == old(jobs) && jobsChan == old(jobsChan) && active == None
      ensures old(jobsChan) != [] ==> h == Some(old(jobsChan)[0]) && jobsChan == old(jobsChan)[1..] && active == h
      ensures old(jobsChan) != [] ==> jobs == old(jobs)[h.value := old(jobs)[h.value].(status := Processing, startedAt := now)]
      ensures jobMap == old(jobMap) && retryWaiting == old(retryWaiting)
      ensures lightCompleted == old(lightCompleted) && lightFailed == old(lightFailed)
      ensures old(Consistent()) ==> Consistent()
    {
      if jobsChan == [] {
        return None;
      }
      var k := jobsChan[0];
      if Consistent() {
        ReceiveKeeps(jobs, jobsChan, retryWaiting, maxRetries, now);
      }
      jobs := jobs[k := jobs[k].(status := Processing, startedAt := now)];
      jobsChan := jobsChan[1..];
      active := Some(k);
      h := Some(k);
    }

    /**
     * The end of `processJob`: the processor's writes to the job (`work`)
     * are kept, then `Settle` records the outcome; a failure with retries
     * left starts a goroutine that will re-send the job.
     */
    method Finish(work: Progress, err: Option<string>, now: Stamp) returns (retry: bool)
      requires Valid() && active.Some?
      modifies this
      ensures Valid()
      ensures var h := old(active).value;
              var s := Settle(WithProgress(old(jobs)[h], work), err, maxRetries, now);
              jobs == old(jobs)[h := s.0] && retry == s.1
              && retryWaiting == (if retry then old(retryWaiting) + multiset{h} else old(retryWaiting))
      ensures active == None && jobsChan == old(jobsChan) && jobMap == old(jobMap)
      ensures lightCompleted == old(lightCompleted) && lightFailed == old(lightFailed)
      ensures old(Consistent()) ==> Consistent()
    {
      var h := active.value;
      if Consistent() {
        FinishKeeps(jobs, jobsChan, retryWaiting, h, maxRetries, work, err, now);
      }
      var s := Settle(WithProgress(jobs[h], work), err, maxRetries, now);
      jobs := jobs[h := s.0];
      active := None;
      retry := s.1;
      if retry {
        retryWaiting := retryWaiting + multiset{h};
      }
    }

    /** A retry goroutine wakes and re-sends its job; the send waits until the channel has room. */
    method Redeliver(h: nat)
      requires Valid() && h in retryWaiting && |jobsChan| < ChanCapacity
      modifies this
      ensures Valid()
      ensures retryWaiting == old(retryWaiting) - multiset{h} && jobsChan == old(jobsChan) + [h]
      ensures jobs == old(jobs) && jobMap == old(jobMap) && active == old(active)
      ensures lightCompleted == old(lightCompleted) && lightFailed == old(lightFailed)
      ensures old(Consistent()) ==> Consistent()
    {
      if Consistent() {
        RedeliverKeeps(jobs, jobsChan, retryWaiting, active, maxRetries, h);
      }
      retryWaiting := retryWaiting - multiset{h};
      jobsChan := jobsChan + [h];
    }
  }
}
