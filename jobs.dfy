/**
 * The job record (`internal/queue/job.go`) and the rule by which a finished
 * attempt settles a queued job (`processJob` in `internal/queue/queue.go`).
 */
module Jobs {
  import opened Wrappers

  datatype Status = Pending | Processing | Completed | Failed

  /** The string each status serialises to. */
  function StatusText(s: Status): string {
    match s
    case Pending => "pending"
    case Processing => "processing"
    case Completed => "completed"
    case Failed => "failed"
  }

  function ParseStatus(t: string): (r: Option<Status>)
    ensures r.Some? ==> StatusText(r.value) == t
  {
    if t == "pending" then Some(Pending)
    else if t == "processing" then Some(Processing)
    else if t == "completed" then Some(Completed)
    else if t == "failed" then Some(Failed)
    else None
  }

  /** The four status strings are distinct, so each reads back as its status. */
  lemma StatusRoundTrip(s: Status)
    ensures ParseStatus(StatusText(s)) == Some(s)
  {
  }

  /** A moment as far as the model cares: never set, or set at some time. */
  datatype Stamp = Unset | Stamped(time: int)

  datatype Job = Job(
    id: string,
    sourcePath: string,
    fileName: string,
    torrentName: string,
    category: string,
    status: Status,
    error: string,
    retries: nat,
    createdAt: Stamp,
    startedAt: Stamp,
    completedAt: Stamp,
    isLight: bool,
    stagingPath: string,
    processingPath: string,
    subtitlePath: string,
    translatedPath: string)

  /** A job as `NewJob` makes it: waiting, never tried, heavy, no paths yet. */
  predicate IsFresh(j: Job) {
    j.status == Pending && j.retries == 0 && j.error == [] && !j.isLight
    && j.startedAt == Unset && j.completedAt == Unset
    && j.stagingPath == [] && j.processingPath == [] && j.subtitlePath == [] && j.translatedPath == []
  }

  function NewJob(id: string, sourcePath: string, fileName: string, torrentName: string, category: string, now: int): (j: Job)
    ensures IsFresh(j) && j.createdAt == Stamped(now)
    ensures j.id == id && j.sourcePath == sourcePath && j.fileName == fileName
    ensures j.torrentName == torrentName && j.category == category
  {
    Job(id, sourcePath, fileName, torrentName, category, Pending, "", 0,
        Stamped(now), Unset, Unset, false, "", "", "", "")
  }

  /** The fields the processing pipeline writes while it works on a job. */
  datatype Progress = Progress(
    fileName: string,
    stagingPath: string,
    processingPath: string,
    subtitlePath: string,
    translatedPath: string)

  function ProgressOf(j: Job): Progress {
    Progress(j.fileName, j.stagingPath, j.processingPath, j.subtitlePath, j.translatedPath)
  }

  function WithProgress(j: Job, p: Progress): Job {
    j.(fileName := p.fileName, stagingPath := p.stagingPath, processingPath := p.processingPath,
       subtitlePath := p.subtitlePath, translatedPath := p.translatedPath)
  }

  /** Writing progress changes exactly the progress fields. */
  lemma ProgressRoundTrip(j: Job, p: Progress)
    ensures ProgressOf(WithProgress(j, p)) == p
    ensures WithProgress(j, ProgressOf(j)) == j
    ensures WithProgress(WithProgress(j, p), ProgressOf(j)) == j
  {
  }

  // ---------------------------------------------------------------------
  // Settling an attempt
  // ---------------------------------------------------------------------

  /**
   * How many failed attempts a heavy job can take: `maxRetries`, or a single
   * one when `maxRetries` is zero or negative, since the first failure then
   * already fails the test `retries < maxRetries`.
   */
  function RetryBound(maxRetries: int): nat {
    if maxRetries >= 1 then maxRetries else 1
  }

  /**
   * The bookkeeping at the end of `processJob`. On success the job is
   * Completed, its error cleared and its retry count kept. On failure the
   * count goes up by one and the error is recorded; the job waits for
   * another attempt while the count is below `maxRetries`, and fails for
   * good otherwise. The flag says whether a redelivery is scheduled.
   */
  function Settle(j: Job, err: Option<string>, maxRetries: int, now: Stamp): (r: (Job, bool))
    ensures err.None? ==> r.0.status == Completed && r.0.error == [] && r.0.retries == j.retries && r.0.completedAt == now && !r.1
    ensures err.Some? ==> r.0.retries == j.retries + 1 && r.0.error == err.value
    ensures err.Some? ==> (r.1 <==> j.retries + 1 < maxRetries)
    ensures err.Some? && r.1 ==> r.0.status == Pending && r.0.completedAt == j.completedAt
    ensures err.Some? && !r.1 ==> r.0.status == Failed && r.0.completedAt == now
    ensures r.0 == j.(status := r.0.status, error := r.0.error, retries := r.0.retries, completedAt := r.0.completedAt)
  {
    match err
    case None => (j.(status := Completed, completedAt := now, error := ""), false)
    case Some(e) =>
      var failed := j.(retries := j.retries + 1, error := e);
      if failed.retries < maxRetries then (failed.(status := Pending), true)
      else (failed.(status := Failed, completedAt := now), false)
  }

  /**
   * The retry accounting a heavy job keeps: it never has more failed
   * attempts than the bound, and it is Failed exactly when it has used
   * them all.
   */
  predicate RetryAccounted(j: Job, maxRetries: int) {
    j.retries <= RetryBound(maxRetries) && (j.status == Failed <==> j.retries == RetryBound(maxRetries))
  }

  lemma FreshAccounted(j: Job, maxRetries: int)
    requires IsFresh(j)
    ensures RetryAccounted(j, maxRetries)
  {
  }

  /** Settling an attempt on a job that has not failed for good keeps the accounting. */
  lemma SettleAccounted(j: Job, err: Option<string>, maxRetries: int, now: Stamp)
    requires RetryAccounted(j, maxRetries) && j.status != Failed
    ensures RetryAccounted(Settle(j, err, maxRetries, now).0, maxRetries)
    ensures Settle(j, err, maxRetries, now).0.status != Processing
  {
  }

  /**
   * A job run attempt by attempt with the given outcomes, each attempt
   * settled and redelivered while `Settle` asks for it. Returns the job
   * after the last attempt made and the number of attempts.
   */
  function Attempts(j: Job, outcomes: seq<Option<string>>, maxRetries: int, now: Stamp): (r: (Job, nat))
    ensures r.1 <= |outcomes|
    decreases |outcomes|
  {
    if outcomes == [] then (j, 0)
    else
      var s := Settle(j, outcomes[0], maxRetries, now);
      if s.1 then
        var rest := Attempts(s.0, outcomes[1..], maxRetries, now);
        (rest.0, rest.1 + 1)
      else (s.0, 1)
  }

  predicate AllFail(outcomes: seq<Option<string>>) {
    forall i :: 0 <= i < |outcomes| ==> outcomes[i].Some?
  }

  /**
   * A job that fails every time is attempted exactly as often as the bound
   * allows and ends Failed with that many retries.
   */
  lemma {:induction false} FailingJobExhaustsRetries(j: Job, outcomes: seq<Option<string>>, maxRetries: int, now: Stamp)
    requires j.retries < RetryBound(maxRetries)
    requires AllFail(outcomes) && |outcomes| >= RetryBound(maxRetries) - j.retries
    ensures Attempts(j, outcomes, maxRetries, now).0.status == Failed
    ensures Attempts(j, outcomes, maxRetries, now).0.retries == RetryBound(maxRetries)
    ensures Attempts(j, outcomes, maxRetries, now).1 == RetryBound(maxRetries) - j.retries
    decreases |outcomes|
  {
    var s := Settle(j, outcomes[0], maxRetries, now);
    if s.1 {
      assert AllFail(outcomes[1..]) by {
        forall i | 0 <= i < |outcomes[1..]| ensures outcomes[1..][i].Some? {
          assert outcomes[1..][i] == outcomes[i + 1];
        }
      }
      FailingJobExhaustsRetries(s.0, outcomes[1..], maxRetries, now);
    }
  }

  /**
   * A job whose first success comes after `k` failures, with `k` below the
   * bound, ends Completed after `k + 1` attempts with `k` retries recorded.
   */
  lemma {:induction false} FirstSuccessCompletes(j: Job, outcomes: seq<Option<string>>, k: nat, maxRetries: int, now: Stamp)
    requires k < |outcomes| && outcomes[k].None? && AllFail(outcomes[..k])
    requires j.retries + k < RetryBound(maxRetries)
    ensures Attempts(j, outcomes, maxRetries, now).0.status == Completed
    ensures Attempts(j, outcomes, maxRetries, now).0.retries == j.retries + k
    ensures Attempts(j, outcomes, maxRetries, now).1 == k + 1
    decreases k
  {
    if k > 0 {
      assert outcomes[..k][0] == outcomes[0];
      var s := Settle(j, outcomes[0], maxRetries, now);
      var before := outcomes[1..][..k - 1];
      assert AllFail(before) by {
        forall i | 0 <= i < k - 1 ensures before[i].Some? {
          assert before[i] == outcomes[..k][i + 1];
        }
      }
      FirstSuccessCompletes(s.0, outcomes[1..], k - 1, maxRetries, now);
    }
  }

  /**
   * With `maxRetries` = 2, a job that fails twice is Failed after its second
   * attempt; a third attempt that would succeed never happens.
   */
  lemma TwoRetriesScenario(j: Job, now: Stamp)
    requires IsFresh(j)
    ensures Attempts(j, [Some("boom"), Some("boom"), None], 2, now).0.status == Failed
    ensures Attempts(j, [Some("boom"), Some("boom"), None], 2, now).1 == 2
  {
    FailingJobExhaustsRetries(j, [Some("boom"), Some("boom")], 2, now);
    var s := Settle(j, Some("boom"), 2, now);
    assert [Some("boom"), Some("boom"), None][1..] == [Some("boom"), None];
    assert [Some("boom"), Some("boom")][1..] == [Some("boom")];
  }
}
