/**
 * The job-admitting side of `internal/handler/handler.go`: the webhook that
 * turns a finished download into a light or a heavy job, the light-job
 * path that bypasses the queue, and the endpoints that re-queue files from
 * the staging and failed folders.
 *
 * The HTTP layer is reduced to each endpoint's outcome. Job IDs, clock
 * readings, folder walks and file sizes are parameters; the test for a
 * Chinese subtitle (`HasChineseSubtitle`, not part of this model) is the
 * function `light`.
 */
module Handler {
  import opened Wrappers
  import opened Paths
  import opened Settings
  import opened FileOps
  import opened Jobs
  import opened JobQueue
  import Processor

  // ---------------------------------------------------------------------
  // Jobs the handler creates
  // ---------------------------------------------------------------------

  /** A path exists: a file, or a folder holding some file. */
  predicate PathExists(d: Disk, p: Path) {
    p in d.files || exists q :: q in d.files && InFolder(q, p)
  }

  /** The job the webhook creates for a video: named after the file, light as the classifier says. */
  function AdmittedJob(id: string, video: Path, torrentName: string, category: string, now: int, light: string -> bool): Job {
    NewJob(id, video, Base(video), torrentName, category, now).(isLight := light(Base(video)))
  }

  /** A webhook job starts Pending with no retries and no staging path; only its light flag differs from `NewJob`. */
  lemma AdmittedJobShape(id: string, video: Path, torrentName: string, category: string, now: int, light: string -> bool)
    ensures var j := AdmittedJob(id, video, torrentName, category, now, light);
            j.status == Pending && j.retries == 0 && j.stagingPath == "" && j.sourcePath == video
            && j.fileName == Base(video) && j.isLight == light(Base(video))
            && j.(isLight := false) == NewJob(id, video, Base(video), torrentName, category, now)
  {
  }

  /** A job the queue may take while keeping its bookkeeping consistent: heavy, Pending, retries in range. */
  predicate Admissible(job: Job, maxRetries: int) {
    !job.isLight && job.status == Pending && RetryAccounted(job, maxRetries)
  }

  /** The job a retry endpoint creates: already staged, so its source is its staging path. */
  function RequeuedJob(id: string, stagingPath: Path, fileName: string, now: int): Job {
    Job(id, stagingPath, fileName, "", "", Pending, "", 0, Stamped(now), Unset, Unset, false, stagingPath, "", "", "")
  }

  /** It is the job `NewJob` makes for the staged file, with its staging path set. */
  lemma RequeuedJobIsNewJob(id: string, stagingPath: Path, fileName: string, now: int)
    ensures RequeuedJob(id, stagingPath, fileName, now) == NewJob(id, stagingPath, fileName, "", "", now).(stagingPath := stagingPath)
  {
  }

  /**
   * A re-queued job is heavy, Pending and never tried, and its staging path
   * is its source; with a non-empty path it skips the staging step.
   */
  lemma RequeuedJobShape(id: string, stagingPath: Path, fileName: string, now: int, maxRetries: int)
    ensures var j := RequeuedJob(id, stagingPath, fileName, now);
            Admissible(j, maxRetries) && j.retries == 0
            && j.stagingPath == stagingPath && j.sourcePath == stagingPath && j.fileName == fileName && j.id == id
  {
  }

  /** Handles `start`, `start + 1`, ... of `k` consecutive new jobs. */
  function Handles(start: nat, k: nat): (r: seq<nat>)
    ensures |r| == k
  {
    if k == 0 then [] else Handles(start, k - 1) + [start + k - 1]
  }

  /** How many of `n` jobs offered one by one fit in a channel already holding `c`. */
  function Fits(c: nat, n: nat): nat {
    if c + n <= ChanCapacity then n else if c <= ChanCapacity then ChanCapacity - c else 0
  }

  /** The jobs `RetryStaging` creates, one per staged video. */
  function StagingJobs(files: seq<Path>, ids: nat -> string, now: int): (r: seq<Job>)
    ensures |r| == |files|
    ensures forall k :: 0 <= k < |files| ==> r[k] == RequeuedJob(ids(k), files[k], Base(files[k]), now)
  {
    seq(|files|, k requires 0 <= k < |files| => RequeuedJob(ids(k), files[k], Base(files[k]), now))
  }

  /** The jobs `RetryFailed` creates for the names it moved back, in the order it moved them. */
  function FailedJobs(folders: Folders, names: seq<string>, ids: nat -> string, now: int): (r: seq<Job>)
    ensures |r| == |names|
    decreases |names|
  {
    if names == [] then []
    else
      var n := |names| - 1;
      FailedJobs(folders, names[..n], ids, now) + [RequeuedJob(ids(n), Join(folders.staging, names[n]), names[n], now)]
  }

  /** The `k`-th job is the one for the `k`-th moved name, staged under it, with the `k`-th ID. */
  lemma {:induction false} FailedJobsAt(folders: Folders, names: seq<string>, ids: nat -> string, now: int, k: nat)
    requires k < |names|
    ensures FailedJobs(folders, names, ids, now)[k] == RequeuedJob(ids(k), Join(folders.staging, names[k]), names[k], now)
    decreases |names|
  {
    var n := |names| - 1;
    if k < n {
      FailedJobsAt(folders, names[..n], ids, now, k);
    }
  }

  /** One more moved name adds its job at the end. */
  lemma FailedJobsSnoc(folders: Folders, names: seq<string>, name: string, ids: nat -> string, now: int)
    ensures FailedJobs(folders, names + [name], ids, now)
            == FailedJobs(folders, names, ids, now) + [RequeuedJob(ids(|names|), Join(folders.staging, name), name, now)]
  {
    assert (names + [name])[..|names|] == names;
  }

  /** Enqueuing the job for one more moved name extends the job list by that name's job. */
  lemma AppendFailedJob(folders: Folders, jobs0: seq<Job>, names: seq<string>, name: string, names': seq<string>,
                        ids: nat -> string, now: int, before: seq<Job>, after: seq<Job>)
    requires names' == names + [name]
    requires before == jobs0 + FailedJobs(folders, names, ids, now)
    requires after == before + [RequeuedJob(ids(|names|), Join(folders.staging, name), name, now)]
    ensures after == jobs0 + FailedJobs(folders, names', ids, now)
  {
    FailedJobsSnoc(folders, names, name, ids, now);
    var job := RequeuedJob(ids(|names|), Join(folders.staging, name), name, now);
    assert after == jobs0 + (FailedJobs(folders, names, ids, now) + [job]);
  }

  /** A failed video that could not be re-queued: its name and why. */
  datatype RetryError = RetryError(name: string, cause: string)

  /** How `RetryFailed` reports one: "<name>: <cause>". */
  function Line(e: RetryError): (r: string)
    ensures |r| == |e.name| + 2 + |e.cause|
    ensures r[..|e.name|] == e.name && r[|e.name|..|e.name| + 2] == ": " && r[|e.name| + 2..] == e.cause
  {
    e.name + ": " + e.cause
  }

  /** The reported lines, one per error, in order. */
  function Lines(es: seq<RetryError>): (r: seq<string>)
    ensures |r| == |es| && forall k :: 0 <= k < |es| ==> r[k] == Line(es[k])
  {
    seq(|es|, k requires 0 <= k < |es| => Line(es[k]))
  }

  /** What `RetryFailed` has done so far: names re-queued, errors met, and the disk. */
  datatype RetryTally = RetryTally(moved: seq<string>, errors: seq<RetryError>, disk: Disk)

  /**
   * One failed video: moved back to staging under its base name and
   * counted as re-queued, or reported as "<name>: <cause>".
   */
  function RetryFailedStep(folders: Folders, t: RetryTally, file: Path): RetryTally {
    var name := Base(file);
    match Processor.MoveToStagingForRetry(t.disk, folders, name)
    case Failure(e) => t.(errors := t.errors + [RetryError(name, e)])
    case Success(d') => t.(moved := t.moved + [name], disk := d')
  }

  /** The loop of `RetryFailed` over the failed videos, in walk order, from tally `t`. */
  function FailedRetries(folders: Folders, t: RetryTally, files: seq<Path>): RetryTally
    decreases |files|
  {
    if files == [] then t else FailedRetries(folders, RetryFailedStep(folders, t, files[0]), files[1..])
  }

  /** The loop takes the first file, then the rest from the tally it left. */
  lemma FailedRetriesUnroll(folders: Folders, t: RetryTally, files: seq<Path>, i: nat)
    requires i < |files|
    ensures FailedRetries(folders, t, files[i..]) == FailedRetries(folders, RetryFailedStep(folders, t, files[i]), files[i + 1..])
  {
    assert files[i..][0] == files[i] && files[i..][1..] == files[i + 1..];
  }

  /** A step re-queues the file's name or nothing. */
  lemma RetryFailedStepMoves(folders: Folders, t: RetryTally, file: Path)
    ensures var r := RetryFailedStep(folders, t, file);
            if |r.moved| > |t.moved| then r.moved == t.moved + [Base(file)] else r.moved == t.moved
  {
  }

  /**
   * One step records the file exactly once: it is re-queued when the
   * failed folder holds its name and staging can take it, and then staging
   * holds the failed copy's content; otherwise the reason is reported, and
   * a name missing from the failed folder is reported as such.
   */
  lemma RetryFailedStepMeaning(folders: Folders, t: RetryTally, file: Path)
    ensures var r := RetryFailedStep(folders, t, file);
            var name := Base(file);
            var failedPath := Join(folders.failed, name);
            var stagingPath := Join(folders.staging, name);
            (r.moved == t.moved + [name] && r.errors == t.errors
             <==> failedPath in t.disk.files && stagingPath !in t.disk.unwritable)
            && (failedPath in t.disk.files && stagingPath !in t.disk.unwritable ==>
                  stagingPath in r.disk.files && r.disk.files[stagingPath] == t.disk.files[failedPath])
            && (failedPath !in t.disk.files ==>
                  r == t.(errors := t.errors + [RetryError(name, "file not found in failed folder: " + name)]))
            && (failedPath in t.disk.files && stagingPath in t.disk.unwritable ==>
                  r.moved == t.moved && r.disk == t.disk && |r.errors| == |t.errors| + 1 && r.errors[..|t.errors|] == t.errors
                  && r.errors[|t.errors|].name == name)
            && r.disk.unwritable == t.disk.unwritable && r.disk.sticky == t.disk.sticky
  {
  }

  /**
   * Every failed video is either re-queued or reported, never both and
   * never left out, in walk order after what the tally already held; every
   * re-queued name is the base name of a walked file.
   */
  lemma {:induction false} FailedRetriesAccount(folders: Folders, t: RetryTally, files: seq<Path>)
    ensures var r := FailedRetries(folders, t, files);
            |r.moved| + |r.errors| == |t.moved| + |t.errors| + |files|
            && |t.moved| <= |r.moved| && r.moved[..|t.moved|] == t.moved
            && |t.errors| <= |r.errors| && r.errors[..|t.errors|] == t.errors
            && (forall k :: |t.moved| <= k < |r.moved| ==> exists i :: 0 <= i < |files| && r.moved[k] == Base(files[i]))
            && r.disk.unwritable == t.disk.unwritable && r.disk.sticky == t.disk.sticky
    decreases |files|
  {
    if files != [] {
      var t1 := RetryFailedStep(folders, t, files[0]);
      RetryFailedStepMeaning(folders, t, files[0]);
      FailedRetriesAccount(folders, t1, files[1..]);
      var r := FailedRetries(folders, t, files);
      assert r == FailedRetries(folders, t1, files[1..]);
      assert r.moved[..|t.moved|] == t.moved by {
        assert r.moved[..|t1.moved|][..|t.moved|] == t.moved;
      }
      assert r.errors[..|t.errors|] == t.errors by {
        assert r.errors[..|t1.errors|][..|t.errors|] == t.errors;
      }
      forall k | |t.moved| <= k < |r.moved| ensures exists i :: 0 <= i < |files| && r.moved[k] == Base(files[i]) {
        if k < |t1.moved| {
          assert r.moved[k] == t1.moved[k] == Base(files[0]);
        } else {
          var i :| 0 <= i < |files[1..]| && r.moved[k] == Base(files[1..][i]);
          assert files[1..][i] == files[i + 1];
        }
      }
    }
  }

  /** The first `n` job IDs the generator hands out. */
  function IDs(ids: nat -> string, n: nat): (r: seq<string>)
    ensures |r| == n
  {
    seq(n, k requires 0 <= k => ids(k))
  }

  /** One more ID is the next one the generator hands out. */
  lemma IDsSnoc(ids: nat -> string, n: nat)
    ensures IDs(ids, n + 1) == IDs(ids, n) + [ids(n)]
  {
    assert forall k :: 0 <= k < n ==> IDs(ids, n + 1)[k] == IDs(ids, n)[k];
  }

  // ---------------------------------------------------------------------
  // The light-job path
  // ---------------------------------------------------------------------

  /** A light job that failed for good at `step`. */
  function LightFailed(job: Job, step: string, cause: string, later: int): Job {
    job.(status := Failed, error := step + ": " + cause, completedAt := Stamped(later))
  }

  /**
   * What `processLightJob` leaves behind: the job and the disk. Staging
   * copies or links the source into the staging folder under the job's
   * name; the cleaned name then carries it on to the scraping folder. A
   * failure at either step parks whatever was staged in the failed folder.
   */
  function LightRun(folders: Folders, job: Job, d: Disk, now: int, later: int): (Job, Disk) {
    var j := job.(status := Processing, startedAt := Stamped(now));
    var stagingPath := Join(folders.staging, j.fileName);
    match HardlinkOrCopy(d, j.sourcePath, stagingPath)
    case Failure(e) =>
      (LightFailed(j, "staging", e, later), Processor.MoveToFailed(d, folders, j.fileName, j.stagingPath))
    case Success(d1) =>
      LightScrape(folders, j.(stagingPath := stagingPath), d1, later)
  }

  /** The second half of `processLightJob`: clean the name and move the staged file to the scraping folder. */
  function LightScrape(folders: Folders, job: Job, d: Disk, later: int): (Job, Disk) {
    var name := CleanVideoFilename(job.fileName);
    var j := job.(fileName := name);
    match Move(d, job.stagingPath, Join(folders.scraping, name))
    case Failure(e) =>
      (LightFailed(j, "move to scraping", e, later), Processor.MoveToFailed(d, folders, name, job.stagingPath))
    case Success(d2) =>
      (j.(status := Completed, completedAt := Stamped(later)), d2)
  }

  /**
   * A light job ends Completed or Failed, never Pending and never retried;
   * it completes exactly when staging and the move to scraping both
   * succeed, and then its video is in the scraping folder under its
   * cleaned name with the source's content. A staging failure keeps the
   * job's paths and disturbs only a staged file it already had.
   */
  lemma LightRunMeaning(folders: Folders, job: Job, d: Disk, now: int, later: int)
    ensures var (j, d') := LightRun(folders, job, d, now, later);
            var stagingPath := Join(folders.staging, job.fileName);
            var name := CleanVideoFilename(job.fileName);
            var staged := HardlinkOrCopy(d, job.sourcePath, stagingPath);
            (j.status == Completed || j.status == Failed)
            && j.id == job.id && j.retries == job.retries && j.isLight == job.isLight
            && j.sourcePath == job.sourcePath && j.startedAt == Stamped(now) && j.completedAt == Stamped(later)
            && (j.status == Completed <==>
                  staged.Success? && Move(staged.value, stagingPath, Join(folders.scraping, name)).Success?)
            && (staged.Failure? ==>
                  j.error == "staging: " + staged.error && j.stagingPath == job.stagingPath && j.fileName == job.fileName
                  && (job.stagingPath == "" ==> d' == d))
            && (staged.Success? ==> j.stagingPath == stagingPath && j.fileName == name)
            && (staged.Success? && j.status == Failed ==>
                  j.error == "move to scraping: " + Move(staged.value, stagingPath, Join(folders.scraping, name)).error)
            && (j.status == Completed ==>
                  j.error == job.error && Join(folders.scraping, name) in d'.files
                  && (job.sourcePath != stagingPath && stagingPath != Join(folders.scraping, name) ==>
                        d'.files[Join(folders.scraping, name)] == d.files[job.sourcePath]))
  {
    var stagingPath := Join(folders.staging, job.fileName);
    var staged := HardlinkOrCopy(d, job.sourcePath, stagingPath);
    if staged.Success? {
      var name := CleanVideoFilename(job.fileName);
      var moved := Move(staged.value, stagingPath, Join(folders.scraping, name));
      if moved.Success? && job.sourcePath != stagingPath {
        assert moved.value.files[Join(folders.scraping, name)] == staged.value.files[stagingPath];
      }
    }
  }

  // ---------------------------------------------------------------------
  // Endpoint outcomes
  // ---------------------------------------------------------------------

  datatype Admission = PathMissing | NoValidVideos(cause: string) | Accepted(jobID: string, light: bool)

  datatype Retried = ListFailed(cause: string) | NothingToRetry | Requeued(jobIDs: seq<string>, errors: seq<string>)

  datatype OneRetry = NameRequired | NotFound(cause: string) | RequeuedOne(jobID: string)

  class Handler {
    const queue: Queue
    const folders: Folders

    constructor(queue: Queue, folders: Folders)
      ensures this.queue == queue && this.folders == folders
    {
      this.queue := queue;
      this.folders := folders;
    }

    /**
     * `TorrentComplete`: a video path is taken as it is; an existing
     * folder is searched for its one valid video; anything else is
     * refused. The job is light exactly when the classifier says so of its
     * file name; a light job is only registered, a heavy one enqueued.
     */
    method TorrentComplete(d: Disk, path: Path, torrentName: string, category: string, jobID: string, now: int,
                           walk: seq<Visit>, sizes: map<Path, int>, light: string -> bool) returns (r: Admission)
      requires queue.Valid()
      modifies queue
      ensures queue.Valid()
      ensures !IsVideoFile(path) && !PathExists(d, path) ==> r == PathMissing
      ensures !IsVideoFile(path) && PathExists(d, path) ==>
                (r.NoValidVideos? <==>
                   WalkError(walk).Some? || forall j :: 0 <= j < |WalkVideos(walk)| ==> !Qualifies(WalkVideos(walk)[j], sizes, CodeNamed))
      ensures IsVideoFile(path) ==> r.Accepted?
      ensures !r.Accepted? ==>
                queue.jobs == old(queue.jobs) && queue.jobMap == old(queue.jobMap) && queue.jobsChan == old(queue.jobsChan)
      ensures r.Accepted? ==>
                |queue.jobs| == |old(queue.jobs)| + 1 && queue.jobs[..|old(queue.jobs)|] == old(queue.jobs)
                && r.jobID == jobID
      ensures r.Accepted? ==>
                var job := queue.jobs[|old(queue.jobs)|];
                job == AdmittedJob(jobID, job.sourcePath, torrentName, category, now, light)
                && r.light == job.isLight
                && (IsVideoFile(path) ==> job.sourcePath == path)
                && (!IsVideoFile(path) ==>
                      exists i :: LargestFirst(WalkVideos(walk), sizes, CodeNamed, i) && WalkVideos(walk)[i] == job.sourcePath)
      ensures r.Accepted? && r.light ==> queue.jobsChan == old(queue.jobsChan)
      ensures r.Accepted? && !r.light ==>
                queue.jobsChan == if |old(queue.jobsChan)| < ChanCapacity then old(queue.jobsChan) + [|old(queue.jobs)|] else old(queue.jobsChan)
      ensures queue.retryWaiting == old(queue.retryWaiting) && queue.active == old(queue.active)
      ensures queue.lightCompleted == old(queue.lightCompleted) && queue.lightFailed == old(queue.lightFailed)
      ensures old(queue.Consistent()) ==> queue.Consistent()
    {
      var videoPath: Path;
      if IsVideoFile(path) {
        videoPath := path;
      } else if PathExists(d, path) {
        var found := FindValidVideoFile(walk, sizes);
        if found.Failure? {
          return NoValidVideos(found.error);
        }
        videoPath := found.value;
      } else {
        return PathMissing;
      }

      var fileName := Base(videoPath);
      var isLight := light(fileName);
      var job := NewJob(jobID, videoPath, fileName, torrentName, category, now);
      job := job.(isLight := isLight);
      assert job == AdmittedJob(jobID, videoPath, torrentName, category, now, light);

      if isLight {
        queue.RegisterLightJob(job);
      } else {
        FreshAccounted(job, queue.maxRetries);
        var _ := queue.Enqueue(job);
      }
      assert queue.jobs[..|old(queue.jobs)|] == old(queue.jobs);
      r := Accepted(jobID, isLight);
    }

    /**
     * `handleLightJobError`: the job fails for good with "<step>: <cause>",
     * the failure counter goes up, and a staged file that exists is moved
     * to the failed folder under the job's name.
     */
    method HandleLightJobError(h: nat, job: Job, d: Disk, step: string, cause: string, later: int) returns (d': Disk)
      requires queue.Valid() && h < |queue.jobs| && job.id == queue.jobs[h].id
      modifies queue
      ensures queue.Valid()
      ensures queue.jobs == old(queue.jobs)[h := LightFailed(job, step, cause, later)]
      ensures queue.lightFailed == old(queue.lightFailed) + 1 && queue.lightCompleted == old(queue.lightCompleted)
      ensures queue.jobMap == old(queue.jobMap) && queue.jobsChan == old(queue.jobsChan)
      ensures queue.retryWaiting == old(queue.retryWaiting) && queue.active == old(queue.active)
      ensures d' == Processor.MoveToFailed(d, folders, job.fileName, job.stagingPath)
      ensures old(queue.Consistent()) && old(queue.jobs[h].isLight) && job.isLight ==> queue.Consistent()
    {
      var failedJob := job.(status := Failed, error := step + ": " + cause, completedAt := Stamped(later));
      queue.UpdateJob(h, failedJob);
      queue.MarkLightJobFailed();
      d' := d;
      if job.stagingPath != "" && Exists(d, job.stagingPath) {
        var failedPath := Join(folders.failed, job.fileName);
        match Move(d, job.stagingPath, failedPath) {
          case Failure(_) =>
          case Success(d2) =>
            d' := d2;
        }
      }
    }

    /**
     * `processLightJob`: Processing; stage the file; clean its name; move
     * it straight from staging to the scraping folder; Completed. The job
     * and the disk end as `LightRun` says; the work channel, the retry
     * bookkeeping and every other job are left alone, and exactly one of
     * the two light counters goes up.
     */
    method ProcessLightJob(h: nat, d: Disk, now: int, later: int) returns (d': Disk)
      requires queue.Valid() && h < |queue.jobs|
      modifies queue
      ensures queue.Valid()
      ensures queue.jobs == old(queue.jobs)[h := LightRun(folders, old(queue.jobs[h]), d, now, later).0]
      ensures d' == LightRun(folders, old(queue.jobs[h]), d, now, later).1
      ensures queue.jobMap == old(queue.jobMap) && queue.jobsChan == old(queue.jobsChan)
      ensures queue.retryWaiting == old(queue.retryWaiting) && queue.active == old(queue.active)
      ensures queue.jobs[h].status == Completed ==>
                queue.lightCompleted == old(queue.lightCompleted) + 1 && queue.lightFailed == old(queue.lightFailed)
      ensures queue.jobs[h].status != Completed ==>
                queue.lightFailed == old(queue.lightFailed) + 1 && queue.lightCompleted == old(queue.lightCompleted)
      ensures old(queue.Consistent()) && old(queue.jobs[h]).isLight ==> queue.Consistent()
    {
      ghost var jobs0 := queue.jobs;
      ghost var run := LightRun(folders, queue.jobs[h], d, now, later);
      var job := queue.jobs[h].(status := Processing, startedAt := Stamped(now));
      queue.UpdateJob(h, job);

      var stagingPath := Join(folders.staging, job.fileName);
      match HardlinkOrCopy(d, job.sourcePath, stagingPath) {
        case Failure(e) =>
          d' := HandleLightJobError(h, job, d, "staging", e, later);
          assert run.0 == LightFailed(job, "staging", e, later);
        case Success(d1) =>
          d' := MoveLightToScraping(h, job.(stagingPath := stagingPath), d1, later);
      }
      UpdateTwice(jobs0, h, job, run.0);
    }

    /**
     * The rest of `processLightJob` once the file is staged: the cleaned
     * name, the move to the scraping folder, and Completed, or the failure
     * handling; as `LightScrape` says.
     */
    method MoveLightToScraping(h: nat, job: Job, d: Disk, later: int) returns (d': Disk)
      requires queue.Valid() && h < |queue.jobs| && job.id == queue.jobs[h].id
      modifies queue
      ensures queue.Valid()
      ensures queue.jobs == old(queue.jobs)[h := LightScrape(folders, job, d, later).0]
      ensures d' == LightScrape(folders, job, d, later).1
      ensures queue.jobMap == old(queue.jobMap) && queue.jobsChan == old(queue.jobsChan)
      ensures queue.retryWaiting == old(queue.retryWaiting) && queue.active == old(queue.active)
      ensures queue.jobs[h].status == Completed ==>
                queue.lightCompleted == old(queue.lightCompleted) + 1 && queue.lightFailed == old(queue.lightFailed)
      ensures queue.jobs[h].status != Completed ==>
                queue.lightFailed == old(queue.lightFailed) + 1 && queue.lightCompleted == old(queue.lightCompleted)
      ensures old(queue.Consistent()) && old(queue.jobs[h]).isLight && job.isLight ==> queue.Consistent()
    {
      var stagingPath := job.stagingPath;
      var j := job;
      var cleanedName := CleanVideoFilename(j.fileName);
      if cleanedName != j.fileName {
        j := j.(fileName := cleanedName);
      }

      var scrapingPath := Join(folders.scraping, j.fileName);
      match Move(d, stagingPath, scrapingPath) {
        case Failure(e) =>
          d' := HandleLightJobError(h, j, d, "move to scraping", e, later);
        case Success(d2) =>
          d' := d2;
          j := j.(status := Completed, completedAt := Stamped(later));
          queue.UpdateJob(h, j);
          queue.MarkLightJobCompleted();
      }
    }

    /**
     * Offer each of `newJobs` to the queue in order, as the retry endpoints'
     * loops do: all are recorded, and the channel takes them while it has
     * room.
     */
    method EnqueueEach(newJobs: seq<Job>)
      requires queue.Valid()
      modifies queue
      ensures queue.Valid()
      ensures queue.jobs == old(queue.jobs) + newJobs
      ensures queue.jobsChan == old(queue.jobsChan) + Handles(|old(queue.jobs)|, Fits(|old(queue.jobsChan)|, |newJobs|))
      ensures queue.retryWaiting == old(queue.retryWaiting) && queue.active == old(queue.active)
      ensures queue.lightCompleted == old(queue.lightCompleted) && queue.lightFailed == old(queue.lightFailed)
      ensures old(queue.Consistent()) && (forall k :: 0 <= k < |newJobs| ==> Admissible(newJobs[k], queue.maxRetries))
              ==> queue.Consistent()
    {
      ghost var jobs0, chan0 := queue.jobs, queue.jobsChan;
      var i := 0;
      while i < |newJobs|
        invariant 0 <= i <= |newJobs|
        invariant queue.Valid() && |chan0| <= ChanCapacity
        invariant queue.jobs == jobs0 + newJobs[..i]
        invariant queue.jobsChan == chan0 + Handles(|jobs0|, Fits(|chan0|, i))
        invariant queue.retryWaiting == old(queue.retryWaiting) && queue.active == old(queue.active)
        invariant queue.lightCompleted == old(queue.lightCompleted) && queue.lightFailed == old(queue.lightFailed)
        invariant old(queue.Consistent()) && (forall k :: 0 <= k < |newJobs| ==> Admissible(newJobs[k], queue.maxRetries))
                  ==> queue.Consistent()
      {
        ghost var chanBefore, jobsBefore := queue.jobsChan, queue.jobs;
        var queued := queue.Enqueue(newJobs[i]);
        OfferKeepsHandles(chan0, |jobs0|, i, chanBefore, queue.jobsChan);
        AppendNext(jobs0, newJobs, i, jobsBefore, queue.jobs);
        i := i + 1;
      }
      assert newJobs[..i] == newJobs;
    }

    /**
     * `RetryStaging`: every video in the staging folder becomes a heavy job
     * whose source and staging path are that file. Offered one by one, the
     * jobs fill the channel's free places in order; the rest stay Pending
     * with nothing to deliver them.
     */
    method RetryStaging(walk: seq<Visit>, ids: nat -> string, now: int) returns (r: Retried)
      requires queue.Valid()
      modifies queue
      ensures queue.Valid()
      ensures WalkError(walk).Some? ==> r == ListFailed(WalkError(walk).value)
      ensures WalkError(walk).None? && WalkVideos(walk) == [] ==> r == NothingToRetry
      ensures !r.Requeued? ==> queue.jobs == old(queue.jobs) && queue.jobsChan == old(queue.jobsChan)
      ensures r.Requeued? ==>
                WalkError(walk).None? && r.errors == [] && r.jobIDs == IDs(ids, |WalkVideos(walk)|)
                && queue.jobs == old(queue.jobs) + StagingJobs(WalkVideos(walk), ids, now)
                && queue.jobsChan == old(queue.jobsChan)
                                     + Handles(|old(queue.jobs)|, Fits(|old(queue.jobsChan)|, |WalkVideos(walk)|))
      ensures queue.retryWaiting == old(queue.retryWaiting) && queue.active == old(queue.active)
      ensures queue.lightCompleted == old(queue.lightCompleted) && queue.lightFailed == old(queue.lightFailed)
      ensures old(queue.Consistent()) ==> queue.Consistent()
    {
      var files, err := FindVideoFiles(walk);
      if err.Some? {
        return ListFailed(err.value);
      }
      if |files| == 0 {
        return NothingToRetry;
      }
      var newJobs := StagingJobs(files, ids, now);
      forall k | 0 <= k < |newJobs| ensures Admissible(newJobs[k], queue.maxRetries) {
        RequeuedJobShape(ids(k), files[k], Base(files[k]), now, queue.maxRetries);
      }
      EnqueueEach(newJobs);
      r := Requeued(IDs(ids, |files|), []);
    }

    /**
     * One failed video back to staging under `name` and, if it moved, into
     * the queue as a heavy job; if it did not move, the cause and no change.
     */
    method RequeueFromFailed(d: Disk, name: string, jobID: string, now: int) returns (err: Option<string>, d': Disk)
      requires queue.Valid()
      modifies queue
      ensures queue.Valid()
      ensures err.Some? <==> Processor.MoveToStagingForRetry(d, folders, name).Failure?
      ensures err.Some? ==>
                err.value == Processor.MoveToStagingForRetry(d, folders, name).error
                && d' == d && queue.jobs == old(queue.jobs) && queue.jobsChan == old(queue.jobsChan)
      ensures err.None? ==>
                Processor.MoveToStagingForRetry(d, folders, name) == Success(d')
                && queue.jobs == old(queue.jobs) + [RequeuedJob(jobID, Join(folders.staging, name), name, now)]
                && queue.jobsChan == if |old(queue.jobsChan)| < ChanCapacity then old(queue.jobsChan) + [|old(queue.jobs)|] else old(queue.jobsChan)
      ensures queue.retryWaiting == old(queue.retryWaiting) && queue.active == old(queue.active)
      ensures queue.lightCompleted == old(queue.lightCompleted) && queue.lightFailed == old(queue.lightFailed)
      ensures old(queue.Consistent()) ==> queue.Consistent()
    {
      d' := d;
      match Processor.MoveToStagingForRetry(d, folders, name) {
        case Failure(e) =>
          return Some(e), d';
        case Success(d2) =>
          d' := d2;
      }
      var stagingPath := Join(folders.staging, name);
      var job := RequeuedJob(jobID, stagingPath, name, now);
      RequeuedJobShape(jobID, stagingPath, name, now, queue.maxRetries);
      var _ := queue.Enqueue(job);
      err := None;
    }

    /**
     * `RetryFailed`: each video of the failed folder is moved back to
     * staging under its base name; the ones that moved become heavy jobs,
     * the others are reported. `FailedRetries` says which is which.
     */
    method RetryFailed(d: Disk, walk: seq<Visit>, ids: nat -> string, now: int) returns (r: Retried, d': Disk)
      requires queue.Valid()
      modifies queue
      ensures queue.Valid()
      ensures WalkError(walk).Some? ==> r == ListFailed(WalkError(walk).value) && d' == d
      ensures WalkError(walk).None? && WalkVideos(walk) == [] ==> r == NothingToRetry && d' == d
      ensures !r.Requeued? ==> queue.jobs == old(queue.jobs) && queue.jobsChan == old(queue.jobsChan)
      ensures r.Requeued? ==>
                var outcome := FailedRetries(folders, RetryTally([], [], d), WalkVideos(walk));
                WalkError(walk).None? && WalkVideos(walk) != []
                && r.jobIDs == IDs(ids, |outcome.moved|) && r.errors == Lines(outcome.errors) && d' == outcome.disk
                && queue.jobs == old(queue.jobs) + FailedJobs(folders, outcome.moved, ids, now)
                && queue.jobsChan == old(queue.jobsChan)
                                     + Handles(|old(queue.jobs)|, Fits(|old(queue.jobsChan)|, |outcome.moved|))
      ensures queue.retryWaiting == old(queue.retryWaiting) && queue.active == old(queue.active)
      ensures queue.lightCompleted == old(queue.lightCompleted) && queue.lightFailed == old(queue.lightFailed)
      ensures old(queue.Consistent()) ==> queue.Consistent()
    {
      d' := d;
      var files, err := FindVideoFiles(walk);
      if err.Some? {
        return ListFailed(err.value), d';
      }
      if |files| == 0 {
        return NothingToRetry, d';
      }

      var jobIDs, errors;
      jobIDs, errors, d' := RequeueEachFailed(d, files, ids, now);
      r := Requeued(jobIDs, errors);
    }

    /**
     * One turn of the loop of `RetryFailed`: the file is moved back and
     * re-queued, or its error recorded, as `RetryFailedStep` says; a moved
     * file adds exactly one job, and a file that failed adds none.
     */
    method RequeueNext(t: RetryTally, file: Path, jobID: string, now: int) returns (t': RetryTally)
      requires queue.Valid()
      modifies queue
      ensures queue.Valid()
      ensures t' == RetryFailedStep(folders, t, file)
      ensures |t'.moved| > |t.moved| ==>
                queue.jobs == old(queue.jobs) + [RequeuedJob(jobID, Join(folders.staging, Base(file)), Base(file), now)]
                && queue.jobsChan == if |old(queue.jobsChan)| < ChanCapacity then old(queue.jobsChan) + [|old(queue.jobs)|]
                                     else old(queue.jobsChan)
      ensures |t'.moved| <= |t.moved| ==> queue.jobs == old(queue.jobs) && queue.jobsChan == old(queue.jobsChan)
      ensures queue.retryWaiting == old(queue.retryWaiting) && queue.active == old(queue.active)
      ensures queue.lightCompleted == old(queue.lightCompleted) && queue.lightFailed == old(queue.lightFailed)
      ensures old(queue.Consistent()) ==> queue.Consistent()
    {
      t' := RetryFailedStep(folders, t, file);
      RetryFailedStepMoves(folders, t, file);
      if |t'.moved| > |t.moved| {
        EnqueueMoved(Base(file), jobID, now);
      }
    }

    /** The job for a name `RetryFailed` moved back: staged under that name, offered to the channel. */
    method EnqueueMoved(fileName: string, jobID: string, now: int)
      requires queue.Valid()
      modifies queue
      ensures queue.Valid()
      ensures queue.jobs == old(queue.jobs) + [RequeuedJob(jobID, Join(folders.staging, fileName), fileName, now)]
      ensures queue.jobsChan == if |old(queue.jobsChan)| < ChanCapacity then old(queue.jobsChan) + [|old(queue.jobs)|]
                                else old(queue.jobsChan)
      ensures queue.retryWaiting == old(queue.retryWaiting) && queue.active == old(queue.active)
      ensures queue.lightCompleted == old(queue.lightCompleted) && queue.lightFailed == old(queue.lightFailed)
      ensures old(queue.Consistent()) ==> queue.Consistent()
    {
      var stagingPath := Join(folders.staging, fileName);
      var job := RequeuedJob(jobID, stagingPath, fileName, now);
      RequeuedJobShape(jobID, stagingPath, fileName, now, queue.maxRetries);
      var queued := queue.Enqueue(job);
    }

    /** The loop of `RetryFailed`: `RequeueNext` for each file, in walk order. */
    method RequeueEachFailed(d: Disk, files: seq<Path>, ids: nat -> string, now: int)
      returns (jobIDs: seq<string>, errors: seq<string>, d': Disk)
      requires queue.Valid()
      modifies queue
      ensures queue.Valid()
      ensures var outcome := FailedRetries(folders, RetryTally([], [], d), files);
              jobIDs == IDs(ids, |outcome.moved|) && errors == Lines(outcome.errors) && d' == outcome.disk
              && queue.jobs == old(queue.jobs) + FailedJobs(folders, outcome.moved, ids, now)
              && queue.jobsChan == old(queue.jobsChan)
                                   + Handles(|old(queue.jobs)|, Fits(|old(queue.jobsChan)|, |outcome.moved|))
      ensures queue.retryWaiting == old(queue.retryWaiting) && queue.active == old(queue.active)
      ensures queue.lightCompleted == old(queue.lightCompleted) && queue.lightFailed == old(queue.lightFailed)
      ensures old(queue.Consistent()) ==> queue.Consistent()
    {
      ghost var jobs0, chan0 := queue.jobs, queue.jobsChan;
      var tally := RetryTally([], [], d);
      jobIDs := [];
      var i := 0;
      while i < |files|
        invariant 0 <= i <= |files|
        invariant queue.Valid() && |chan0| <= ChanCapacity
        invariant FailedRetries(folders, tally, files[i..]) == FailedRetries(folders, RetryTally([], [], d), files)
        invariant jobIDs == IDs(ids, |tally.moved|)
        invariant queue.jobs == jobs0 + FailedJobs(folders, tally.moved, ids, now)
        invariant queue.jobsChan == chan0 + Handles(|jobs0|, Fits(|chan0|, |tally.moved|))
        invariant queue.retryWaiting == old(queue.retryWaiting) && queue.active == old(queue.active)
        invariant queue.lightCompleted == old(queue.lightCompleted) && queue.lightFailed == old(queue.lightFailed)
        invariant old(queue.Consistent()) ==> queue.Consistent()
      {
        FailedRetriesUnroll(folders, tally, files, i);
        RetryFailedStepMoves(folders, tally, files[i]);
        ghost var chanBefore, jobsBefore := queue.jobsChan, queue.jobs;
        var next := RequeueNext(tally, files[i], ids(|tally.moved|), now);
        RequeueStepKeeps(folders, jobs0, chan0, tally, files[i], next, ids, now, jobsBefore, chanBefore, queue.jobs, queue.jobsChan);
        if |next.moved| > |tally.moved| {
          IDsSnoc(ids, |tally.moved|);
          jobIDs := jobIDs + [ids(|tally.moved|)];
        }
        tally := next;
        i := i + 1;
      }
      errors, d' := Lines(tally.errors), tally.disk;
    }

    /**
     * `RetryOneFailed`: an empty name is refused; a name the failed folder
     * does not hold is reported and nothing changes; otherwise the file
     * moves back to staging and becomes a heavy job.
     */
    method RetryOneFailed(d: Disk, name: string, jobID: string, now: int) returns (r: OneRetry, d': Disk)
      requires queue.Valid()
      modifies queue
      ensures queue.Valid()
      ensures name == "" ==> r == NameRequired
      ensures name != "" && Processor.MoveToStagingForRetry(d, folders, name).Failure? ==>
                r == NotFound(Processor.MoveToStagingForRetry(d, folders, name).error)
      ensures !r.RequeuedOne? ==> d' == d && queue.jobs == old(queue.jobs) && queue.jobsChan == old(queue.jobsChan)
      ensures r.RequeuedOne? ==>
                name != "" && Processor.MoveToStagingForRetry(d, folders, name) == Success(d') && r.jobID == jobID
                && queue.jobs == old(queue.jobs) + [RequeuedJob(jobID, Join(folders.staging, name), name, now)]
                && queue.jobsChan == if |old(queue.jobsChan)| < ChanCapacity then old(queue.jobsChan) + [|old(queue.jobs)|] else old(queue.jobsChan)
      ensures queue.retryWaiting == old(queue.retryWaiting) && queue.active == old(queue.active)
      ensures queue.lightCompleted == old(queue.lightCompleted) && queue.lightFailed == old(queue.lightFailed)
      ensures old(queue.Consistent()) ==> queue.Consistent()
    {
      d' := d;
      if name == "" {
        return NameRequired, d';
      }
      var err;
      err, d' := RequeueFromFailed(d, name, jobID, now);
      if err.Some? {
        return NotFound(err.value), d';
      }
      r := RequeuedOne(jobID);
    }
  }

  /** The channel after offering the job with handle `start + n`, when it took `Fits(c, n)` of the first `n`. */
  lemma OfferKeepsHandles(chan0: seq<nat>, start: nat, n: nat, before: seq<nat>, after: seq<nat>)
    requires |chan0| <= ChanCapacity && before == chan0 + Handles(start, Fits(|chan0|, n))
    requires after == if |before| < ChanCapacity then before + [start + n] else before
    ensures after == chan0 + Handles(start, Fits(|chan0|, n + 1))
  {
    var queued := |before| < ChanCapacity;
    OfferOne(start, |chan0|, n, queued);
    assert chan0 + (Handles(start, Fits(|chan0|, n)) + (if queued then [start + n] else []))
        == before + (if queued then [start + n] else []);
  }

  /**
   * One turn of `RetryFailed`'s loop keeps the queue holding, after the
   * jobs it had before, one job per moved name and the handles of those
   * the channel had room for.
   */
  lemma RequeueStepKeeps(folders: Folders, jobs0: seq<Job>, chan0: seq<nat>, t: RetryTally, file: Path, next: RetryTally,
                         ids: nat -> string, now: int, jobs: seq<Job>, chan: seq<nat>, jobs': seq<Job>, chan': seq<nat>)
    requires |chan0| <= ChanCapacity
    requires jobs == jobs0 + FailedJobs(folders, t.moved, ids, now)
    requires chan == chan0 + Handles(|jobs0|, Fits(|chan0|, |t.moved|))
    requires next == RetryFailedStep(folders, t, file)
    requires |next.moved| > |t.moved| ==>
               jobs' == jobs + [RequeuedJob(ids(|t.moved|), Join(folders.staging, Base(file)), Base(file), now)]
               && chan' == if |chan| < ChanCapacity then chan + [|jobs|] else chan
    requires |next.moved| <= |t.moved| ==> jobs' == jobs && chan' == chan
    ensures jobs' == jobs0 + FailedJobs(folders, next.moved, ids, now)
    ensures chan' == chan0 + Handles(|jobs0|, Fits(|chan0|, |next.moved|))
  {
    RetryFailedStepMoves(folders, t, file);
    if |next.moved| > |t.moved| {
      OfferKeepsHandles(chan0, |jobs0|, |t.moved|, chan, chan');
      AppendFailedJob(folders, jobs0, t.moved, Base(file), next.moved, ids, now, jobs, jobs');
    }
  }

  /** Offering one more job to a channel that took `Fits(c, n)` of the first `n`. */
  lemma OfferOne(start: nat, c: nat, n: nat, queued: bool)
    requires c <= ChanCapacity
    requires queued <==> c + Fits(c, n) < ChanCapacity
    ensures Handles(start, Fits(c, n + 1)) == Handles(start, Fits(c, n)) + (if queued then [start + n] else [])
  {
  }

  /** Enqueuing the next of `newJobs` extends the list by one more of them. */
  lemma AppendNext(jobs0: seq<Job>, newJobs: seq<Job>, i: nat, before: seq<Job>, after: seq<Job>)
    requires i < |newJobs| && before == jobs0 + newJobs[..i] && after == before + [newJobs[i]]
    ensures after == jobs0 + newJobs[..i + 1]
  {
    assert newJobs[..i + 1] == newJobs[..i] + [newJobs[i]];
  }

  /** Writing a slot twice leaves the second value. */
  lemma UpdateTwice(s: seq<Job>, h: nat, a: Job, b: Job)
    requires h < |s|
    ensures s[h := a][h := b] == s[h := b]
  {
    var once, twice := s[h := b], s[h := a][h := b];
    assert forall i :: 0 <= i < |s| ==> twice[i] == once[i];
  }
}
