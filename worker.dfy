/**
 * One turn of the queue's worker (`processJob` in `internal/queue/queue.go`):
 * take the next job from the channel, run the processor on it, and settle
 * the attempt. The worker's endless loop and its cancellation are not
 * modelled; each call is one iteration.
 */
module Worker {
  import opened Wrappers
  import opened FileOps
  import opened Jobs
  import opened JobQueue
  import Processor

  /** The error the queue records for an attempt: the processor's error text, if any. */
  function ErrorText(err: Option<Processor.StepError>): (r: Option<string>)
    ensures r.None? <==> err.None?
  {
    match err
    case None => None
    case Some(e) => Some(Processor.Message(e))
  }

  /** Different failed steps leave different error texts, so the recorded error names the step. */
  lemma ErrorTextNamesStep(e: Processor.StepError, e': Processor.StepError)
    requires e.step in Processor.Steps && e'.step in Processor.Steps
    ensures ErrorText(Some(e)) == ErrorText(Some(e')) ==> e == e'
  {
    if Processor.Message(e) == Processor.Message(e') {
      Processor.MessageSplits(e, e');
    }
  }

  /**
   * `processJob`: the job at the head of the channel becomes Processing
   * and is started at `now`; the processor runs on it; the attempt is
   * settled at `later` with the paths the processor recorded. An empty
   * channel leaves everything as it was.
   */
  method ProcessJob(q: Queue, cfg: Processor.Config, d: Disk, tools: Processor.Tools, now: int, later: int)
    returns (h: Option<nat>, j: Job, disk: Disk, err: Option<Processor.StepError>, retry: bool)
    requires q.Valid() && q.active.None?
    modifies q
    ensures q.Valid() && q.active.None?
    ensures old(q.jobsChan) == [] ==>
              h.None? && disk == d && err.None? && !retry && q.jobs == old(q.jobs) && q.jobsChan == old(q.jobsChan)
    ensures old(q.jobsChan) != [] ==> h == Some(old(q.jobsChan)[0]) && q.jobsChan == old(q.jobsChan)[1..]
    ensures h.Some? ==>
              var started := old(q.jobs)[h.value].(status := Processing, startedAt := Stamped(now));
              var settled := Settle(WithProgress(started, ProgressOf(j)), ErrorText(err), q.maxRetries, Stamped(later));
              q.jobs == old(q.jobs)[h.value := settled.0] && retry == settled.1
              && WithProgress(j, ProgressOf(started)) == started
              && q.retryWaiting == (if retry then old(q.retryWaiting) + multiset{h.value} else old(q.retryWaiting))
    // The outcome, as `Settle` decides it.
    ensures h.Some? ==>
              var before := old(q.jobs)[h.value];
              var after := q.jobs[h.value];
              after.id == before.id && after.isLight == before.isLight && after.sourcePath == before.sourcePath
              && after.startedAt == Stamped(now)
              && (after.status == Completed <==> err.None?)
              && (err.None? ==> after.error == "" && after.retries == before.retries && after.completedAt == Stamped(later))
              && (err.Some? ==>
                    err.value.step in Processor.Steps
                    && after.error == Processor.Message(err.value) && after.retries == before.retries + 1
                    && (retry <==> before.retries + 1 < q.maxRetries)
                    && (retry ==> after.status == Pending)
                    && (!retry ==> after.status == Failed && after.completedAt == Stamped(later)))
    ensures disk.unwritable == d.unwritable && disk.sticky == d.sticky
    ensures q.jobMap == old(q.jobMap) && q.lightCompleted == old(q.lightCompleted) && q.lightFailed == old(q.lightFailed)
    ensures old(q.Consistent()) ==> q.Consistent()
  {
    h := q.Receive(Stamped(now));
    disk, err, retry := d, None, false;
    if h.None? {
      j := NewJob("", "", "", "", "", now);
      return;
    }
    var started := q.jobs[h.value];
    j, disk, err := Processor.Process(cfg, started, d, tools);
    ProgressRoundTrip(started, ProgressOf(j));
    retry := q.Finish(ProgressOf(j), ErrorText(err), Stamped(later));
  }
}
