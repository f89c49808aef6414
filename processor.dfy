/**
 * The heavy-job pipeline of `internal/service/processor/processor.go`:
 * stage the video, clean its name and move it to processing, obtain the
 * subtitle and its translation, deliver the subtitle, and hand the video on
 * to the scraping folder. A failure names its step; the failures of the
 * subtitle steps park the video in the failed folder.
 *
 * The transcriber and the translator are the executors of `Whisper` and
 * `Translator`, fed with what their subprocesses did (`Tools`); a tool that
 * succeeds has written its file. Timings and notifications are left out.
 */
module Processor {
  import opened Wrappers
  import opened Text
  import opened Paths
  import opened Settings
  import opened FileOps
  import opened Jobs
  import Whisper
  import Translator

  // ---------------------------------------------------------------------
  // Errors and durations
  // ---------------------------------------------------------------------

  /** An error returned by `Process`: the step that failed and the cause it reported. */
  datatype StepError = StepError(step: string, cause: string)

  /** The steps that can fail, in pipeline order. */
  const Steps: seq<string> := [
    "staging", "move to processing", "create dummy subtitle", "transcription",
    "translation", "move subtitle", "move video to scraping"]

  /** `handleError`'s message: "<step> failed: <cause>". */
  function Message(e: StepError): (m: string)
    ensures IsPrefix(e.step + " failed: ", m) && HasSuffix(m, e.cause)
    ensures |m| == |e.step| + 9 + |e.cause|
  {
    var m := e.step + " failed: " + e.cause;
    assert m[..|e.step| + 9] == e.step + " failed: ";
    assert m[|m| - |e.cause|..] == e.cause;
    m
  }

  /** No step name is a proper prefix of another. */
  lemma StepNamesPrefixFree(a: string, b: string)
    requires a in Steps && b in Steps && |a| < |b|
    ensures b[..|a|] != a
  {
    assert b[..|a|][0] == b[0] && b[..|a|][5] == b[5];
  }

  /** The message gives back the step and the cause: no two errors of the pipeline read the same. */
  lemma MessageSplits(e: StepError, e': StepError)
    requires e.step in Steps && e'.step in Steps
    requires Message(e) == Message(e')
    ensures e == e'
  {
    var m := Message(e);
    var a, b := e.step, e'.step;
    assert m[..|a|] == a && m[..|b|] == b;
    if |a| < |b| {
      assert b[..|a|] == m[..|a|];
      StepNamesPrefixFree(a, b);
    } else if |b| < |a| {
      assert a[..|b|] == m[..|b|];
      StepNamesPrefixFree(b, a);
    }
    assert e.cause == m[|a| + 9..] == e'.cause;
  }

  /** How `formatDuration` shows a duration; the one-decimal seconds form is kept symbolic. */
  datatype Shown = Plain(text: string) | SecondsOneDecimal(nanos: nat)

  const Millisecond: nat := 1000000
  const Second: nat := 1000 * Millisecond
  const Minute: nat := 60 * Second
  const Hour: nat := 60 * Minute

  /**
   * `formatDuration` of a duration in nanoseconds: milliseconds under a
   * second, seconds under a minute, minutes and seconds under an hour,
   * hours and minutes beyond.
   */
  function FormatDuration(d: nat): Shown {
    if d < Second then Plain(NatToString(d / Millisecond) + "ms")
    else if d < Minute then SecondsOneDecimal(d)
    else if d < Hour then Plain(NatToString(d / Minute) + "m" + NatToString((d / Second) % 60) + "s")
    else Plain(NatToString(d / Hour) + "h" + NatToString((d / Minute) % 60) + "m")
  }

  /**
   * The form is chosen by range, and the printed numbers are whole units of
   * the duration: the two numbers of a long form give back the duration
   * truncated to the second (or to the minute), and the second number is
   * always below 60.
   */
  lemma FormatDurationMeaning(d: nat)
    ensures d < Second ==>
              exists ms: nat :: FormatDuration(d) == Plain(NatToString(ms) + "ms")
                && ms < 1000 && ms * Millisecond <= d < (ms + 1) * Millisecond
    ensures Second <= d < Minute <==> FormatDuration(d).SecondsOneDecimal?
    ensures Minute <= d < Hour ==>
              exists m: nat, s: nat :: FormatDuration(d) == Plain(NatToString(m) + "m" + NatToString(s) + "s")
                && 1 <= m < 60 && s < 60 && m * Minute + s * Second <= d < m * Minute + (s + 1) * Second
    ensures Hour <= d ==>
              exists h: nat, m: nat :: FormatDuration(d) == Plain(NatToString(h) + "h" + NatToString(m) + "m")
                && h >= 1 && m < 60 && h * Hour + m * Minute <= d < h * Hour + (m + 1) * Minute
  {
    if d < Second {
      var ms := d / Millisecond;
      assert FormatDuration(d) == Plain(NatToString(ms) + "ms");
      assert ms * Millisecond <= d < (ms + 1) * Millisecond;
    }
    if Minute <= d < Hour {
      MinutesForm(d);
    }
    if Hour <= d {
      HoursForm(d);
    }
  }

  /** Under an hour: whole minutes, then the seconds left over. */
  lemma MinutesForm(d: nat)
    requires Minute <= d < Hour
    ensures exists m: nat, s: nat :: FormatDuration(d) == Plain(NatToString(m) + "m" + NatToString(s) + "s")
              && 1 <= m < 60 && s < 60 && m * Minute + s * Second <= d < m * Minute + (s + 1) * Second
  {
    var m, s := d / Minute, (d / Second) % 60;
    MinutesAndSeconds(d);
    MinutesBelowHour(d);
    assert FormatDuration(d) == Plain(NatToString(m) + "m" + NatToString(s) + "s");
  }

  /** From an hour on: whole hours, then the minutes left over. */
  lemma HoursForm(d: nat)
    requires Hour <= d
    ensures exists h: nat, m: nat :: FormatDuration(d) == Plain(NatToString(h) + "h" + NatToString(m) + "m")
              && h >= 1 && m < 60 && h * Hour + m * Minute <= d < h * Hour + (m + 1) * Minute
  {
    var h, m := d / Hour, (d / Minute) % 60;
    HoursAndMinutes(d);
    assert h >= 1;
    assert FormatDuration(d) == Plain(NatToString(h) + "h" + NatToString(m) + "m");
  }

  /** A duration from a minute up to an hour holds between 1 and 59 whole minutes. */
  lemma MinutesBelowHour(d: nat)
    requires Minute <= d < Hour
    ensures 1 <= d / Minute < 60
  {
  }

  /** Whole minutes and the seconds left over give back a duration to within a second. */
  lemma MinutesAndSeconds(d: nat)
    ensures (d / Second) / 60 == d / Minute
    ensures (d / Minute) * Minute + ((d / Second) % 60) * Second <= d < (d / Minute) * Minute + ((d / Second) % 60 + 1) * Second
  {
  }

  /** Whole hours and the minutes left over give back a duration to within a minute. */
  lemma HoursAndMinutes(d: nat)
    ensures (d / Minute) / 60 == d / Hour
    ensures (d / Hour) * Hour + ((d / Minute) % 60) * Minute <= d < (d / Hour) * Hour + ((d / Minute) % 60 + 1) * Minute
  {
  }

  // ---------------------------------------------------------------------
  // Where files go
  // ---------------------------------------------------------------------

  /** What the pipeline reads from the configuration. */
  datatype Config = Config(folders: Folders, dryRun: bool, whisper: WhisperConfig, translate: TranslateConfig)

  /** A file name without its extension. */
  function StemOf(name: string): string {
    TrimSuffix(name, Ext(name))
  }

  /** Where the video waits before it moves to processing: the existing staging path, or the staging folder. */
  function StagedAt(folders: Folders, job: Job): Path {
    if job.stagingPath == "" then Join(folders.staging, job.fileName) else job.stagingPath
  }

  /** The video's place in the processing folder, under its cleaned name. */
  function ProcessingAt(folders: Folders, job: Job): Path {
    Join(folders.process, CleanVideoFilename(job.fileName))
  }

  /** The dry-run subtitle: beside the video, named after it, extension ".srt". */
  function DummySubtitlePath(processingPath: Path, name: string): Path {
    Join(Dir(processingPath), StemOf(name) + ".srt")
  }

  /** The subtitle's final place: the subtitles folder, named after the video, extension ".srt". */
  function FinalSubtitlePath(folders: Folders, name: string): Path {
    Join(folders.subtitles, StemOf(name) + ".srt")
  }

  /**
   * `moveToFailed`: a file at `current` goes to the failed folder under
   * `name`; with nothing there nothing happens, and a failed move is only
   * logged.
   */
  function MoveToFailed(d: Disk, folders: Folders, name: string, current: Path): (r: Disk)
    ensures current == "" || current !in d.files || Join(folders.failed, name) in d.unwritable ==> r == d
    ensures current != "" && current in d.files && Join(folders.failed, name) !in d.unwritable ==>
              Move(d, current, Join(folders.failed, name)) == Success(r)
  {
    if current == "" || !Exists(d, current) then d
    else
      match Move(d, current, Join(folders.failed, name))
      case Failure(_) => d
      case Success(d') => d'
  }

  /**
   * What `moveToFailed` does to an existing file: the failed folder holds
   * its content and, unless it cannot be deleted, it is gone from where it
   * was; nothing else changes.
   */
  lemma MoveToFailedParks(d: Disk, folders: Folders, name: string, current: Path)
    requires current != "" && current in d.files && Join(folders.failed, name) !in d.unwritable
    ensures var r := MoveToFailed(d, folders, name, current);
            var f := Join(folders.failed, name);
            f in r.files && r.files[f] == d.files[current]
            && (current != f ==> (current in r.files <==> current in d.sticky))
            && (forall p :: p != current && p != f ==> (p in r.files <==> p in d.files))
            && r.unwritable == d.unwritable && r.sticky == d.sticky
  {
  }

  /**
   * `MoveToStagingForRetry`: a name missing from the failed folder is
   * refused and nothing moves; otherwise the file moves back to staging.
   */
  function MoveToStagingForRetry(d: Disk, folders: Folders, name: string): (r: Result<Disk>)
    ensures Join(folders.failed, name) !in d.files ==> r == Failure("file not found in failed folder: " + name)
    ensures Join(folders.failed, name) in d.files ==> r == Move(d, Join(folders.failed, name), Join(folders.staging, name))
  {
    var failedPath := Join(folders.failed, name);
    if !Exists(d, failedPath) then Failure("file not found in failed folder: " + name)
    else Move(d, failedPath, Join(folders.staging, name))
  }

  /** Parking a file and moving it back for a retry puts its content in staging under the same name. */
  lemma ParkThenRetry(d: Disk, folders: Folders, name: string, current: Path)
    requires current != "" && current in d.files
    requires Join(folders.failed, name) !in d.unwritable && Join(folders.staging, name) !in d.unwritable
    ensures var parked := MoveToFailed(d, folders, name, current);
            var back := MoveToStagingForRetry(parked, folders, name);
            back.Success? && Join(folders.staging, name) in back.value.files
            && back.value.files[Join(folders.staging, name)] == d.files[current]
  {
    MoveToFailedParks(d, folders, name, current);
  }

  // The pipeline
  // ---------------------------------------------------------------------

  /**
   * What the outside world does during one run: the API client's answer,
   * the transcription script, what `os.Stat` says of its output, the
   * post-processor, the text of the subtitle, the limiter's wait, the
   * translation script, and the translation it wrote, if any.
   */
  datatype Tools = Tools(
    api: Result<Path>,
    transcribeRun: Whisper.Run,
    srt: Whisper.FileStat,
    postRun: Whisper.Run,
    subtitleText: Content,
    wait: Option<string>,
    translateRun: Whisper.Run,
    translationText: Option<Content>)

  /** What the transcriber returns for the video at `video`. */
  function Transcript(cfg: Config, video: Path, tools: Tools): Result<Path> {
    Whisper.Transcribe(cfg.whisper, cfg.translate, video, tools.api, tools.transcribeRun, tools.srt, tools.postRun)
  }

  /** What the translator returns for the subtitle at `subtitle`. */
  function Translation(cfg: Config, subtitle: Path, tools: Tools): Result<Path> {
    Translator.Translate(cfg.translate, subtitle, tools.wait, tools.translateRun)
  }

  /** A file a tool wrote. */
  function Written(d: Disk, p: Path, c: Content): (r: Disk)
    ensures r.files == d.files[p := c] && r.unwritable == d.unwritable && r.sticky == d.sticky
  {
    d.(files := d.files[p := c])
  }

  /**
   * The disk once the transcriber has run. A local script that started
   * leaves its output beside the video whenever `os.Stat` later finds it
   * there, whether or not the run counts as a success; a script that failed
   * to start writes nothing, and neither does the API route before it
   * succeeds.
   */
  function ScriptRan(cfg: Config, video: Path, disk: Disk, tools: Tools): (r: Disk)
    ensures r.unwritable == disk.unwritable && r.sticky == disk.sticky
    ensures forall p :: p != Whisper.SrtPath(video) ==> (p in r.files <==> p in disk.files)
    ensures Whisper.Route(cfg.whisper) == Whisper.LocalScript && tools.transcribeRun.startError.None? && tools.srt.Present?
              && Whisper.SrtPath(video) !in disk.unwritable ==>
              Whisper.SrtPath(video) in r.files
    ensures Whisper.Route(cfg.whisper) == Whisper.OpenAIApi || tools.transcribeRun.startError.Some? || tools.srt.Missing? ==> r == disk
  {
    if Whisper.Route(cfg.whisper) == Whisper.LocalScript && tools.transcribeRun.startError.None? && tools.srt.Present?
       && Whisper.SrtPath(video) !in disk.unwritable
    then Written(disk, Whisper.SrtPath(video), tools.subtitleText)
    else disk
  }

  /** A failed local transcription whose script started leaves its output behind: it was written and parking the video does not take it. */
  predicate LeavesSrt(cfg: Config, name: string, video: Path, disk: Disk, tools: Tools) {
    Whisper.Route(cfg.whisper) == Whisper.LocalScript && tools.transcribeRun.startError.None? && tools.srt.Present?
    && Whisper.SrtPath(video) !in disk.unwritable
    && Whisper.SrtPath(video) != video && Whisper.SrtPath(video) != Join(cfg.folders.failed, name)
  }

  predicate IsStep(err: Option<StepError>, step: string) {
    err.Some? && err.value.step == step
  }

  /** The run got past the move to processing. */
  predicate PastProcessing(err: Option<StepError>) {
    !IsStep(err, "staging") && !IsStep(err, "move to processing")
  }

  /** The failures after which `moveToFailed` runs. */
  predicate ParksVideo(err: Option<StepError>) {
    IsStep(err, "create dummy subtitle") || IsStep(err, "transcription") || IsStep(err, "translation")
  }

  /**
   * Steps 1 and 2 of `Process`: a job without a staging path is linked or
   * copied into staging; the name is cleaned; the staged video moves to
   * processing. Nothing else on disk changes.
   */
  method StageAndMove(folders: Folders, job: Job, d: Disk) returns (j: Job, disk: Disk, err: Option<StepError>)
    ensures err.Some? ==> IsStep(err, "staging") || IsStep(err, "move to processing")
    ensures disk.unwritable == d.unwritable && disk.sticky == d.sticky
    ensures WithProgress(j, ProgressOf(job)) == job
    ensures j.subtitlePath == job.subtitlePath && j.translatedPath == job.translatedPath
    ensures IsStep(err, "staging") <==>
              job.stagingPath == "" && HardlinkOrCopy(d, job.sourcePath, StagedAt(folders, job)).Failure?
    ensures IsStep(err, "staging") ==>
              j == job && disk == d && err.value.cause == HardlinkOrCopy(d, job.sourcePath, StagedAt(folders, job)).error
    ensures !IsStep(err, "staging") ==> j.fileName == CleanVideoFilename(job.fileName)
    ensures IsStep(err, "move to processing") <==>
              !IsStep(err, "staging")
              && (ProcessingAt(folders, job) in d.unwritable || (job.stagingPath != "" && job.stagingPath !in d.files))
    ensures IsStep(err, "move to processing") ==>
              j == job.(fileName := CleanVideoFilename(job.fileName), stagingPath := StagedAt(folders, job))
              && disk == (if job.stagingPath == "" then HardlinkOrCopy(d, job.sourcePath, StagedAt(folders, job)).value else d)
    ensures err.None? ==>
              j.processingPath == ProcessingAt(folders, job) && j.stagingPath == "" && j.processingPath in disk.files
    ensures err.None? && StagedAt(folders, job) != ProcessingAt(folders, job) ==>
              (StagedAt(folders, job) in disk.files <==> StagedAt(folders, job) in d.sticky)
    ensures err.None? ==>
              forall p :: p != StagedAt(folders, job) && p != ProcessingAt(folders, job) ==> (p in disk.files <==> p in d.files)
  {
    j := job;
    disk := d;

    var stagingPath := Join(folders.staging, j.fileName);
    if j.stagingPath == "" {
      match HardlinkOrCopy(disk, j.sourcePath, stagingPath) {
        case Failure(e) =>
          return j, disk, Some(StepError("staging", e));
        case Success(d1) =>
          disk := d1;
      }
      j := j.(stagingPath := stagingPath);
    } else {
      stagingPath := j.stagingPath;
    }

    var cleanedName := CleanVideoFilename(j.fileName);
    if cleanedName != j.fileName {
      j := j.(fileName := cleanedName);
    }
    var processingPath := Join(folders.process, j.fileName);
    match Move(disk, stagingPath, processingPath) {
      case Failure(e) =>
        return j, disk, Some(StepError("move to processing", e));
      case Success(d2) =>
        disk := d2;
    }
    j := j.(processingPath := processingPath, stagingPath := "");
    err := None;
  }

  /**
   * Steps 3 and 4 of `Process` for the video at `video`: the dummy subtitle
   * in a dry run, otherwise transcription then translation. A failure moves
   * the video to the failed folder.
   */
  method ObtainSubtitles(cfg: Config, name: string, video: Path, disk: Disk, tools: Tools)
    returns (subtitlePath: Path, translatedPath: Path, disk': Disk, err: Option<StepError>)
    ensures err.Some? ==> ParksVideo(err)
    ensures disk'.unwritable == disk.unwritable && disk'.sticky == disk.sticky
    ensures IsStep(err, "create dummy subtitle") <==> cfg.dryRun && DummySubtitlePath(video, name) in disk.unwritable
    ensures IsStep(err, "transcription") <==> !cfg.dryRun && Transcript(cfg, video, tools).Failure?
    ensures IsStep(err, "transcription") ==> err.value.cause == Transcript(cfg, video, tools).error
    ensures IsStep(err, "translation") <==>
              !cfg.dryRun && Transcript(cfg, video, tools).Success?
              && Translation(cfg, Transcript(cfg, video, tools).value, tools).Failure?
    ensures IsStep(err, "translation") ==>
              err.value.cause == Translation(cfg, Transcript(cfg, video, tools).value, tools).error
    ensures err.Some? && video != "" && video in disk.files && Join(cfg.folders.failed, name) !in disk.unwritable ==>
              Join(cfg.folders.failed, name) in disk'.files
              && (Join(cfg.folders.failed, name) != video ==> (video in disk'.files <==> video in disk.sticky))
    ensures IsStep(err, "create dummy subtitle") ==>
              forall p :: p != video && p != Join(cfg.folders.failed, name) ==> (p in disk'.files <==> p in disk.files)
    // A failed transcription also leaves the local script's output, if it wrote any.
    ensures IsStep(err, "transcription") ==>
              forall p :: p != video && p != Join(cfg.folders.failed, name) && p != Whisper.SrtPath(video) ==>
                (p in disk'.files <==> p in disk.files)
    ensures IsStep(err, "transcription") && LeavesSrt(cfg, name, video, disk, tools) ==> Whisper.SrtPath(video) in disk'.files
    ensures err.None? && cfg.dryRun ==>
              subtitlePath == DummySubtitlePath(video, name) && translatedPath == subtitlePath
              && disk'.files == disk.files[subtitlePath := DummySubtitle]
    ensures err.None? && !cfg.dryRun ==>
              Transcript(cfg, video, tools) == Success(subtitlePath)
              && Translation(cfg, subtitlePath, tools) == Success(translatedPath)
              && disk'.files == (if tools.translationText.Some?
                                 then disk.files[subtitlePath := tools.subtitleText][translatedPath := tools.translationText.value]
                                 else disk.files[subtitlePath := tools.subtitleText])
  {
    if cfg.dryRun {
      subtitlePath, translatedPath, disk', err := WriteDummy(cfg, name, video, disk);
    } else {
      subtitlePath, translatedPath, disk', err := TranscribeAndTranslate(cfg, name, video, disk, tools);
    }
  }

  /** The video is parked in the failed folder and the step's error is returned. */
  method Park(folders: Folders, name: string, video: Path, disk: Disk, step: string, cause: string)
    returns (disk': Disk, err: Option<StepError>)
    ensures err == Some(StepError(step, cause))
    ensures disk' == MoveToFailed(disk, folders, name, video)
    ensures disk'.unwritable == disk.unwritable && disk'.sticky == disk.sticky
    ensures video != "" && video in disk.files && Join(folders.failed, name) !in disk.unwritable ==>
              Join(folders.failed, name) in disk'.files
              && (Join(folders.failed, name) != video ==> (video in disk'.files <==> video in disk.sticky))
              && forall p :: p != video && p != Join(folders.failed, name) ==> (p in disk'.files <==> p in disk.files)
  {
    disk' := MoveToFailed(disk, folders, name, video);
    if video != "" && video in disk.files && Join(folders.failed, name) !in disk.unwritable {
      MoveToFailedParks(disk, folders, name, video);
    }
    err := Some(StepError(step, cause));
  }

  /** Step 3 of a dry run: the dummy subtitle beside the video. */
  method WriteDummy(cfg: Config, name: string, video: Path, disk: Disk)
    returns (subtitlePath: Path, translatedPath: Path, disk': Disk, err: Option<StepError>)
    requires cfg.dryRun
    ensures err.Some? ==> IsStep(err, "create dummy subtitle")
    ensures disk'.unwritable == disk.unwritable && disk'.sticky == disk.sticky
    ensures err.Some? <==> DummySubtitlePath(video, name) in disk.unwritable
    ensures err.Some? ==> disk' == MoveToFailed(disk, cfg.folders, name, video)
    ensures err.Some? && video != "" && video in disk.files && Join(cfg.folders.failed, name) !in disk.unwritable ==>
              Join(cfg.folders.failed, name) in disk'.files
              && (Join(cfg.folders.failed, name) != video ==> (video in disk'.files <==> video in disk.sticky))
              && forall p :: p != video && p != Join(cfg.folders.failed, name) ==> (p in disk'.files <==> p in disk.files)
    ensures err.None? ==>
              subtitlePath == DummySubtitlePath(video, name) && translatedPath == subtitlePath
              && disk'.files == disk.files[subtitlePath := DummySubtitle]
  {
    subtitlePath := DummySubtitlePath(video, name);
    translatedPath := subtitlePath;
    match WriteDummySubtitle(disk, subtitlePath) {
      case Failure(e) =>
        disk', err := Park(cfg.folders, name, video, disk, "create dummy subtitle", e);
      case Success(d3) =>
        disk', err := d3, None;
    }
  }

  /** When transcription succeeds, the file the local script left is the transcript, with the subtitle's text. */
  lemma ScriptOutputIsTranscript(cfg: Config, video: Path, disk: Disk, tools: Tools)
    requires Transcript(cfg, video, tools).Success?
    ensures var p := Transcript(cfg, video, tools).value;
            Written(ScriptRan(cfg, video, disk, tools), p, tools.subtitleText) == Written(disk, p, tools.subtitleText)
  {
    var p := Transcript(cfg, video, tools).value;
    if Whisper.Route(cfg.whisper) == Whisper.LocalScript {
      Whisper.TranscribeLocalMeaning(cfg.whisper, cfg.translate, video, tools.transcribeRun, tools.srt, tools.postRun);
      assert p == Whisper.SrtPath(video);
      assert ScriptRan(cfg, video, disk, tools).files[p := tools.subtitleText] == disk.files[p := tools.subtitleText];
    }
  }

  /** A failed transcription parks the video; whatever the script wrote stays where it is. */
  method TranscriptionFailed(cfg: Config, name: string, video: Path, disk: Disk, tools: Tools)
    returns (disk': Disk, err: Option<StepError>)
    requires Transcript(cfg, video, tools).Failure?
    ensures err == Some(StepError("transcription", Transcript(cfg, video, tools).error))
    ensures disk' == MoveToFailed(ScriptRan(cfg, video, disk, tools), cfg.folders, name, video)
    ensures disk'.unwritable == disk.unwritable && disk'.sticky == disk.sticky
    ensures video != "" && video in disk.files && Join(cfg.folders.failed, name) !in disk.unwritable ==>
              Join(cfg.folders.failed, name) in disk'.files
              && (Join(cfg.folders.failed, name) != video ==> (video in disk'.files <==> video in disk.sticky))
    ensures forall p :: p != video && p != Join(cfg.folders.failed, name) && p != Whisper.SrtPath(video) ==>
              (p in disk'.files <==> p in disk.files)
    ensures LeavesSrt(cfg, name, video, disk, tools) ==> Whisper.SrtPath(video) in disk'.files
  {
    var ran := ScriptRan(cfg, video, disk, tools);
    disk', err := Park(cfg.folders, name, video, ran, "transcription", Transcript(cfg, video, tools).error);
    if !(video != "" && video in ran.files && Join(cfg.folders.failed, name) !in ran.unwritable) {
      assert disk' == ran;
    }
  }

  /** Steps 3 and 4 outside a dry run: transcribe, then translate the transcript. */
  method TranscribeAndTranslate(cfg: Config, name: string, video: Path, disk: Disk, tools: Tools)
    returns (subtitlePath: Path, translatedPath: Path, disk': Disk, err: Option<StepError>)
    requires !cfg.dryRun
    ensures err.Some? ==> IsStep(err, "transcription") || IsStep(err, "translation")
    ensures disk'.unwritable == disk.unwritable && disk'.sticky == disk.sticky
    ensures IsStep(err, "transcription") <==> Transcript(cfg, video, tools).Failure?
    ensures IsStep(err, "transcription") ==> err.value.cause == Transcript(cfg, video, tools).error
    ensures IsStep(err, "transcription") ==> disk' == MoveToFailed(ScriptRan(cfg, video, disk, tools), cfg.folders, name, video)
    ensures IsStep(err, "translation") <==>
              Transcript(cfg, video, tools).Success? && Translation(cfg, Transcript(cfg, video, tools).value, tools).Failure?
    ensures IsStep(err, "translation") ==>
              err.value.cause == Translation(cfg, Transcript(cfg, video, tools).value, tools).error
    ensures err.Some? && video != "" && video in disk.files && Join(cfg.folders.failed, name) !in disk.unwritable ==>
              Join(cfg.folders.failed, name) in disk'.files
              && (Join(cfg.folders.failed, name) != video ==> (video in disk'.files <==> video in disk.sticky))
    ensures IsStep(err, "transcription") ==>
              forall p :: p != video && p != Join(cfg.folders.failed, name) && p != Whisper.SrtPath(video) ==>
                (p in disk'.files <==> p in disk.files)
    ensures IsStep(err, "transcription") && LeavesSrt(cfg, name, video, disk, tools) ==> Whisper.SrtPath(video) in disk'.files
    ensures err.None? ==>
              Transcript(cfg, video, tools) == Success(subtitlePath)
              && Translation(cfg, subtitlePath, tools) == Success(translatedPath)
              && disk'.files == (if tools.translationText.Some?
                                 then disk.files[subtitlePath := tools.subtitleText][translatedPath := tools.translationText.value]
                                 else disk.files[subtitlePath := tools.subtitleText])
  {
    translatedPath := "";
    match Transcript(cfg, video, tools) {
      case Failure(e) =>
        subtitlePath := "";
        disk', err := TranscriptionFailed(cfg, name, video, disk, tools);
        return;
      case Success(p) =>
        subtitlePath := p;
    }
    // The transcript is the file the script left, so writing it over `disk` is the same as over `ScriptRan`.
    ScriptOutputIsTranscript(cfg, video, disk, tools);
    var written := Written(disk, subtitlePath, tools.subtitleText);
    match Translation(cfg, subtitlePath, tools) {
      case Failure(e) =>
        disk', err := Park(cfg.folders, name, video, written, "translation", e);
      case Success(p) =>
        translatedPath := p;
        disk', err := written, None;
        if tools.translationText.Some? {
          disk' := Written(written, p, tools.translationText.value);
        }
    }
  }

  /**
   * Steps 5 and 6 of `Process`: outside a dry run the translation moves to
   * the subtitles folder and the untranslated subtitle is deleted; in a dry
   * run the dummy is deleted. Then the video moves to the scraping folder.
   */
  method Deliver(cfg: Config, j: Job, disk: Disk) returns (disk': Disk, err: Option<StepError>)
    ensures err.Some? ==> IsStep(err, "move subtitle") || IsStep(err, "move video to scraping")
    ensures disk'.unwritable == disk.unwritable && disk'.sticky == disk.sticky
    ensures IsStep(err, "move subtitle") <==>
              !cfg.dryRun && (FinalSubtitlePath(cfg.folders, j.fileName) in disk.unwritable || j.translatedPath !in disk.files)
    ensures IsStep(err, "move subtitle") ==> disk' == disk
    ensures err.None? ==>
              Join(cfg.folders.scraping, j.fileName) in disk'.files
              && (j.processingPath != Join(cfg.folders.scraping, j.fileName) ==>
                    (j.processingPath in disk'.files <==> j.processingPath in disk.sticky))
    ensures err.None? && !cfg.dryRun
            && FinalSubtitlePath(cfg.folders, j.fileName) != j.subtitlePath
            && FinalSubtitlePath(cfg.folders, j.fileName) != j.processingPath
            && FinalSubtitlePath(cfg.folders, j.fileName) != Join(cfg.folders.scraping, j.fileName) ==>
              FinalSubtitlePath(cfg.folders, j.fileName) in disk'.files
              && disk'.files[FinalSubtitlePath(cfg.folders, j.fileName)] == disk.files[j.translatedPath]
    ensures err.None? && cfg.dryRun && j.subtitlePath in disk.files
            && j.subtitlePath !in disk.sticky && j.subtitlePath != Join(cfg.folders.scraping, j.fileName) ==>
              j.subtitlePath !in disk'.files
    // Outside a dry run the untranslated subtitle is deleted once the translation has moved.
    ensures err.None? && !cfg.dryRun && j.subtitlePath != j.translatedPath && j.subtitlePath in disk.files
            && j.subtitlePath !in disk.sticky && j.subtitlePath != FinalSubtitlePath(cfg.folders, j.fileName)
            && j.subtitlePath != Join(cfg.folders.scraping, j.fileName) ==>
              j.subtitlePath !in disk'.files
    // A failed move to scraping leaves the video where it was and parks nothing.
    ensures !IsStep(err, "move subtitle") && Join(cfg.folders.scraping, j.fileName) in disk.unwritable ==>
              IsStep(err, "move video to scraping")
    ensures IsStep(err, "move video to scraping") ==>
              (Join(cfg.folders.scraping, j.fileName) in disk.unwritable || j.processingPath !in disk'.files)
              && forall p :: p != j.translatedPath && p != j.subtitlePath && p != FinalSubtitlePath(cfg.folders, j.fileName) ==>
                   (p in disk'.files <==> p in disk.files)
    ensures IsStep(err, "move video to scraping") && j.processingPath in disk.files
            && j.processingPath != j.subtitlePath && j.processingPath != j.translatedPath ==>
              j.processingPath in disk'.files && Join(cfg.folders.scraping, j.fileName) in disk.unwritable
  {
    disk' := disk;
    if cfg.dryRun {
      match Remove(disk', j.subtitlePath) {
        case Failure(_) =>
        case Success(d4) =>
          disk' := d4;
      }
    } else {
      var finalSubPath := FinalSubtitlePath(cfg.folders, j.fileName);
      match Move(disk', j.translatedPath, finalSubPath) {
        case Failure(e) =>
          return disk', Some(StepError("move subtitle", e));
        case Success(d5) =>
          disk' := d5;
      }
      if j.subtitlePath != j.translatedPath && Exists(disk', j.subtitlePath) {
        match Remove(disk', j.subtitlePath) {
          case Failure(_) =>
          case Success(d6) =>
            disk' := d6;
        }
      }
    }

    var scrapingPath := Join(cfg.folders.scraping, j.fileName);
    match Move(disk', j.processingPath, scrapingPath) {
      case Failure(e) =>
        return disk', Some(StepError("move video to scraping", e));
      case Success(d7) =>
        disk' := d7;
    }
    err := None;
  }

  /**
   * `Process`: run the pipeline on `job` over disk `d`. Returns the job with
   * the fields the pipeline wrote, the disk afterwards, and the failed step
   * with its cause.
   */
  method Process(cfg: Config, job: Job, d: Disk, tools: Tools) returns (j: Job, disk: Disk, err: Option<StepError>)
    ensures err.Some? ==> err.value.step in Steps
    ensures disk.unwritable == d.unwritable && disk.sticky == d.sticky
    // Only the progress fields change.
    ensures WithProgress(j, ProgressOf(job)) == job
    // Steps 1 and 2: staging, cleaning the name, moving to processing.
    ensures IsStep(err, "staging") <==>
              job.stagingPath == "" && HardlinkOrCopy(d, job.sourcePath, StagedAt(cfg.folders, job)).Failure?
    ensures IsStep(err, "staging") ==> j == job && disk == d
    ensures !IsStep(err, "staging") ==> j.fileName == CleanVideoFilename(job.fileName)
    ensures IsStep(err, "move to processing") <==>
              !IsStep(err, "staging")
              && (ProcessingAt(cfg.folders, job) in d.unwritable || (job.stagingPath != "" && job.stagingPath !in d.files))
    ensures IsStep(err, "move to processing") ==> j.stagingPath == StagedAt(cfg.folders, job)
    ensures PastProcessing(err) ==> j.processingPath == ProcessingAt(cfg.folders, job) && j.stagingPath == ""
    // Steps 3 and 4: the dummy subtitle in a dry run, otherwise transcription then translation.
    ensures IsStep(err, "create dummy subtitle") <==>
              PastProcessing(err) && cfg.dryRun && DummySubtitlePath(j.processingPath, j.fileName) in d.unwritable
    ensures IsStep(err, "transcription") <==>
              PastProcessing(err) && !cfg.dryRun && Transcript(cfg, j.processingPath, tools).Failure?
    ensures IsStep(err, "translation") <==>
              PastProcessing(err) && !cfg.dryRun && Transcript(cfg, j.processingPath, tools).Success?
              && Translation(cfg, Transcript(cfg, j.processingPath, tools).value, tools).Failure?
    // A failed subtitle step parks the video in the failed folder and records no subtitle.
    ensures ParksVideo(err) ==> j.subtitlePath == job.subtitlePath && j.translatedPath == job.translatedPath
    ensures ParksVideo(err) && j.processingPath != "" && Join(cfg.folders.failed, j.fileName) !in d.unwritable ==>
              Join(cfg.folders.failed, j.fileName) in disk.files
              && (Join(cfg.folders.failed, j.fileName) != j.processingPath ==>
                    (j.processingPath in disk.files <==> j.processingPath in d.sticky))
    ensures IsStep(err, "transcription") && StagedAt(cfg.folders, job) !in d.sticky
            && StagedAt(cfg.folders, job) != j.processingPath && StagedAt(cfg.folders, job) != Join(cfg.folders.failed, j.fileName)
            && StagedAt(cfg.folders, job) != Whisper.SrtPath(j.processingPath) ==>
              StagedAt(cfg.folders, job) !in disk.files
    // A failed local transcription leaves the script's output beside the parked video's old place.
    ensures IsStep(err, "transcription") && LeavesSrt(cfg, j.fileName, j.processingPath, d, tools) ==>
              Whisper.SrtPath(j.processingPath) in disk.files
    // Past step 4 both subtitle paths are recorded.
    ensures PastProcessing(err) && !ParksVideo(err) ==>
              if cfg.dryRun then
                j.subtitlePath == DummySubtitlePath(j.processingPath, j.fileName) && j.translatedPath == j.subtitlePath
              else
                Transcript(cfg, j.processingPath, tools) == Success(j.subtitlePath)
                && Translation(cfg, j.subtitlePath, tools) == Success(j.translatedPath)
    // Step 5: skipped in a dry run; a failed subtitle move leaves the video in processing.
    ensures IsStep(err, "move subtitle") ==> !cfg.dryRun && j.processingPath in disk.files
    ensures PastProcessing(err) && !ParksVideo(err) && !cfg.dryRun && FinalSubtitlePath(cfg.folders, j.fileName) in d.unwritable ==>
              IsStep(err, "move subtitle")
    // Step 6: success means the video reached the scraping folder and left processing.
    ensures err.None? ==>
              Join(cfg.folders.scraping, j.fileName) in disk.files
              && (j.processingPath != Join(cfg.folders.scraping, j.fileName) ==>
                    (j.processingPath in disk.files <==> j.processingPath in d.sticky))
    ensures err.None? && !cfg.dryRun && tools.translationText.Some?
            && FinalSubtitlePath(cfg.folders, j.fileName) != j.subtitlePath
            && FinalSubtitlePath(cfg.folders, j.fileName) != j.processingPath
            && FinalSubtitlePath(cfg.folders, j.fileName) != Join(cfg.folders.scraping, j.fileName) ==>
              FinalSubtitlePath(cfg.folders, j.fileName) in disk.files
              && disk.files[FinalSubtitlePath(cfg.folders, j.fileName)] == tools.translationText.value
    ensures err.None? && cfg.dryRun
            && j.subtitlePath !in d.sticky && j.subtitlePath != Join(cfg.folders.scraping, j.fileName) ==>
              j.subtitlePath !in disk.files
    ensures err.None? && !cfg.dryRun && j.subtitlePath != j.translatedPath
            && j.subtitlePath !in d.sticky && j.subtitlePath != FinalSubtitlePath(cfg.folders, j.fileName)
            && j.subtitlePath != Join(cfg.folders.scraping, j.fileName) ==>
              j.subtitlePath !in disk.files
    // A failed move to scraping leaves the video in the processing folder; it is not parked.
    ensures PastProcessing(err) && !ParksVideo(err) && !IsStep(err, "move subtitle")
            && Join(cfg.folders.scraping, j.fileName) in d.unwritable ==>
              IsStep(err, "move video to scraping")
    ensures IsStep(err, "move video to scraping") && j.processingPath != j.subtitlePath && j.processingPath != j.translatedPath ==>
              j.processingPath in disk.files && Join(cfg.folders.scraping, j.fileName) in d.unwritable
  {
    j, disk, err := StageAndMove(cfg.folders, job, d);
    if err.Some? {
      return;
    }
    var subtitlePath, translatedPath, d3;
    subtitlePath, translatedPath, d3, err := ObtainSubtitles(cfg, j.fileName, j.processingPath, disk, tools);
    if err.Some? {
      disk := d3;
      return;
    }
    assert subtitlePath in d3.files && j.processingPath in d3.files;
    disk := d3;
    j := j.(subtitlePath := subtitlePath, translatedPath := translatedPath);
    disk, err := Deliver(cfg, j, disk);
  }

  /**
   * With well-formed folders and a cleaned name that is a plain file name,
   * the places the pipeline uses are all different, so the conditions under
   * which `Process` promises where the video and the subtitle end up hold.
   * The local transcriber's subtitle lies in the processing folder, apart
   * from the final subtitle.
   */
  lemma LayoutKeepsPathsApart(folders: Folders, name: string)
    requires WellFormed(folders) && IsName(name)
    ensures var video := Join(folders.process, name);
            var final := FinalSubtitlePath(folders, name);
            final != video && final != Join(folders.scraping, name) && final != Whisper.SrtPath(video)
            && video != Join(folders.scraping, name) && video != Join(folders.failed, name)
            && Join(folders.staging, name) != video && Join(folders.staging, name) != Join(folders.failed, name)
  {
    var all := [folders.input, folders.staging, folders.process, folders.scraping, folders.subtitles, folders.failed];
    assert all[1] == folders.staging && all[2] == folders.process && all[3] == folders.scraping;
    assert all[4] == folders.subtitles && all[5] == folders.failed;
    assert IsFolder(folders.process) && IsFolder(folders.subtitles) && IsFolder(folders.scraping);
    assert IsFolder(folders.failed) && IsFolder(folders.staging);
    var srt := StemOf(name) + ".srt";
    SeparateFoldersDisjoint(folders.subtitles, folders.process, srt, name);
    SeparateFoldersDisjoint(folders.subtitles, folders.scraping, srt, name);
    SeparateFoldersDisjoint(folders.process, folders.scraping, name, name);
    SeparateFoldersDisjoint(folders.process, folders.failed, name, name);
    SeparateFoldersDisjoint(folders.staging, folders.process, name, name);
    SeparateFoldersDisjoint(folders.staging, folders.failed, name, name);
    JoinSplits(folders.process, name);
    Whisper.SrtPathBesideVideo(folders.process, name);
    assert Whisper.SrtPath(Join(folders.process, name)) == Join(folders.process, srt);
    SeparateFoldersDisjoint(folders.subtitles, folders.process, srt, srt);
  }

  /**
   * A job re-queued from staging or from the failed folder has its source
   * path equal to its staging path. Its first attempt moves that file to
   * processing and clears the staging path; if transcription then fails,
   * the second attempt stages again from the source path, which is gone,
   * and fails at staging, whatever the tools do the second time.
   */
  method RequeuedJobRetriesInVain(cfg: Config, job: Job, d: Disk, first: Tools, second: Tools)
    returns (err1: Option<StepError>, err2: Option<StepError>)
    requires job.stagingPath != "" && job.sourcePath == job.stagingPath
    requires job.stagingPath !in d.sticky
    requires job.stagingPath != ProcessingAt(cfg.folders, job)
    requires job.stagingPath != Join(cfg.folders.failed, CleanVideoFilename(job.fileName))
    requires job.stagingPath != Whisper.SrtPath(ProcessingAt(cfg.folders, job))
    ensures IsStep(err1, "transcription") ==> IsStep(err2, "staging")
    ensures !cfg.dryRun && job.stagingPath in d.files && ProcessingAt(cfg.folders, job) !in d.unwritable
            && Transcript(cfg, ProcessingAt(cfg.folders, job), first).Failure? ==>
              IsStep(err1, "transcription") && IsStep(err2, "staging")
  {
    var j1, d1;
    j1, d1, err1 := Process(cfg, job, d, first);
    var next := WithProgress(job, ProgressOf(j1));
    ProgressRoundTrip(job, ProgressOf(j1));
    var j2, d2;
    j2, d2, err2 := Process(cfg, next, d1, second);
  }
}
