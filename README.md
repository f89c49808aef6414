# fusionn-muse, modelled in Dafny

fusionn-muse watches a torrent client. When a download finishes, a webhook
names the downloaded path. The handler finds the video in it and creates a
job. A *light* job (a video that already carries Chinese subtitles) is only
staged and moved to the scraping folder. A *heavy* job goes onto a bounded
work channel. There, a single worker runs the processing pipeline on one job
at a time:

1. stage the video (hard link or copy);
2. clean its name and move it to the processing folder;
3. transcribe it with Whisper, or write a dummy subtitle in a dry run;
4. translate the subtitle;
5. move the subtitle to the subtitles folder;
6. move the video to the scraping folder.

A failed attempt is retried until `maxRetries` is reached. Videos that failed
transcription or translation are parked in the failed folder. Two HTTP
endpoints re-queue videos from the staging folder or the failed folder.

Two Python workers are also modelled. The transcription script filters
hallucinated or empty segments and eases the gaps between segments. The
translation script looks up the target language, falling back to a loose
match.

The model is organised by source file:

| module (file) | source | form |
|---|---|---|
| `Wrappers`, `Text`, `Paths`, `Settings` | Go `strings`/`filepath`, `internal/config/config.go` | values and lemmas the rest builds on |
| `Jobs` (jobs.dfy) | `internal/queue/job.go`, `processJob` | the job record, `NewJob`, and `Settle`, the rule that ends an attempt |
| `JobQueue` (queue.dfy) | `internal/queue/queue.go` | class `Queue`, whose fields the methods update in place |
| `Processor` (processor.dfy) | `internal/service/processor/processor.go` | the step sequence as methods over a disk value |
| `Handler` (handler.dfy) | `internal/handler/handler.go` | class `Handler` over a `Queue`: admission, light jobs, retry endpoints |
| `Worker` (worker.dfy) | `processJob` in `internal/queue/queue.go` | one turn of the worker |
| `FileOps` (fileops.dfy) | `internal/fileops/fileops.go` | filename rules, video selection, file operations on a disk value |
| `Whisper`, `Translator` | `internal/executor/*.go` | argument lists, output paths, how a finished subprocess is judged |
| `Segments`, `Languages` | `scripts/transcribe.py`, `scripts/translate.py` | segment filter and timing, language lookup |

The file system is a value, `Disk`. It holds:

- a map from path to content;
- the set of paths that cannot be written;
- the set of files that cannot be deleted.

Every file operation is a function from one disk to the next, or to an error.

Everything the program does not decide for itself is an input:

- job IDs and the clock;
- the directory walk;
- file sizes;
- subprocess outcomes;
- the rate limiter's wait;
- the light-job classifier.

`Queue.Consistent()` is the queue's scheduling invariant. It says:

- every job in the channel, in the retry set or in hand is a heavy Pending job (or the one job Processing);
- no job is due for delivery twice;
- every heavy job keeps its retry accounting.

Every operation preserves it, so at most one heavy job is ever Processing,
and a Completed or Failed job is never delivered again.

Where the documentation and the code disagree, the model follows the code:

- The doc comment of `CleanVideoFilename` gives "xxxSONE-269.mp4" → "SONE-269.mp4". The regular expression takes the leftmost match, "XSONE-269", so the model gives "XSONE-269.mp4" (`FileOps.CleanExamplePrefix`).
- `processJob` fails a job for good when `retries < maxRetries` no longer holds after the increment. With `maxRetries` = 2, the second failure is therefore final (`Jobs.TwoRetriesScenario`).
- The folder set used by the code has a scraping folder that the configuration record does not declare. The model's `Settings.Folders` includes it.
- The executors read configuration fields the configuration record does not declare (prompt, post-processing switches, split limits, instruction). The model's configuration records carry the fields the executors read.

A consequence of the code is proved rather than assumed (`Processor.RequeuedJobRetriesInVain`). A job re-queued by a retry endpoint has its source path equal to its staging path. Its first attempt moves that file away. If transcription then fails, the automatic retry stages from the vanished source and fails at staging.

## Model

| member | source | states |
|---|---|---|
| Text.NatToStringRoundTrip | internal/service/processor/processor.go:55-70 | the decimal text `%d` prints is non-empty, all digits, and reads back as the same number |
| Paths.ExtOfSuffix | internal/fileops/fileops.go:210-213 | a path ending in a well-formed extension has exactly that extension |
| Paths.JoinSplits | internal/executor/whisper.go:47-49 | a name joined onto a folder lies in the folder; `Dir` and `Base` give the folder and name back; the extension is the name's |
| Paths.SeparateFoldersDisjoint | internal/config/config.go:30-48 | names joined onto two separate folders never give the same path |
| Paths.SeparateFoldersExclusive | internal/config/config.go:30-48 | a path inside one folder is not inside a separate one |
| FileOps.FindCodeMeaning | internal/fileops/fileops.go:21 | the code search finds nothing iff no substring matches `[A-Z]{2,5}-\d{3,5}`; otherwise it returns the leftmost, longest match |
| FileOps.HasVideoCode | internal/fileops/fileops.go:153-155 | defined as the code search on the upper-cased name; `HasVideoCodeMeaning` states what it accepts |
| FileOps.HasVideoCodeMeaning | internal/fileops/fileops.go:153-155 | a name has a video code iff its upper-cased form contains a match |
| FileOps.CleanKeepsCodeless | internal/fileops/fileops.go:229-236 | a name without a code is returned unchanged |
| FileOps.CleanVideoFilename | internal/fileops/fileops.go:221-236 | defined as the leftmost code plus the lower-cased extension, or the name unchanged; `CleanWithCode`, `CleanKeepsCodeless` and `CleanIdempotent` state its meaning |
| FileOps.CleanWithCode | internal/fileops/fileops.go:221-236 | a name with a code becomes the leftmost match plus the lower-cased extension, and still has a code |
| FileOps.CleanIdempotent | internal/fileops/fileops.go:221-236 | cleaning a cleaned name changes nothing |
| FileOps.CleanCodeHead | internal/fileops/fileops.go:229-236 | a name that starts with a code (not followed by a digit) cleans to the code plus the lower-cased extension |
| FileOps.CleanExamplePrefix | internal/fileops/fileops.go:221-236 | "xxxSONE-269.mp4" cleans to "XSONE-269.mp4" |
| FileOps.IsVideoFile | internal/fileops/fileops.go:118-132 | defined as membership of the extension in the video list; `VideoFileBySuffix` states it as a suffix test |
| FileOps.VideoFileBySuffix | internal/fileops/fileops.go:118-132 | a path is a video iff it ends, case-sensitively, in one of the nine listed extensions |
| FileOps.HasSubtitleSuffix | internal/fileops/fileops.go:215-219 | defined on the last dot; `SubtitleSuffixMatches` relates it to the regular expression |
| FileOps.SubtitleSuffixMatches | internal/fileops/fileops.go:215-219 | the `-C` test holds iff the name ends in "-c." or "-C." and then a non-empty extension without a dot |
| FileOps.SubtitleSuffixExamples | internal/fileops/fileops.go:215-219 | "SONE-269-C.mp4" has the suffix and "SONE-269.mp4" does not |
| FileOps.ChangeExtension | internal/fileops/fileops.go:210-213 | defined as the path without its extension plus the new one; `ChangeExtensionReplaces` states the result and the round trip |
| FileOps.ChangeExtensionReplaces | internal/fileops/fileops.go:210-213 | the new path has the new extension and keeps everything before the old one; changing back restores the path |
| FileOps.HardlinkOrCopy | internal/fileops/fileops.go:27-49 | fails iff the source is missing or the target unwritable; otherwise the target holds the source content, the source stays, and nothing else changes |
| FileOps.Move | internal/fileops/fileops.go:52-76 | fails iff the source is missing or the target unwritable; otherwise the target holds the source content; the source is gone unless it cannot be deleted (only logged); nothing else changes |
| FileOps.MoveRoundTrip | internal/fileops/fileops.go:52-76 | moving a file and moving it back restores the disk |
| FileOps.Remove | internal/fileops/fileops.go:113-115 | fails iff the file is missing or cannot be deleted; otherwise exactly that file is gone |
| FileOps.WriteDummySubtitle | internal/fileops/fileops.go:239-249 | fails iff the path is unwritable; otherwise the path holds the dummy subtitle and nothing else changes |
| FileOps.WalkVideosMembers | internal/fileops/fileops.go:135-149 | the walk yields exactly the video files visited before the first walk error, and reports an error iff there is one |
| FileOps.FindVideoFiles | internal/fileops/fileops.go:135-149 | the loop returns the walk's videos in walk order and its error |
| FileOps.SelectLargest | internal/fileops/fileops.go:160-207 | fails iff no candidate has a code and a size above the minimum; otherwise returns the largest such candidate, the first one on ties |
| FileOps.FindValidVideoFile | internal/fileops/fileops.go:160-207 | fails iff the walk fails or nothing qualifies; otherwise the largest qualifying video, the first on ties |
| Jobs.StatusRoundTrip | internal/queue/job.go:10-15 | each of the four status strings reads back as its status |
| Jobs.NewJob | internal/queue/job.go:42-52 | a new job is Pending, never tried, heavy, error and all four paths empty, created now, with the given ID, source, name, torrent and category |
| Jobs.ProgressRoundTrip | internal/service/processor/processor.go:73-208 | writing the pipeline's progress fields changes exactly those fields |
| Jobs.Settle | internal/queue/queue.go:194-234 | success: Completed, error cleared, retries kept, completion stamped, no retry; failure: one more retry, error recorded, Pending and retried iff retries < maxRetries, otherwise Failed and stamped; no other field changes |
| Jobs.SettleAccounted | internal/queue/queue.go:208-226 | settling keeps retries within the bound and Failed exactly when the bound is used up |
| Jobs.FailingJobExhaustsRetries | internal/queue/queue.go:208-226 | a job that fails every time is attempted exactly as often as the bound allows and ends Failed with that many retries |
| Jobs.FirstSuccessCompletes | internal/queue/queue.go:208-233 | a job that succeeds after k failures, k below the bound, ends Completed after k+1 attempts with k retries |
| Jobs.TwoRetriesScenario | internal/queue/queue.go:208-226 | with maxRetries 2, two failures fail the job for good and a third attempt never happens |
| JobQueue.PendingOfAppend | internal/queue/queue.go:104-115 | the Pending jobs of a concatenation are those of each part, in order |
| JobQueue.PendingOfCounts | internal/queue/queue.go:104-115 | each Pending job occurs in the result as often as in the list, and no other job occurs |
| JobQueue.HeavyPartition | internal/queue/queue.go:118-155 | the four heavy status counts add up to the number of heavy jobs |
| JobQueue.OneHeavyAtATime | internal/queue/queue.go:181-234 | under the scheduling invariant, at most one heavy job is Processing |
| JobQueue.SettledNotDue | internal/queue/queue.go:181-234 | under the invariant, a Completed or Failed heavy job is never due for delivery |
| JobQueue.AdmitKeeps | internal/queue/queue.go:70-84 | admitting a heavy Pending job keeps the invariant, whether or not it reaches the channel |
| JobQueue.RegisterLightKeeps | internal/queue/queue.go:159-164 | registering a light job keeps the invariant |
| JobQueue.ReceiveKeeps | internal/queue/queue.go:181-198 | taking the head of the channel and marking it Processing keeps the invariant |
| JobQueue.FinishKeeps | internal/queue/queue.go:200-234 | settling the job in hand keeps the invariant; the job is due once more through a retry, or never |
| JobQueue.RedeliverKeeps | internal/queue/queue.go:215-222 | a retry re-sending its job keeps the invariant |
| JobQueue.Queue.constructor | internal/queue/queue.go:37-52 | no jobs, empty index and channel, no retries waiting, zero counters |
| JobQueue.Queue.Enqueue | internal/queue/queue.go:70-84 | the job is appended and indexed; it enters the channel iff fewer than 100 are buffered; nothing else changes |
| JobQueue.Queue.RegisterLightJob | internal/queue/queue.go:159-164 | the job is appended and indexed; the channel and counters are untouched |
| JobQueue.Queue.MarkLightJobCompleted | internal/queue/queue.go:167-171 | the completed counter rises by one and nothing else changes |
| JobQueue.Queue.MarkLightJobFailed | internal/queue/queue.go:174-178 | the failed counter rises by one and nothing else changes |
| JobQueue.Queue.UpdateJob | internal/handler/handler.go:146-213 | a job rewritten in place through its handle; nothing else changes |
| JobQueue.Queue.GetJob | internal/queue/queue.go:87-91 | a job is found iff its ID is indexed, and it is the indexed job with that ID |
| JobQueue.Queue.GetAllJobs | internal/queue/queue.go:94-101 | a copy equal to the job list |
| JobQueue.Queue.GetPendingJobs | internal/queue/queue.go:104-115 | exactly the Pending jobs, in admission order |
| JobQueue.Queue.GetQueueStats | internal/queue/queue.go:118-155 | the seven keys; total counts every job; the heavy counts by status; the light counters as they stand |
| JobQueue.Queue.Receive | internal/queue/queue.go:181-198 | an empty channel changes nothing; otherwise the head is taken, marked Processing and started now |
| JobQueue.Queue.Finish | internal/queue/queue.go:200-234 | the job in hand is settled by `Settle`; a retry puts it in the retry set; the channel is untouched |
| JobQueue.Queue.Redeliver | internal/queue/queue.go:215-222 | a waiting retry leaves the retry set and joins the end of the channel |
| Processor.Message | internal/service/processor/processor.go:246-251 | the error text starts with "<step> failed: " and ends with the cause |
| Processor.MessageSplits | internal/service/processor/processor.go:246-251 | two pipeline errors with the same text are the same step and the same cause |
| Processor.FormatDurationMeaning | internal/service/processor/processor.go:55-70 | milliseconds under a second, the seconds form under a minute, minutes and seconds (under 60) under an hour, hours and minutes (under 60) beyond; the printed numbers give back the duration, truncated |
| Processor.MoveToFailed | internal/service/processor/processor.go:211-222 | no-op for an empty or missing path or an unwritable target; otherwise the video is moved to the failed folder under its name |
| Processor.MoveToFailedParks | internal/service/processor/processor.go:211-222 | a parked file's content is in the failed folder, it is gone from where it was unless it cannot be deleted, and nothing else changes |
| Processor.MoveToStagingForRetry | internal/service/processor/processor.go:225-234 | a name missing from the failed folder is refused with the not-found message; otherwise the file is moved to staging |
| Processor.ParkThenRetry | internal/service/processor/processor.go:211-234 | parking a file and moving it back puts its content in staging under the same name |
| Processor.StageAndMove | internal/service/processor/processor.go:82-113 | staging runs only without a staging path and fails iff the link or copy fails; on success the name is cleaned, the video is in processing, and the staging path is cleared |
| Processor.ScriptRan | internal/executor/whisper.go:60-120 | a local script that started writes its output beside the video exactly when `os.Stat` later finds it, success or not; nothing else changes; a script that failed to start, or the API route before it succeeds, writes nothing |
| Processor.ScriptOutputIsTranscript | internal/executor/whisper.go:112-122 | on a successful transcription the file the script left is the transcript itself |
| Processor.TranscriptionFailed | internal/service/processor/processor.go:134-138 | a failed transcription parks the video and, when the script started and its output was found, leaves that output in the processing folder; no other path changes |
| Processor.ObtainSubtitles | internal/service/processor/processor.go:115-153 | dry run writes the dummy; otherwise transcribe then translate; each failure is named by its step and parks the video in the failed folder; a failed transcription whose script started leaves the script's output where it was written |
| Processor.Deliver | internal/service/processor/processor.go:155-186 | the translation goes to the subtitles folder, the untranslated subtitle is deleted when it differs from the translation, and the video goes to scraping; a dry run deletes the dummy; a failed subtitle move changes nothing; a failed move to scraping leaves the video where it was and parks nothing |
| Processor.Process | internal/service/processor/processor.go:73-208 | which fields each step writes; which failures park the video; where the video and subtitle end up, with the untranslated subtitle deleted on success; a failed move to scraping leaves the video in the processing folder; every error is a named step with its cause |
| Processor.LayoutKeepsPathsApart | internal/config/config.go:30-48 | with distinct folders, the processing, failed, scraping and subtitle places of a name are all different |
| Processor.RequeuedJobRetriesInVain | internal/service/processor/processor.go:82-113 | a re-queued job whose first attempt fails at transcription fails its retry at staging |
| Whisper.Route | internal/executor/whisper.go:34-41 | the API is chosen exactly when the lower-cased provider is "openai" |
| Whisper.RouteExamples | internal/executor/whisper.go:34-41 | "OpenAI" takes the API; "local" and the empty provider take the script |
| Whisper.SrtPathBesideVideo | internal/executor/whisper.go:47-49 | the subtitle lies beside the video, named after it, with extension ".srt" |
| Whisper.LocalArgsShape | internal/executor/whisper.go:51-73 | script, input, output and model (default "large-v2"); the language only when set and not "auto", then the prompt only when set |
| Whisper.BuildLocalArgs | internal/executor/whisper.go:51-73 | the append sequence builds exactly that command line |
| Whisper.CheckTranscription | internal/executor/whisper.go:97-120 | defined as the ordered checks of start, exit, stderr markers and the srt file; `CheckTranscriptionMeaning` states the classification |
| Whisper.CheckTranscriptionMeaning | internal/executor/whisper.go:97-120 | a transcription stands iff the script started, exited cleanly, printed no "Error:" or "Traceback" to stderr, and left a non-empty subtitle |
| Whisper.TracebackFailsCleanExit | internal/executor/whisper.go:107-111 | a traceback on stderr fails even a clean exit with a good subtitle |
| Whisper.BaseURL | internal/executor/whisper.go:158-170 | OpenRouter for "openrouter", the custom server for "custom" when set, OpenAI otherwise |
| Whisper.PostArgs | internal/executor/whisper.go:140-202 | refused iff optimising or splitting is asked without a key; otherwise opens with the script and the subtitle path as both input and output |
| Whisper.SplitDefaults | internal/executor/whisper.go:187-198 | the split limits default to 25 and 18 |
| Whisper.PostArgsLLMFirst | internal/executor/whisper.go:150-177 | with the model needed, key, endpoint and model ("gpt-4o-mini" by default) follow the paths |
| Whisper.PunctuationOnlyNeedsNoKey | internal/executor/whisper.go:150-202 | removing punctuation alone passes no key, endpoint or model |
| Whisper.BuildPostArgs | internal/executor/whisper.go:140-202 | the append sequence builds exactly that command line or the refusal |
| Whisper.PostProcess | internal/executor/whisper.go:225-236 | succeeds iff the arguments are built and the script starts and exits cleanly, and then names its input |
| Whisper.TranscribeLocal | internal/executor/whisper.go:46-135 | defined as the checked run, then the optional post-processing; `TranscribeLocalMeaning` states its outcomes |
| Whisper.TranscribeLocalMeaning | internal/executor/whisper.go:46-135 | succeeds iff the transcription stands, whatever post-processing does, and then returns the subtitle path |
| Whisper.Transcribe | internal/executor/whisper.go:34-41 | defined as the dispatch on `Route`; `TranscribeRoutes` states that each route ignores the other's inputs |
| Whisper.TranscribeRoutes | internal/executor/whisper.go:34-41 | the local route ignores the API client and the API route ignores the script |
| Translator.WaitForRateLimit | internal/executor/translator.go:193-198 | without a limiter nothing waits or fails; with one, the wait's outcome |
| Translator.LangCodeShape | internal/executor/translator.go:158-189 | every code has at least two characters and no upper-case letter |
| Translator.LangCodeExamples | internal/executor/translator.go:158-189 | the lookup ignores case; an unlisted language is cut to its first two letters; a one-letter one becomes "xx" |
| Translator.LangCode | internal/executor/translator.go:158-189 | the table's code for the lower-cased target, else its first two characters lower-cased, else "xx" |
| Translator.TranslatedPath | internal/executor/translator.go:57-64 | defined as the stem, the language code and the extension, beside the subtitle; `TranslatedPathBeside` states where it lies |
| Translator.TranslatedPathBeside | internal/executor/translator.go:57-64 | the translation lies beside the subtitle, named stem.code plus the same extension |
| Translator.TranslateArgsShape | internal/executor/translator.go:112-155 | opens with script, input, target and output, then the provider, and ends with the extra arguments in order |
| Translator.CustomProviderArgs | internal/executor/translator.go:121-133 | "custom" gets chat format and never a model |
| Translator.StandardProviderArgs | internal/executor/translator.go:133-139 | any other provider is passed lower-cased, with the model iff one is set |
| Translator.BuildArgs | internal/executor/translator.go:112-155 | the append sequence builds exactly that command line |
| Translator.Translate | internal/executor/translator.go:49-110 | defined as the limiter wait, the start and the exit checks; `TranslateMeaning` states when it fails |
| Translator.TranslateMeaning | internal/executor/translator.go:49-110 | succeeds iff the limiter lets it through and the script starts and exits cleanly, then names the translated path; without a limiter the wait plays no part |
| Translator.StderrIgnored | internal/executor/translator.go:100-109 | an error marker on stderr does not fail a clean translation |
| Segments.IsHallucination | scripts/transcribe.py:62-65 | defined as the keyword loop on the lower-cased text, with the keywords decoded; `HallucinationMeaning` states it as a substring test |
| Segments.HallucinationMeaning | scripts/transcribe.py:62-65 | the keyword loop finds a match iff some lower-cased keyword occurs in the lower-cased text |
| Segments.MatchesFromMeaning | scripts/transcribe.py:62-65 | the loop from any keyword on matches iff some keyword from there on occurs |
| Segments.KeywordAnywhere | scripts/transcribe.py:35-50 | a keyword anywhere in the text, in any case, marks a hallucination |
| Segments.IsMusicTag | scripts/transcribe.py:68-70 | defined as a stripped text opening with a bracket or a music sign, from the decoded character class; `DroppedSegments` states that such segments are dropped |
| Segments.Filtered | scripts/transcribe.py:73-85 | defined as the kept segments in order; `FilteredMembers` and `FilteredAppend` state membership and order |
| Segments.FilteredMembers | scripts/transcribe.py:73-85 | a segment survives iff it is in the input and its stripped text is non-empty, no hallucination and no music tag |
| Segments.FilteredAppend | scripts/transcribe.py:73-85 | filtering a concatenation filters each part, so order is kept |
| Segments.DroppedSegments | scripts/transcribe.py:51-85 | blank segments and music tags never survive |
| Segments.FilterSegments | scripts/transcribe.py:73-85 | the loop returns exactly the filtered segments |
| Segments.Optimized | scripts/transcribe.py:88-116 | keeps the number of segments; `OptimizedMeaning` states which ends move and where |
| Segments.OptimizedMeaning | scripts/transcribe.py:88-116 | length, starts, texts and words are kept; an end moves iff the gap is positive and below the threshold, then to three quarters of the gap, strictly between the old end and the next start |
| Segments.OptimizedShort | scripts/transcribe.py:94-95 | fewer than two segments come back unchanged |
| Segments.OverlapKept | scripts/transcribe.py:103-112 | overlapping or touching segments are not moved |
| Segments.OptimizeTiming | scripts/transcribe.py:88-116 | the loop returns exactly the optimised segments |
| Languages.GetTargetLanguage | scripts/translate.py:73-85 | the result is always a value of the table |
| Languages.GetTargetLanguageMeaning | scripts/translate.py:73-85 | an exact key gives its value; else the first overlapping entry in table order; else Simplified Chinese, with the warning exactly then |
| Languages.ExactKeyWins | scripts/translate.py:75-77 | when the lower-cased, trimmed name is a key of the table, that key's language is the answer, without a warning |
| Languages.LooseKeyWins | scripts/translate.py:79-82 | with no exact key, the first table entry, in table order, whose key contains or is contained in the lookup key decides |
| Languages.WarnedOnlyWithoutOverlap | scripts/translate.py:84-85 | the warning is printed exactly when no key overlaps the lookup key, and then the answer is Simplified Chinese |
| Languages.BlankNameIsSimplifiedChinese | scripts/translate.py:73-85 | a blank name overlaps the first key and means Simplified Chinese without a warning |
| Handler.AdmittedJobShape | internal/handler/handler.go:111-118 | a webhook job is a fresh job named after the file, with the light flag the classifier gives for its base name |
| Handler.RequeuedJobShape | internal/handler/handler.go:262-264 | a re-queued job is heavy, Pending, never tried, with source and staging path both the staged file |
| Handler.RetryFailedStepMeaning | internal/handler/handler.go:296-314 | a failed video is re-queued iff the move back to staging succeeds; otherwise the error is reported and the disk kept |
| Handler.FailedRetries | internal/handler/handler.go:296-314 | defined as `RetryFailedStep` over the files in walk order; `FailedRetriesAccount` states the account |
| Handler.FailedRetriesAccount | internal/handler/handler.go:296-314 | every video is either re-queued or reported, in walk order, and the re-queued names are the videos' base names |
| Handler.LightRun | internal/handler/handler.go:146-213 | defined as staging, then `LightScrape`; `LightRunMeaning` states the outcomes |
| Handler.LightRunMeaning | internal/handler/handler.go:146-213 | a light job ends Completed iff staging and the move to scraping succeed; otherwise Failed with "<step>: <cause>" and the staged file parked; retries and the light flag unchanged |
| Handler.Handler.TorrentComplete | internal/handler/handler.go:80-142 | a video path is taken as is, another existing path resolved to its best video, a missing path rejected; no job on rejection; light jobs are registered and never reach the channel, heavy ones are enqueued |
| Handler.Handler.HandleLightJobError | internal/handler/handler.go:196-213 | Failed with the step's message, failed counter up by one, staged file parked, channel and retries untouched |
| Handler.Handler.ProcessLightJob | internal/handler/handler.go:146-193 | the job becomes what `LightRun` says; exactly one light counter rises; the channel and the retry set are untouched |
| Handler.Handler.MoveLightToScraping | internal/handler/handler.go:166-186 | the staged light job gets its cleaned name and is moved to the scraping folder and marked Completed, with the completed counter up by one; a failed move marks it Failed, with the failed counter up by one |
| Handler.Handler.EnqueueEach | internal/handler/handler.go:256-268 | the jobs are appended in order and as many as fit enter the channel |
| Handler.Handler.RetryStaging | internal/handler/handler.go:241-275 | a walk error or an empty staging folder creates no job; otherwise one heavy job per staged video, in walk order |
| Handler.Line | internal/handler/handler.go:301 | a reported error is the file name, then ": ", then the cause |
| Handler.Handler.RetryFailed | internal/handler/handler.go:278-327 | a walk error or an empty failed folder changes nothing; otherwise exactly the videos moved back are re-queued and the rest reported |
| Handler.RequeuedJobIsNewJob | internal/handler/handler.go:307-308 | a re-queued job is the job `NewJob` makes for the staged file, with its staging path then set to that file |
| Handler.Handler.RequeueNext | internal/handler/handler.go:297-313 | a file moved back adds exactly one job, for its base name, offered to the channel when it has room; a file that could not be moved adds no job and leaves the channel as it was |
| Handler.RequeueStepKeeps | internal/handler/handler.go:296-314 | after each file the queue holds the jobs it had before, then one job per moved name in the order moved, and the channel holds the handles of those it had room for |
| Handler.Handler.RequeueEachFailed | internal/handler/handler.go:296-314 | the loop ends with the jobs, errors and disk of `FailedRetries` |
| Handler.Handler.RetryOneFailed | internal/handler/handler.go:330-356 | an empty name is rejected; a missing file is reported and nothing changes; otherwise the file is moved to staging and one heavy job enqueued |
| Worker.ErrorTextNamesStep | internal/service/processor/processor.go:246-251 | the error text recorded on a job determines the failed step |
| Worker.ProcessJob | internal/queue/queue.go:194-234 | an empty channel changes nothing; otherwise the head job is run and settled by `Settle`: Completed iff the pipeline succeeded, else one more retry with the step's message, Pending and retried iff below maxRetries, Failed otherwise |

## Left out
- Paths.Join: Go's `filepath.Join` cleans its result, resolving ".", ".." and doubled separators; the model only concatenates. The two agree for a clean folder and a plain name. They differ for a name ".." given to `RetryOneFailed`, which Go resolves to the parent folder, and for a folder ".", where Go drops the "./" prefix.
- Paths.Dir: Go's `filepath.Dir` cleans its result as well; the model cuts at the last separator, which agrees for the clean paths the model uses.

- Concurrency is not modelled: goroutines, the worker's `select` loop, `Start`/`Stop` and context cancellation. Each call of `Worker.ProcessJob` is one turn of the worker. The retry goroutine's sleep is the multiset `retryWaiting`, emptied one job at a time by `Queue.Redeliver`.
- HTTP plumbing is reduced to outcome datatypes: gin routing, request binding, JSON bodies and status codes. The read-only endpoints (`Health`, `Version`, `GetQueue`, `GetQueueStats`, `GetJob`, `ListStagingFiles`, `ListFailedFiles`) are the queue's getters or are left out.
- Job IDs (uuid) and the clock are parameters. Timestamps are only set or unset (`Stamp`), and step durations are not recorded.
- The light classifier `HasChineseSubtitle` is not part of the source files modelled. It is the parameter `light`, applied to the base file name.
- Subprocesses are their observable outcome (`Whisper.Run`): start error, exit error, captured output. Spawning, pipes and the line streamers are I/O.
- `transcribeOpenAI` is a multipart HTTP client; its result is an input.
- The rate limiter library and its float arithmetic are left out; the outcome of a limiter wait is an input.
- The directory walk behind `FindVideoFiles`, `GetStagingFiles` and `GetFailedFiles` is an input: a sequence of visits. Real link, rename and copy semantics, including hard-link aliasing, are abstracted to the map-based `Disk`.
- Processor.ScriptRan: the file the script leaves holds the subtitle text given with the tools; the size `os.Stat` reports, which decides the "SRT file is empty" check, is a separate input and is not tied to that text.
- FileOps.Exists: Go's `Exists` is `os.Stat`, which also succeeds for a directory; the model's is true only for a file. A folder is on the model disk only through the files under it, and `Move` moves single files.
- Processor.MoveToStagingForRetry: a name that is a folder inside the failed folder is reported as not found, where Go renames the whole folder into staging and `RetryOneFailed` enqueues a job for it. Moving a folder is not modelled.
- PathExists: an empty directory is not representable on the model disk, so a path exists iff it is a file or a folder holding some file.
- OS error texts are not modelled. A failed file operation carries a fixed cause string, and only the messages the code composes itself are exact.
- Processor.FormatDurationMeaning: the "%.1fs" branch is the symbolic value `SecondsOneDecimal`, because its float formatting is not modelled.
- Case mapping is ASCII-only. Upper- and lower-casing of non-ASCII letters, as Go and Python do it, is not modelled. Go's `ToUpper` maps 'ſ' to 'S' and 'ı' to 'I', so a file name holding those letters can carry a video code in Go that `FileOps.CleanVideoFilename` does not find.
- Segments.IsHallucination: in `scripts/transcribe.py` the Chinese keywords at lines 36-39 and 45-46 are stored double-encoded (their UTF-8 bytes read as cp1252 and encoded again), so as written they would match only that garbled text and `is_hallucination("感谢观看")` is false. The model takes the keywords decoded. "感谢观看", "字幕由" and "字幕制作" decode exactly. "请不吝点赞", "订阅 转发" and "打赏支持" lost bytes that cp1252 cannot hold (0x81, 0x8D, 0x8F, 0x90, 0x9D), so their characters 不, 吝, 发, 赏 and 持 are reconstructed.
- Segments.IsMusicTag: the character class at `scripts/transcribe.py:51` is stored double-encoded in the same way, so as written it opens with the garbled bytes and `is_music_tag("【音乐】")` is false. The model takes the class decoded. "（", "♪", "♫" and the musical-note emoji decode exactly. "【" lost its last byte (0x90) and is reconstructed.
- Translator.LangCode: takes the first two characters of the target, where Go takes the first two bytes; the two differ only for non-ASCII targets.
- Segment times are `real`, an idealisation of Python floats. `format_timestamp`, `write_srt`, the `transcribe()`/`translate()` bodies, the scripts' `main` functions and `scripts/subtitle_processor.py` are wrappers over external tools and are not modelled.
- Notifications (apprise), logging, configuration loading and hot reload, `main.go` and the version banner are not modelled.
