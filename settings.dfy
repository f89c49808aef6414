/**
 * The configuration records the executors and the pipeline read
 * (`internal/config/config.go`), with the fields the executors actually
 * use: `whisper.go` and `translator.go` read settings that the
 * configuration structs do not declare, and the pipeline moves videos to a
 * Scraping folder that the folder settings do not name.
 */
module Settings {
  import opened Paths

  datatype WhisperConfig = WhisperConfig(
    provider: string,
    model: string,
    apiKey: string,
    language: string,
    prompt: string,
    optimizeSubtitles: bool,
    splitSentences: bool,
    removePunctuation: bool,
    maxCJKChars: int,
    maxEnglishWords: int)

  datatype TranslateConfig = TranslateConfig(
    provider: string,
    model: string,
    apiKey: string,
    targetLang: string,
    customServer: string,
    customEndpoint: string,
    rateLimitRPM: int,
    instruction: string,
    args: seq<string>)

  /** The folders of the pipeline; the model only needs them to be distinct folders. */
  datatype Folders = Folders(
    input: Path,
    staging: Path,
    process: Path,
    scraping: Path,
    subtitles: Path,
    failed: Path)

  /** Every folder is a folder path and none lies inside another. */
  predicate WellFormed(f: Folders) {
    var all := [f.input, f.staging, f.process, f.scraping, f.subtitles, f.failed];
    (forall i :: 0 <= i < |all| ==> IsFolder(all[i]))
    && (forall i, j :: 0 <= i < j < |all| ==> Separate(all[i], all[j]))
  }
}
