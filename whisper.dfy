/**
 * The transcription executor of `internal/executor/whisper.go`: which
 * backend runs, where the subtitle is written, the command line handed to
 * `transcribe.py` and `subtitle_processor.py`, and how a finished
 * subprocess is judged.
 *
 * A subprocess is its observable outcome: whether it could be started,
 * whether it exited with an error, and the text it printed. Whether the
 * subtitle file exists afterwards, and how large it is, is one more input.
 */
module Whisper {
  import opened Wrappers
  import opened Text
  import opened Paths
  import opened Settings

  const TranscribeScript := "/app/scripts/transcribe.py"
  const SubtitleProcessorScript := "/app/scripts/subtitle_processor.py"
  const DefaultWhisperModel := "large-v2"
  const DefaultLLMModel := "gpt-4o-mini"
  const OpenAIURL := "https://api.openai.com"
  const OpenRouterURL := "https://openrouter.ai/api"
  const DefaultMaxCJK := 25
  const DefaultMaxEnglish := 18

  /** What a finished subprocess shows: start failure, exit failure, captured output. */
  datatype Run = Run(startError: Option<string>, exitError: Option<string>, stdout: string, stderr: string)

  /** What `os.Stat` reports about the subtitle file. */
  datatype FileStat = Missing(cause: string) | Present(size: nat)

  datatype Backend = OpenAIApi | LocalScript

  /** `Transcribe` takes the API only for a provider that lower-cases to "openai". */
  function Route(cfg: WhisperConfig): (b: Backend)
    ensures b == OpenAIApi <==> ToLower(cfg.provider) == "openai"
  {
    if ToLower(cfg.provider) == "openai" then OpenAIApi else LocalScript
  }

  /** Any spelling of "openai" takes the API; "local", the empty provider and every other value take the script. */
  lemma RouteExamples()
    ensures Route(WhisperConfig("OpenAI", "", "", "", "", false, false, false, 0, 0)) == OpenAIApi
    ensures Route(WhisperConfig("local", "", "", "", "", false, false, false, 0, 0)) == LocalScript
    ensures Route(WhisperConfig("", "", "", "", "", false, false, false, 0, 0)) == LocalScript
  {
    assert ToLower("OpenAI") == "openai";
    assert ToLower("local")[0] == 'l';
  }

  /** The input's name without its extension. */
  function Stem(p: Path): string {
    TrimSuffix(Base(p), Ext(p))
  }

  /** The subtitle path: next to the input, the input's stem plus ".srt". */
  function SrtPath(video: Path): Path {
    Join(Dir(video), Stem(video) + ".srt")
  }

  /** For a video in a folder, the subtitle lands in the same folder, named after the video, with extension ".srt". */
  lemma SrtPathBesideVideo(f: Path, n: string)
    requires IsFolder(f) && IsName(n)
    ensures SrtPath(Join(f, n)) == Join(f, TrimSuffix(n, Ext(n)) + ".srt")
    ensures InFolder(SrtPath(Join(f, n)), f)
    ensures Ext(SrtPath(Join(f, n))) == ".srt"
  {
    JoinSplits(f, n);
    var p := Join(f, n);
    assert Dir(p) == f && Base(p) == n && Ext(p) == Ext(n);
    assert Stem(p) == TrimSuffix(n, Ext(n));
    JoinedExt(f, TrimSuffix(n, Ext(n)), ".srt");
  }

  /** A name ending in an extension, joined onto a folder, lies in the folder and keeps that extension. */
  lemma JoinedExt(f: Path, x: string, e: string)
    requires IsFolder(f) && IsExt(e)
    ensures InFolder(Join(f, x + e), f)
    ensures Ext(Join(f, x + e)) == e
  {
    var s := Join(f, x + e);
    assert s == (f + "/") + (x + e);
    assert s[..|f| + 1] == f + "/";
    assert s[|s| - |e|..] == e;
    ExtOfSuffix(s, e);
  }

  function OrDefault(s: string, d: string): string {
    if s == "" then d else s
  }

  /** The language hint is passed on unless it is empty or "auto". */
  predicate PassesLanguage(cfg: WhisperConfig) {
    cfg.language != "" && cfg.language != "auto"
  }

  /** The command line of `transcribe.py`. */
  function LocalArgs(cfg: WhisperConfig, video: Path): seq<string> {
    [TranscribeScript, video, SrtPath(video), "--model", OrDefault(cfg.model, DefaultWhisperModel)]
    + (if PassesLanguage(cfg) then ["--language", cfg.language] else [])
    + (if cfg.prompt != "" then ["--prompt", cfg.prompt] else [])
  }

  /**
   * The script always gets input, output and a model; the language and
   * the prompt follow, each only when set, in that order.
   */
  lemma LocalArgsShape(cfg: WhisperConfig, video: Path)
    ensures var a := LocalArgs(cfg, video);
            |a| == 5 + (if PassesLanguage(cfg) then 2 else 0) + (if cfg.prompt != "" then 2 else 0)
            && a[1] == video && a[2] == SrtPath(video) && a[3] == "--model"
            && a[4] == (if cfg.model == "" then "large-v2" else cfg.model)
            && (PassesLanguage(cfg) ==> a[5] == "--language" && a[6] == cfg.language)
            && (cfg.prompt != "" ==> a[|a| - 2] == "--prompt" && a[|a| - 1] == cfg.prompt)
  {
    var head := [TranscribeScript, video, SrtPath(video), "--model", OrDefault(cfg.model, DefaultWhisperModel)];
    var lang: seq<string> := if PassesLanguage(cfg) then ["--language", cfg.language] else [];
    var prompt: seq<string> := if cfg.prompt != "" then ["--prompt", cfg.prompt] else [];
    assert LocalArgs(cfg, video) == head + lang + prompt;
  }

  /** `transcribeLocal`'s argument building, append by append. */
  method BuildLocalArgs(cfg: WhisperConfig, video: Path) returns (args: seq<string>)
    ensures args == LocalArgs(cfg, video)
  {
    var model := cfg.model;
    if model == "" {
      model := DefaultWhisperModel;
    }
    var lang := cfg.language;
    if lang == "" {
      lang := "auto";
    }
    args := [TranscribeScript, video, SrtPath(video), "--model", model];
    ghost var head := args;
    assert lang != "" && lang != "auto" <==> PassesLanguage(cfg);
    if lang != "" && lang != "auto" {
      args := args + ["--language", lang];
    }
    ghost var langPart := args[|head|..];
    assert args == head + langPart;
    if cfg.prompt != "" {
      args := args + ["--prompt", cfg.prompt];
    }
    assert args == head + langPart + args[|head| + |langPart|..];
  }

  /**
   * The checks after `transcribe.py` ends, in order: start failure, non-zero
   * exit, an error marker in the captured stderr, a missing subtitle, an
   * empty subtitle. `None` means the transcription stands.
   */
  function CheckTranscription(run: Run, srt: FileStat): Option<string> {
    if run.startError.Some? then Some("start transcription: " + run.startError.value)
    else if run.exitError.Some? then Some("transcription failed: " + run.exitError.value + "\nStderr: " + run.stderr)
    else if Contains(run.stderr, "Error:") || Contains(run.stderr, "Traceback") then
      Some("transcription reported errors:\n" + run.stderr)
    else if srt.Missing? then Some("SRT file not created: " + srt.cause + "\nOutput: " + run.stdout)
    else if srt.size == 0 then Some("SRT file is empty (transcription failed)\nOutput: " + run.stdout)
    else None
  }

  /** A transcription stands exactly when the script ran cleanly, left no error marker and wrote a non-empty subtitle. */
  lemma CheckTranscriptionMeaning(run: Run, srt: FileStat)
    ensures CheckTranscription(run, srt).None? <==>
            run.startError.None? && run.exitError.None?
            && !Contains(run.stderr, "Error:") && !Contains(run.stderr, "Traceback")
            && srt.Present? && srt.size > 0
    ensures run.startError.None? && run.exitError.Some? ==>
            CheckTranscription(run, srt) == Some("transcription failed: " + run.exitError.value + "\nStderr: " + run.stderr)
  {
  }

  /** A zero exit does not save a run whose stderr shows a Python traceback, even with a good subtitle on disk. */
  lemma TracebackFailsCleanExit(out: string, before: string, after: string, size: nat)
    ensures CheckTranscription(Run(None, None, out, before + "Traceback" + after), Present(size)).Some?
  {
    var e := before + "Traceback" + after;
    assert OccursAt(e, "Traceback", |before|) by {
      assert e[|before|..|before| + 9] == "Traceback";
    }
  }

  /** The post-processor is started when any of its three switches is on. */
  predicate WantsPostProcessing(cfg: WhisperConfig) {
    cfg.optimizeSubtitles || cfg.splitSentences || cfg.removePunctuation
  }

  /** The post-processor needs the language model only to optimise or to split. */
  predicate NeedsLLM(cfg: WhisperConfig) {
    cfg.optimizeSubtitles || cfg.splitSentences
  }

  /** The language-model endpoint, chosen by the translation provider. */
  function BaseURL(t: TranslateConfig): (u: string)
    ensures ToLower(t.provider) == "openrouter" ==> u == OpenRouterURL
    ensures ToLower(t.provider) == "custom" && t.customServer != "" ==> u == t.customServer
    ensures ToLower(t.provider) != "openrouter" && !(ToLower(t.provider) == "custom" && t.customServer != "") ==> u == OpenAIURL
  {
    var p := ToLower(t.provider);
    if p == "openai" then OpenAIURL
    else if p == "openrouter" then OpenRouterURL
    else if p == "custom" && t.customServer != "" then t.customServer
    else OpenAIURL
  }

  /** A limit as given when positive, the default otherwise. */
  function PositiveOr(v: int, d: nat): (r: nat)
    ensures r > 0 || d == 0
  {
    if v <= 0 then d else v
  }

  function LLMArgs(cfg: WhisperConfig, t: TranslateConfig): seq<string> {
    if NeedsLLM(cfg) then ["--api-key", t.apiKey, "--base-url", BaseURL(t), "--model", OrDefault(t.model, DefaultLLMModel)]
    else []
  }

  function OptimizeArgs(cfg: WhisperConfig): seq<string> {
    if cfg.optimizeSubtitles then ["--optimize"] + (if cfg.prompt != "" then ["--reference", cfg.prompt] else [])
    else []
  }

  function SplitArgs(cfg: WhisperConfig): seq<string> {
    if cfg.splitSentences then
      ["--split", "--max-cjk", NatToString(PositiveOr(cfg.maxCJKChars, DefaultMaxCJK)),
       "--max-english", NatToString(PositiveOr(cfg.maxEnglishWords, DefaultMaxEnglish))]
    else []
  }

  const MissingKey := "translate API key required for subtitle post-processing"

  /**
   * The command line of `subtitle_processor.py`, which writes over its
   * input; refused when the language model is needed and no key is set.
   */
  function PostArgs(cfg: WhisperConfig, t: TranslateConfig, srt: Path): (r: Result<seq<string>>)
    ensures r.Failure? <==> NeedsLLM(cfg) && t.apiKey == ""
    ensures r.Failure? ==> r.error == MissingKey
    ensures r.Success? ==> |r.value| >= 3 && r.value[0] == SubtitleProcessorScript && r.value[1] == srt && r.value[2] == srt
  {
    if NeedsLLM(cfg) && t.apiKey == "" then Failure(MissingKey)
    else
      Success([SubtitleProcessorScript, srt, srt] + LLMArgs(cfg, t) + OptimizeArgs(cfg) + SplitArgs(cfg)
              + (if cfg.removePunctuation then ["--remove-punctuation"] else []))
  }

  /**
   * The split limits fall back to 25 CJK characters and 18 English words,
   * and are printed in decimal.
   */
  lemma SplitDefaults(cfg: WhisperConfig)
    requires cfg.splitSentences && cfg.maxCJKChars <= 0 && cfg.maxEnglishWords <= 0
    ensures SplitArgs(cfg) == ["--split", "--max-cjk", "25", "--max-english", "18"]
  {
    assert PositiveOr(cfg.maxCJKChars, DefaultMaxCJK) == 25 && PositiveOr(cfg.maxEnglishWords, DefaultMaxEnglish) == 18;
    assert DigitChar(2) == '2' && DigitChar(5) == '5' && DigitChar(1) == '1' && DigitChar(8) == '8';
    assert NatToString(25) == NatToString(2) + [DigitChar(5)] == "25";
    assert NatToString(18) == NatToString(1) + [DigitChar(8)] == "18";
  }

  /** With the model needed, the key, the endpoint and the model (default "gpt-4o-mini") come right after the paths. */
  lemma PostArgsLLMFirst(cfg: WhisperConfig, t: TranslateConfig, srt: Path)
    requires NeedsLLM(cfg) && t.apiKey != ""
    ensures PostArgs(cfg, t, srt).Success?
    ensures PostArgs(cfg, t, srt).value[3..9]
            == ["--api-key", t.apiKey, "--base-url", BaseURL(t), "--model", if t.model == "" then "gpt-4o-mini" else t.model]
  {
    var rest := OptimizeArgs(cfg) + SplitArgs(cfg) + (if cfg.removePunctuation then ["--remove-punctuation"] else []);
    assert PostArgs(cfg, t, srt).value == [SubtitleProcessorScript, srt, srt] + LLMArgs(cfg, t) + rest;
  }

  /** Only removing punctuation needs no key: then no key, endpoint or model is passed at all. */
  lemma PunctuationOnlyNeedsNoKey(cfg: WhisperConfig, t: TranslateConfig, srt: Path)
    requires !cfg.optimizeSubtitles && !cfg.splitSentences && cfg.removePunctuation
    ensures PostArgs(cfg, t, srt) == Success([SubtitleProcessorScript, srt, srt, "--remove-punctuation"])
  {
    assert LLMArgs(cfg, t) == [] && OptimizeArgs(cfg) == [] && SplitArgs(cfg) == [];
    assert [SubtitleProcessorScript, srt, srt] + [] + [] + [] + ["--remove-punctuation"]
        == [SubtitleProcessorScript, srt, srt, "--remove-punctuation"];
  }

  /** `postProcessSubtitles`' argument building, append by append. */
  method BuildPostArgs(cfg: WhisperConfig, t: TranslateConfig, srt: Path) returns (r: Result<seq<string>>)
    ensures r == PostArgs(cfg, t, srt)
  {
    var args := [SubtitleProcessorScript, srt, srt];
    if cfg.optimizeSubtitles || cfg.splitSentences {
      if t.apiKey == "" {
        return Failure(MissingKey);
      }
      args := args + ["--api-key", t.apiKey];
      var baseURL := OpenAIURL;
      var provider := ToLower(t.provider);
      if provider == "openai" {
        baseURL := OpenAIURL;
      } else if provider == "openrouter" {
        baseURL := OpenRouterURL;
      } else if provider == "custom" {
        if t.customServer != "" {
          baseURL := t.customServer;
        }
      }
      assert baseURL == BaseURL(t);
      args := args + ["--base-url", baseURL];
      var model := t.model;
      if model == "" {
        model := DefaultLLMModel;
      }
      args := args + ["--model", model];
    }
    assert args == [SubtitleProcessorScript, srt, srt] + LLMArgs(cfg, t);
    ghost var upToLLM := args;
    if cfg.optimizeSubtitles {
      args := args + ["--optimize"];
      if cfg.prompt != "" {
        args := args + ["--reference", cfg.prompt];
      }
    }
    assert args == upToLLM + OptimizeArgs(cfg);
    ghost var upToOptimize := args;
    if cfg.splitSentences {
      var maxCJK := cfg.maxCJKChars;
      if maxCJK <= 0 {
        maxCJK := DefaultMaxCJK;
      }
      var maxEnglish := cfg.maxEnglishWords;
      if maxEnglish <= 0 {
        maxEnglish := DefaultMaxEnglish;
      }
      args := args + ["--split"] + ["--max-cjk", NatToString(maxCJK), "--max-english", NatToString(maxEnglish)];
    }
    assert args == upToOptimize + SplitArgs(cfg);
    ghost var upToSplit := args;
    if cfg.removePunctuation {
      args := args + ["--remove-punctuation"];
    }
    assert args == upToSplit + (if cfg.removePunctuation then ["--remove-punctuation"] else []);
    r := Success(args);
  }

  /** `postProcessSubtitles`: the subtitle path again on success, since the output overwrites the input. */
  function PostProcess(cfg: WhisperConfig, t: TranslateConfig, srt: Path, run: Run): (r: Result<Path>)
    ensures r.Success? ==> r.value == srt
    ensures r.Success? <==> PostArgs(cfg, t, srt).Success? && run.startError.None? && run.exitError.None?
  {
    match PostArgs(cfg, t, srt)
    case Failure(e) => Failure(e)
    case Success(_) =>
      if run.startError.Some? then Failure("start post-processing: " + run.startError.value)
      else if run.exitError.Some? then Failure("post-processing failed: " + run.exitError.value + "\nStderr: " + run.stderr)
      else Success(srt)
  }

  /**
   * `transcribeLocal`: run the script, judge it, then post-process when
   * asked; a failed post-processing only costs the improvement.
   */
  function TranscribeLocal(cfg: WhisperConfig, t: TranslateConfig, video: Path, run: Run, srt: FileStat, post: Run): Result<Path> {
    match CheckTranscription(run, srt)
    case Some(e) => Failure(e)
    case None =>
      if WantsPostProcessing(cfg) then
        match PostProcess(cfg, t, SrtPath(video), post)
        case Failure(_) => Success(SrtPath(video))
        case Success(p) => Success(p)
      else Success(SrtPath(video))
  }

  /**
   * The local path succeeds exactly when the transcription stands, whatever
   * the post-processor does, and then always yields the subtitle path.
   */
  lemma TranscribeLocalMeaning(cfg: WhisperConfig, t: TranslateConfig, video: Path, run: Run, srt: FileStat, post: Run)
    ensures TranscribeLocal(cfg, t, video, run, srt, post).Success? <==> CheckTranscription(run, srt).None?
    ensures TranscribeLocal(cfg, t, video, run, srt, post).Success? ==> TranscribeLocal(cfg, t, video, run, srt, post).value == SrtPath(video)
    ensures TranscribeLocal(cfg, t, video, run, srt, post).Failure? ==> TranscribeLocal(cfg, t, video, run, srt, post).error == CheckTranscription(run, srt).value
  {
  }

  /** `Transcribe`: dispatch on the provider; the API client is an oracle result. */
  function Transcribe(cfg: WhisperConfig, t: TranslateConfig, video: Path, api: Result<Path>, run: Run, srt: FileStat, post: Run): Result<Path> {
    match Route(cfg)
    case OpenAIApi => api
    case LocalScript => TranscribeLocal(cfg, t, video, run, srt, post)
  }

  /** The local route ignores the API client entirely, and the API route ignores the script. */
  lemma TranscribeRoutes(cfg: WhisperConfig, t: TranslateConfig, video: Path, api: Result<Path>, api': Result<Path>,
                         run: Run, srt: FileStat, post: Run)
    ensures Route(cfg) == LocalScript ==>
            Transcribe(cfg, t, video, api, run, srt, post) == Transcribe(cfg, t, video, api', run, srt, post)
    ensures Route(cfg) == OpenAIApi ==> Transcribe(cfg, t, video, api, run, srt, post) == api
  {
  }
}
