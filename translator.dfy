/**
 * The translation executor of `internal/executor/translator.go`: whether a
 * rate limiter exists, where the translated subtitle goes, the command
 * line of `llm-subtrans.py`, and the rule that only a failed exit fails a
 * translation.
 *
 * Waiting on the limiter is an oracle result: `None` when the wait ends
 * normally, the error otherwise. The subprocess is its observable outcome.
 */
module Translator {
  import opened Wrappers
  import opened Text
  import opened Paths
  import opened Settings
  import Whisper

  const SubtransScript := "/app/llm-subtrans/scripts/llm-subtrans.py"

  /** `NewTranslator` builds a limiter exactly when a positive requests-per-minute rate is set. */
  predicate HasLimiter(cfg: TranslateConfig) {
    cfg.rateLimitRPM > 0
  }

  /** `WaitForRateLimit`: without a limiter there is nothing to wait for and nothing can fail. */
  function WaitForRateLimit(cfg: TranslateConfig, wait: Option<string>): (r: Option<string>)
    ensures !HasLimiter(cfg) ==> r.None?
    ensures HasLimiter(cfg) ==> r == wait
  {
    if HasLimiter(cfg) then wait else None
  }

  /** The short language codes for the file name, keyed by lower-cased language name. */
  const LangCodes: map<string, string> := map[
    "simplified chinese" := "zh",
    "traditional chinese" := "zh-tw",
    "chinese" := "zh",
    "japanese" := "ja",
    "korean" := "ko",
    "spanish" := "es",
    "french" := "fr",
    "german" := "de",
    "italian" := "it",
    "portuguese" := "pt",
    "russian" := "ru",
    "english" := "en",
    "thai" := "th",
    "vietnamese" := "vi",
    "indonesian" := "id",
    "malay" := "ms",
    "arabic" := "ar",
    "hindi" := "hi"]

  predicate NoUpper(s: string) {
    forall i :: 0 <= i < |s| ==> !('A' <= s[i] <= 'Z')
  }

  lemma LowerHasNoUpper(s: string)
    ensures NoUpper(ToLower(s))
  {
  }

  lemma LangCodesWellFormed()
    ensures forall k :: k in LangCodes ==> |LangCodes[k]| >= 2 && NoUpper(LangCodes[k])
  {
  }

  /**
   * `getLangCode`: the table's code for the lower-cased target; otherwise
   * the target's first two characters lower-cased, or "xx" for a shorter
   * target.
   */
  function LangCode(target: string): (code: string)
    ensures ToLower(target) in LangCodes ==> code == LangCodes[ToLower(target)]
    ensures ToLower(target) !in LangCodes && |target| >= 2 ==> code == ToLower(target[..2])
    ensures ToLower(target) !in LangCodes && |target| < 2 ==> code == "xx"
  {
    var lower := ToLower(target);
    if lower in LangCodes then LangCodes[lower]
    else if |target| >= 2 then ToLower(target[..2])
    else "xx"
  }

  /** Every code is at least two characters long and has no upper-case letter. */
  lemma LangCodeShape(target: string)
    ensures |LangCode(target)| >= 2 && NoUpper(LangCode(target))
  {
    LangCodesWellFormed();
    if ToLower(target) !in LangCodes && |target| >= 2 {
      LowerHasNoUpper(target[..2]);
    }
  }

  /** The lookup ignores case, and a language missing from the table is abbreviated to its first two letters. */
  lemma LangCodeExamples()
    ensures LangCode("Japanese") == "ja"
    ensures LangCode("Klingon") == "kl"
    ensures LangCode("x") == "xx"
  {
    assert ToLower("Japanese") == "japanese";
    var k := ToLower("Klingon");
    assert k == "klingon";
    assert ToLower("Klingon"[..2]) == "kl";
    assert ToLower("x") == "x";
  }

  /** The translated subtitle's path: beside the original, the language code inserted before the extension. */
  function TranslatedPath(cfg: TranslateConfig, subtitle: Path): Path {
    var base := Base(subtitle);
    var ext := Ext(base);
    Join(Dir(subtitle), TrimSuffix(base, ext) + "." + LangCode(cfg.targetLang) + ext)
  }

  /**
   * For a subtitle in a folder, the translation lands in the same folder,
   * named stem + "." + code + extension, and keeps the extension.
   */
  lemma TranslatedPathBeside(cfg: TranslateConfig, f: Path, n: string)
    requires IsFolder(f) && IsName(n) && Ext(n) != []
    ensures TranslatedPath(cfg, Join(f, n)) == Join(f, TrimSuffix(n, Ext(n)) + "." + LangCode(cfg.targetLang) + Ext(n))
    ensures InFolder(TranslatedPath(cfg, Join(f, n)), f)
    ensures Ext(TranslatedPath(cfg, Join(f, n))) == Ext(n)
  {
    JoinSplits(f, n);
    var p := Join(f, n);
    assert Dir(p) == f && Base(p) == n;
    var x := TrimSuffix(n, Ext(n)) + "." + LangCode(cfg.targetLang);
    assert TrimSuffix(n, Ext(n)) + "." + LangCode(cfg.targetLang) + Ext(n) == x + Ext(n);
    Whisper.JoinedExt(f, x, Ext(n));
  }

  /** The provider part of the command line. */
  function ProviderArgs(cfg: TranslateConfig): seq<string> {
    var provider := ToLower(cfg.provider);
    if provider == "custom" then
      ["--provider", "custom"]
      + (if cfg.customServer != "" then ["--server", cfg.customServer] else [])
      + (if cfg.customEndpoint != "" then ["--endpoint", cfg.customEndpoint] else [])
      + ["--chat"]
    else
      ["--provider", provider] + (if cfg.model != "" then ["--model", cfg.model] else [])
  }

  /** The command line of `llm-subtrans.py`. */
  function TranslateArgs(cfg: TranslateConfig, input: Path, output: Path): seq<string> {
    [SubtransScript, input, "--target_language", cfg.targetLang, "-o", output]
    + ProviderArgs(cfg)
    + (if cfg.apiKey != "" then ["--apikey", cfg.apiKey] else [])
    + (if cfg.instruction != "" then ["--instruction", cfg.instruction] else [])
    + cfg.args
  }

  /**
   * The command line always opens with script, input, target language and
   * output, then names the provider, and always ends with the extra
   * arguments in their configured order.
   */
  lemma TranslateArgsShape(cfg: TranslateConfig, input: Path, output: Path)
    ensures var a := TranslateArgs(cfg, input, output);
            |a| >= 8 + |cfg.args|
            && a[..6] == [SubtransScript, input, "--target_language", cfg.targetLang, "-o", output]
            && a[6] == "--provider" && a[7] == (if ToLower(cfg.provider) == "custom" then "custom" else ToLower(cfg.provider))
            && a[|a| - |cfg.args|..] == cfg.args
  {
    var a := TranslateArgs(cfg, input, output);
    var head := [SubtransScript, input, "--target_language", cfg.targetLang, "-o", output];
    var mid := ProviderArgs(cfg)
      + (if cfg.apiKey != "" then ["--apikey", cfg.apiKey] else [])
      + (if cfg.instruction != "" then ["--instruction", cfg.instruction] else []);
    assert a == head + mid + cfg.args;
    assert |ProviderArgs(cfg)| >= 2 && ProviderArgs(cfg)[..2] == ["--provider", a[7]];
    assert mid[..2] == ProviderArgs(cfg)[..2];
  }

  /** A custom provider talks chat format and is never given a model, even when one is configured. */
  lemma CustomProviderArgs(cfg: TranslateConfig)
    requires ToLower(cfg.provider) == "custom"
    ensures var p := ProviderArgs(cfg);
            p[..2] == ["--provider", "custom"] && p[|p| - 1] == "--chat"
            && (cfg.customServer != "--model" && cfg.customEndpoint != "--model" ==> "--model" !in p)
  {
    var p := ProviderArgs(cfg);
    var s: seq<string> := if cfg.customServer != "" then ["--server", cfg.customServer] else [];
    var e: seq<string> := if cfg.customEndpoint != "" then ["--endpoint", cfg.customEndpoint] else [];
    assert p == ["--provider", "custom"] + s + e + ["--chat"];
  }

  /** Any other provider is passed lower-cased, followed by the model exactly when one is set. */
  lemma StandardProviderArgs(cfg: TranslateConfig)
    requires ToLower(cfg.provider) != "custom"
    ensures ProviderArgs(cfg) == ["--provider", ToLower(cfg.provider)] + (if cfg.model != "" then ["--model", cfg.model] else [])
    ensures "--chat" !in ProviderArgs(cfg) || ToLower(cfg.provider) == "--chat" || cfg.model == "--chat"
  {
  }

  /** `buildArgs`, append by append. */
  method BuildArgs(cfg: TranslateConfig, input: Path, output: Path) returns (args: seq<string>)
    ensures args == TranslateArgs(cfg, input, output)
  {
    args := [SubtransScript, input, "--target_language", cfg.targetLang, "-o", output];
    ghost var head := args;
    var provider := ToLower(cfg.provider);
    if provider == "custom" {
      args := args + ["--provider", "custom"];
      if cfg.customServer != "" {
        args := args + ["--server", cfg.customServer];
      }
      if cfg.customEndpoint != "" {
        args := args + ["--endpoint", cfg.customEndpoint];
      }
      args := args + ["--chat"];
    } else {
      args := args + ["--provider", provider];
      if cfg.model != "" {
        args := args + ["--model", cfg.model];
      }
    }
    assert args == head + ProviderArgs(cfg);
    ghost var withProvider := args;
    if cfg.apiKey != "" {
      args := args + ["--apikey", cfg.apiKey];
    }
    assert args == withProvider + (if cfg.apiKey != "" then ["--apikey", cfg.apiKey] else []);
    ghost var withKey := args;
    if cfg.instruction != "" {
      args := args + ["--instruction", cfg.instruction];
    }
    assert args == withKey + (if cfg.instruction != "" then ["--instruction", cfg.instruction] else []);
    args := args + cfg.args;
  }

  /**
   * `Translate`: wait on the limiter if there is one, then run the script.
   * Only a failed start or a failed exit fails; what the script prints and
   * whether it wrote the file are not examined.
   */
  function Translate(cfg: TranslateConfig, subtitle: Path, wait: Option<string>, run: Whisper.Run): Result<Path> {
    match WaitForRateLimit(cfg, wait)
    case Some(e) => Failure("rate limit: " + e)
    case None =>
      if run.startError.Some? then Failure("start cmd: " + run.startError.value)
      else if run.exitError.Some? then Failure("translator failed: " + run.exitError.value)
      else Success(TranslatedPath(cfg, subtitle))
  }

  /**
   * A translation succeeds exactly when the limiter lets it through and the
   * script starts and exits cleanly; then it names the translated path.
   * Without a limiter, the wait's outcome plays no part.
   */
  lemma TranslateMeaning(cfg: TranslateConfig, subtitle: Path, wait: Option<string>, wait': Option<string>, run: Whisper.Run)
    ensures Translate(cfg, subtitle, wait, run).Success? <==>
            (!HasLimiter(cfg) || wait.None?) && run.startError.None? && run.exitError.None?
    ensures Translate(cfg, subtitle, wait, run).Success? ==> Translate(cfg, subtitle, wait, run).value == TranslatedPath(cfg, subtitle)
    ensures !HasLimiter(cfg) ==> Translate(cfg, subtitle, wait, run) == Translate(cfg, subtitle, wait', run)
  {
  }

  /** Unlike transcription, an error marker in stderr does not fail a translation that exited cleanly. */
  lemma StderrIgnored(cfg: TranslateConfig, subtitle: Path, out: string, err: string, err': string)
    requires !HasLimiter(cfg)
    ensures Translate(cfg, subtitle, None, Whisper.Run(None, None, out, err))
            == Translate(cfg, subtitle, None, Whisper.Run(None, None, out, err'))
  {
  }
}
