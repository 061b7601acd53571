/** The service configuration: every setting read once from an environment variable, with
    its default, converted with `int()` or with `lower() == "true"`, and the check on the
    quantization level. */
module Config {
  import opened Common
  import opened AsrExceptions

  type Env = map<string, string>

  datatype Settings = Settings(
    asrEngine: string,
    hfToken: string,
    device: string,
    modelName: string,
    modelPath: string,
    modelQuantization: string,
    modelIdleTimeout: int,
    sampleRate: int,
    subtitleMaxLineWidth: int,
    subtitleMaxLineCount: int,
    subtitleHighlightWords: bool,
    liveChunkSize: int,
    liveWordTimestamps: bool,
    liveVadFilter: bool,
    liveOutputFormat: string,
    liveOverlapChunks: bool,
    liveOverlapSize: int)

  const Quantizations: set<string> := {"float32", "float16", "int8"}

  const InvalidQuantization: PyException :=
    Other("ValueError", "Invalid MODEL_QUANTIZATION. Choose 'float32', 'float16', or 'int8'.")

  /** The `ValueError` of `int()` on a string it cannot read. */
  function NotAnInteger(text: string): PyException
  {
    Other("ValueError", "invalid literal for int() with base 10: '" + text + "'")
  }

  /** `os.getenv(key, default)`. */
  function Getenv(env: Env, key: string, default: string): string
  {
    if key in env then env[key] else default
  }

  /** `os.path.join(a, b)` for a relative `b`. */
  function JoinPath(a: string, b: string): string
  {
    if a == "" || a[|a| - 1] == '/' then a + b else a + "/" + b
  }

  /** `os.getenv(key, "...").lower() == "true"`: only a four-letter value can set a flag. */
  predicate Flag(value: string)
    ensures Flag(value) ==> |value| == 4
  {
    Lower(value) == "true"
  }

  /** `int(os.getenv(key, default))`: the default is already an integer. */
  function IntSetting(env: Env, key: string, default: int): (r: Result<int, PyException>)
    ensures key !in env ==> r == Ok(default)
    ensures key in env ==> (r.Ok? <==> ParseInt(env[key]).Some?)
    ensures key in env && r.Ok? ==> r.value == ParseInt(env[key]).value
    ensures key in env && r.Err? ==> r.error == NotAnInteger(env[key])
  {
    if key !in env then Ok(default)
    else match ParseInt(env[key])
      case None => Err(NotAnInteger(env[key]))
      case Some(n) => Ok(n)
  }

  function DefaultDevice(cudaAvailable: bool): string
  {
    if cudaAvailable then "cuda" else "cpu"
  }

  function DefaultQuantization(cudaAvailable: bool): string
  {
    if cudaAvailable then "float32" else "int8"
  }

  /** The configuration for an environment, whether CUDA is available, and the user's home
      directory. Settings are read in the order of the class body, so the first failing one
      decides the error. */
  function ParseConfig(env: Env, cudaAvailable: bool, home: string): (r: Result<Settings, PyException>)
    ensures r.Ok? ==> r.value.modelQuantization in Quantizations
  {
    var quantization := Getenv(env, "ASR_QUANTIZATION", DefaultQuantization(cudaAvailable));
    if quantization !in Quantizations then Err(InvalidQuantization)
    else
      var idle := IntSetting(env, "MODEL_IDLE_TIMEOUT", 0);
      if idle.Err? then Err(idle.error) else
      var rate := IntSetting(env, "SAMPLE_RATE", 16000);
      if rate.Err? then Err(rate.error) else
      var width := IntSetting(env, "SUBTITLE_MAX_LINE_WIDTH", 1000);
      if width.Err? then Err(width.error) else
      var count := IntSetting(env, "SUBTITLE_MAX_LINE_COUNT", 2);
      if count.Err? then Err(count.error) else
      var chunk := IntSetting(env, "LIVE_CHUNK_SIZE", 64000);
      if chunk.Err? then Err(chunk.error) else
      var overlap := IntSetting(env, "LIVE_OVERLAP_SIZE", 16000);
      if overlap.Err? then Err(overlap.error) else
      Ok(Settings(
        asrEngine := Getenv(env, "ASR_ENGINE", "nbailab_whisper"),
        hfToken := Getenv(env, "HF_TOKEN", ""),
        device := Getenv(env, "ASR_DEVICE", DefaultDevice(cudaAvailable)),
        modelName := Getenv(env, "ASR_MODEL", "NbAiLab/nb-whisper-large"),
        modelPath := Getenv(env, "ASR_MODEL_PATH", JoinPath(JoinPath(home, ".cache"), "whisper")),
        modelQuantization := quantization,
        modelIdleTimeout := idle.value,
        sampleRate := rate.value,
        subtitleMaxLineWidth := width.value,
        subtitleMaxLineCount := count.value,
        subtitleHighlightWords := Flag(Getenv(env, "SUBTITLE_HIGHLIGHT_WORDS", "false")),
        liveChunkSize := chunk.value,
        liveWordTimestamps := Flag(Getenv(env, "LIVE_WORD_TIMESTAMPS", "true")),
        liveVadFilter := Flag(Getenv(env, "LIVE_VAD_FILTER", "true")),
        liveOutputFormat := Getenv(env, "LIVE_OUTPUT_FORMAT", "json"),
        liveOverlapChunks := Flag(Getenv(env, "LIVE_OVERLAP_CHUNKS", "true")),
        liveOverlapSize := overlap.value))
  }

  /** A variable `int()` can read, or one that is not set. */
  predicate Readable(env: Env, key: string)
  {
    key in env ==> ParseInt(env[key]).Some?
  }

  /** Every integer variable that is set holds something `int()` accepts. */
  predicate IntegersReadable(env: Env)
  {
    && Readable(env, "MODEL_IDLE_TIMEOUT") && Readable(env, "SAMPLE_RATE")
    && Readable(env, "SUBTITLE_MAX_LINE_WIDTH") && Readable(env, "SUBTITLE_MAX_LINE_COUNT")
    && Readable(env, "LIVE_CHUNK_SIZE") && Readable(env, "LIVE_OVERLAP_SIZE")
  }

  /** Reading the configuration succeeds exactly when the quantization level is one of the
      three allowed and every integer variable that is set can be read; an invalid
      quantization level is reported before any integer. */
  lemma ParseConfigSucceeds(env: Env, cudaAvailable: bool, home: string)
    ensures ParseConfig(env, cudaAvailable, home).Ok? <==>
              Getenv(env, "ASR_QUANTIZATION", DefaultQuantization(cudaAvailable)) in Quantizations
              && IntegersReadable(env)
    ensures Getenv(env, "ASR_QUANTIZATION", DefaultQuantization(cudaAvailable)) !in Quantizations ==>
              ParseConfig(env, cudaAvailable, home) == Err(InvalidQuantization)
  {
    assert IntSetting(env, "MODEL_IDLE_TIMEOUT", 0).Ok? <==> Readable(env, "MODEL_IDLE_TIMEOUT");
    assert IntSetting(env, "SAMPLE_RATE", 16000).Ok? <==> Readable(env, "SAMPLE_RATE");
    assert IntSetting(env, "SUBTITLE_MAX_LINE_WIDTH", 1000).Ok? <==> Readable(env, "SUBTITLE_MAX_LINE_WIDTH");
    assert IntSetting(env, "SUBTITLE_MAX_LINE_COUNT", 2).Ok? <==> Readable(env, "SUBTITLE_MAX_LINE_COUNT");
    assert IntSetting(env, "LIVE_CHUNK_SIZE", 64000).Ok? <==> Readable(env, "LIVE_CHUNK_SIZE");
    assert IntSetting(env, "LIVE_OVERLAP_SIZE", 16000).Ok? <==> Readable(env, "LIVE_OVERLAP_SIZE");
  }

  /** Every variable that is set reaches its setting: strings as they are, integers through
      `int()`, flags through `lower() == "true"`; an unset flag takes its default. */
  lemma ParseConfigFields(env: Env, cudaAvailable: bool, home: string)
    requires ParseConfig(env, cudaAvailable, home).Ok?
    ensures var s := ParseConfig(env, cudaAvailable, home).value;
            && ("ASR_ENGINE" in env ==> s.asrEngine == env["ASR_ENGINE"])
            && ("HF_TOKEN" in env ==> s.hfToken == env["HF_TOKEN"])
            && ("ASR_DEVICE" in env ==> s.device == env["ASR_DEVICE"])
            && ("ASR_MODEL" in env ==> s.modelName == env["ASR_MODEL"])
            && ("ASR_MODEL_PATH" in env ==> s.modelPath == env["ASR_MODEL_PATH"])
            && ("ASR_QUANTIZATION" in env ==> s.modelQuantization == env["ASR_QUANTIZATION"])
            && ("MODEL_IDLE_TIMEOUT" in env ==> s.modelIdleTimeout == ParseInt(env["MODEL_IDLE_TIMEOUT"]).value)
            && ("SAMPLE_RATE" in env ==> s.sampleRate == ParseInt(env["SAMPLE_RATE"]).value)
            && ("SUBTITLE_MAX_LINE_WIDTH" in env ==>
                  s.subtitleMaxLineWidth == ParseInt(env["SUBTITLE_MAX_LINE_WIDTH"]).value)
            && ("SUBTITLE_MAX_LINE_COUNT" in env ==>
                  s.subtitleMaxLineCount == ParseInt(env["SUBTITLE_MAX_LINE_COUNT"]).value)
            && ("LIVE_CHUNK_SIZE" in env ==> s.liveChunkSize == ParseInt(env["LIVE_CHUNK_SIZE"]).value)
            && ("LIVE_OVERLAP_SIZE" in env ==> s.liveOverlapSize == ParseInt(env["LIVE_OVERLAP_SIZE"]).value)
            && ("LIVE_OUTPUT_FORMAT" in env ==> s.liveOutputFormat == env["LIVE_OUTPUT_FORMAT"])
            && (s.subtitleHighlightWords <==>
                  "SUBTITLE_HIGHLIGHT_WORDS" in env && Lower(env["SUBTITLE_HIGHLIGHT_WORDS"]) == "true")
            && (s.liveWordTimestamps <==>
                  ("LIVE_WORD_TIMESTAMPS" in env ==> Lower(env["LIVE_WORD_TIMESTAMPS"]) == "true"))
            && (s.liveVadFilter <==> ("LIVE_VAD_FILTER" in env ==> Lower(env["LIVE_VAD_FILTER"]) == "true"))
            && (s.liveOverlapChunks <==>
                  ("LIVE_OVERLAP_CHUNKS" in env ==> Lower(env["LIVE_OVERLAP_CHUNKS"]) == "true"))
  {
    assert Lower("true") == "true";
    assert Lower("false") != "true";
  }

  /** With no variable set: every setting takes its default. */
  lemma Defaults(cudaAvailable: bool, home: string)
    ensures var r := ParseConfig(map[], cudaAvailable, home);
            && r.Ok?
            && r.value.asrEngine == "nbailab_whisper" && r.value.hfToken == ""
            && r.value.device == (if cudaAvailable then "cuda" else "cpu")
            && r.value.modelName == "NbAiLab/nb-whisper-large"
            && r.value.modelPath == JoinPath(JoinPath(home, ".cache"), "whisper")
            && r.value.modelQuantization == (if cudaAvailable then "float32" else "int8")
            && r.value.modelIdleTimeout == 0 && r.value.sampleRate == 16000
            && r.value.subtitleMaxLineWidth == 1000 && r.value.subtitleMaxLineCount == 2
            && !r.value.subtitleHighlightWords
            && r.value.liveChunkSize == 64000 && r.value.liveOverlapSize == 16000
            && r.value.liveWordTimestamps && r.value.liveVadFilter && r.value.liveOverlapChunks
            && r.value.liveOutputFormat == "json"
  {
    assert Lower("true") == "true";
    assert Lower("false") == "false";
  }

  /** The default model cache lives under the home directory. */
  lemma DefaultModelPath(home: string)
    requires home != "" && home[|home| - 1] != '/'
    ensures JoinPath(JoinPath(home, ".cache"), "whisper") == home + "/.cache/whisper"
  {
    var cache := home + "/.cache";
    assert JoinPath(home, ".cache") == cache;
    assert cache[|cache| - 1] == 'e';
  }

  /** An integer setting written as `str(x)` is read back as `x`. */
  lemma IntegerSettingRoundTrip(env: Env, key: string, default: int, x: int)
    requires key in env && env[key] == IntToString(x)
    ensures IntSetting(env, key, default) == Ok(x)
  {
    ParseIntOfIntToString(x);
  }

  /** A flag is set exactly by the word `true` in any mix of upper and lower case. */
  lemma FlagIffTrueInAnyCase(value: string)
    ensures Flag(value) <==>
              |value| == 4 && value[0] in "tT" && value[1] in "rR" && value[2] in "uU" && value[3] in "eE"
  {
    if |value| == 4 {
      var l := Lower(value);
      assert l == "true" <==> l[0] == 't' && l[1] == 'r' && l[2] == 'u' && l[3] == 'e';
    }
  }

  /** A few flag spellings: only the word `true` counts. */
  lemma FlagExamples()
    ensures Flag("true") && Flag("TRUE") && Flag("True")
    ensures !Flag("1") && !Flag("yes") && !Flag("") && !Flag("false")
  {
    FlagIffTrueInAnyCase("true");
    FlagIffTrueInAnyCase("TRUE");
    FlagIffTrueInAnyCase("True");
    FlagIffTrueInAnyCase("1");
    FlagIffTrueInAnyCase("yes");
    FlagIffTrueInAnyCase("");
    FlagIffTrueInAnyCase("false");
  }
}
