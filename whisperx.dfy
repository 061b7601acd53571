/** The WhisperX engine: the keyword arguments of the transcription call, the per-language
    cache of alignment models, the gate in front of speaker diarization, the language written
    into the result, the arg-max language detection and the writer it selects. The WhisperX
    library, the diarization pipeline and the writers are foreign and enter as function
    values. */
module WhisperXEngine {
  import opened Common
  import opened AsrExceptions
  import opened AsrModel
  import FasterWhisperEngine

  /** `{"task": task}`, plus `language` and `initial_prompt` when they are truthy. */
  type WxOptions = map<string, Option<string>>

  datatype WxSegment = WxSegment(text: string, startMs: nat, endMs: nat, speaker: Option<string>)

  /** What the WhisperX model's `transcribe` returns: the detected language and the
      segments. */
  datatype Transcript = Transcript(language: string, segments: seq<WxSegment>)

  /** The loaded WhisperX model. `detectLanguage` stands for `detect_language` applied to the
      log-Mel spectrogram of the padded or trimmed audio, and returns the probability of each
      language code, in the dictionary's order. */
  datatype WhisperXModel = WhisperXModel(
    transcribe: (seq<int>, WxOptions) -> Transcript,
    detectLanguage: seq<int> -> seq<(string, real)>)

  /** Handles on a loaded alignment network and its metadata, as `load_align_model` returns
      them. */
  datatype AlignModel = AlignModel(modelX: nat, metadata: string)

  /** An aligned result: its segments and its word segments. */
  datatype Aligned = Aligned(segments: seq<WxSegment>, wordSegments: seq<WxSegment>)

  /** Speaker turns found by the diarization pipeline: speaker label, start and end in ms. */
  datatype Diarization = Diarization(turns: seq<(string, nat, nat)>)

  /** `DiarizationPipeline(...)(audio, min_speakers, max_speakers)`. */
  type DiarizeModel = (seq<int>, Option<int>, Option<int>) -> Diarization

  /** The library functions the engine calls after transcription. */
  datatype WhisperXLib = WhisperXLib(
    loadAlignModel: string -> AlignModel,
    align: (seq<WxSegment>, AlignModel, seq<int>) -> Aligned,
    assignWordSpeakers: (Diarization, Aligned) -> Aligned)

  /** The dictionary handed to the writer: the aligned (and possibly diarized) result with a
      `language` entry added. */
  datatype Tagged = Tagged(result: Aligned, language: string)

  /** The subtitle options every writer receives. */
  datatype SubtitleOptions = SubtitleOptions(maxLineWidth: int, maxLineCount: int, highlightWords: bool)

  type WriteFn = (FasterWhisperEngine.Writer, SubtitleOptions, Tagged) -> string

  const NoTranscribeAttribute: PyException := Other("AttributeError", "'NoneType' object has no attribute 'transcribe'")
  const NoDetectAttribute: PyException := Other("AttributeError", "'NoneType' object has no attribute 'detect_language'")
  const NotCallable: PyException := Other("TypeError", "'NoneType' object is not callable")
  const EmptyMax: PyException := Other("ValueError", "max() arg is an empty sequence")

  // ---------------------------------------------------------------------------
  // Keyword arguments

  /** `task` is always passed, even when it is `None`; `language` and `initial_prompt` only
      when truthy; `vad_filter` and `word_timestamps` never. */
  function WxOptionsDict(task: Option<string>, language: Option<string>, initialPrompt: Option<string>): (opts: WxOptions)
    ensures opts.Keys <= {"task", "language", "initial_prompt"}
    ensures "task" in opts && opts["task"] == task
    ensures ("language" in opts <==> Truthy(language)) && ("language" in opts ==> opts["language"] == language)
    ensures ("initial_prompt" in opts <==> Truthy(initialPrompt))
            && ("initial_prompt" in opts ==> opts["initial_prompt"] == initialPrompt)
  {
    var m1 := map["task" := task];
    var m2 := if Truthy(language) then m1["language" := language] else m1;
    if Truthy(initialPrompt) then m2["initial_prompt" := initialPrompt] else m2
  }

  method BuildOptions(task: Option<string>, language: Option<string>, initialPrompt: Option<string>)
    returns (opts: WxOptions)
    ensures opts == WxOptionsDict(task, language, initialPrompt)
  {
    opts := map["task" := task];
    if Truthy(language) {
      opts := opts["language" := language];
    }
    if Truthy(initialPrompt) {
      opts := opts["initial_prompt" := initialPrompt];
    }
  }

  // ---------------------------------------------------------------------------
  // Alignment-model cache

  /** The cache after looking up `language`: a cached model is kept, a missing one is loaded
      and stored, and every other entry is left as it was. */
  function CacheAlignModel(cache: map<string, AlignModel>, language: string, load: string -> AlignModel)
    : (after: map<string, AlignModel>)
    ensures language in after
    ensures after[language] == if language in cache then cache[language] else load(language)
    ensures after.Keys == cache.Keys + {language}
    ensures forall k :: k in cache && k != language ==> after[k] == cache[k]
    ensures language in cache ==> after == cache
  {
    if language in cache then cache else cache[language := load(language)]
  }

  /** Once a language is cached, later lookups of it leave the cache alone, whatever the
      loader would now return. */
  lemma CacheIsStable(cache: map<string, AlignModel>, language: string, load: string -> AlignModel,
                      load': string -> AlignModel)
    ensures var c := CacheAlignModel(cache, language, load);
            CacheAlignModel(c, language, load') == c
  {
  }

  // ---------------------------------------------------------------------------
  // Diarization gate and the result

  /** `options and options.get("diarize", False) and HF_TOKEN != ""`. */
  predicate DiarizeRequested(options: Option<DiarizeOptions>, hfToken: string)
  {
    options.Some? && options.value.diarize && hfToken != ""
  }

  /** The dictionary to be written, from the transcript, the alignment model found for its
      language and the diarization model; `None` as diarization model fails when called. */
  function ResultOf(t: Transcript, am: AlignModel, diarizeModel: Option<DiarizeModel>, hfToken: string,
                    audio: seq<int>, options: Option<DiarizeOptions>, lib: WhisperXLib)
    : (r: Result<Tagged, PyException>)
    ensures r.Ok? ==> r.value.language == t.language
    ensures r.Err? <==> DiarizeRequested(options, hfToken) && diarizeModel.None?
    ensures r.Ok? && !DiarizeRequested(options, hfToken) ==> r.value.result == lib.align(t.segments, am, audio)
  {
    var aligned := lib.align(t.segments, am, audio);
    if DiarizeRequested(options, hfToken) then
      if diarizeModel.None? then Err(NotCallable)
      else
        var turns := diarizeModel.value(audio, options.value.minSpeakers, options.value.maxSpeakers);
        Ok(Tagged(lib.assignWordSpeakers(turns, aligned), t.language))
    else Ok(Tagged(aligned, t.language))
  }

  /** The language written with the result is the one the transcription detected: a
      requested language that differs from it never appears as the result's language. */
  lemma LanguageIsTheDetectedOne(t: Transcript, am: AlignModel, diarizeModel: Option<DiarizeModel>,
                                 hfToken: string, audio: seq<int>, options: Option<DiarizeOptions>,
                                 lib: WhisperXLib, requested: Option<string>)
    requires Truthy(requested) && requested.value != t.language
    ensures ResultOf(t, am, diarizeModel, hfToken, audio, options, lib).Ok? ==>
              ResultOf(t, am, diarizeModel, hfToken, audio, options, lib).value.language != requested.value
  {
  }

  /** With the diarization gate shut, diarization options make no difference. */
  lemma DiarizeOptionsIgnoredWithoutToken(t: Transcript, am: AlignModel, diarizeModel: Option<DiarizeModel>,
                                          audio: seq<int>, options: Option<DiarizeOptions>, lib: WhisperXLib)
    ensures ResultOf(t, am, diarizeModel, "", audio, options, lib) == ResultOf(t, am, diarizeModel, "", audio, None, lib)
  {
  }

  // ---------------------------------------------------------------------------
  // Language detection

  /** Index `i` holds the first of the highest probabilities. */
  predicate IsFirstMax(probs: seq<(string, real)>, i: int)
  {
    && 0 <= i < |probs|
    && (forall j :: 0 <= j < |probs| ==> probs[j].1 <= probs[i].1)
    && (forall j :: 0 <= j < i ==> probs[j].1 < probs[i].1)
  }

  /** At most one index is the first maximum. */
  lemma FirstMaxUnique(probs: seq<(string, real)>, i: int, j: int)
    requires IsFirstMax(probs, i) && IsFirstMax(probs, j)
    ensures i == j
  {
    var pi, pj := probs[i].1, probs[j].1;
    assert i < j ==> pi < pj;
    assert j < i ==> pj < pi;
    assert pj <= pi && pi <= pj;
  }

  /** `max(probs, key=probs.get)`: the first key of highest probability; an empty dictionary
      is a `ValueError`. */
  method ArgMax(probs: seq<(string, real)>) returns (r: Result<string, PyException>)
    ensures |probs| == 0 <==> r == Err(EmptyMax)
    ensures |probs| > 0 ==> r.Ok? && exists i :: IsFirstMax(probs, i) && probs[i].0 == r.value
  {
    if |probs| == 0 {
      return Err(EmptyMax);
    }
    var best := 0;
    var k := 1;
    while k < |probs|
      invariant 1 <= k <= |probs|
      invariant IsFirstMax(probs[..k], best)
    {
      if probs[k].1 > probs[best].1 {
        best := k;
      }
      k := k + 1;
    }
    assert probs[..k] == probs;
    return Ok(probs[best].0);
  }

  // ---------------------------------------------------------------------------
  // The engine

  /** The engine. `hfToken` and `subtitles` are the configured token and subtitle options.
      The model dictionary is never `None`, so the lazy-load branches of the source never
      run: an engine whose model was not loaded fails on the `None` entry. */
  class WhisperXASR {
    const hfToken: string
    const subtitles: SubtitleOptions
    var whisperx: Option<WhisperXModel>
    var diarizeModel: Option<DiarizeModel>
    var alignModel: map<string, AlignModel>
    var lastActivityTime: real

    /** A loaded WhisperX model comes with a diarization model whenever a token is set. */
    predicate Valid()
      reads this
    {
      whisperx.Some? && hfToken != "" ==> diarizeModel.Some?
    }

    constructor (hfToken: string, subtitles: SubtitleOptions)
      ensures this.hfToken == hfToken && this.subtitles == subtitles
      ensures whisperx.None? && diarizeModel.None? && alignModel == map[]
      ensures Valid()
    {
      this.hfToken := hfToken;
      this.subtitles := subtitles;
      whisperx := None;
      diarizeModel := None;
      alignModel := map[];
      lastActivityTime := 0.0;
    }

    /** `whisperx.load_model(...)` and, with a token, `DiarizationPipeline(...)`; the built
        objects are passed in. */
    method LoadModel(loaded: WhisperXModel, diarizer: DiarizeModel)
      modifies this
      ensures whisperx == Some(loaded)
      ensures diarizeModel == if hfToken != "" then Some(diarizer) else old(diarizeModel)
      ensures alignModel == old(alignModel) && lastActivityTime == old(lastActivityTime)
      ensures Valid()
    {
      whisperx := Some(loaded);
      if hfToken != "" {
        diarizeModel := Some(diarizer);
      }
    }

    /** One transcription: transcribe, look up or load the alignment model for the detected
        language, align, diarize when requested, put the detected language back and write. */
    method Transcribe(audio: seq<int>, task: Option<string>, language: Option<string>,
                      initialPrompt: Option<string>, vadFilter: bool, wordTimestamps: bool,
                      options: Option<DiarizeOptions>, output: Option<string>, now: real,
                      lib: WhisperXLib, write: WriteFn)
      returns (r: Result<string, PyException>)
      modifies this
      ensures lastActivityTime == now
      ensures whisperx == old(whisperx) && diarizeModel == old(diarizeModel)
      ensures old(whisperx).None? ==> r == Err(NoTranscribeAttribute) && alignModel == old(alignModel)
      ensures old(whisperx).Some? ==>
                var t := old(whisperx).value.transcribe(audio, WxOptionsDict(task, language, initialPrompt));
                && alignModel == CacheAlignModel(old(alignModel), t.language, lib.loadAlignModel)
                && var res := ResultOf(t, alignModel[t.language], diarizeModel, hfToken, audio, options, lib);
                   r == if res.Ok? then Ok(write(FasterWhisperEngine.WriterFor(output), subtitles, res.value))
                        else Err(res.error)
      ensures old(Valid()) && old(whisperx).Some? ==> r.Ok?
    {
      lastActivityTime := now;
      if whisperx.None? {
        return Err(NoTranscribeAttribute);
      }
      var opts := BuildOptions(task, language, initialPrompt);
      var t := whisperx.value.transcribe(audio, opts);
      var detected := t.language;
      if detected !in alignModel {
        alignModel := alignModel[detected := lib.loadAlignModel(detected)];
      }
      var am := alignModel[detected];
      var result := lib.align(t.segments, am, audio);
      if DiarizeRequested(options, hfToken) {
        if diarizeModel.None? {
          return Err(NotCallable);
        }
        var turns := diarizeModel.value(audio, options.value.minSpeakers, options.value.maxSpeakers);
        result := lib.assignWordSpeakers(turns, result);
      }
      var file := WriteResult(Tagged(result, detected), output, write);
      return Ok(file);
    }

    /** The most probable language code, or the error of a missing model or an empty
        probability table. */
    method LanguageDetection(audio: seq<int>) returns (r: Result<string, PyException>)
      ensures whisperx.None? ==> r == Err(NoDetectAttribute)
      ensures whisperx.Some? ==>
                var probs := whisperx.value.detectLanguage(audio);
                && (|probs| == 0 <==> r == Err(EmptyMax))
                && (|probs| > 0 ==> r.Ok? && exists i :: IsFirstMax(probs, i) && probs[i].0 == r.value)
    {
      if whisperx.None? {
        return Err(NoDetectAttribute);
      }
      var probs := whisperx.value.detectLanguage(audio);
      r := ArgMax(probs);
    }

    /** `write_result`: the writer chosen as by the other engines, with the subtitle
        options. */
    method WriteResult(result: Tagged, output: Option<string>, write: WriteFn) returns (file: string)
      ensures file == write(FasterWhisperEngine.WriterFor(output), subtitles, result)
    {
      var writer := FasterWhisperEngine.WriterFor(output);
      file := write(writer, subtitles, result);
    }
  }
}
