/** The faster-whisper engine: the keyword arguments it passes to the model, the in-order
    collection of the model's segments and their text, the language it reports and the
    writer it selects. The model itself and the writers are foreign and enter as function
    values. */
module FasterWhisperEngine {
  import opened Common

  /** A value stored in the keyword-argument dictionary. */
  datatype OptionValue = Text(text: string) | Flag(flag: bool)

  type Options = map<string, OptionValue>

  /** Every key the engine may set. */
  const OptionKeys: set<string> := {"task", "language", "initial_prompt", "vad_filter", "word_timestamps"}

  /** The beam width every model call uses. */
  const BeamSize: nat := 5

  /** A segment as the model yields it; only its text is looked at by the engine. */
  datatype FwSegment = FwSegment(text: string, startMs: nat, endMs: nat)

  /** The model's `info` object. */
  datatype TranscriptionInfo = TranscriptionInfo(language: string, languageProbability: real)

  /** `WhisperModel.transcribe(audio, beam_size, **options)`: the segments the generator
      yields, in order, and the info object. */
  type WhisperModel = (seq<int>, nat, Options) -> (seq<FwSegment>, TranscriptionInfo)

  /** The result dictionary handed to the writer. */
  datatype FwResult = FwResult(language: string, segments: seq<FwSegment>, text: string)

  datatype Writer = WriteTXT | WriteSRT | WriteVTT | WriteTSV | WriteJSON

  /** A writer class writing a result into a fresh text buffer. */
  type WriteFn = (Writer, FwResult) -> string

  // ---------------------------------------------------------------------------
  // Keyword arguments

  /** The dictionary of keyword arguments: a key is present exactly when its argument is
      truthy; strings are stored as given, flags as `True`. */
  function OptionsDict(task: Option<string>, language: Option<string>, initialPrompt: Option<string>,
                       vadFilter: bool, wordTimestamps: bool): (opts: Options)
    ensures opts.Keys <= OptionKeys
    ensures ("task" in opts <==> Truthy(task)) && ("task" in opts ==> opts["task"] == Text(task.value))
    ensures ("language" in opts <==> Truthy(language)) && ("language" in opts ==> opts["language"] == Text(language.value))
    ensures ("initial_prompt" in opts <==> Truthy(initialPrompt))
            && ("initial_prompt" in opts ==> opts["initial_prompt"] == Text(initialPrompt.value))
    ensures ("vad_filter" in opts <==> vadFilter) && ("vad_filter" in opts ==> opts["vad_filter"] == Flag(true))
    ensures ("word_timestamps" in opts <==> wordTimestamps)
            && ("word_timestamps" in opts ==> opts["word_timestamps"] == Flag(true))
  {
    var m0: Options := map[];
    var m1 := if Truthy(task) then m0["task" := Text(task.value)] else m0;
    var m2 := if Truthy(language) then m1["language" := Text(language.value)] else m1;
    var m3 := if Truthy(initialPrompt) then m2["initial_prompt" := Text(initialPrompt.value)] else m2;
    var m4 := if vadFilter then m3["vad_filter" := Flag(true)] else m3;
    if wordTimestamps then m4["word_timestamps" := Flag(true)] else m4
  }

  /** The dictionary filled by conditional assignments, one argument at a time. */
  method BuildOptions(task: Option<string>, language: Option<string>, initialPrompt: Option<string>,
                      vadFilter: bool, wordTimestamps: bool) returns (opts: Options)
    ensures opts == OptionsDict(task, language, initialPrompt, vadFilter, wordTimestamps)
  {
    opts := map[];
    if Truthy(task) {
      opts := opts["task" := Text(task.value)];
    }
    if Truthy(language) {
      opts := opts["language" := Text(language.value)];
    }
    if Truthy(initialPrompt) {
      opts := opts["initial_prompt" := Text(initialPrompt.value)];
    }
    if vadFilter {
      opts := opts["vad_filter" := Flag(true)];
    }
    if wordTimestamps {
      opts := opts["word_timestamps" := Flag(true)];
    }
  }

  // ---------------------------------------------------------------------------
  // Segment collection

  /** The texts of the segments, concatenated in order. */
  function ConcatTexts(segments: seq<FwSegment>): string
  {
    if segments == [] then "" else ConcatTexts(segments[..|segments| - 1]) + segments[|segments| - 1].text
  }

  /** The loop over the generator: every segment is appended and its text added to the end. */
  method CollectSegments(generator: seq<FwSegment>) returns (segments: seq<FwSegment>, text: string)
    ensures segments == generator
    ensures text == ConcatTexts(generator)
  {
    segments := [];
    text := "";
    for k := 0 to |generator|
      invariant segments == generator[..k]
      invariant text == ConcatTexts(generator[..k])
    {
      assert generator[..k + 1][..k] == generator[..k];
      segments := segments + [generator[k]];
      text := text + generator[k].text;
    }
    assert generator[..|generator|] == generator;
  }

  /** Concatenation of texts distributes over concatenation of segment lists. */
  lemma {:induction false} ConcatTextsAppend(a: seq<FwSegment>, b: seq<FwSegment>)
    ensures ConcatTexts(a + b) == ConcatTexts(a) + ConcatTexts(b)
  {
    if b != [] {
      var b' := b[..|b| - 1];
      assert (a + b)[..|a + b| - 1] == a + b';
      ConcatTextsAppend(a, b');
    } else {
      assert a + b == a;
    }
  }

  /** The text of segment `i` sits in the transcript right after the texts of the segments
      before it: the transcript is their in-order concatenation. */
  lemma SegmentTextInPlace(segments: seq<FwSegment>, i: nat)
    requires i < |segments|
    ensures var at := |ConcatTexts(segments[..i])|;
            at + |segments[i].text| <= |ConcatTexts(segments)|
            && ConcatTexts(segments)[at..at + |segments[i].text|] == segments[i].text
  {
    var before := segments[..i];
    var after := segments[i + 1..];
    assert segments == before + [segments[i]] + after;
    ConcatTextsAppend(before + [segments[i]], after);
    ConcatTextsAppend(before, [segments[i]]);
    assert ConcatTexts([segments[i]]) == segments[i].text by {
      assert [segments[i]][..0] == [];
    }
  }

  /** The transcript is as long as all segment texts together. */
  lemma {:induction false} ConcatTextsLength(segments: seq<FwSegment>)
    ensures |ConcatTexts(segments)| == TextLengths(segments)
  {
    if segments != [] {
      ConcatTextsLength(segments[..|segments| - 1]);
    }
  }

  function TextLengths(segments: seq<FwSegment>): nat
  {
    if segments == [] then 0 else TextLengths(segments[..|segments| - 1]) + |segments[|segments| - 1].text|
  }

  // ---------------------------------------------------------------------------
  // Result and writer

  /** `options_dict.get("language", info.language)`. */
  function ResultLanguage(opts: Options, info: TranscriptionInfo): string
  {
    if "language" in opts && opts["language"].Text? then opts["language"].text else info.language
  }

  /** The reported language is the caller's when it is truthy, otherwise the detected one. */
  lemma ReportedLanguage(task: Option<string>, language: Option<string>, initialPrompt: Option<string>,
                         vadFilter: bool, wordTimestamps: bool, info: TranscriptionInfo)
    ensures ResultLanguage(OptionsDict(task, language, initialPrompt, vadFilter, wordTimestamps), info)
            == if Truthy(language) then language.value else info.language
  {
  }

  /** The result dictionary built from one model call. */
  function TranscriptionResult(model: WhisperModel, audio: seq<int>, opts: Options): (r: FwResult)
  {
    var (generator, info) := model(audio, BeamSize, opts);
    FwResult(ResultLanguage(opts, info), generator, ConcatTexts(generator))
  }

  /** `srt`, `vtt`, `tsv` and `json` select their own writer; any other value, `None`
      included, selects the plain-text writer. */
  function WriterFor(output: Option<string>): (w: Writer)
    ensures w == WriteSRT <==> output == Some("srt")
    ensures w == WriteVTT <==> output == Some("vtt")
    ensures w == WriteTSV <==> output == Some("tsv")
    ensures w == WriteJSON <==> output == Some("json")
    ensures w == WriteTXT <==> output !in {Some("srt"), Some("vtt"), Some("tsv"), Some("json")}
  {
    match output
    case Some("srt") => WriteSRT
    case Some("vtt") => WriteVTT
    case Some("tsv") => WriteTSV
    case Some("json") => WriteJSON
    case _ => WriteTXT
  }

  /** The engine. `model` is `None` until the model is loaded. */
  class FasterWhisperASR {
    var model: Option<WhisperModel>
    var lastActivityTime: real

    constructor ()
      ensures model.None?
    {
      model := None;
      lastActivityTime := 0.0;
    }

    /** `WhisperModel(...)` built from the configured name, device, quantization and path;
        the built model is passed in as `loaded`. */
    method LoadModel(loaded: WhisperModel)
      modifies this
      ensures model == Some(loaded)
      ensures lastActivityTime == old(lastActivityTime)
    {
      model := Some(loaded);
    }

    /** Load the model on first use; a loaded model stays. */
    method EnsureLoaded(loaded: WhisperModel)
      modifies this
      ensures model == if old(model).None? then Some(loaded) else old(model)
      ensures lastActivityTime == old(lastActivityTime)
    {
      if model.None? {
        LoadModel(loaded);
      }
    }

    /** One transcription: the model is loaded if needed and called once with beam 5 and the
        keyword arguments, the segments are collected, and the chosen writer writes the
        result. */
    method Transcribe(audio: seq<int>, task: Option<string>, language: Option<string>,
                      initialPrompt: Option<string>, vadFilter: bool, wordTimestamps: bool,
                      output: Option<string>, now: real, loaded: WhisperModel, write: WriteFn)
      returns (file: string)
      modifies this
      ensures lastActivityTime == now
      ensures model == if old(model).None? then Some(loaded) else old(model)
      ensures file == write(WriterFor(output), TranscriptionResult(model.value, audio,
                              OptionsDict(task, language, initialPrompt, vadFilter, wordTimestamps)))
    {
      lastActivityTime := now;
      EnsureLoaded(loaded);
      var opts := BuildOptions(task, language, initialPrompt, vadFilter, wordTimestamps);
      var (generator, info) := model.value(audio, BeamSize, opts);
      var segments, text := CollectSegments(generator);
      var result := FwResult(ResultLanguage(opts, info), segments, text);
      file := WriteResult(result, output, write);
    }

    /** The detected language and its probability, from a call with beam 5 and no other
        keyword arguments. */
    method LanguageDetection(audio: seq<int>, now: real, loaded: WhisperModel)
      returns (code: string, confidence: real)
      modifies this
      ensures lastActivityTime == now
      ensures model == if old(model).None? then Some(loaded) else old(model)
      ensures var info := model.value(audio, BeamSize, map[]).1;
              code == info.language && confidence == info.languageProbability
    {
      lastActivityTime := now;
      EnsureLoaded(loaded);
      var (_, info) := model.value(audio, BeamSize, map[]);
      code := info.language;
      confidence := info.languageProbability;
    }
  }

  /** `write_result`: the selected writer writes the result. */
  method WriteResult(result: FwResult, output: Option<string>, write: WriteFn) returns (file: string)
    ensures file == write(WriterFor(output), result)
  {
    var writer := WriterFor(output);
    file := write(writer, result);
  }

  /** The transcript field of a transcription result is the in-order concatenation of the
      segments the model yielded, and the segments are kept as yielded. */
  lemma TranscriptOfResult(model: WhisperModel, audio: seq<int>, opts: Options, i: nat)
    requires i < |model(audio, BeamSize, opts).0|
    ensures var r := TranscriptionResult(model, audio, opts);
            r.segments == model(audio, BeamSize, opts).0
            && var at := |ConcatTexts(r.segments[..i])|;
            at + |r.segments[i].text| <= |r.text| && r.text[at..at + |r.segments[i].text|] == r.segments[i].text
  {
    SegmentTextInPlace(model(audio, BeamSize, opts).0, i);
  }
}
