/** Choosing the engine from the configured name, and the thin engine that forwards to the
    NbAiLab pipeline functions. */
module AsrModelFactory {
  import opened Common
  import opened AsrExceptions
  import opened AsrModel
  import NbAiLabCore

  /** The four engines the service can run. */
  datatype Engine = OpenAIWhisper | FasterWhisper | WhisperX | NbAiLabWhisper

  /** The configuration name of each engine. */
  function EngineName(e: Engine): string
  {
    match e
    case OpenAIWhisper => "openai_whisper"
    case FasterWhisper => "faster_whisper"
    case WhisperX => "whisperx"
    case NbAiLabWhisper => "nbailab_whisper"
  }

  const EngineNames: set<string> := {"openai_whisper", "faster_whisper", "whisperx", "nbailab_whisper"}

  /** `create_asr_model`: the engine named by `ASR_ENGINE`, or `UnsupportedEngineError`. */
  function CreateAsrModel(asrEngine: string): (r: Result<Engine, PyException>)
    ensures r.Ok? <==> asrEngine in EngineNames
    ensures r.Ok? ==> EngineName(r.value) == asrEngine
    ensures r.Err? ==> r.error == Asr(UnsupportedEngineError, "Unsupported ASR engine: " + asrEngine)
  {
    if asrEngine == "openai_whisper" then Ok(OpenAIWhisper)
    else if asrEngine == "faster_whisper" then Ok(FasterWhisper)
    else if asrEngine == "whisperx" then Ok(WhisperX)
    else if asrEngine == "nbailab_whisper" then Ok(NbAiLabWhisper)
    else Err(Asr(UnsupportedEngineError, "Unsupported ASR engine: " + asrEngine))
  }

  /** Every engine is created from its own name: names and engines correspond one to one. */
  lemma CreateFromName(e: Engine)
    ensures CreateAsrModel(EngineName(e)) == Ok(e)
  {
  }

  /** Distinct engines have distinct names. */
  lemma EngineNamesDistinct(e: Engine, f: Engine)
    requires EngineName(e) == EngineName(f)
    ensures e == f
  {
    CreateFromName(e);
    CreateFromName(f);
  }

  /** The NbAiLab engine: a wrapper around the pipeline functions, whose state is the
      pipeline cache `core`. */
  class NbAiLabWhisperASR {
    const core: NbAiLabCore.NbAiLabRuntime

    constructor (core: NbAiLabCore.NbAiLabRuntime)
      ensures this.core == core
    {
      this.core := core;
    }

    /** Loading does nothing: the pipeline is built on first use. */
    method LoadModel()
      ensures core.asrPipeline == old(core.asrPipeline)
    {
    }

    /** Forwards every argument but `options`, which is dropped. */
    method Transcribe(request: TranscribeRequest,
                      construct: Result<Option<NbAiLabCore.Pipeline>, PyException>,
                      dumpJson: NbAiLabCore.WhisperResult -> string)
      returns (r: Result<string, PyException>)
      modifies core
      ensures old(core.asrPipeline).Some? ==> core.asrPipeline == old(core.asrPipeline)
      ensures old(core.asrPipeline).None? ==> core.asrPipeline == (if construct.Ok? then construct.value else None)
      ensures old(core.asrPipeline).None? && construct.Err? ==> r == Err(construct.error)
      ensures old(core.asrPipeline).None? && construct == Ok(None) ==> r == Err(NbAiLabCore.ModelFailedToLoad)
      ensures core.asrPipeline.Some? ==>
                r == NbAiLabCore.TranscribeOutcome(
                       core.asrPipeline.value(request.audio, NbAiLabCore.TimestampsArgument(request.wordTimestamps)),
                       request.output, dumpJson)
    {
      r := core.Transcribe(request.audio, request.task, request.language, request.initialPrompt,
                           request.vadFilter, request.wordTimestamps, request.output, construct, dumpJson);
    }

    /** Forwards to the pipeline's language guess. */
    method LanguageDetection(audio: seq<int>, construct: Result<Option<NbAiLabCore.Pipeline>, PyException>)
      returns (r: Result<(string, real), PyException>)
      modifies core
      ensures old(core.asrPipeline).Some? ==> core.asrPipeline == old(core.asrPipeline)
      ensures old(core.asrPipeline).None? ==> core.asrPipeline == (if construct.Ok? then construct.value else None)
      ensures old(core.asrPipeline).None? && construct.Err? ==> r == Err(construct.error)
      ensures old(core.asrPipeline).None? && construct == Ok(None) ==> r == Err(NbAiLabCore.ModelFailedToLoad)
      ensures core.asrPipeline.Some? ==>
                r == Ok(NbAiLabCore.DetectionOutcome(core.asrPipeline.value(audio, NbAiLabCore.SegmentLevel)))
    {
      r := core.LanguageDetection(audio, construct);
    }
  }

  /** What the NbAiLab engine passes on from a request does not include its diarization
      options: two requests that differ only there give the pipeline the same call and the
      writer the same output format. */
  lemma OptionsDropped(request: TranscribeRequest, options: Option<DiarizeOptions>, pipeline: NbAiLabCore.Pipeline,
                       dumpJson: NbAiLabCore.WhisperResult -> string)
    ensures var other := request.(options := options);
            NbAiLabCore.TranscribeOutcome(pipeline(other.audio, NbAiLabCore.TimestampsArgument(other.wordTimestamps)),
                                          other.output, dumpJson)
            == NbAiLabCore.TranscribeOutcome(pipeline(request.audio, NbAiLabCore.TimestampsArgument(request.wordTimestamps)),
                                             request.output, dumpJson)
  {
  }
}
