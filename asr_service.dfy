/** The service layer between the HTTP endpoints and the engine: the arguments it passes to
    the engine, how it wraps every failure, the headers of the file it streams back, and how
    it normalises what the engines return from language detection. Audio loading, the engine
    and `urllib.parse.quote` enter as values. */
module AsrService {
  import opened Common
  import opened AsrExceptions
  import opened AsrModel

  /** What the engine's `transcribe` returned: `None`, or a file with this content. */
  datatype EngineFile = NoResult | FileResult(content: string)

  /** The engine's `transcribe`, returning a file or raising. */
  type TranscribeEngine = TranscribeRequest -> Result<EngineFile, PyException>

  datatype Response = StreamingResponse(content: string, mediaType: string, headers: map<string, string>)

  const TranscriptionPrefix: string := "Transcription failed: "
  const DetectionPrefix: string := "Language detection failed: "
  const NoResultError: PyException := Asr(TranscriptionError, "Transcription returned no result")
  const DispositionPrefix: string := "attachment; filename=\""

  /** The `TranscriptionError` every failure of a transcription becomes. */
  function WrapTranscription(e: PyException): PyException
  {
    Asr(TranscriptionError, TranscriptionPrefix + Str(e))
  }

  /** The call the engine receives: the caller's arguments and the diarization options. */
  function EngineRequest(audio: seq<int>, task: Option<string>, language: Option<string>,
                         initialPrompt: Option<string>, vadFilter: bool, wordTimestamps: bool,
                         diarize: bool, minSpeakers: Option<int>, maxSpeakers: Option<int>,
                         output: Option<string>): TranscribeRequest
  {
    TranscribeRequest(audio, task, language, initialPrompt, vadFilter, wordTimestamps,
                      Some(DiarizeOptions(diarize, minSpeakers, maxSpeakers)), output)
  }

  /** `attachment; filename="<quote(name)>.<ext>"`, with `audio` and `txt` standing in for
      a missing or empty file name and output format. */
  function ContentDisposition(filename: Option<string>, output: Option<string>, quote: string -> string): (header: string)
    ensures StartsWith(header, DispositionPrefix) && header[|header| - 1] == '"'
    ensures |header| == |DispositionPrefix| + |quote(OrElse(filename, "audio"))| + 1 + |OrElse(output, "txt")| + 1
  {
    DispositionPrefix + quote(OrElse(filename, "audio")) + "." + OrElse(output, "txt") + "\""
  }

  /** `transcribe_audio`: the streamed file with its headers, or a `TranscriptionError`
      whose message is `Transcription failed: ` followed by the text of what went wrong. */
  function TranscribeAudio(loaded: Result<seq<int>, PyException>, engine: TranscribeEngine,
                           filename: Option<string>, task: Option<string>, language: Option<string>,
                           initialPrompt: Option<string>, vadFilter: bool, wordTimestamps: bool,
                           diarize: bool, minSpeakers: Option<int>, maxSpeakers: Option<int>,
                           output: Option<string>, asrEngine: string, quote: string -> string)
    : (r: Result<Response, PyException>)
    ensures r.Err? ==> r.error.Asr? && r.error.kind == TranscriptionError
                       && StartsWith(r.error.message, TranscriptionPrefix)
    ensures loaded.Err? ==> r == Err(WrapTranscription(loaded.error))
    ensures loaded.Ok? ==>
              var reply := engine(EngineRequest(loaded.value, task, language, initialPrompt, vadFilter,
                                                wordTimestamps, diarize, minSpeakers, maxSpeakers, output));
              && (reply.Err? ==> r == Err(WrapTranscription(reply.error)))
              && (reply == Ok(NoResult) ==> r == Err(WrapTranscription(NoResultError)))
              && (reply.Ok? && reply.value.FileResult? ==>
                    r == Ok(StreamingResponse(reply.value.content, "text/plain",
                              map["Asr-Engine" := asrEngine,
                                  "Content-Disposition" := ContentDisposition(filename, output, quote)])))
  {
    if loaded.Err? then Err(WrapTranscription(loaded.error))
    else
      var reply := engine(EngineRequest(loaded.value, task, language, initialPrompt, vadFilter,
                                        wordTimestamps, diarize, minSpeakers, maxSpeakers, output));
      if reply.Err? then Err(WrapTranscription(reply.error))
      else if reply.value.NoResult? then Err(WrapTranscription(NoResultError))
      else
        var headers := map["Asr-Engine" := asrEngine,
                           "Content-Disposition" := ContentDisposition(filename, output, quote)];
        Ok(StreamingResponse(reply.value.content, "text/plain", headers))
  }

  /** The file name a client reads back from the header: what lies between `filename="` and
      the closing quote. */
  function DispositionFilename(header: string): Option<string>
  {
    if |header| > |DispositionPrefix| && StartsWith(header, DispositionPrefix) && header[|header| - 1] == '"'
    then Some(header[|DispositionPrefix|..|header| - 1])
    else None
  }

  /** The header names the quoted file name with the output format as extension. */
  lemma DispositionReadsBack(filename: Option<string>, output: Option<string>, quote: string -> string)
    ensures DispositionFilename(ContentDisposition(filename, output, quote))
            == Some(quote(OrElse(filename, "audio")) + "." + OrElse(output, "txt"))
  {
    var name := quote(OrElse(filename, "audio")) + "." + OrElse(output, "txt");
    var header := ContentDisposition(filename, output, quote);
    assert header == DispositionPrefix + name + "\"";
    assert header[..|DispositionPrefix|] == DispositionPrefix;
    assert header[|DispositionPrefix|..|header| - 1] == name;
  }

  /** The cause can be read back from the message of the wrapped error. */
  lemma WrappedCauseReadsBack(e: PyException)
    ensures var m := WrapTranscription(e).message;
            StartsWith(m, TranscriptionPrefix) && m[|TranscriptionPrefix|..] == Str(e)
  {
  }

  /** A request without file name or output format yields `audio.txt`. */
  lemma DefaultFileName(quote: string -> string)
    ensures DispositionFilename(ContentDisposition(None, None, quote)) == Some(quote("audio") + ".txt")
  {
    DispositionReadsBack(None, None, quote);
    assert quote("audio") + "." + "txt" == quote("audio") + ".txt";
  }

  // ---------------------------------------------------------------------------
  // Language detection

  /** What an engine's `language_detection` returned: a pair of code and confidence, `None`,
      or any other value, by its `str()`. */
  datatype LanguageReply = Pair(code: string, confidence: real) | NoneReply | Scalar(text: string)

  datatype Detection = Detection(detectedLanguage: string, languageCode: string, confidence: real)

  /** A pair is unpacked; any other value is a code by its `str()` (`en` for `None`) with
      full confidence. */
  function Normalise(reply: LanguageReply): (codeAndConfidence: (string, real))
    ensures reply.Pair? ==> codeAndConfidence == (reply.code, reply.confidence)
    ensures !reply.Pair? ==> codeAndConfidence.1 == 1.0
    ensures reply.NoneReply? ==> codeAndConfidence.0 == "en"
    ensures reply.Scalar? ==> codeAndConfidence.0 == reply.text
  {
    match reply
    case Pair(code, confidence) => (code, confidence)
    case NoneReply => ("en", 1.0)
    case Scalar(text) => (text, 1.0)
  }

  /** `LANGUAGES.get(code, "Unknown")`. */
  function LanguageName(languages: map<string, string>, code: string): string
  {
    if code in languages then languages[code] else "Unknown"
  }

  /** `detect_language`: the language's name, code and confidence, or an `AudioLoadError`
      whose message is `Language detection failed: ` followed by the text of the cause. */
  function DetectLanguage(loaded: Result<seq<int>, PyException>, engine: seq<int> -> Result<LanguageReply, PyException>,
                          languages: map<string, string>): (r: Result<Detection, PyException>)
    ensures r.Ok? <==> loaded.Ok? && engine(loaded.value).Ok?
    ensures r.Err? ==> r.error.Asr? && r.error.kind == AudioLoadError && StartsWith(r.error.message, DetectionPrefix)
    ensures r.Err? ==> r.error.message == DetectionPrefix
                          + Str(if loaded.Err? then loaded.error else engine(loaded.value).error)
    ensures r.Ok? ==> (r.value.languageCode, r.value.confidence) == Normalise(engine(loaded.value).value)
                      && r.value.detectedLanguage == LanguageName(languages, r.value.languageCode)
  {
    if loaded.Err? then Err(Asr(AudioLoadError, DetectionPrefix + Str(loaded.error)))
    else
      var reply := engine(loaded.value);
      if reply.Err? then Err(Asr(AudioLoadError, DetectionPrefix + Str(reply.error)))
      else
        var (code, confidence) := Normalise(reply.value);
        Ok(Detection(LanguageName(languages, code), code, confidence))
  }

  /** An engine answering `("en", 0.95)` gives code `en` with confidence 0.95. */
  lemma EnglishPairExample(audio: seq<int>, engine: seq<int> -> Result<LanguageReply, PyException>,
                           languages: map<string, string>)
    requires engine(audio) == Ok(Pair("en", 0.95))
    ensures var r := DetectLanguage(Ok(audio), engine, languages);
            r.Ok? && r.value.languageCode == "en" && r.value.confidence == 0.95
  {
  }

  /** An engine that reports only a code, as WhisperX does, is given full confidence; a code
      outside the language table is named `Unknown`. */
  lemma CodeOnlyReply(audio: seq<int>, engine: seq<int> -> Result<LanguageReply, PyException>,
                      languages: map<string, string>, code: string)
    requires engine(audio) == Ok(Scalar(code))
    ensures var r := DetectLanguage(Ok(audio), engine, languages);
            && r.Ok? && r.value.languageCode == code && r.value.confidence == 1.0
            && (code !in languages ==> r.value.detectedLanguage == "Unknown")
  {
  }
}
