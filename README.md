# whisper-asr-webservice, modelled in Dafny

whisper-asr-webservice is an HTTP and WebSocket front end to speech-recognition engines.
This project models its core and proves properties about that model:

- **Live transcription** (`LiveTranscribe`). The handler behind the WebSocket endpoint keeps a growing byte buffer and a processed position. For every received chunk it:
  1. appends the chunk;
  2. decides whether enough new bytes have arrived;
  3. decodes the whole buffer as 16-bit little-endian PCM (`PcmAudio`);
  4. skips near-silent buffers;
  5. calls the engine and turns the reply into one text frame;
  6. clears the buffer, keeps an overlap tail, or advances the position.

  An exception raised while processing ends the connection with one `[ERROR]` frame. The handler is a class: its buffer and position are fields. The receive loop is a method proved equal to a fold (`Run`/`Feed`) over the chunk sequence, and properties of the protocol are lemmas about that fold.
- **The NbAiLab engine** (`NbAiLabCore`, with its adapter in `AsrModelFactory`). It:
  - caches a HuggingFace pipeline;
  - turns the pipeline's chunks into Whisper-style segments;
  - writes txt, json, srt, vtt or tsv output;
  - guesses the language from Norwegian keywords.
- **The faster-whisper and WhisperX engines** (`FasterWhisperEngine`, `WhisperXEngine`). Covered for each:
  - the keyword arguments passed to the model;
  - the in-order collection of segments and text;
  - the per-language cache of alignment models;
  - the diarization gate;
  - the language reported in the result;
  - the arg-max language detection;
  - the choice of output writer.
- **The service layer** (`AsrService`): the request the engine receives, how every failure is wrapped, the download headers, and how language-detection results are normalised.
- **Engine selection** (`AsrModelFactory`), **configuration from environment strings** (`Config`) and **exception-to-response mapping** (`ErrorHandler`).

`Common` holds the Python string primitives the code relies on: `str.strip()`, `str.lower()`, substring search, `int()` and `str()` on integers. `AsrExceptions` holds the exception values, and `AsrModel` the engine-call arguments.

## Modelling choices

- Foreign code appears as function-typed parameters or fields. This covers:
  - the speech models, the HuggingFace pipeline and the WhisperX aligner and diarizer;
  - JSON encoding and decoding, `urllib.parse.quote` and audio loading;
  - the writer classes and the language-name table.
- What a foreign call returns is a datatype with one constructor per case the code distinguishes. For example, the pipeline can raise, return a dict, or return something else.
- Audio is a sequence of int16 sample values. The division by 32768 is exact and is not modelled; the silence test `|s|/32768 < 0.01` is stated exactly as `100*|s| < 32768`.
- Times handed to the NbAiLab writers are integer milliseconds.
- Module-level and per-object mutable state is a class field updated in place:
  - the NbAiLab pipeline cache;
  - the live handler's buffer and position;
  - the faster-whisper model;
  - the WhisperX model dictionary and its alignment cache.
- Python exceptions are values of `AsrExceptions.PyException`, carrying the class name and message the code produces.

The live protocol as the code implements it:

- `[BUFFERING]` is sent for every chunk that leaves the new data below the threshold, not only once.
- An engine exception is re-raised as `TranscriptionError("Transcription failed: ...")`. It skips the retention rule and ends the receive loop after one `[ERROR] <message>` frame; it does not continue the session.
- With overlap on and a buffer no longer than `OVERLAP_SIZE`, the buffer is kept whole and the position moves to its end.
- An odd-length buffer fails in `np.frombuffer` and an empty one in `audio_np.min()`. Both happen before the engine's `try`, so they end the connection the same way.
- `buffer[-OVERLAP_SIZE:]` is Python slicing. An overlap size of 0 keeps the whole buffer.
- In json mode, moving the segment times forward runs inside the engine's `try`. A payload whose `segments` cannot be shifted (not a list of dicts, or a time that is not a number) raises, and it ends the connection like an engine failure.

## Model

| member | source | states |
|---|---|---|
| PcmAudio.SampleOf | app/websockets/live_transcribe_handler.py:81 | a little-endian byte pair decodes to a value in the int16 range |
| PcmAudio.Samples | app/websockets/live_transcribe_handler.py:81 | an even-length buffer decodes to exactly half as many samples |
| PcmAudio.SamplesInRange | app/websockets/live_transcribe_handler.py:81 | every decoded sample lies in [-32768, 32767], so each normalised sample is in [-1, 32767/32768] |
| PcmAudio.BytesOf | app/websockets/live_transcribe_handler.py:81 | encoding a sample gives two bytes that decode back to it |
| PcmAudio.DecodeEncode | app/websockets/live_transcribe_handler.py:81 | decoding an encoded sample sequence gives the samples back |
| PcmAudio.EncodeDecode | app/websockets/live_transcribe_handler.py:81 | encoding the decoded samples gives the original bytes back, so decoding loses nothing |
| PcmAudio.Peak | app/websockets/live_transcribe_handler.py:85 | the peak is at least every sample's magnitude and equals one of them |
| PcmAudio.SilenceIffAllQuiet | app/websockets/live_transcribe_handler.py:85 | a buffer is silence exactly when every sample is below the 0.01 amplitude threshold |
| PcmAudio.QuietBounds | app/websockets/live_transcribe_handler.py:85 | in sample units the threshold lies between 327 and 328 |
| PcmAudio.SilenceExamples | app/websockets/live_transcribe_handler.py:85-88 | all-zero audio is silence; audio with a half-scale sample is not |
| Common.StripEmptyIffAllSpace | app/websockets/live_transcribe_handler.py:108-111 | the stripped transcription is empty exactly when it is all whitespace |
| LiveTranscribe.StatusText | app/websockets/live_transcribe_handler.py:72 | every status frame starts with `[`, and error frames start with `[ERROR] ` |
| LiveTranscribe.InitialPrompt | app/websockets/live_transcribe_handler.py:150-160 | the prompt is language-specific exactly for en, sv, da and no, and neutral otherwise |
| LiveTranscribe.PyTail | app/websockets/live_transcribe_handler.py:55 | `buf[-k:]` is a suffix of the buffer: its last k bytes when 0 < k <= length, and the whole buffer when k is 0 or exceeds the length |
| LiveTranscribe.Retain | app/websockets/live_transcribe_handler.py:51-62 | after retention the position lies within the kept buffer |
| LiveTranscribe.ChunkOutcome | app/websockets/live_transcribe_handler.py:76-148 | without an engine call the cycle either raised on an odd-length or empty buffer (and only then) or sent `[SILENCE]`; any engine call is the live request on the decoded samples |
| LiveTranscribe.ReplyOutcome | app/websockets/live_transcribe_handler.py:107-148 | the call is always recorded; everything raised after it is a `TranscriptionError` prefixed `Transcription failed: `; a transcript frame carries the reply's stripped, non-blank text |
| LiveTranscribe.Feed | app/websockets/live_transcribe_handler.py:36-74 | after a fault nothing changes; otherwise the chunk is counted, frames and calls are only appended to (at most one call), one frame is added unless the cycle raised, and the position stays within the buffer |
| LiveTranscribe.Run | app/websockets/live_transcribe_handler.py:26-74 | every chunk is received unless an exception ended the loop early |
| LiveTranscribe.LiveTranscribeHandler.constructor | app/websockets/live_transcribe_handler.py:18-24 | a new handler has an empty buffer, position 0 and the given engine and settings |
| LiveTranscribe.LiveTranscribeHandler.ProcessAudioChunk | app/websockets/live_transcribe_handler.py:76-148 | processing the current buffer gives the frame sent or the exception raised, as `ChunkOutcome` defines, and changes nothing |
| LiveTranscribe.LiveTranscribeHandler.HandleConnection | app/websockets/live_transcribe_handler.py:26-74 | after the loop, the frames sent, the engine calls made and the buffer and position are those of the fold `Run` over the chunks, plus one final `[ERROR]` frame after a fault when it can be delivered; position <= buffer length throughout |
| LiveTranscribe.RunAfterFault | app/websockets/live_transcribe_handler.py:69-74 | once an exception has ended the loop, later chunks change nothing |
| LiveTranscribe.FeedBuffering | app/websockets/live_transcribe_handler.py:37-39 | a sub-threshold chunk is appended at the end of the buffer, exactly `[BUFFERING]` is sent, and nothing else changes |
| LiveTranscribe.FeedProcessesIffThreshold | app/websockets/live_transcribe_handler.py:46-48 | processing runs exactly when buffer length minus position reaches the chunk size; otherwise `[BUFFERING]` is sent and no engine call is made; a cycle that sends a frame leaves the buffer and position the retention rule gives |
| LiveTranscribe.FeedFailureKeepsBuffer | app/websockets/live_transcribe_handler.py:47-62 | a cycle that raised skips retention: the buffer keeps the chunk, the position stays, and no frame is added |
| LiveTranscribe.RetentionRules | app/websockets/live_transcribe_handler.py:51-62 | overlap off clears the buffer; overlap on with a longer buffer keeps exactly the last OVERLAP_SIZE bytes at position 0; otherwise the buffer is kept and the position moves to its end |
| LiveTranscribe.ZeroOverlapKeepsWholeBuffer | app/websockets/live_transcribe_handler.py:53-56 | an overlap size of 0 keeps the whole buffer (Python's `buf[-0:]`) |
| LiveTranscribe.RunKeepsPositionInBuffer | app/websockets/live_transcribe_handler.py:29-62 | `0 <= last_processed_position <= len(audio_buffer)` after every chunk |
| LiveTranscribe.RunFramesPerChunk | app/websockets/live_transcribe_handler.py:36-74 | until a fault, each chunk yields exactly one frame and at most one engine call; the faulting chunk yields none |
| LiveTranscribe.EngineCallArguments | app/websockets/live_transcribe_handler.py:96-105 | the engine is called exactly when the buffer decodes and is not silent, on all samples, with task transcribe, the session language, no prompt, no options and the LIVE_* settings |
| LiveTranscribe.SilenceSkipsEngine | app/websockets/live_transcribe_handler.py:85-88 | a decodable buffer of quiet samples gives exactly `[SILENCE]` and no call |
| LiveTranscribe.OutcomeMapping | app/websockets/live_transcribe_handler.py:107-148 | an engine exception re-raises with the prefix `Transcription failed: `; no file gives `[ERROR] Transcription failed.`; whitespace-only text gives `[NO_SPEECH]`, and only it does |
| LiveTranscribe.TranscriptMapping | app/websockets/live_transcribe_handler.py:111-139 | non-blank text is sent stripped. In json mode a JSON object gains sample count and buffer size, plus a shift exactly when overlap is on and the position is past 0; a shift that raises becomes a `TranscriptionError`, and one that does not run cannot raise. Malformed JSON is sent as is |
| LiveTranscribe.DecodeFailures | app/websockets/live_transcribe_handler.py:81-82 | odd-length and empty buffers raise before the engine is reached |
| LiveTranscribe.FourChunksScenario | app/websockets/live_transcribe_handler.py:36-65 | with overlap off and four 20000-byte chunks against threshold 64000, the first three get `[BUFFERING]` and the fourth is processed; unless that cycle raised, the buffer is then cleared (a raising cycle keeps all 80000 bytes) |
| LiveTranscribe.SilentChunkScenario | app/websockets/live_transcribe_handler.py:85-88 | one all-zero threshold-size chunk gives exactly `[SILENCE]` and no engine call |
| LiveTranscribe.OverlapScenario | app/websockets/live_transcribe_handler.py:51-56 | a 64000-byte buffer with overlap 16000 keeps exactly its last 16000 bytes |
| NbAiLabCore.SegmentOf | app/nbailab_whisper/core.py:97-106 | a chunk fails exactly when its timestamp is a list of fewer than two items, with IndexError; otherwise the segment holds the chunk's text (its `str()` for a non-dict), the two listed times, or 0 and 0 |
| NbAiLabCore.SegmentsOfShape | app/nbailab_whisper/core.py:92-106 | a chunk list converts exactly when every chunk does, giving one segment per chunk in order; the only failure is an IndexError |
| NbAiLabCore.ChunksToSegments | app/nbailab_whisper/core.py:94-106 | the conversion loop computes the in-order conversion of all chunks |
| NbAiLabCore.FailureKeepsFailing | app/nbailab_whisper/core.py:101-102 | the first chunk that fails ends the conversion with its error |
| NbAiLabCore.WhisperResultOf | app/nbailab_whisper/core.py:89-113 | fails exactly when the chunk list fails to convert; the text is the result's text (empty for a non-dict); the segments are the converted chunks, or one 0-0 segment holding the text |
| NbAiLabCore.WhisperResultCases | app/nbailab_whisper/core.py:89-111 | each fallback gives one segment from 0 to 0 holding the top-level text, which is empty for a non-dict result; a non-list timestamp gives times 0 |
| NbAiLabCore.GuessLanguage | app/nbailab_whisper/core.py:141-146 | the guess is ("no", 0.9) or ("en", 0.7), and Norwegian exactly when a listed word occurs in the lower-cased text |
| NbAiLabCore.AnyOccurs | app/nbailab_whisper/core.py:143 | true exactly when some listed word occurs as a substring |
| NbAiLabCore.GuessLanguageCases | app/nbailab_whisper/core.py:135-146 | the guess is ("no", 0.9) exactly when a listed word occurs in the lower-cased text, and ("en", 0.7) otherwise |
| NbAiLabCore.LetterIMeansNorwegian | app/nbailab_whisper/core.py:141-144 | any text containing `i` or `I` is guessed Norwegian, because the test is on substrings |
| NbAiLabCore.WriteTxt | app/nbailab_whisper/core.py:155-162 | the txt loop prints each segment's stripped text on its own line, in order |
| NbAiLabCore.PrintTimed | app/nbailab_whisper/core.py:168-220 | the srt/vtt/tsv loop prints every segment's record in order when all segments have times, and otherwise raises the arithmetic TypeError |
| NbAiLabCore.Render | app/nbailab_whisper/core.py:153-222 | fails exactly for srt/vtt/tsv with a segment lacking times, always with a TypeError; json is the dumped record; only an unknown format returns a message |
| NbAiLabCore.WriteResult | app/nbailab_whisper/core.py:153-222 | writing gives, format by format, what `Render` describes |
| NbAiLabCore.SrtReadsBack | app/nbailab_whisper/core.py:168-186 | when every segment is timed and no text holds a newline, the srt file reads back as four lines per segment `k` (from 0): the number `k + 1`, `HH:MM:SS,mmm --> HH:MM:SS,mmm` from its start and end, its stripped text, and a blank line |
| NbAiLabCore.VttReadsBack | app/nbailab_whisper/core.py:187-206 | under the same conditions the vtt file reads back as `WEBVTT` and a blank line, then three lines per segment: `HH:MM:SS.mmm --> HH:MM:SS.mmm`, its stripped text, and a blank line |
| NbAiLabCore.RenderFormats | app/nbailab_whisper/core.py:153-222 | txt is one line per segment; srt/vtt/tsv succeed exactly when every segment has times; vtt starts with `WEBVTT` and a blank line; tsv starts with `start\tend\ttext`; any other format writes nothing and returns `Please select an output method!` |
| NbAiLabCore.ZeroPadValue | app/nbailab_whisper/core.py:182 | a zero-padded field reads back as the number it was written from |
| NbAiLabCore.ClockRoundTrip | app/nbailab_whisper/core.py:181-184 | `HH:MM:SS,mmm` has its separators in place and reads back as the millisecond time it was written from |
| NbAiLabCore.PrintedReadsBack | app/nbailab_whisper/core.py:157-162 | printed newline-free records split back into the same records |
| NbAiLabCore.TxtReadsBack | app/nbailab_whisper/core.py:155-162 | the txt output's lines are exactly the stripped segment texts |
| NbAiLabCore.TsvReadsBack | app/nbailab_whisper/core.py:207-220 | the tsv output's lines are the header followed by one row per segment |
| NbAiLabCore.NbAiLabRuntime.constructor | app/nbailab_whisper/core.py:30 | the pipeline starts unloaded |
| NbAiLabCore.NbAiLabRuntime.LoadModel | app/nbailab_whisper/core.py:34-47 | the pipeline is built only when none is cached; a cached one is kept; a failing build leaves none and raises |
| NbAiLabCore.NbAiLabRuntime.Transcribe | app/nbailab_whisper/core.py:50-118 | after loading, a missing pipeline raises `RuntimeError("Model failed to load")`. Otherwise the pipeline gets only the audio and `return_timestamps` ("word" or True), and the result is written as `TranscribeOutcome` describes |
| NbAiLabCore.NbAiLabRuntime.LanguageDetection | app/nbailab_whisper/core.py:121-150 | a missing pipeline raises; otherwise the result is the keyword guess on a segment-level run, or ("no", 0.8) when the run raised |
| NbAiLabCore.WholeTextAsOneTxtLine | app/nbailab_whisper/core.py:107-118 | a dict result without chunks is written in txt as its stripped text on one line |
| FasterWhisperEngine.OptionsDict | app/asr_models/faster_whisper_engine.py:43-53 | task, language and initial_prompt are keys exactly when truthy, holding the given string; vad_filter and word_timestamps are keys exactly when true, holding True; no other key |
| FasterWhisperEngine.BuildOptions | app/asr_models/faster_whisper_engine.py:43-53 | the conditional assignments build that dictionary |
| FasterWhisperEngine.CollectSegments | app/asr_models/faster_whisper_engine.py:55-61 | the loop keeps the generator's segments in order, and the text is their in-order concatenation |
| FasterWhisperEngine.ConcatTextsAppend | app/asr_models/faster_whisper_engine.py:59-61 | the concatenated text of two runs of segments is the concatenation of their texts |
| FasterWhisperEngine.SegmentTextInPlace | app/asr_models/faster_whisper_engine.py:59-61 | each segment's text occurs in the transcript right after the texts of the segments before it |
| FasterWhisperEngine.ConcatTextsLength | app/asr_models/faster_whisper_engine.py:61 | the transcript is as long as all segment texts together |
| FasterWhisperEngine.ReportedLanguage | app/asr_models/faster_whisper_engine.py:62 | the result language is the caller's when truthy, else the detected one |
| FasterWhisperEngine.TranscriptOfResult | app/asr_models/faster_whisper_engine.py:56-62 | the result holds the model's segments as yielded, and each one's text in place in the transcript |
| FasterWhisperEngine.WriterFor | app/asr_models/faster_whisper_engine.py:86-101 | srt, vtt, tsv and json each select their own writer, and any other value, including None, selects TXT |
| FasterWhisperEngine.WriteResult | app/asr_models/faster_whisper_engine.py:86-101 | the result is written by the selected writer |
| FasterWhisperEngine.FasterWhisperASR.LoadModel | app/asr_models/faster_whisper_engine.py:15-24 | the built model is stored |
| FasterWhisperEngine.FasterWhisperASR.EnsureLoaded | app/asr_models/faster_whisper_engine.py:39-41 | a model is loaded only when none is present |
| FasterWhisperEngine.FasterWhisperASR.Transcribe | app/asr_models/faster_whisper_engine.py:26-68 | records the activity time and loads if needed. Calls the model once with beam 5 and the options dictionary, then writes the result (segments, concatenated text, language) with the selected writer |
| FasterWhisperEngine.FasterWhisperASR.LanguageDetection | app/asr_models/faster_whisper_engine.py:70-84 | records the activity time and loads if needed. Returns the language and probability of a beam-5 call with no other options |
| WhisperXEngine.WxOptionsDict | app/asr_models/mbain_whisperx_engine.py:47-51 | task is always a key, even when None; language and initial_prompt are keys exactly when truthy; vad_filter and word_timestamps never are |
| WhisperXEngine.BuildOptions | app/asr_models/mbain_whisperx_engine.py:47-51 | the assignments build that dictionary |
| WhisperXEngine.CacheAlignModel | app/asr_models/mbain_whisperx_engine.py:58-64 | afterwards the language is a key. A cached model is kept; only a missing one is loaded. The key set grows by at most that language, and every other entry is untouched |
| WhisperXEngine.CacheIsStable | app/asr_models/mbain_whisperx_engine.py:58-64 | looking up a cached language again changes nothing, whatever the loader would return |
| WhisperXEngine.ResultOf | app/asr_models/mbain_whisperx_engine.py:66-79 | the written language is the detected one. Failure happens exactly when diarization is requested and no diarization model exists. Without diarization the result is the aligned transcript |
| WhisperXEngine.LanguageIsTheDetectedOne | app/asr_models/mbain_whisperx_engine.py:78-79 | the language written is the detected one: a different requested language never appears as the result language |
| WhisperXEngine.DiarizeOptionsIgnoredWithoutToken | app/asr_models/mbain_whisperx_engine.py:71-76 | without an HF token, diarization options make no difference |
| WhisperXEngine.FirstMaxUnique | app/asr_models/mbain_whisperx_engine.py:99 | the first index of highest probability is unique |
| WhisperXEngine.ArgMax | app/asr_models/mbain_whisperx_engine.py:99 | `max(probs, key=probs.get)` is the key of the first highest probability; an empty table raises ValueError |
| WhisperXEngine.WhisperXASR.constructor | app/asr_models/mbain_whisperx_engine.py:15-16 | a new engine has no WhisperX model, no diarization model and an empty alignment cache |
| WhisperXEngine.WhisperXASR.LoadModel | app/asr_models/mbain_whisperx_engine.py:18-29 | the WhisperX model is stored; a diarization model is created exactly when the token is non-empty |
| WhisperXEngine.WhisperXASR.Transcribe | app/asr_models/mbain_whisperx_engine.py:31-85 | without a loaded model it fails on None. Otherwise: transcribe with the options dictionary; update the cache for the detected language; align; diarize when requested; write. A loaded engine always succeeds |
| WhisperXEngine.WhisperXASR.LanguageDetection | app/asr_models/mbain_whisperx_engine.py:87-101 | fails on None without a model; otherwise returns the first most probable language code, or ValueError for an empty table |
| WhisperXEngine.WhisperXASR.WriteResult | app/asr_models/mbain_whisperx_engine.py:103-119 | the selected writer writes with the configured subtitle options |
| AsrService.TranscribeAudio | app/services/asr_service.py:19-74 | the engine receives the caller's arguments and the options diarize/min_speakers/max_speakers. Every failure, including a None result, becomes a TranscriptionError prefixed `Transcription failed: `. Success streams the file as text/plain with the Asr-Engine and Content-Disposition headers |
| AsrService.ContentDisposition | app/services/asr_service.py:61-69 | the header starts with `attachment; filename="`, ends with a quote, and its length is that of the quoted name, a dot and the extension plus the fixed parts |
| AsrService.DispositionReadsBack | app/services/asr_service.py:61-70 | the header's quoted file name reads back as quote(filename or "audio") + "." + (output or "txt") |
| AsrService.WrappedCauseReadsBack | app/services/asr_service.py:73-74 | the wrapped message is the prefix followed by exactly `str()` of the cause |
| AsrService.DefaultFileName | app/services/asr_service.py:61-62 | without a file name or output format the download is named `audio.txt` |
| AsrService.Normalise | app/services/asr_service.py:87-92 | a pair is unpacked; anything else is a code by its `str()`, with `en` for None and confidence 1.0 |
| AsrService.DetectLanguage | app/services/asr_service.py:76-103 | succeeds exactly when loading and detection do. It returns the normalised code and confidence with the language name or `Unknown`. Every failure becomes an AudioLoadError prefixed `Language detection failed: ` |
| AsrService.EnglishPairExample | app/services/asr_service.py:87-99 | an engine answering ("en", 0.95) gives code en and confidence 0.95 |
| AsrService.CodeOnlyReply | app/services/asr_service.py:90-97 | a code-only answer gets confidence 1.0, and an unknown code is named `Unknown` |
| AsrModelFactory.CreateAsrModel | app/factory/asr_model_factory.py:36-47 | exactly the four engine names are accepted, each giving its own engine; any other name raises UnsupportedEngineError with that name |
| AsrModelFactory.CreateFromName | app/factory/asr_model_factory.py:38-45 | each engine is created from its own name |
| AsrModelFactory.EngineNamesDistinct | app/factory/asr_model_factory.py:38-45 | distinct engines have distinct names |
| AsrModelFactory.NbAiLabWhisperASR.LoadModel | app/factory/asr_model_factory.py:13-15 | loading does nothing |
| AsrModelFactory.NbAiLabWhisperASR.Transcribe | app/factory/asr_model_factory.py:17-28 | forwards audio, task, language, prompt, VAD flag, word timestamps and output to the NbAiLab pipeline functions, without the options |
| AsrModelFactory.NbAiLabWhisperASR.LanguageDetection | app/factory/asr_model_factory.py:30-31 | forwards to the NbAiLab language guess |
| AsrModelFactory.OptionsDropped | app/factory/asr_model_factory.py:28 | requests that differ only in their options give the same outcome |
| Common.ParseIntOfIntToString | app/config.py:41-48 | `int(str(x)) == x` |
| Config.IntSetting | app/config.py:41-48 | an unset integer setting takes its default; a set one is `int()` of its string, or ValueError when that fails |
| Config.ParseConfig | app/config.py:6-59 | a successful configuration has a quantization level in {float32, float16, int8} |
| Config.ParseConfigSucceeds | app/config.py:35-59 | configuration succeeds exactly when the quantization level is allowed and every set integer variable parses; a bad level raises its ValueError before any integer is read |
| Config.Defaults | app/config.py:13-59 | with nothing set every setting takes its default: nbailab_whisper, NbAiLab/nb-whisper-large, cuda/cpu, float32/int8, 0, 16000, 1000, 2, highlight false, chunk 64000, overlap 16000, json and the three live flags true |
| Config.DefaultModelPath | app/config.py:28 | for a non-empty home directory without a trailing slash, the default model path is `<home>/.cache/whisper` |
| Config.ParseConfigFields | app/config.py:13-59 | in a successful configuration every set variable reaches its setting: strings unchanged, integers through `int()`, flags through `lower() == "true"`, with an unset flag taking its default |
| Config.Flag | app/config.py:49 | only a four-letter value can set a flag |
| Config.IntegerSettingRoundTrip | app/config.py:41-48 | an integer setting written as `str(x)` is read as x |
| Config.FlagIffTrueInAnyCase | app/config.py:49 | a boolean setting is true exactly for the word true in any mix of cases |
| Config.FlagExamples | app/config.py:53-58 | true, TRUE and True are true; 1, yes, false and the empty string are false |
| ErrorHandler.AsrExceptionHandler | app/middleware/error_handler.py:13-19 | status 500 with error `ASR Error`, the exception's message and its class name |
| ErrorHandler.ValidationExceptionHandler | app/middleware/error_handler.py:22-28 | status 422 with exactly the fields error `Validation Error`, message `Invalid request data` and the exception's error details |
| ErrorHandler.HttpExceptionHandler | app/middleware/error_handler.py:31-34 | the exception's own status code, with exactly the fields error `HTTP Error` and its detail as message |
| ErrorHandler.GeneralExceptionHandler | app/middleware/error_handler.py:37-43 | status 500 with a fixed message |
| ErrorHandler.Handle | app/middleware/error_handler.py:13-43 | every response names an error and carries a message; only an HTTP exception chooses its own status code; 422 comes from a validation error or an HTTP 422 |
| ErrorHandler.ValidationResponseIdentifiesErrors | app/middleware/error_handler.py:22-28 | the response to a validation error determines its error details |
| ErrorHandler.HttpResponseIdentifiesException | app/middleware/error_handler.py:31-34 | the response to an HTTP exception determines its status code and detail |
| ErrorHandler.StatusCodes | app/middleware/error_handler.py:13-43 | 500 for the service's own and for unexpected exceptions, 422 for validation errors, and an HTTP exception's own code |
| ErrorHandler.AsrResponseIdentifiesException | app/middleware/error_handler.py:13-19 | the response to a service exception determines its kind and message |
| ErrorHandler.GeneralResponseHidesException | app/middleware/error_handler.py:37-43 | the response to an unexpected exception is the same whatever the exception |

## Left out

- WebSocket transport and asyncio. `accept`, `receive_bytes` and `send_text` become a chunk sequence in and a frame sequence out. A client disconnect is the end of the chunk sequence. A failing send of the final `[ERROR]` frame, which the code swallows, is the `errorDelivered` flag.
- Concurrency. Not modelled:
  - the single handler instance shared by all connections;
  - the engines' `model_lock` locks;
  - the `monitor_idleness` threads started by `load_model`.

  One session is modelled, sequentially.
- app/asr_models/asr_model.py is not part of this model: `model_lock`, `last_activity_time`, `monitor_idleness` and the base constructor. `FasterWhisperASR` is assumed to start with `model = None`.
- app/asr_models/openai_whisper_engine.py is not part of this model. The factory only names that engine.
- Floating point:
  - the division by 32768 and `chunk_duration`;
  - the overlap shift in seconds, which the model records as the byte position it is computed from;
  - srt/vtt/tsv timestamp arithmetic.

  Times are integer milliseconds, so the float rounding of `(start % 1) * 1000` and `int(start * 1000)`, which can differ by one millisecond, is not captured. Confidences are `real` values that are only passed through.
- LiveTranscribe.ReplyOutcome: whether an object's segments can be shifted is part of what `json.loads` returns (`JsonShape.Object`), not computed from the JSON text. A json-mode frame is the stripped text plus a record of what is added (sample count, buffer size, shift). It is not the re-serialised JSON string; `processing_timestamp` (from `time.time`) and `json.dumps` are left out.
- Foreign libraries enter as parameters, and are not modelled beyond that:
  - the HuggingFace pipeline and its construction;
  - faster-whisper's `WhisperModel`;
  - WhisperX `load_model`, `transcribe`, `load_align_model`, `align`, `assign_word_speakers` and `DiarizationPipeline`;
  - `pad_or_trim` and `log_mel_spectrogram`, folded into the model's `detectLanguage`;
  - `load_audio`, `json.loads` and `json.dumps`, `urllib.parse.quote`, the tokenizer's language table;
  - the writer classes of app/output and of WhisperX;
  - `torch.cuda.is_available` and `os.path.expanduser`.
- FasterWhisperEngine.FasterWhisperASR.Transcribe: an exception raised inside the model or a writer is not modelled, and neither is one in `WhisperXEngine.WhisperXASR.Transcribe`'s aligner or diarizer. They propagate unchanged to the service, whose engine parameter may raise.
- FasterWhisperEngine.CollectSegments: the faster-whisper segment generator is lazy; the model treats it as the finished sequence it yields.
- NbAiLabCore: the module-level settings and device choice (core.py:14-27) and all logging are left out. The pipeline build is the `construct` parameter.
- NbAiLabCore.WriteResult: the `str(segment)` branches for non-dict segments are not modelled, because `transcribe` only ever passes dict segments. A chunk `text` that is present but not a string is not modelled either.
- Config: the message printed when WhisperX runs without an HF token (config.py:17-18) is left out.
- Config.IntSetting: the ValueError text quotes the string without Python's `repr` escaping. `int()`'s acceptance of non-ASCII Unicode digits is not modelled.
- Common.LowerChar lowers ASCII and Latin-1 capitals only. For the boolean settings this is exact, since no other character lowers into `true`. For the Norwegian keyword test, other scripts' capitals are left as they are.
- app/webservice.py (routing, Swagger, static files), demo_live_transcribe.py and the tests are not modelled. app/exceptions/asr_exceptions.py appears only as the exception kinds. Registering the error handlers with the application is not shown in the code and is not modelled.
