/** The live-transcription WebSocket handler. One connection is a receive loop over binary
    chunks: each chunk is appended to `audio_buffer`; once at least `CHUNK_SIZE` bytes beyond
    `last_processed_position` have accumulated, the whole buffer is decoded, gated for silence,
    handed to the engine, and the outcome is sent as one text frame; then the buffer is
    cleared, cut to its last `OVERLAP_SIZE` bytes, or kept with the position moved to its end.

    The connection is modelled by its inputs and outputs: the chunks the client sends (the end
    of the sequence is the client disconnecting), the frames the handler sends, and the engine
    calls it makes. The engine and `json.loads` are parameters. */
module LiveTranscribe {
  import opened Common
  import opened PcmAudio
  import opened AsrModel

  /** The handler's own sample rate; it does not read the configured `SAMPLE_RATE`. */
  const SampleRate: nat := 16000

  /** numpy's message for a buffer of odd length given to `np.frombuffer(.., np.int16)`. */
  const OddBufferMessage: string := "buffer size must be a multiple of element size"

  /** numpy's message for `audio_np.min()` on an empty array. */
  const EmptyBufferMessage: string := "zero-size array to reduction operation minimum which has no identity"

  /** Prefix of the `TranscriptionError` the handler raises when the engine call fails. */
  const FailurePrefix: string := "Transcription failed: "

  /** The `LIVE_*` settings: `CHUNK_SIZE` and `OVERLAP_SIZE` as read at construction, the
      others as configured. Sizes are whatever `int()` produced, so they may be zero or
      negative. */
  datatype LiveSettings = LiveSettings(
    chunkSize: int,
    overlapSize: int,
    overlapChunks: bool,
    vadFilter: bool,
    wordTimestamps: bool,
    outputFormat: string)

  /** What the engine's `transcribe` did: raised, returned `None` or an object without
      `getvalue`, or returned a text file with these contents. */
  datatype EngineReply = Raised(message: string) | NoFile | File(contents: string)

  /** What `json.loads` made of a payload: not JSON, a JSON object, or another JSON value
      (whose item assignment raises a `TypeError` with this message). For an object,
      `shiftError` is the exception that moving its segments' `start` and `end` forward
      raises (a `segments` entry that is not a list of dicts, or a time that is not a
      number), and `None` when the shift goes through. */
  datatype JsonShape = Malformed | Object(shiftError: Option<string>) | NonObject(typeError: string)

  /** Fields added to a JSON payload: `chunk_duration` is `sampleCount / 16000` seconds,
      `buffer_size` is `bufferSize`; when `shiftBytes` is present every segment's `start` and
      `end` are moved forward by `shiftBytes / 32000` seconds. `processing_timestamp` is the
      wall clock and is not modelled. */
  datatype Annotation = Annotation(sampleCount: nat, bufferSize: nat, shiftBytes: Option<nat>)

  /** A text frame sent to the client. */
  datatype Frame =
    | Buffering
    | Silence
    | NoSpeech
    | Transcript(text: string, annotation: Option<Annotation>)
    | Error(detail: string)

  /** The exact text of a status frame. */
  function StatusText(f: Frame): (t: string)
    requires !f.Transcript?
    ensures |t| > 0 && t[0] == '['
    ensures f.Error? ==> StartsWith(t, "[ERROR] ")
  {
    match f
    case Buffering => "[BUFFERING]"
    case Silence => "[SILENCE]"
    case NoSpeech => "[NO_SPEECH]"
    case Error(d) => "[ERROR] " + d
  }

  /** Everything one connection's behaviour depends on besides the chunks. */
  datatype Context = Context(
    settings: LiveSettings,
    engine: TranscribeRequest -> EngineReply,
    parseJson: string -> JsonShape,
    language: Option<string>)

  /** `_get_initial_prompt`: a prompt per known language, a neutral one otherwise. The handler
      never passes it on (it sends `initial_prompt=None`). */
  function InitialPrompt(language: Option<string>): (p: string)
    ensures (OrElse(language, "") in {"en", "sv", "da", "no"}) <==> p != NeutralPrompt
  {
    var prompts := map[
      "en" := "This is English speech. Transcribe accurately what is said.",
      "sv" := "Detta är svenska tal. Transkribera exakt vad som sägs.",
      "da" := "Dette er dansk tale. Transkriber nøjagtigt det der siges.",
      "no" := "Dette er norsk radio eller podcast. Transkriber nøyaktig det som sies, inkludert navn, stedsnavn og tekniske termer."];
    var key := OrElse(language, "");
    if key in prompts then prompts[key] else NeutralPrompt
  }

  const NeutralPrompt: string := "Transcribe accurately what is said."

  /** The one engine call of a processing cycle. */
  function LiveRequest(samples: seq<int>, ctx: Context): TranscribeRequest
  {
    TranscribeRequest(samples, Some("transcribe"), ctx.language, None,
                      ctx.settings.vadFilter, ctx.settings.wordTimestamps, None,
                      Some(ctx.settings.outputFormat))
  }

  /** The result of `_process_audio_chunk`: it sent one frame, or it raised this message.
      `call` is the engine call it made, if any. */
  datatype Processed =
    | Sent(frame: Frame, call: Option<TranscribeRequest>)
    | Failed(message: string, call: Option<TranscribeRequest>)

  /** `_process_audio_chunk` on the whole buffer. Without an engine call it either raised
      on a buffer numpy cannot decode, or found silence. */
  function ChunkOutcome(buffer: seq<byte>, position: nat, ctx: Context): (p: Processed)
    ensures p.call.None? && p.Failed? <==> |buffer| % 2 != 0 || |buffer| == 0
    ensures p.call.None? && p.Sent? ==> p.frame == Silence
    ensures p.call.Some? ==> p.call.value == LiveRequest(Samples(buffer), ctx)
  {
    if |buffer| % 2 != 0 then Failed(OddBufferMessage, None)
    else if |buffer| == 0 then Failed(EmptyBufferMessage, None)
    else
      var samples := Samples(buffer);
      if IsSilence(samples) then Sent(Silence, None)
      else
        var request := LiveRequest(samples, ctx);
        ReplyOutcome(ctx.engine(request), request, |buffer|, position, ctx)
  }

  /** How `_process_audio_chunk` maps the engine's reply to a frame or an exception: the
      call is always recorded, everything raised after it is a `TranscriptionError`, and a
      transcript frame carries the reply's stripped, non-blank text. */
  function ReplyOutcome(reply: EngineReply, request: TranscribeRequest, bufferSize: nat,
                        position: nat, ctx: Context): (p: Processed)
    ensures p.call == Some(request)
    ensures p.Failed? ==> StartsWith(p.message, FailurePrefix)
    ensures p.Sent? && p.frame.Transcript? ==>
              reply.File? && p.frame.text == Strip(reply.contents) && p.frame.text != ""
  {
    match reply
    case Raised(m) => Failed(FailurePrefix + m, Some(request))
    case NoFile => Sent(Error("Transcription failed."), Some(request))
    case File(contents) =>
      var text := Strip(contents);
      if text == "" then Sent(NoSpeech, Some(request))
      else if ctx.settings.outputFormat != "json" then Sent(Transcript(text, None), Some(request))
      else
        match ctx.parseJson(text)
        case Malformed => Sent(Transcript(text, None), Some(request))
        case NonObject(e) => Failed(FailurePrefix + e, Some(request))
        case Object(shiftError) =>
          var shifting := ctx.settings.overlapChunks && position > 0;
          if shifting && shiftError.Some? then Failed(FailurePrefix + shiftError.value, Some(request))
          else
            var shift := if shifting then Some(position) else None;
            Sent(Transcript(text, Some(Annotation(|request.audio|, bufferSize, shift))), Some(request))
  }

  /** Python's `s[-k:]`. */
  function PyTail<T>(s: seq<T>, k: int): (r: seq<T>)
    ensures |r| <= |s| && r == s[|s| - |r|..]
    ensures 0 < k <= |s| ==> |r| == k
    ensures k == 0 || k > |s| ==> r == s
  {
    if k > |s| then s
    else if k > 0 then s[|s| - k..]
    else if -k >= |s| then []
    else s[-k..]
  }

  /** The retention rule applied after a processing cycle that returned normally. */
  function Retain(buffer: seq<byte>, s: LiveSettings): (r: (seq<byte>, nat))
    ensures r.1 <= |r.0|
  {
    if !s.overlapChunks then ([], 0)
    else if |buffer| > s.overlapSize then (PyTail(buffer, s.overlapSize), 0)
    else (buffer, |buffer|)
  }

  /** The state of one connection and what it has produced so far. `fault` is the message of
      an exception that ended the receive loop. */
  datatype Session = Session(
    buffer: seq<byte>,
    position: nat,
    received: nat,
    sent: seq<Frame>,
    calls: seq<TranscribeRequest>,
    fault: Option<string>)

  /** `0 <= last_processed_position <= len(audio_buffer)` */
  predicate PositionInBuffer(st: Session)
  {
    st.position <= |st.buffer|
  }

  function Start(): Session
  {
    Session([], 0, 0, [], [], None)
  }

  function CallSeq(call: Option<TranscribeRequest>): seq<TranscribeRequest>
  {
    if call.Some? then [call.value] else []
  }

  /** One iteration of the receive loop; after a fault the loop has ended and nothing changes.
      Otherwise the chunk is counted, frames and calls are only appended to, the position
      stays within the buffer, and the chunk yields one frame unless it raised. */
  function Feed(st: Session, chunk: seq<byte>, ctx: Context): (next: Session)
    ensures st.fault.Some? ==> next == st
    ensures st.fault.None? ==>
              && next.received == st.received + 1
              && st.sent <= next.sent && st.calls <= next.calls
              && |next.calls| <= |st.calls| + 1
              && |next.sent| == |st.sent| + (if next.fault.None? then 1 else 0)
    ensures PositionInBuffer(st) ==> PositionInBuffer(next)
  {
    if st.fault.Some? then st
    else
      var buffer := st.buffer + chunk;
      if |buffer| - st.position >= ctx.settings.chunkSize then
        match ChunkOutcome(buffer, st.position, ctx)
        case Failed(m, call) =>
          Session(buffer, st.position, st.received + 1, st.sent, st.calls + CallSeq(call), Some(m))
        case Sent(f, call) =>
          var kept := Retain(buffer, ctx.settings);
          Session(kept.0, kept.1, st.received + 1, st.sent + [f], st.calls + CallSeq(call), None)
      else
        Session(buffer, st.position, st.received + 1, st.sent + [Buffering], st.calls, None)
  }

  /** The connection after the client has sent `chunks`: every chunk is received unless an
      exception ended the loop early. */
  function Run(chunks: seq<seq<byte>>, ctx: Context): (st: Session)
    ensures st.received <= |chunks|
    ensures st.fault.None? ==> st.received == |chunks|
  {
    if chunks == [] then Start()
    else Feed(Run(chunks[..|chunks| - 1], ctx), chunks[|chunks| - 1], ctx)
  }

  /** The frames of a finished connection: after a fault one `[ERROR]` frame follows, unless
      sending it failed (the client had gone), which is swallowed. */
  function Outbound(st: Session, errorDelivered: bool): seq<Frame>
  {
    if st.fault.Some? && errorDelivered then st.sent + [Error(st.fault.value)] else st.sent
  }

  class LiveTranscribeHandler {
    const asrModel: TranscribeRequest -> EngineReply
    const settings: LiveSettings
    var audioBuffer: seq<byte>
    var lastProcessedPosition: nat

    ghost predicate Valid()
      reads this
    {
      lastProcessedPosition <= |audioBuffer|
    }

    constructor (asrModel: TranscribeRequest -> EngineReply, settings: LiveSettings)
      ensures Valid()
      ensures this.asrModel == asrModel && this.settings == settings
      ensures audioBuffer == [] && lastProcessedPosition == 0
    {
      this.asrModel := asrModel;
      this.settings := settings;
      audioBuffer := [];
      lastProcessedPosition := 0;
    }

    function ContextFor(language: Option<string>, parseJson: string -> JsonShape): Context
      reads this
    {
      Context(settings, asrModel, parseJson, language)
    }

    /** `_process_audio_chunk`: decode the whole buffer, gate it, call the engine and map the
        outcome to a frame or an exception. It changes nothing. */
    method ProcessAudioChunk(language: Option<string>, parseJson: string -> JsonShape) returns (p: Processed)
      requires Valid()
      ensures p == ChunkOutcome(audioBuffer, lastProcessedPosition, ContextFor(language, parseJson))
    {
      if |audioBuffer| % 2 != 0 {
        return Failed(OddBufferMessage, None);
      }
      if |audioBuffer| == 0 {
        return Failed(EmptyBufferMessage, None);
      }
      var audio := Samples(audioBuffer);
      if IsSilence(audio) {
        return Sent(Silence, None);
      }
      var request := LiveRequest(audio, ContextFor(language, parseJson));
      var resultFile := asrModel(request);
      if resultFile.Raised? {
        return Failed(FailurePrefix + resultFile.message, Some(request));
      }
      if resultFile.NoFile? {
        return Sent(Error("Transcription failed."), Some(request));
      }
      var transcription := Strip(resultFile.contents);
      if transcription == "" {
        return Sent(NoSpeech, Some(request));
      }
      if settings.outputFormat != "json" {
        return Sent(Transcript(transcription, None), Some(request));
      }
      var parsed := parseJson(transcription);
      if parsed.Malformed? {
        p := Sent(Transcript(transcription, None), Some(request));
      } else if parsed.NonObject? {
        p := Failed(FailurePrefix + parsed.typeError, Some(request));
      } else {
        var shift: Option<nat> := None;
        if settings.overlapChunks && lastProcessedPosition > 0 {
          if parsed.shiftError.Some? {
            return Failed(FailurePrefix + parsed.shiftError.value, Some(request));
          }
          shift := Some(lastProcessedPosition);
        }
        p := Sent(Transcript(transcription, Some(Annotation(|audio|, |audioBuffer|, shift))), Some(request));
      }
    }

    /** `handle_connection`: reset the buffer, then receive chunks until the client
        disconnects (the end of `chunks`) or an exception ends the loop. */
    method HandleConnection(chunks: seq<seq<byte>>, language: Option<string>,
                            parseJson: string -> JsonShape, errorDelivered: bool)
      returns (sent: seq<Frame>, calls: seq<TranscribeRequest>)
      modifies this
      ensures Valid()
      ensures var st := Run(chunks, ContextFor(language, parseJson));
              && sent == Outbound(st, errorDelivered) && calls == st.calls
              && audioBuffer == st.buffer && lastProcessedPosition == st.position
    {
      audioBuffer := [];
      lastProcessedPosition := 0;
      ghost var ctx := ContextFor(language, parseJson);
      var chunkCount := 0;
      var fault: Option<string> := None;
      sent, calls := [], [];
      while chunkCount < |chunks| && fault.None?
        invariant 0 <= chunkCount <= |chunks|
        invariant Valid()
        invariant Run(chunks[..chunkCount], ctx)
                  == Session(audioBuffer, lastProcessedPosition, chunkCount, sent, calls, fault)
      {
        ghost var st := Session(audioBuffer, lastProcessedPosition, chunkCount, sent, calls, fault);
        var chunk := chunks[chunkCount];
        assert chunks[..chunkCount + 1][..chunkCount] == chunks[..chunkCount];
        assert Run(chunks[..chunkCount + 1], ctx) == Feed(st, chunk, ctx);
        chunkCount := chunkCount + 1;
        audioBuffer := audioBuffer + chunk;
        var newDataSize := |audioBuffer| - lastProcessedPosition;
        if newDataSize >= settings.chunkSize {
          var p := ProcessAudioChunk(language, parseJson);
          calls := calls + CallSeq(p.call);
          if p.Failed? {
            fault := Some(p.message);
          } else {
            sent := sent + [p.frame];
            if settings.overlapChunks {
              var keepSize := settings.overlapSize;
              if |audioBuffer| > keepSize {
                audioBuffer := PyTail(audioBuffer, keepSize);
                lastProcessedPosition := 0;
              } else {
                lastProcessedPosition := |audioBuffer|;
              }
            } else {
              audioBuffer := [];
              lastProcessedPosition := 0;
            }
          }
        } else {
          sent := sent + [Buffering];
        }
        assert Session(audioBuffer, lastProcessedPosition, chunkCount, sent, calls, fault) == Feed(st, chunk, ctx);
      }
      if chunkCount < |chunks| {
        RunAfterFault(chunks, chunkCount, ctx);
      } else {
        assert chunks[..chunkCount] == chunks;
      }
      if fault.Some? && errorDelivered {
        sent := sent + [Error(fault.value)];
      }
    }
  }

  // ---------------------------------------------------------------------------
  // Properties of the receive loop

  /** Once an exception has ended the loop, later chunks change nothing. */
  lemma {:induction false} RunAfterFault(chunks: seq<seq<byte>>, i: nat, ctx: Context)
    requires i <= |chunks|
    requires Run(chunks[..i], ctx).fault.Some?
    ensures Run(chunks, ctx) == Run(chunks[..i], ctx)
    decreases |chunks|
  {
    if i < |chunks| {
      var init := chunks[..|chunks| - 1];
      assert init[..i] == chunks[..i];
      RunAfterFault(init, i, ctx);
    } else {
      assert chunks[..i] == chunks;
    }
  }

  /** A sub-threshold chunk is appended to the end of the buffer, exactly `[BUFFERING]` is
      sent, and nothing else changes. */
  lemma FeedBuffering(st: Session, chunk: seq<byte>, ctx: Context)
    requires st.fault.None?
    requires |st.buffer + chunk| - st.position < ctx.settings.chunkSize
    ensures Feed(st, chunk, ctx)
            == st.(buffer := st.buffer + chunk, received := st.received + 1, sent := st.sent + [Buffering])
  {
  }

  /** Processing runs exactly when the new bytes reach the threshold; it sees the whole
      buffer with the chunk appended, and what it sends is never `[BUFFERING]`. */
  lemma FeedProcessesIffThreshold(st: Session, chunk: seq<byte>, ctx: Context)
    requires st.fault.None?
    ensures var next := Feed(st, chunk, ctx);
            var ready := |st.buffer| + |chunk| - st.position >= ctx.settings.chunkSize;
            var p := ChunkOutcome(st.buffer + chunk, st.position, ctx);
            && next.received == st.received + 1
            && (!ready ==> next.calls == st.calls && next.sent == st.sent + [Buffering])
            && (ready ==> next.calls == st.calls + CallSeq(p.call))
            && (ready && p.Sent? ==> next.sent == st.sent + [p.frame] && p.frame != Buffering
                                     && (next.buffer, next.position) == Retain(st.buffer + chunk, ctx.settings))
            && (ready && p.Failed? ==> next.sent == st.sent && next.fault == Some(p.message))
  {
  }

  /** A processing cycle that raised skips the retention rule: the buffer keeps the chunk and
      the position stays. */
  lemma FeedFailureKeepsBuffer(st: Session, chunk: seq<byte>, ctx: Context)
    requires st.fault.None?
    requires |st.buffer + chunk| - st.position >= ctx.settings.chunkSize
    requires ChunkOutcome(st.buffer + chunk, st.position, ctx).Failed?
    ensures var next := Feed(st, chunk, ctx);
            next.buffer == st.buffer + chunk && next.position == st.position
            && next.sent == st.sent && next.fault.Some?
  {
  }

  /** The three retention rules. */
  lemma RetentionRules(buffer: seq<byte>, s: LiveSettings)
    ensures !s.overlapChunks ==> Retain(buffer, s) == ([], 0)
    ensures s.overlapChunks && 0 < s.overlapSize < |buffer|
            ==> Retain(buffer, s) == (buffer[|buffer| - s.overlapSize..], 0)
                && |Retain(buffer, s).0| == s.overlapSize
    ensures s.overlapChunks && |buffer| <= s.overlapSize ==> Retain(buffer, s) == (buffer, |buffer|)
  {
  }

  /** With an overlap size of zero, `buffer[-0:]` is the whole buffer: the rule keeps all of
      it (with the position at 0), so the buffer never shrinks. */
  lemma ZeroOverlapKeepsWholeBuffer(buffer: seq<byte>, s: LiveSettings)
    requires s.overlapChunks && s.overlapSize == 0 && |buffer| > 0
    ensures Retain(buffer, s) == (buffer, 0)
  {
  }

  /** `0 <= last_processed_position <= len(audio_buffer)` after every chunk. */
  lemma {:induction false} RunKeepsPositionInBuffer(chunks: seq<seq<byte>>, ctx: Context)
    ensures PositionInBuffer(Run(chunks, ctx))
    decreases |chunks|
  {
    if chunks != [] {
      RunKeepsPositionInBuffer(chunks[..|chunks| - 1], ctx);
    }
  }

  /** Until a fault, every received chunk produces exactly one frame and at most one engine
      call; the chunk that faults produces none (its `[ERROR]` frame comes at the end). */
  lemma {:induction false} RunFramesPerChunk(chunks: seq<seq<byte>>, ctx: Context)
    ensures var st := Run(chunks, ctx);
            && st.received <= |chunks|
            && |st.calls| <= st.received
            && (st.fault.None? ==> st.received == |chunks| && |st.sent| == st.received)
            && (st.fault.Some? ==> st.received > 0 && |st.sent| == st.received - 1)
    decreases |chunks|
  {
    if chunks != [] {
      RunFramesPerChunk(chunks[..|chunks| - 1], ctx);
    }
  }

  /** The engine is called only on a non-silent, decodable buffer, exactly once, with task
      `"transcribe"`, the session language, no prompt, no options and the `LIVE_*` settings. */
  lemma EngineCallArguments(buffer: seq<byte>, position: nat, ctx: Context)
    ensures var p := ChunkOutcome(buffer, position, ctx);
            && (p.call.Some? <==> |buffer| % 2 == 0 && |buffer| > 0 && !IsSilence(Samples(buffer)))
            && (p.call.Some? ==>
                  var r := p.call.value;
                  && r.audio == Samples(buffer) && |r.audio| == |buffer| / 2
                  && r.task == Some("transcribe") && r.language == ctx.language
                  && r.initialPrompt.None? && r.options.None?
                  && r.vadFilter == ctx.settings.vadFilter
                  && r.wordTimestamps == ctx.settings.wordTimestamps
                  && r.output == Some(ctx.settings.outputFormat))
  {
  }

  /** A decodable, non-empty buffer of quiet samples gives exactly `[SILENCE]` and no call. */
  lemma SilenceSkipsEngine(buffer: seq<byte>, position: nat, ctx: Context)
    requires |buffer| % 2 == 0 && |buffer| > 0
    requires forall i :: 0 <= i < |buffer| / 2 ==> Quiet(Samples(buffer)[i])
    ensures ChunkOutcome(buffer, position, ctx) == Sent(Silence, None)
  {
    SilenceIffAllQuiet(Samples(buffer));
  }

  /** How the engine's reply becomes a frame: an exception is re-raised with the
      `"Transcription failed: "` prefix, a missing file gives `[ERROR] Transcription failed.`,
      blank text gives `[NO_SPEECH]`; the call is always recorded. */
  lemma OutcomeMapping(reply: EngineReply, request: TranscribeRequest, bufferSize: nat, position: nat, ctx: Context)
    ensures var p := ReplyOutcome(reply, request, bufferSize, position, ctx);
            && p.call == Some(request)
            && (reply.Raised? ==> p.Failed? && p.message == FailurePrefix + reply.message)
            && (reply.NoFile? ==> p.Sent? && StatusText(p.frame) == "[ERROR] Transcription failed.")
            && (reply.File? ==> (p == Sent(NoSpeech, Some(request)) <==> AllSpace(reply.contents)))
  {
    match reply
    case Raised(m) =>
      assert ReplyOutcome(reply, request, bufferSize, position, ctx) == Failed(FailurePrefix + m, Some(request));
    case NoFile =>
      assert ReplyOutcome(reply, request, bufferSize, position, ctx) == Sent(Error("Transcription failed."), Some(request));
      MissingFileText();
    case File(contents) => NoSpeechIffBlank(contents, request, bufferSize, position, ctx);
  }

  lemma MissingFileText()
    ensures StatusText(Error("Transcription failed.")) == "[ERROR] Transcription failed."
  {
  }

  lemma NoSpeechIffBlank(contents: string, request: TranscribeRequest, bufferSize: nat, position: nat, ctx: Context)
    ensures ReplyOutcome(File(contents), request, bufferSize, position, ctx) == Sent(NoSpeech, Some(request))
            <==> AllSpace(contents)
  {
    StripEmptyIffAllSpace(contents);
    var p := ReplyOutcome(File(contents), request, bufferSize, position, ctx);
    if Strip(contents) != "" {
      assert p.Failed? || p.frame.Transcript?;
    }
  }

  /** Non-blank text is sent stripped. In json mode, when it parses to an object, it is
      annotated with the sample count and the buffer size, and its segments are shifted
      exactly when overlap is on and the position is past 0; a shift that raises becomes a
      `TranscriptionError`, and a shift that does not run cannot raise. */
  lemma TranscriptMapping(contents: string, request: TranscribeRequest, bufferSize: nat, position: nat, ctx: Context)
    requires !AllSpace(contents)
    ensures var p := ReplyOutcome(File(contents), request, bufferSize, position, ctx);
            var text := Strip(contents);
            && (ctx.settings.outputFormat != "json" ==> p == Sent(Transcript(text, None), Some(request)))
            && (ctx.settings.outputFormat == "json" && ctx.parseJson(text).Object? ==>
                  var shifting := ctx.settings.overlapChunks && position > 0;
                  var shiftError := ctx.parseJson(text).shiftError;
                  && (shifting && shiftError.Some? ==>
                        p == Failed(FailurePrefix + shiftError.value, Some(request)))
                  && (!shifting || shiftError.None? ==>
                        p == Sent(Transcript(text, Some(Annotation(|request.audio|, bufferSize,
                                            if shifting then Some(position) else None))), Some(request))))
            && (ctx.settings.outputFormat == "json" && ctx.parseJson(text) == Malformed ==>
                  p == Sent(Transcript(text, None), Some(request)))
  {
    StripEmptyIffAllSpace(contents);
  }

  /** Buffers that cannot be decoded raise before the engine is reached. */
  lemma DecodeFailures(buffer: seq<byte>, position: nat, ctx: Context)
    ensures |buffer| % 2 != 0 ==> ChunkOutcome(buffer, position, ctx) == Failed(OddBufferMessage, None)
    ensures buffer == [] ==> ChunkOutcome(buffer, position, ctx) == Failed(EmptyBufferMessage, None)
  {
  }

  // ---------------------------------------------------------------------------
  // Scenarios

  /** Four 20000-byte chunks, threshold 64000, overlap off: the first three chunks each get
      `[BUFFERING]`; the fourth (80000 bytes in all) is processed, after which the buffer is
      empty unless the cycle raised. */
  lemma FourChunksScenario(c1: seq<byte>, c2: seq<byte>, c3: seq<byte>, c4: seq<byte>, ctx: Context)
    requires |c1| == |c2| == |c3| == |c4| == 20000
    requires ctx.settings.chunkSize == 64000 && !ctx.settings.overlapChunks
    ensures var st := Run([c1, c2, c3, c4], ctx);
            && |st.sent| >= 3 && st.sent[..3] == [Buffering, Buffering, Buffering]
            && (st.fault.None? ==> |st.sent| == 4 && st.buffer == [] && st.position == 0)
            && (st.fault.Some? ==> st.buffer == c1 + c2 + c3 + c4)
  {
    var cs := [c1, c2, c3, c4];
    assert cs[..3] == [c1, c2, c3] && [c1, c2, c3][..2] == [c1, c2];
    assert [c1, c2][..1] == [c1] && [c1][..0] == [];
    assert [] + c1 == c1;
    assert Run([c1][..0], ctx) == Start();
    var s1 := Run([c1], ctx);
    assert s1 == Feed(Start(), c1, ctx);
    BufferingStep(Start(), c1, ctx);
    var s2 := Run([c1, c2], ctx);
    assert s2 == Feed(s1, c2, ctx);
    BufferingStep(s1, c2, ctx);
    var s3 := Run([c1, c2, c3], ctx);
    assert s3 == Feed(s2, c3, ctx);
    BufferingStep(s2, c3, ctx);
    assert s3 == Session(c1 + c2 + c3, 0, 3, [Buffering, Buffering, Buffering], [], None);
    var s4 := Run(cs, ctx);
    assert s4 == Feed(s3, c4, ctx);
    FeedProcessesIffThreshold(s3, c4, ctx);
    assert c1 + c2 + c3 + c4 == s3.buffer + c4;
    if s4.fault.Some? {
      FeedFailureKeepsBuffer(s3, c4, ctx);
    }
  }

  /** A chunk that leaves the buffer short of the threshold is answered with `[BUFFERING]`. */
  lemma BufferingStep(st: Session, chunk: seq<byte>, ctx: Context)
    requires st.fault.None?
    requires |st.buffer| + |chunk| - st.position < ctx.settings.chunkSize
    ensures Feed(st, chunk, ctx)
            == Session(st.buffer + chunk, st.position, st.received + 1, st.sent + [Buffering], st.calls, None)
  {
  }

  /** A single all-zero chunk that reaches the threshold gives exactly `[SILENCE]` and no
      engine call. */
  lemma SilentChunkScenario(c: seq<byte>, ctx: Context)
    requires |c| == 64000 && forall i :: 0 <= i < |c| ==> c[i] == 0
    requires ctx.settings.chunkSize <= 64000
    ensures Run([c], ctx).sent == [Silence] && Run([c], ctx).calls == []
  {
    assert [c][..0] == [];
    assert [] + c == c;
    forall i | 0 <= i < |c| / 2 ensures Quiet(Samples(c)[i]) {
      assert c[2 * i] == 0 && c[2 * i + 1] == 0;
    }
    SilenceSkipsEngine(c, 0, ctx);
  }

  /** With overlap on and 16000 bytes of overlap, a 64000-byte buffer keeps exactly its last
      16000 bytes. */
  lemma OverlapScenario(buffer: seq<byte>, s: LiveSettings)
    requires s.overlapChunks && s.overlapSize == 16000 && |buffer| == 64000
    ensures Retain(buffer, s) == (buffer[48000..], 0)
  {
  }
}
