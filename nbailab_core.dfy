/** The NbAiLab Whisper engine: a lazily built HuggingFace speech-recognition pipeline, the
    conversion of its result into a Whisper-style `{"text", "segments"}` record, the keyword
    language guess and the txt/json/srt/vtt/tsv writers. Times are integer milliseconds. */
module NbAiLabCore {
  import opened Common
  import opened AsrExceptions

  /** A time in milliseconds, or Python's `None` where the pipeline gave no time. */
  type Stamp = Option<nat>

  /** The `timestamp` entry of a pipeline chunk: missing, a `list`, or anything else (the
      pipeline itself gives tuples, which fall here). */
  datatype TimestampField = Missing | AsList(items: seq<Stamp>) | NotAList

  /** A chunk: a dict whose `text` entry may be missing, or a value of another type, known by
      its `str()`. */
  datatype PipelineChunk = DictChunk(text: Option<string>, timestamp: TimestampField) | OtherChunk(repr: string)

  /** The `chunks` entry of a dict result: missing, a `list`, or anything else. */
  datatype ChunksField = NoChunks | ChunkList(chunks: seq<PipelineChunk>) | ChunksNotAList

  datatype PipelineResult = DictResult(text: Option<string>, chunks: ChunksField) | OtherResult(repr: string)

  /** The one keyword argument the pipeline receives: `return_timestamps="word"` or `True`. */
  datatype ReturnTimestamps = WordLevel | SegmentLevel

  datatype PipelineReply = Returned(result: PipelineResult) | PipelineRaised(error: PyException)

  /** The HuggingFace pipeline, a foreign function of the audio and `return_timestamps`. */
  type Pipeline = (seq<int>, ReturnTimestamps) -> PipelineReply

  datatype Segment = Segment(text: string, start: Stamp, end: Stamp)

  datatype WhisperResult = WhisperResult(text: string, segments: seq<Segment>)

  /** What `write_result` leaves behind: the text written to the file and its return value. */
  datatype Written = Written(content: string, returned: Option<string>)

  const ModelFailedToLoad := Other("RuntimeError", "Model failed to load")
  const IndexOutOfRange := Other("IndexError", "list index out of range")
  const SelectOutputMessage := "Please select an output method!"

  /** The `TypeError` Python raises when `None` meets an arithmetic operator. */
  function NoneOperand(op: string): PyException
  {
    Other("TypeError", "unsupported operand type(s) for " + op + ": 'NoneType' and 'int'")
  }

  function TimestampsArgument(wordTimestamps: bool): ReturnTimestamps
  {
    if wordTimestamps then WordLevel else SegmentLevel
  }

  // ---------------------------------------------------------------------------
  // Pipeline result to Whisper result

  function TextOf(text: Option<string>): string
  {
    if text.Some? then text.value else ""
  }

  /** The segment one chunk becomes; a timestamp list shorter than two items fails on its
      indexing. */
  function SegmentOf(chunk: PipelineChunk): (r: Result<Segment, PyException>)
    ensures r.Err? <==> chunk.DictChunk? && chunk.timestamp.AsList? && |chunk.timestamp.items| < 2
    ensures r.Err? ==> r.error == IndexOutOfRange
    ensures r.Ok? ==> r.value.text == if chunk.DictChunk? then TextOf(chunk.text) else chunk.repr
    ensures r.Ok? && chunk.DictChunk? && chunk.timestamp.AsList? ==>
              r.value.start == chunk.timestamp.items[0] && r.value.end == chunk.timestamp.items[1]
    ensures r.Ok? && !(chunk.DictChunk? && chunk.timestamp.AsList?) ==> r.value.start == r.value.end == Some(0)
  {
    match chunk
    case OtherChunk(repr) => Ok(Segment(repr, Some(0), Some(0)))
    case DictChunk(text, AsList(items)) =>
      if |items| < 2 then Err(IndexOutOfRange) else Ok(Segment(TextOf(text), items[0], items[1]))
    case DictChunk(text, _) => Ok(Segment(TextOf(text), Some(0), Some(0)))
  }

  /** The chunks converted in order; the first failing chunk ends the conversion. */
  function SegmentsOf(chunks: seq<PipelineChunk>): Result<seq<Segment>, PyException>
  {
    if chunks == [] then Ok([])
    else
      var front := SegmentsOf(chunks[..|chunks| - 1]);
      var last := SegmentOf(chunks[|chunks| - 1]);
      if front.Err? then front
      else if last.Err? then Err(last.error)
      else Ok(front.value + [last.value])
  }

  /** Conversion succeeds exactly when every chunk converts, and then gives one segment per
      chunk, in order. */
  lemma {:induction false} SegmentsOfShape(chunks: seq<PipelineChunk>)
    ensures SegmentsOf(chunks).Ok? <==> forall i :: 0 <= i < |chunks| ==> SegmentOf(chunks[i]).Ok?
    ensures SegmentsOf(chunks).Ok? ==>
              && |SegmentsOf(chunks).value| == |chunks|
              && forall i :: 0 <= i < |chunks| ==> SegmentsOf(chunks).value[i] == SegmentOf(chunks[i]).value
    ensures SegmentsOf(chunks).Err? ==> SegmentsOf(chunks).error == IndexOutOfRange
  {
    if chunks != [] {
      var front := chunks[..|chunks| - 1];
      SegmentsOfShape(front);
      assert forall i :: 0 <= i < |front| ==> front[i] == chunks[i];
    }
  }

  /** The loop of `transcribe` that turns a chunk list into segments. */
  method ChunksToSegments(chunks: seq<PipelineChunk>) returns (r: Result<seq<Segment>, PyException>)
    ensures r == SegmentsOf(chunks)
  {
    var segments: seq<Segment> := [];
    var k := 0;
    while k < |chunks|
      invariant 0 <= k <= |chunks|
      invariant SegmentsOf(chunks[..k]) == Ok(segments)
    {
      var chunk := chunks[k];
      assert chunks[..k + 1][..k] == chunks[..k];
      match chunk {
        case OtherChunk(repr) =>
          segments := segments + [Segment(repr, Some(0), Some(0))];
        case DictChunk(text, timestamp) =>
          if timestamp.AsList? {
            var items := timestamp.items;
            if |items| < 2 {
              assert SegmentsOf(chunks[..k + 1]).Err?;
              FailureKeepsFailing(chunks, k + 1);
              return Err(IndexOutOfRange);
            }
            segments := segments + [Segment(TextOf(text), items[0], items[1])];
          } else {
            segments := segments + [Segment(TextOf(text), Some(0), Some(0))];
          }
      }
      k := k + 1;
    }
    assert chunks[..k] == chunks;
    return Ok(segments);
  }

  /** Once a prefix fails to convert, the whole list fails with the same error. */
  lemma {:induction false} FailureKeepsFailing(chunks: seq<PipelineChunk>, n: nat)
    requires n <= |chunks| && SegmentsOf(chunks[..n]).Err?
    ensures SegmentsOf(chunks) == SegmentsOf(chunks[..n])
    decreases |chunks| - n
  {
    if n == |chunks| {
      assert chunks[..n] == chunks;
    } else {
      assert chunks[..n + 1][..n] == chunks[..n];
      FailureKeepsFailing(chunks, n + 1);
    }
  }

  /** The record `transcribe` hands to `write_result`: the result's text, and the segments
      from its chunk list, or one segment spanning 0 to 0 holding the whole text. */
  function WhisperResultOf(result: PipelineResult): (r: Result<WhisperResult, PyException>)
    ensures r.Err? <==> result.DictResult? && result.chunks.ChunkList? && SegmentsOf(result.chunks.chunks).Err?
    ensures r.Ok? ==> r.value.text == if result.DictResult? then TextOf(result.text) else ""
    ensures r.Ok? && result.DictResult? && result.chunks.ChunkList? ==>
              r.value.segments == SegmentsOf(result.chunks.chunks).value
    ensures r.Ok? && !(result.DictResult? && result.chunks.ChunkList?) ==>
              r.value.segments == [Segment(r.value.text, Some(0), Some(0))]
  {
    match result
    case OtherResult(_) => Ok(WhisperResult("", [Segment("", Some(0), Some(0))]))
    case DictResult(text, ChunkList(chunks)) =>
      var segments := SegmentsOf(chunks);
      if segments.Err? then Err(segments.error) else Ok(WhisperResult(TextOf(text), segments.value))
    case DictResult(text, _) => Ok(WhisperResult(TextOf(text), [Segment(TextOf(text), Some(0), Some(0))]))
  }

  /** The fallback cases give exactly one segment from 0 to 0 holding the top-level text, and
      chunks whose timestamp is not a list (the pipeline's tuples) start and end at 0. */
  lemma WhisperResultCases(result: PipelineResult)
    ensures result.OtherResult? ==> WhisperResultOf(result) == Ok(WhisperResult("", [Segment("", Some(0), Some(0))]))
    ensures result.DictResult? && !result.chunks.ChunkList? ==>
              WhisperResultOf(result) == Ok(WhisperResult(TextOf(result.text), [Segment(TextOf(result.text), Some(0), Some(0))]))
    ensures (&& result.DictResult? && result.chunks.ChunkList?
             && forall i :: 0 <= i < |result.chunks.chunks| ==>
                  result.chunks.chunks[i].DictChunk? && !result.chunks.chunks[i].timestamp.AsList?)
            ==> && WhisperResultOf(result).Ok?
                  && |WhisperResultOf(result).value.segments| == |result.chunks.chunks|
                  && forall i :: 0 <= i < |result.chunks.chunks| ==>
                       WhisperResultOf(result).value.segments[i]
                       == Segment(TextOf(result.chunks.chunks[i].text), Some(0), Some(0))
  {
    if result.DictResult? && result.chunks.ChunkList? {
      SegmentsOfShape(result.chunks.chunks);
    }
  }

  // ---------------------------------------------------------------------------
  // Language guess

  const NorwegianWords: seq<string> := ["er", "og", "i", "til", "av", "p\U{e5}", "som", "det", "at", "en", "et"]

  /** Python's `any(word in text for word in words)`. */
  function AnyOccurs(words: seq<string>, text: string): (b: bool)
    ensures b <==> exists k :: 0 <= k < |words| && Contains(text, words[k])
  {
    if words == [] then false
    else
      assert forall k :: 1 <= k < |words| ==> words[1..][k - 1] == words[k];
      Contains(text, words[0]) || AnyOccurs(words[1..], text)
  }

  /** The keyword guess on a transcription: Norwegian with 0.9 when a listed word occurs in
      the lower-cased text, otherwise English with 0.7. */
  function GuessLanguage(text: string): (guess: (string, real))
    ensures guess == ("no", 0.9) || guess == ("en", 0.7)
    ensures guess.0 == "no" <==> exists k :: 0 <= k < |NorwegianWords| && Contains(Lower(text), NorwegianWords[k])
  {
    if AnyOccurs(NorwegianWords, Lower(text)) then ("no", 0.9) else ("en", 0.7)
  }

  /** The outcome of the pipeline call `language_detection` makes: the guess on the result's
      text (the `str()` of a non-dict result), or Norwegian with 0.8 when the call raised. */
  function DetectionOutcome(reply: PipelineReply): (string, real)
  {
    match reply
    case PipelineRaised(_) => ("no", 0.8)
    case Returned(DictResult(text, _)) => GuessLanguage(TextOf(text))
    case Returned(OtherResult(repr)) => GuessLanguage(repr)
  }

  /** The guess is Norwegian exactly when some listed word occurs in the lower-cased text,
      and English otherwise. */
  lemma GuessLanguageCases(text: string)
    ensures (GuessLanguage(text) == ("no", 0.9))
              == exists k :: 0 <= k < |NorwegianWords| && Contains(Lower(text), NorwegianWords[k])
    ensures GuessLanguage(text) != ("no", 0.9) ==> GuessLanguage(text) == ("en", 0.7)
  {
  }

  /** Occurrence is a substring test, not a word test: any text holding an `i` or an `I`
      (the one-letter word of the list) is guessed Norwegian. */
  lemma LetterIMeansNorwegian(text: string, j: nat)
    requires j < |text| && (text[j] == 'i' || text[j] == 'I')
    ensures GuessLanguage(text) == ("no", 0.9)
  {
    var t := Lower(text);
    assert t[j] == 'i';
    assert t[j..j + 1] == NorwegianWords[2];
    assert OccursAt(NorwegianWords[2], t, j);
    assert Contains(t, NorwegianWords[2]);
  }

  // ---------------------------------------------------------------------------
  // Writers

  /** What the first `n` of a sequence of `print` calls leave in the file: each record
      followed by a newline. */
  function PrintedUpTo(records: seq<string>, n: nat): string
    requires n <= |records|
  {
    if n == 0 then "" else PrintedUpTo(records, n - 1) + records[n - 1] + "\n"
  }

  function Printed(records: seq<string>): string
  {
    PrintedUpTo(records, |records|)
  }

  predicate HasTimes(s: Segment)
  {
    s.start.Some? && s.end.Some?
  }

  /** Every segment carries a start and an end time. */
  predicate Timed(segments: seq<Segment>)
  {
    forall i :: 0 <= i < |segments| ==> HasTimes(segments[i])
  }

  /** The first `n` segments carry their times, checked one after another. */
  predicate TimedUpTo(segments: seq<Segment>, n: nat)
    requires n <= |segments|
  {
    n == 0 || (TimedUpTo(segments, n - 1) && HasTimes(segments[n - 1]))
  }

  lemma {:induction false} TimedUpToAll(segments: seq<Segment>, n: nat)
    requires n <= |segments|
    ensures TimedUpTo(segments, n) <==> forall i :: 0 <= i < n ==> HasTimes(segments[i])
  {
    if n > 0 {
      TimedUpToAll(segments, n - 1);
    }
  }

  /** The time of a stamp; the writers use it only once every segment is known to be
      timed. */
  function Time(st: Stamp): nat
  {
    if st.Some? then st.value else 0
  }

  /** `HH:MM:SS<sep>mmm` for a time `t` in milliseconds; the hour field grows past two digits
      when it has to. */
  function Clock(t: nat, sep: char): string
  {
    ZeroPad(t / 3600000, 2) + ":" + ZeroPad(t % 3600000 / 60000, 2) + ":" + ZeroPad(t % 60000 / 1000, 2)
    + [sep] + ZeroPad(t % 1000, 3)
  }

  /** The lines of the txt output: each segment's stripped text. */
  function TxtRecords(segments: seq<Segment>): (r: seq<string>)
  {
    seq(|segments|, i requires 0 <= i < |segments| => Strip(segments[i].text))
  }

  /** The records of a writer that numbers or times its segments: `record` receives each
      segment with its position counted from 1. */
  function TimedRecords(segments: seq<Segment>, record: (nat, Segment) -> string): seq<string>
  {
    seq(|segments|, i requires 0 <= i < |segments| => record(i + 1, segments[i]))
  }

  /** The srt block of the `n`-th segment. */
  function SrtBlock(n: nat, s: Segment): string
  {
    NatToString(n) + "\n" + Clock(Time(s.start), ',') + " --> " + Clock(Time(s.end), ',') + "\n" + Strip(s.text) + "\n"
  }

  /** A vtt cue; cues carry no number, so the position goes unused. */
  function VttCue(n: nat, s: Segment): string
  {
    Clock(Time(s.start), '.') + " --> " + Clock(Time(s.end), '.') + "\n" + Strip(s.text) + "\n"
  }

  /** A tsv row, in milliseconds; rows carry no number either. */
  function TsvRow(n: nat, s: Segment): string
  {
    NatToString(Time(s.start)) + "\t" + NatToString(Time(s.end)) + "\t" + Strip(s.text)
  }

  const VttHeader := "WEBVTT\n"
  const TsvHeader := "start\tend\ttext"

  /** What `write_result` does for each output format. A segment without a time makes the
      srt/vtt (`//`) and tsv (`*`) arithmetic raise; an unknown format writes nothing. */
  function Render(result: WhisperResult, output: Option<string>, dumpJson: WhisperResult -> string)
    : (w: Result<Written, PyException>)
    ensures w.Err? <==> output in {Some("srt"), Some("vtt"), Some("tsv")} && !Timed(result.segments)
    ensures w.Err? ==> w.error.Other? && w.error.className == "TypeError"
    ensures w.Ok? && output == Some("json") ==> w.value == Written(dumpJson(result), None)
    ensures w.Ok? ==> (w.value.returned.Some? <==>
                         output !in {Some("txt"), Some("json"), Some("srt"), Some("vtt"), Some("tsv")})
  {
    var segments := result.segments;
    if output == Some("txt") then Ok(Written(Printed(TxtRecords(segments)), None))
    else if output == Some("json") then Ok(Written(dumpJson(result), None))
    else if output == Some("srt") then
      if Timed(segments) then Ok(Written(Printed(TimedRecords(segments, SrtBlock)), None)) else Err(NoneOperand("//"))
    else if output == Some("vtt") then
      if Timed(segments) then Ok(Written(VttHeader + "\n" + Printed(TimedRecords(segments, VttCue)), None)) else Err(NoneOperand("//"))
    else if output == Some("tsv") then
      if Timed(segments) then Ok(Written(TsvHeader + "\n" + Printed(TimedRecords(segments, TsvRow)), None)) else Err(NoneOperand("*"))
    else Ok(Written("", Some(SelectOutputMessage)))
  }

  /** The txt branch of `write_result`: one printed line per segment. */
  method WriteTxt(segments: seq<Segment>) returns (file: string)
    ensures file == Printed(TxtRecords(segments))
  {
    file := "";
    ghost var records := TxtRecords(segments);
    for k := 0 to |segments|
      invariant file == PrintedUpTo(records, k)
    {
      file := file + Strip(segments[k].text) + "\n";
    }
  }

  /** The loop the srt, vtt and tsv branches share: print each segment's record in order;
      the time arithmetic of the first segment without a time raises `failure`. */
  method PrintTimed(segments: seq<Segment>, record: (nat, Segment) -> string, failure: PyException)
    returns (r: Result<string, PyException>)
    ensures Timed(segments) ==> r == Ok(Printed(TimedRecords(segments, record)))
    ensures !Timed(segments) ==> r == Err(failure)
  {
    var file := "";
    ghost var records := TimedRecords(segments, record);
    for k := 0 to |segments|
      invariant TimedUpTo(segments, k)
      invariant file == PrintedUpTo(records, k)
    {
      var s := segments[k];
      if s.start.None? || s.end.None? {
        assert !HasTimes(segments[k]);
        return Err(failure);
      }
      file := file + record(k + 1, s) + "\n";
    }
    TimedUpToAll(segments, |segments|);
    return Ok(file);
  }

  /** `write_result`: dispatch on the output format. */
  method WriteResult(result: WhisperResult, output: Option<string>, dumpJson: WhisperResult -> string)
    returns (r: Result<Written, PyException>)
    ensures r == Render(result, output, dumpJson)
  {
    var segments := result.segments;
    if output == Some("txt") {
      var file := WriteTxt(segments);
      return Ok(Written(file, None));
    } else if output == Some("json") {
      return Ok(Written(dumpJson(result), None));
    } else if output == Some("srt") {
      var file := PrintTimed(segments, SrtBlock, NoneOperand("//"));
      return if file.Ok? then Ok(Written(file.value, None)) else Err(file.error);
    } else if output == Some("vtt") {
      var file := PrintTimed(segments, VttCue, NoneOperand("//"));
      return if file.Ok? then Ok(Written(VttHeader + "\n" + file.value, None)) else Err(file.error);
    } else if output == Some("tsv") {
      var file := PrintTimed(segments, TsvRow, NoneOperand("*"));
      return if file.Ok? then Ok(Written(TsvHeader + "\n" + file.value, None)) else Err(file.error);
    }
    return Ok(Written("", Some(SelectOutputMessage)));
  }

  /** The value of the digits `ZeroPad` writes is the number padded. */
  lemma {:induction false} LeadingZerosValue(zeros: string, d: string)
    requires forall i :: 0 <= i < |zeros| ==> zeros[i] == '0'
    requires forall i :: 0 <= i < |d| ==> IsDigit(d[i])
    ensures DigitsOrUnderscores(zeros + d)
    ensures DigitsValue(zeros + d) == DigitsValue(d)
  {
    if d == [] {
      assert zeros + d == zeros;
      AllZerosValue(zeros);
    } else {
      assert (zeros + d)[..|zeros + d| - 1] == zeros + d[..|d| - 1];
      LeadingZerosValue(zeros, d[..|d| - 1]);
    }
  }

  lemma {:induction false} ZerosAreZeros(k: nat)
    ensures forall i :: 0 <= i < k ==> Zeros(k)[i] == '0'
  {
    if k > 0 {
      ZerosAreZeros(k - 1);
    }
  }

  lemma {:induction false} AllZerosValue(zeros: string)
    requires forall i :: 0 <= i < |zeros| ==> zeros[i] == '0'
    ensures DigitsOrUnderscores(zeros) && DigitsValue(zeros) == 0
  {
    if zeros != [] {
      AllZerosValue(zeros[..|zeros| - 1]);
    }
  }

  lemma ZeroPadValue(n: nat, width: nat)
    ensures DigitsOrUnderscores(ZeroPad(n, width)) && DigitsValue(ZeroPad(n, width)) == n
  {
    var d := NatToString(n);
    DigitsValueOfNatToString(n);
    NatToStringDigits(n);
    if |d| < width {
      ZerosAreZeros(width - |d|);
      LeadingZerosValue(Zeros(width - |d|), d);
    }
  }

  /** Reads a clock back: the hours before the last ten characters, then two-digit minutes and
      seconds and three-digit milliseconds at fixed places. */
  function ReadClock(c: string): Option<nat>
  {
    if |c| < 10 then None
    else
      var n := |c|;
      var h := c[..n - 10];
      var m := c[n - 9..n - 7];
      var s := c[n - 6..n - 4];
      var ms := c[n - 3..];
      if DigitsOrUnderscores(h) && DigitsOrUnderscores(m) && DigitsOrUnderscores(s) && DigitsOrUnderscores(ms)
      then Some(3600000 * DigitsValue(h) + 60000 * DigitsValue(m) + 1000 * DigitsValue(s) + DigitsValue(ms))
      else None
  }

  /** A written clock has its separators where expected and reads back as the time it was
      written from: minutes and seconds stay below 60 and milliseconds below 1000. */
  lemma ClockRoundTrip(t: nat, sep: char)
    ensures var c := Clock(t, sep);
            && |c| >= 12 && c[|c| - 10] == ':' && c[|c| - 7] == ':' && c[|c| - 4] == sep
            && ReadClock(c) == Some(t)
  {
    var hours, minutes, seconds, millis := t / 3600000, t % 3600000 / 60000, t % 60000 / 1000, t % 1000;
    ClockArithmetic(t);
    NatToStringShort(minutes, 2);
    NatToStringShort(seconds, 2);
    NatToStringShort(millis, 3);
    ZeroPadValue(hours, 2);
    ZeroPadValue(minutes, 2);
    ZeroPadValue(seconds, 2);
    ZeroPadValue(millis, 3);
    ClockFields(ZeroPad(hours, 2), ZeroPad(minutes, 2), ZeroPad(seconds, 2), ZeroPad(millis, 3), sep);
  }

  /** The clock fields recompose the time. */
  lemma ClockArithmetic(t: nat)
    ensures 3600000 * (t / 3600000) + 60000 * (t % 3600000 / 60000) + 1000 * (t % 60000 / 1000) + t % 1000 == t
  {
    var r := t % 3600000;
    var q := r / 60000;
    var r2 := r % 60000;
    assert t == 3600000 * (t / 3600000) + r;
    assert r == 60000 * q + r2;
    assert t == 60000 * (60 * (t / 3600000) + q) + r2;
    assert t % 60000 == r2;
    var s := r2 / 1000;
    assert r2 == 1000 * s + r2 % 1000;
    assert t == 1000 * (60 * (60 * (t / 3600000) + q) + s) + r2 % 1000;
    assert t % 1000 == r2 % 1000;
    assert t % 60000 / 1000 == s;
  }

  /** Where the fields of a clock string sit. */
  lemma ClockFields(h: string, m: string, s: string, ms: string, sep: char)
    requires |h| >= 2 && |m| == 2 && |s| == 2 && |ms| == 3
    ensures var c := h + ":" + m + ":" + s + [sep] + ms;
            var n := |c|;
            && n >= 12 && c[n - 10] == ':' && c[n - 7] == ':' && c[n - 4] == sep
            && c[..n - 10] == h && c[n - 9..n - 7] == m && c[n - 6..n - 4] == s && c[n - 3..] == ms
  {
  }

  /** A number below `10^width` prints in at most `width` digits, so padding it gives exactly
      `width` characters. */
  lemma NatToStringShort(n: nat, width: nat)
    requires width == 2 || width == 3
    requires n < (if width == 2 then 100 else 1000)
    ensures |ZeroPad(n, width)| == width
  {
    if n >= 10 {
      assert NatToString(n) == NatToString(n / 10) + [DigitChar(n % 10)];
      if n / 10 >= 10 {
        assert NatToString(n / 10) == NatToString(n / 100) + [DigitChar(n / 10 % 10)];
      }
    }
  }

  /** The shape of each format: one txt line and one tsv row per segment, a vtt file starting
      `WEBVTT` and a blank line, a tsv header, and nothing at all for an unknown format. */
  lemma RenderFormats(result: WhisperResult, output: Option<string>, dumpJson: WhisperResult -> string)
    ensures output == Some("txt") ==> Render(result, output, dumpJson) == Ok(Written(Printed(TxtRecords(result.segments)), None))
    ensures output in {Some("srt"), Some("vtt"), Some("tsv")} ==> (Render(result, output, dumpJson).Ok? <==> Timed(result.segments))
    ensures output == Some("vtt") && Timed(result.segments) ==>
              StartsWith(Render(result, output, dumpJson).value.content, "WEBVTT\n\n")
    ensures output == Some("tsv") && Timed(result.segments) ==>
              StartsWith(Render(result, output, dumpJson).value.content, "start\tend\ttext\n")
    ensures output !in {Some("txt"), Some("json"), Some("srt"), Some("vtt"), Some("tsv")} ==>
              Render(result, output, dumpJson) == Ok(Written("", Some("Please select an output method!")))
  {
  }

  predicate NoNewline(r: string)
  {
    forall j :: 0 <= j < |r| ==> r[j] != '\n'
  }

  /** Where the first newline of `s` is, or `|s|` when there is none. */
  function NewlineAt(s: string): (i: nat)
    ensures i <= |s|
  {
    if s == [] || s[0] == '\n' then 0 else 1 + NewlineAt(s[1..])
  }

  /** The newline-terminated lines of `s`, in order; an unterminated tail is not a line. */
  function ReadLines(s: string): seq<string>
    decreases |s|
  {
    var i := NewlineAt(s);
    if i == |s| then [] else [s[..i]] + ReadLines(s[i + 1..])
  }

  lemma {:induction false} NewlineAfter(r: string, tail: string)
    requires NoNewline(r)
    ensures NewlineAt(r + "\n" + tail) == |r|
  {
    if r != [] {
      assert (r + "\n" + tail)[1..] == r[1..] + "\n" + tail;
      NewlineAfter(r[1..], tail);
    }
  }

  /** A newline-free line followed by its newline reads back as that line. */
  lemma LineReadsBack(r: string, tail: string)
    requires NoNewline(r)
    ensures ReadLines(r + "\n" + tail) == [r] + ReadLines(tail)
  {
    var rest := r + "\n" + tail;
    NewlineAfter(r, tail);
    assert rest[..|r|] == r && rest[|r| + 1..] == tail;
  }

  /** Reading back what was printed gives the records, when none of them holds a newline. */
  lemma {:induction false} PrintedReadsBack(records: seq<string>, n: nat, tail: string)
    requires n <= |records|
    requires forall k :: 0 <= k < |records| ==> NoNewline(records[k])
    ensures ReadLines(PrintedUpTo(records, n) + tail) == records[..n] + ReadLines(tail)
  {
    if n == 0 {
      assert PrintedUpTo(records, n) + tail == tail;
    } else {
      var r := records[n - 1];
      var rest := r + "\n" + tail;
      assert PrintedUpTo(records, n) + tail == PrintedUpTo(records, n - 1) + rest;
      PrintedReadsBack(records, n - 1, rest);
      LineReadsBack(r, tail);
      calc {
        ReadLines(PrintedUpTo(records, n) + tail);
        records[..n - 1] + ([r] + ReadLines(tail));
        { assert records[..n] == records[..n - 1] + [r]; }
        records[..n] + ReadLines(tail);
      }
    }
  }

  /** When no segment text holds a newline, the txt file read back line by line is each
      segment's stripped text, in order. */
  lemma TxtReadsBack(result: WhisperResult, dumpJson: WhisperResult -> string)
    requires forall i :: 0 <= i < |result.segments| ==> NoNewline(result.segments[i].text)
    ensures ReadLines(Render(result, Some("txt"), dumpJson).value.content) == TxtRecords(result.segments)
  {
    var segments := result.segments;
    var txt := TxtRecords(segments);
    forall k | 0 <= k < |txt| ensures NoNewline(txt[k]) {
      StripInside(segments[k].text);
    }
    PrintedReadsBack(txt, |txt|, "");
    assert txt[..|txt|] == txt && PrintedUpTo(txt, |txt|) + "" == Printed(txt);
  }

  /** Likewise the tsv file reads back as its header and then one row per segment. */
  lemma TsvReadsBack(result: WhisperResult, dumpJson: WhisperResult -> string)
    requires forall i :: 0 <= i < |result.segments| ==> NoNewline(result.segments[i].text)
    requires Timed(result.segments)
    ensures ReadLines(Render(result, Some("tsv"), dumpJson).value.content)
            == [TsvHeader] + TimedRecords(result.segments, TsvRow)
  {
    var segments := result.segments;
    var rows := TimedRecords(segments, TsvRow);
    forall k | 0 <= k < |rows| ensures NoNewline(rows[k]) {
      TsvRowInside(k + 1, segments[k]);
    }
    HeaderThenRecords(TsvHeader, rows);
    assert Render(result, Some("tsv"), dumpJson).value.content == TsvHeader + "\n" + Printed(rows);
  }

  /** A header line followed by printed records reads back as the header and the records. */
  lemma HeaderThenRecords(header: string, records: seq<string>)
    requires NoNewline(header)
    requires forall k :: 0 <= k < |records| ==> NoNewline(records[k])
    ensures ReadLines(header + "\n" + Printed(records)) == [header] + records
  {
    PrintedReadsBack(records, |records|, "");
    assert records[..|records|] == records && PrintedUpTo(records, |records|) + "" == Printed(records);
    var content := header + "\n" + Printed(records);
    NewlineAfter(header, Printed(records));
    assert content[..|header|] == header && content[|header| + 1..] == Printed(records);
  }

  lemma TsvRowInside(n: nat, s: Segment)
    requires NoNewline(s.text)
    ensures NoNewline(TsvRow(n, s))
  {
    NatToStringDigits(Time(s.start));
    NatToStringDigits(Time(s.end));
    StripInside(s.text);
  }

  /** The lines an srt block prints as: its number, the time line with `,` before the
      milliseconds, the stripped text, and the blank line that ends the block. */
  function SrtLines(n: nat, s: Segment): (lines: seq<string>)
    ensures |lines| == 4
  {
    [NatToString(n), Clock(Time(s.start), ',') + " --> " + Clock(Time(s.end), ','), Strip(s.text), ""]
  }

  /** The lines a vtt cue prints as: the time line with `.` before the milliseconds, the
      stripped text, and a blank line. */
  function VttLines(n: nat, s: Segment): (lines: seq<string>)
    ensures |lines| == 3
  {
    [Clock(Time(s.start), '.') + " --> " + Clock(Time(s.end), '.'), Strip(s.text), ""]
  }

  /** The lines of segment `i`, counted from 0, which the writer numbers `i + 1`. */
  function BlockAt(segments: seq<Segment>, lines: (nat, Segment) -> seq<string>, i: nat): seq<string>
    requires i < |segments|
  {
    lines(i + 1, segments[i])
  }

  /** The lines of the first `k` segments, one block after another. */
  function LinesUpTo(segments: seq<Segment>, lines: (nat, Segment) -> seq<string>, k: nat): seq<string>
    requires k <= |segments|
  {
    if k == 0 then [] else LinesUpTo(segments, lines, k - 1) + BlockAt(segments, lines, k - 1)
  }

  predicate LinesFree(lines: seq<string>)
  {
    forall j :: 0 <= j < |lines| ==> NoNewline(lines[j])
  }

  /** One record that prints as the lines of `block` reads back as those lines. */
  lemma BlockReadsBack(block: seq<string>, r: string, tail: string)
    requires LinesFree(block)
    requires Printed(block) == r + "\n"
    ensures ReadLines(r + "\n" + tail) == block + ReadLines(tail)
  {
    PrintedReadsBack(block, |block|, tail);
    assert block[..|block|] == block;
  }

  /** Printing one more record appends it and its newline. */
  lemma PrintedStep(records: seq<string>, k: nat, tail: string)
    requires 0 < k <= |records|
    ensures PrintedUpTo(records, k) + tail == PrintedUpTo(records, k - 1) + (records[k - 1] + "\n" + tail)
  {
  }

  /** Printed multi-line records read back as the lines each record is made of. */
  lemma {:induction false} BlocksReadBack(segments: seq<Segment>, records: seq<string>,
                                          lines: (nat, Segment) -> seq<string>, k: nat, tail: string)
    requires k <= |segments| == |records|
    requires forall i :: 0 <= i < |segments| ==> Printed(BlockAt(segments, lines, i)) == records[i] + "\n"
    requires forall i :: 0 <= i < |segments| ==> LinesFree(BlockAt(segments, lines, i))
    ensures ReadLines(PrintedUpTo(records, k) + tail) == LinesUpTo(segments, lines, k) + ReadLines(tail)
  {
    if k > 0 {
      var block := BlockAt(segments, lines, k - 1);
      var r := records[k - 1];
      var rest := r + "\n" + tail;
      PrintedStep(records, k, tail);
      BlocksReadBack(segments, records, lines, k - 1, rest);
      BlockReadsBack(block, r, tail);
      var front := LinesUpTo(segments, lines, k - 1);
      calc {
        ReadLines(PrintedUpTo(records, k) + tail);
        ReadLines(PrintedUpTo(records, k - 1) + rest);
        front + ReadLines(rest);
        front + (block + ReadLines(tail));
        (front + block) + ReadLines(tail);
        LinesUpTo(segments, lines, k) + ReadLines(tail);
      }
    } else {
      assert PrintedUpTo(records, 0) + tail == tail;
    }
  }

  lemma SliceOfFront<T>(front: seq<T>, back: seq<T>, lo: nat, hi: nat)
    requires lo <= hi <= |front|
    ensures (front + back)[lo..hi] == front[lo..hi]
  {
  }

  lemma SliceAfter<T>(front: seq<T>, back: seq<T>, lo: nat, hi: nat)
    requires lo <= hi <= |back|
    ensures (front + back)[|front| + lo..|front| + hi] == back[lo..hi]
  {
  }

  /** With four lines per block, block `i` sits at lines `4 * i` to `4 * i + 3`. */
  lemma {:induction false} FourLineBlocks(segments: seq<Segment>, lines: (nat, Segment) -> seq<string>, k: nat)
    requires k <= |segments|
    requires forall i :: 0 <= i < |segments| ==> |BlockAt(segments, lines, i)| == 4
    ensures |LinesUpTo(segments, lines, k)| == 4 * k
    ensures forall i :: 0 <= i < k ==> LinesUpTo(segments, lines, k)[4 * i..4 * i + 4] == BlockAt(segments, lines, i)
  {
    if k > 0 {
      FourLineBlocks(segments, lines, k - 1);
      var front := LinesUpTo(segments, lines, k - 1);
      assert LinesUpTo(segments, lines, k) == front + BlockAt(segments, lines, k - 1);
      var block := BlockAt(segments, lines, k - 1);
      forall i | 0 <= i < k
        ensures LinesUpTo(segments, lines, k)[4 * i..4 * i + 4] == BlockAt(segments, lines, i)
      {
        if i < k - 1 {
          SliceOfFront(front, block, 4 * i, 4 * i + 4);
        } else {
          SliceAfter(front, block, 0, 4);
        }
      }
    }
  }

  /** With three lines per block, block `i` sits at lines `3 * i` to `3 * i + 2`. */
  lemma {:induction false} ThreeLineBlocks(segments: seq<Segment>, lines: (nat, Segment) -> seq<string>, k: nat)
    requires k <= |segments|
    requires forall i :: 0 <= i < |segments| ==> |BlockAt(segments, lines, i)| == 3
    ensures |LinesUpTo(segments, lines, k)| == 3 * k
    ensures forall i :: 0 <= i < k ==> LinesUpTo(segments, lines, k)[3 * i..3 * i + 3] == BlockAt(segments, lines, i)
  {
    if k > 0 {
      ThreeLineBlocks(segments, lines, k - 1);
      var front := LinesUpTo(segments, lines, k - 1);
      assert LinesUpTo(segments, lines, k) == front + BlockAt(segments, lines, k - 1);
      var block := BlockAt(segments, lines, k - 1);
      forall i | 0 <= i < k
        ensures LinesUpTo(segments, lines, k)[3 * i..3 * i + 3] == BlockAt(segments, lines, i)
      {
        if i < k - 1 {
          SliceOfFront(front, block, 3 * i, 3 * i + 3);
        } else {
          SliceAfter(front, block, 0, 3);
        }
      }
    }
  }

  lemma PrintedThree(a: string, b: string, c: string)
    ensures Printed([a, b, c]) == a + "\n" + b + "\n" + c + "\n"
  {
    var ls := [a, b, c];
    assert PrintedUpTo(ls, 1) == a + "\n";
    assert PrintedUpTo(ls, 2) == a + "\n" + b + "\n";
  }

  lemma PrintedFour(a: string, b: string, c: string, d: string)
    ensures Printed([a, b, c, d]) == a + "\n" + b + "\n" + c + "\n" + d + "\n"
  {
    var ls := [a, b, c, d];
    assert PrintedUpTo(ls, 1) == a + "\n";
    assert PrintedUpTo(ls, 2) == a + "\n" + b + "\n";
    assert PrintedUpTo(ls, 3) == a + "\n" + b + "\n" + c + "\n";
  }

  lemma ClockNoNewline(t: nat, sep: char)
    requires sep != '\n'
    ensures NoNewline(Clock(t, sep))
  {
    ZeroPadValue(t / 3600000, 2);
    ZeroPadValue(t % 3600000 / 60000, 2);
    ZeroPadValue(t % 60000 / 1000, 2);
    ZeroPadValue(t % 1000, 3);
  }

  lemma NoNewlineJoin(a: string, b: string, c: string)
    requires NoNewline(a) && NoNewline(b) && NoNewline(c)
    ensures NoNewline(a + b + c)
  {
    var j := a + b + c;
    forall i | 0 <= i < |j| ensures j[i] != '\n' {
      if i < |a| { assert j[i] == a[i]; }
      else if i < |a| + |b| { assert j[i] == b[i - |a|]; }
      else { assert j[i] == c[i - |a| - |b|]; }
    }
  }

  /** The time line shared by srt and vtt: two clocks joined by an arrow. */
  function TimeLine(s: Segment, sep: char): string
  {
    Clock(Time(s.start), sep) + " --> " + Clock(Time(s.end), sep)
  }

  lemma TimeLineFree(s: Segment, sep: char)
    requires sep != '\n'
    ensures NoNewline(TimeLine(s, sep))
  {
    ClockNoNewline(Time(s.start), sep);
    ClockNoNewline(Time(s.end), sep);
    NoNewlineJoin(Clock(Time(s.start), sep), " --> ", Clock(Time(s.end), sep));
  }

  /** An srt block prints as its four lines, none of which holds a newline when the text
      holds none. */
  lemma SrtBlockLines(n: nat, s: Segment)
    requires NoNewline(s.text)
    ensures Printed(SrtLines(n, s)) == SrtBlock(n, s) + "\n"
    ensures LinesFree(SrtLines(n, s))
  {
    SrtBlockPrinted(n, s);
    var ls := SrtLines(n, s);
    NatToStringDigits(n);
    assert NoNewline(ls[0]);
    TimeLineFree(s, ',');
    StripInside(s.text);
  }

  lemma SrtBlockPrinted(n: nat, s: Segment)
    ensures Printed(SrtLines(n, s)) == SrtBlock(n, s) + "\n"
  {
    SrtShape(NatToString(n), Clock(Time(s.start), ','), Clock(Time(s.end), ','), Strip(s.text));
  }

  lemma SrtShape(number: string, start: string, end: string, text: string)
    ensures Printed([number, start + " --> " + end, text, ""])
            == number + "\n" + start + " --> " + end + "\n" + text + "\n" + "\n"
  {
    var time := start + " --> " + end;
    PrintedFour(number, time, text, "");
  }

  /** A vtt cue prints as its three lines, none of which holds a newline when the text holds
      none. */
  lemma VttCueLines(n: nat, s: Segment)
    requires NoNewline(s.text)
    ensures Printed(VttLines(n, s)) == VttCue(n, s) + "\n"
    ensures LinesFree(VttLines(n, s))
  {
    var time, text := TimeLine(s, '.'), Strip(s.text);
    assert VttLines(n, s) == [time, text, ""];
    PrintedThree(time, text, "");
    assert VttCue(n, s) == time + "\n" + text + "\n";
    TimeLineFree(s, '.');
    StripInside(s.text);
  }

  /** When every segment is timed and no text holds a newline, the srt file reads back as
      four lines per segment: its number counted from 1, `HH:MM:SS,mmm --> HH:MM:SS,mmm`,
      its stripped text, and a blank line. */
  /** The vtt header and the blank line after it read back as two lines before the body. */
  lemma HeaderReadsBack(body: string)
    ensures ReadLines(VttHeader + "\n" + body) == ["WEBVTT", ""] + ReadLines(body)
  {
    var header := ["WEBVTT", ""];
    assert PrintedUpTo(header, 2) == "WEBVTT\n\n";
    assert VttHeader + "\n" + body == PrintedUpTo(header, 2) + body;
    assert NoNewline(header[0]);
    PrintedReadsBack(header, 2, body);
    assert header[..2] == header;
  }

  lemma TimedRecordAt(segments: seq<Segment>, record: (nat, Segment) -> string, i: nat)
    requires i < |segments|
    ensures |TimedRecords(segments, record)| == |segments|
    ensures TimedRecords(segments, record)[i] == record(i + 1, segments[i])
  {
  }

  /** Printed records read back as the lines of every block, one block after another. */
  lemma TimedBodyReadsBack(segments: seq<Segment>, record: (nat, Segment) -> string,
                           lines: (nat, Segment) -> seq<string>)
    requires forall i :: 0 <= i < |segments| ==>
               Printed(BlockAt(segments, lines, i)) == record(i + 1, segments[i]) + "\n"
    requires forall i :: 0 <= i < |segments| ==> LinesFree(BlockAt(segments, lines, i))
    ensures ReadLines(Printed(TimedRecords(segments, record))) == LinesUpTo(segments, lines, |segments|)
  {
    var records := TimedRecords(segments, record);
    forall i | 0 <= i < |segments|
      ensures Printed(BlockAt(segments, lines, i)) == records[i] + "\n"
    {
      TimedRecordAt(segments, record, i);
    }
    BlocksReadBack(segments, records, lines, |segments|, "");
    assert ReadLines("") == [];
    assert PrintedUpTo(records, |segments|) + "" == Printed(records);
  }

  /** The srt blocks of newline-free segments read back as their lines. */
  lemma SrtBodyReadsBack(segments: seq<Segment>)
    requires forall i :: 0 <= i < |segments| ==> NoNewline(segments[i].text)
    ensures ReadLines(Printed(TimedRecords(segments, SrtBlock))) == LinesUpTo(segments, SrtLines, |segments|)
  {
    forall i | 0 <= i < |segments|
      ensures Printed(BlockAt(segments, SrtLines, i)) == SrtBlock(i + 1, segments[i]) + "\n"
      ensures LinesFree(BlockAt(segments, SrtLines, i))
    {
      SrtBlockLines(i + 1, segments[i]);
    }
    TimedBodyReadsBack(segments, SrtBlock, SrtLines);
  }

  /** The vtt cues of newline-free segments read back as their lines. */
  lemma VttBodyReadsBack(segments: seq<Segment>)
    requires forall i :: 0 <= i < |segments| ==> NoNewline(segments[i].text)
    ensures ReadLines(Printed(TimedRecords(segments, VttCue))) == LinesUpTo(segments, VttLines, |segments|)
  {
    forall i | 0 <= i < |segments|
      ensures Printed(BlockAt(segments, VttLines, i)) == VttCue(i + 1, segments[i]) + "\n"
      ensures LinesFree(BlockAt(segments, VttLines, i))
    {
      VttCueLines(i + 1, segments[i]);
    }
    TimedBodyReadsBack(segments, VttCue, VttLines);
  }

  /** When every segment is timed and no text holds a newline, the srt file reads back as
      four lines per segment: its number counted from 1, `HH:MM:SS,mmm --> HH:MM:SS,mmm`, its
      stripped text, and the blank line that ends the block. */
  lemma SrtReadsBack(result: WhisperResult, dumpJson: WhisperResult -> string)
    requires forall i :: 0 <= i < |result.segments| ==> NoNewline(result.segments[i].text)
    requires Timed(result.segments)
    ensures var lines := ReadLines(Render(result, Some("srt"), dumpJson).value.content);
            var segments := result.segments;
            && |lines| == 4 * |segments|
            && forall k :: 0 <= k < |segments| ==>
                 lines[4 * k..4 * k + 4]
                 == [NatToString(k + 1),
                     Clock(Time(segments[k].start), ',') + " --> " + Clock(Time(segments[k].end), ','),
                     Strip(segments[k].text),
                     ""]
  {
    var segments := result.segments;
    var lines := ReadLines(Render(result, Some("srt"), dumpJson).value.content);
    SrtBodyReadsBack(segments);
    FourLineBlocks(segments, SrtLines, |segments|);
    forall k | 0 <= k < |segments|
      ensures lines[4 * k..4 * k + 4] == SrtLines(k + 1, segments[k])
    {
      assert lines[4 * k..4 * k + 4] == BlockAt(segments, SrtLines, k);
    }
  }

  /** Likewise the vtt file reads back as `WEBVTT` and a blank line, then three lines per
      segment: `HH:MM:SS.mmm --> HH:MM:SS.mmm`, its stripped text, and a blank line. */
  lemma VttReadsBack(result: WhisperResult, dumpJson: WhisperResult -> string)
    requires forall i :: 0 <= i < |result.segments| ==> NoNewline(result.segments[i].text)
    requires Timed(result.segments)
    ensures var lines := ReadLines(Render(result, Some("vtt"), dumpJson).value.content);
            var segments := result.segments;
            && |lines| == 2 + 3 * |segments| && lines[..2] == ["WEBVTT", ""]
            && forall k :: 0 <= k < |segments| ==>
                 lines[2 + 3 * k..5 + 3 * k]
                 == [Clock(Time(segments[k].start), '.') + " --> " + Clock(Time(segments[k].end), '.'),
                     Strip(segments[k].text),
                     ""]
  {
    var segments := result.segments;
    var body := Printed(TimedRecords(segments, VttCue));
    assert Render(result, Some("vtt"), dumpJson).value.content == VttHeader + "\n" + body;
    HeaderReadsBack(body);
    VttBodyReadsBack(segments);
    VttLayout(segments);
  }

  /** Where each cue's lines sit once the two header lines come first. */
  lemma VttLayout(segments: seq<Segment>)
    ensures var lines := ["WEBVTT", ""] + LinesUpTo(segments, VttLines, |segments|);
            && |lines| == 2 + 3 * |segments| && lines[..2] == ["WEBVTT", ""]
            && forall k :: 0 <= k < |segments| ==> lines[2 + 3 * k..5 + 3 * k] == VttLines(k + 1, segments[k])
  {
    var cues := LinesUpTo(segments, VttLines, |segments|);
    var lines := ["WEBVTT", ""] + cues;
    ThreeLineBlocks(segments, VttLines, |segments|);
    SliceOfFront(["WEBVTT", ""], cues, 0, 2);
    forall k | 0 <= k < |segments|
      ensures lines[2 + 3 * k..5 + 3 * k] == VttLines(k + 1, segments[k])
    {
      SliceAfter(["WEBVTT", ""], cues, 3 * k, 3 * k + 3);
      assert cues[3 * k..3 * k + 3] == BlockAt(segments, VttLines, k);
    }
  }



  /** The text `strip()` keeps is a piece of the original. */
  lemma StripInside(t: string)
    requires NoNewline(t)
    ensures NoNewline(Strip(t))
  {
    StripShape(t);
  }

  // ---------------------------------------------------------------------------
  // The module-level pipeline

  /** The module's global `asr_pipeline`, built on first use. `construct` stands for the call
      that builds it: a pipeline, `None`, or an exception. */
  class NbAiLabRuntime {
    var asrPipeline: Option<Pipeline>

    constructor ()
      ensures asrPipeline.None?
    {
      asrPipeline := None;
    }

    /** `load_model`: builds the pipeline only when there is none yet. */
    method LoadModel(construct: Result<Option<Pipeline>, PyException>) returns (raised: Option<PyException>)
      modifies this
      ensures old(asrPipeline).Some? ==> asrPipeline == old(asrPipeline) && raised.None?
      ensures old(asrPipeline).None? && construct.Ok? ==> asrPipeline == construct.value && raised.None?
      ensures old(asrPipeline).None? && construct.Err? ==> asrPipeline.None? && raised == Some(construct.error)
    {
      raised := None;
      if asrPipeline.None? {
        match construct {
          case Err(e) => raised := Some(e);
          case Ok(p) => asrPipeline := p;
        }
      }
    }

    /** `transcribe`: the pipeline sees only the audio and `return_timestamps`; task,
        language, prompt and VAD flag never reach it. The result is the file content
        `write_result` produced, or the exception that ended the call. */
    method Transcribe(
      audio: seq<int>, task: Option<string>, language: Option<string>, initialPrompt: Option<string>,
      vadFilter: bool, wordTimestamps: bool, output: Option<string>,
      construct: Result<Option<Pipeline>, PyException>, dumpJson: WhisperResult -> string)
      returns (r: Result<string, PyException>)
      modifies this
      ensures old(asrPipeline).Some? ==> asrPipeline == old(asrPipeline)
      ensures old(asrPipeline).None? ==> asrPipeline == (if construct.Ok? then construct.value else None)
      ensures old(asrPipeline).None? && construct.Err? ==> r == Err(construct.error)
      ensures old(asrPipeline).None? && construct == Ok(None) ==> r == Err(ModelFailedToLoad)
      ensures asrPipeline.Some? ==> r == TranscribeOutcome(asrPipeline.value(audio, TimestampsArgument(wordTimestamps)), output, dumpJson)
    {
      var raised := LoadModel(construct);
      if raised.Some? {
        return Err(raised.value);
      }
      if asrPipeline.None? {
        return Err(ModelFailedToLoad);
      }
      var reply := asrPipeline.value(audio, TimestampsArgument(wordTimestamps));
      if reply.PipelineRaised? {
        return Err(reply.error);
      }
      var whisper: WhisperResult;
      match reply.result {
        case OtherResult(_) =>
          whisper := WhisperResult("", [Segment("", Some(0), Some(0))]);
        case DictResult(text, chunks) =>
          if chunks.ChunkList? {
            var segments := ChunksToSegments(chunks.chunks);
            if segments.Err? {
              return Err(segments.error);
            }
            whisper := WhisperResult(TextOf(text), segments.value);
          } else {
            whisper := WhisperResult(TextOf(text), [Segment(TextOf(text), Some(0), Some(0))]);
          }
      }
      var written := WriteResult(whisper, output, dumpJson);
      if written.Err? {
        return Err(written.error);
      }
      return Ok(written.value.content);
    }

    /** `language_detection`: the keyword guess on a pipeline run with segment timestamps. */
    method LanguageDetection(audio: seq<int>, construct: Result<Option<Pipeline>, PyException>)
      returns (r: Result<(string, real), PyException>)
      modifies this
      ensures old(asrPipeline).Some? ==> asrPipeline == old(asrPipeline)
      ensures old(asrPipeline).None? ==> asrPipeline == (if construct.Ok? then construct.value else None)
      ensures old(asrPipeline).None? && construct.Err? ==> r == Err(construct.error)
      ensures old(asrPipeline).None? && construct == Ok(None) ==> r == Err(ModelFailedToLoad)
      ensures asrPipeline.Some? ==> r == Ok(DetectionOutcome(asrPipeline.value(audio, SegmentLevel)))
    {
      var raised := LoadModel(construct);
      if raised.Some? {
        return Err(raised.value);
      }
      if asrPipeline.None? {
        return Err(ModelFailedToLoad);
      }
      var reply := asrPipeline.value(audio, SegmentLevel);
      return Ok(DetectionOutcome(reply));
    }
  }

  /** What a transcription gives once the pipeline has answered: its exception, a failed
      chunk conversion, a writer's exception, or the written file content (empty for an
      unknown format, whose message `transcribe` discards). */
  function TranscribeOutcome(reply: PipelineReply, output: Option<string>, dumpJson: WhisperResult -> string): Result<string, PyException>
  {
    if reply.PipelineRaised? then Err(reply.error)
    else
      var whisper := WhisperResultOf(reply.result);
      if whisper.Err? then Err(whisper.error)
      else
        var written := Render(whisper.value, output, dumpJson);
        if written.Err? then Err(written.error) else Ok(written.value.content)
  }

  /** A dict result without chunks is written in txt as its stripped text on one line. */
  lemma WholeTextAsOneTxtLine(reply: PipelineReply, text: string, dumpJson: WhisperResult -> string)
    requires reply == Returned(DictResult(Some(text), NoChunks))
    ensures TranscribeOutcome(reply, Some("txt"), dumpJson) == Ok(Strip(text) + "\n")
  {
    var w := WhisperResult(text, [Segment(text, Some(0), Some(0))]);
    assert WhisperResultOf(reply.result) == Ok(w);
    assert TxtRecords(w.segments) == [Strip(text)];
    assert PrintedUpTo([Strip(text)], 1) == PrintedUpTo([Strip(text)], 0) + Strip(text) + "\n";
    assert Printed(TxtRecords(w.segments)) == Strip(text) + "\n";
    assert Render(w, Some("txt"), dumpJson) == Ok(Written(Strip(text) + "\n", None));
  }
}
