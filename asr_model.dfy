/** The call every engine accepts: `transcribe(audio, task, language, initial_prompt,
    vad_filter, word_timestamps, options, output)`. Audio is a sequence of 16-bit PCM sample
    values; the engines receive them scaled by 1/32768, which is exact and not modelled. */
module AsrModel {
  import opened Common

  /** The diarization options the batch endpoint passes; the live handler passes none. */
  datatype DiarizeOptions = DiarizeOptions(diarize: bool, minSpeakers: Option<int>, maxSpeakers: Option<int>)

  datatype TranscribeRequest = TranscribeRequest(
    audio: seq<int>,
    task: Option<string>,
    language: Option<string>,
    initialPrompt: Option<string>,
    vadFilter: bool,
    wordTimestamps: bool,
    options: Option<DiarizeOptions>,
    output: Option<string>)
}
