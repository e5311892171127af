module Transcripts {
  import opened Options

  type LineId = nat
  type SpeakerId = nat
  type SourceId = nat

  datatype TranscriptLine = TranscriptLine(
    id: LineId,
    speakerId: Option<SpeakerId>,
    speakerName: Option<string>,
    sourceId: Option<SourceId>,
    syntheticTiming: Option<bool>,
    startTime: real,
    endTime: real,
    text: string)

  /** A line that is not stored yet: a transcribed segment, or a turn of an imported file. */
  datatype Draft = Draft(speaker: string, text: string, start: real, end: real, synthetic: bool)
}
