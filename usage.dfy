/**
 * The usage journal: one record per transcription attempt, and the pure part
 * of `transcribe_audio` that decides what the record holds and what is
 * returned to the caller.
 */
module Usage {
  import opened Wrappers
  import opened Strings
  import opened Config

  const PreviewLength: nat := 100
  const Ellipsis := "..."
  const FailedStatus := "failed"

  /** One line of the usage journal. Durations are in seconds (minutes where
      named), the cost in tenths of a US cent. */
  datatype UsageRecord =
    | Succeeded(timestamp: string, apiProvider: string,
                recordingDurationSeconds: real, recordingDurationMinutes: real,
                fileSizeBytes: nat, fileSizeKb: real, apiResponseTimeSeconds: real,
                transcriptionLengthChars: nat, estimatedCost: real, transcriptionText: string)
    | Failed(timestamp: string, apiProvider: string, recordingDurationSeconds: real,
             fileSizeBytes: nat, error: string, status: string)

  /** The keys of the JSON object the record is written as. */
  function Keys(rec: UsageRecord): (keys: set<string>)
    ensures "timestamp" in keys && "api_provider" in keys
    ensures "recording_duration_seconds" in keys && "file_size_bytes" in keys
    ensures "error" in keys <==> rec.Failed?
    ensures "status" in keys <==> rec.Failed?
    ensures "transcription_text" in keys <==> rec.Succeeded?
    ensures "estimated_cost_usd" in keys <==> rec.Succeeded?
  {
    var common := {"timestamp", "api_provider", "recording_duration_seconds", "file_size_bytes"};
    match rec
    case Succeeded(_, _, _, _, _, _, _, _, _, _) =>
      common + {"recording_duration_minutes", "file_size_kb", "api_response_time_seconds",
                "transcription_length_chars", "estimated_cost_usd", "transcription_text"}
    case Failed(_, _, _, _, _, _) =>
      common + {"error", "status"}
  }

  /** The journaled text: `result[:100] + "..." if len(result) > 100 else result`. */
  function Preview(text: string): (preview: string)
    ensures |text| <= PreviewLength ==> preview == text
    ensures |text| > PreviewLength ==>
              |preview| == PreviewLength + |Ellipsis|
              && preview[..PreviewLength] == text[..PreviewLength]
              && preview[PreviewLength..] == Ellipsis
  {
    if |text| > PreviewLength then text[..PreviewLength] + Ellipsis else text
  }

  /** The journaled text never exceeds 103 characters and always starts with
      as much of the transcription as fits in 100. */
  lemma PreviewBounds(text: string)
    ensures |Preview(text)| <= PreviewLength + |Ellipsis|
    ensures var n := if |text| < PreviewLength then |text| else PreviewLength;
            Preview(text)[..n] == text[..n]
  {
  }

  /** Previewing a preview changes nothing. */
  lemma PreviewIdempotent(text: string)
    ensures Preview(Preview(text)) == Preview(text)
  {
    if |text| > PreviewLength {
      var p := Preview(text);
      assert p[..PreviewLength] == text[..PreviewLength];
    }
  }

  /** Two different transcriptions can share one journaled text: a
      103-character result that already ends in "..." previews to itself. */
  lemma PreviewNotInjective(head: string)
    requires |head| == PreviewLength
    ensures Preview(head + Ellipsis) == Preview(head + Ellipsis + "x")
  {
    var a := head + Ellipsis;
    var b := a + "x";
    assert a[..PreviewLength] == head;
    assert b[..PreviewLength] == head;
  }

  /** `time.time() - self.recording_start_time if self.recording_start_time else 0`:
      a start time of `None` or `0.0` is falsy and gives a zero duration. */
  function RecordingDuration(start: Option<real>, now: real): (seconds: real)
    ensures start.Some? && start.value != 0.0 ==> seconds + start.value == now
    ensures start.None? || start.value == 0.0 ==> seconds == 0.0
  {
    if start.Some? && start.value != 0.0 then now - start.value else 0.0
  }

  /** `(duration / 60) * cost_per_minute`. */
  function EstimatedCost(seconds: real, costPerMinute: nat): (cost: real)
    ensures seconds >= 0.0 ==> cost >= 0.0
    ensures seconds == 0.0 || costPerMinute == 0 <==> cost == 0.0
  {
    seconds / 60.0 * costPerMinute as real
  }

  /** The estimate is never negative for a clock that does not run backwards,
      and it grows linearly with the duration. */
  lemma CostScales(seconds: real, costPerMinute: nat, factor: real)
    ensures seconds >= 0.0 ==> EstimatedCost(seconds, costPerMinute) >= 0.0
    ensures EstimatedCost(factor * seconds, costPerMinute) == factor * EstimatedCost(seconds, costPerMinute)
  {
  }

  /** What the transcription endpoint does with one upload. */
  datatype Reply =
    | Transcript(body: string, responseSeconds: real)
    | Raised(message: string)

  /** The journal record one attempt writes and the value the call returns. */
  datatype Attempt = Attempt(record: UsageRecord, result: Option<string>)

  /** The record-building and return logic of `transcribe_audio`. */
  function Transcribe(cfg: Settings, start: Option<real>, now: real, fileSize: nat,
                      timestamp: string, reply: Reply): (a: Attempt)
    ensures a.record.timestamp == timestamp && a.record.apiProvider == cfg.apiProvider
    ensures a.record.fileSizeBytes == fileSize
    ensures a.record.Failed? <==> reply.Raised?
    ensures a.result.None? <==> reply.Raised?
  {
    var seconds := RecordingDuration(start, now);
    match reply
    case Transcript(body, responseSeconds) =>
      var result := Strip(body);
      Attempt(
        Succeeded(timestamp, cfg.apiProvider, seconds, seconds / 60.0,
                  fileSize, fileSize as real / 1024.0, responseSeconds,
                  |result|, EstimatedCost(seconds, cfg.costPerMinute), Preview(result)),
        Some(result))
    case Raised(message) =>
      Attempt(Failed(timestamp, cfg.apiProvider, seconds, fileSize, message, FailedStatus), None)
  }

  /** Every attempt writes one record for the configured provider: a failure
      record carrying the error exactly when the endpoint raised, and
      otherwise a success record whose length, preview and cost describe the
      stripped text that is returned. */
  lemma AttemptShape(cfg: Settings, start: Option<real>, now: real, fileSize: nat,
                     timestamp: string, reply: Reply)
    ensures var a := Transcribe(cfg, start, now, fileSize, timestamp, reply);
            (a.result.None? <==> reply.Raised?)
            && (a.record.Failed? <==> reply.Raised?)
            && (a.record.timestamp == timestamp && a.record.apiProvider == cfg.apiProvider)
            && (a.record.fileSizeBytes == fileSize)
            && (a.record.recordingDurationSeconds == RecordingDuration(start, now))
            && (reply.Transcript? ==>
                  a.result == Some(Strip(reply.body))
                  && a.record.transcriptionLengthChars == |Strip(reply.body)|
                  && a.record.transcriptionText == Preview(Strip(reply.body))
                  && a.record.apiResponseTimeSeconds == reply.responseSeconds
                  && a.record.estimatedCost == EstimatedCost(RecordingDuration(start, now), cfg.costPerMinute))
            && (reply.Raised? ==> a.record.error == reply.message && a.record.status == FailedStatus)
  {
  }

  /** A failed attempt is journaled with an error and without any text. */
  lemma FailedAttemptShape(cfg: Settings, start: Option<real>, now: real, fileSize: nat,
                           timestamp: string, message: string)
    ensures var a := Transcribe(cfg, start, now, fileSize, timestamp, Raised(message));
            a.result == None && "error" in Keys(a.record) && "status" in Keys(a.record)
            && "transcription_text" !in Keys(a.record)
  {
  }

  /** The text handed back is truthy exactly when the reply has a character
      that is not whitespace. */
  lemma TruthyResult(cfg: Settings, start: Option<real>, now: real, fileSize: nat,
                     timestamp: string, reply: Reply)
    ensures var a := Transcribe(cfg, start, now, fileSize, timestamp, reply);
            (a.result.Some? && a.result.value != "") <==>
            (reply.Transcript? && exists k :: 0 <= k < |reply.body| && reply.body[k] !in Whitespace)
  {
    if reply.Transcript? {
      StripEmptyIff(reply.body);
    }
  }
}
