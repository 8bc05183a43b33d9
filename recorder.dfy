/**
 * `VoiceRecorder`: the object whose fields the hotkey handlers and the
 * capture thread update in place. Each method performs one step of
 * `Lifecycle` on the object's fields; `State()` reads them as a value.
 */
module Recorder {
  import opened Wrappers
  import opened Config
  import opened Audio
  import opened Usage
  import L = Lifecycle

  class VoiceRecorder {
    /** Provider, display name and price, fixed at construction. */
    const config: Settings

    var isRecording: bool
    var audioFrames: seq<Chunk>
    var recordingThread: L.CaptureThread
    var recordingStartTime: Option<real>
    var pressedKeys: set<L.Key>
    /** Records appended to `voice_recorder_usage.jsonl` by this object. */
    var journal: seq<UsageRecord>
    /** Texts handed to `paste_text`, in order. */
    var pasted: seq<string>

    function State(): L.State
      reads this
    {
      L.State(isRecording, audioFrames, recordingThread, recordingStartTime,
              pressedKeys, journal, pasted)
    }

    ghost predicate Valid()
      reads this
    {
      L.Valid(State())
    }

    /** `__init__`: choose the provider from the environment, start idle. */
    constructor (env: Env)
      ensures config == Configure(env)
      ensures Valid() && State() == L.Initial()
    {
      config := Configure(env);
      isRecording := false;
      audioFrames := [];
      recordingThread := L.NoThread;
      recordingStartTime := None;
      pressedKeys := {};
      journal := [];
      pasted := [];
    }

    /** `start_recording`, `now` being `time.time()`. */
    method StartRecording(now: real)
      requires Valid()
      modifies this
      ensures Valid() && State() == L.Start(old(State()), now)
      ensures old(isRecording) ==> unchanged(this)
    {
      if isRecording {
        return;
      }
      recordingStartTime := Some(now);
      isRecording := true;
      audioFrames := [];
      recordingThread := L.Capturing;
    }

    /** The `record` loop of the capture thread, run until the flag is seen
        lowered or the chunks the stream delivers before the next interleaved
        step run out. */
    method Record(chunks: seq<Chunk>)
      requires Valid()
      modifies this
      ensures Valid() && State() == L.Captured(old(State()), chunks)
      ensures old(isRecording) ==> audioFrames == old(audioFrames) + chunks
    {
      var i := 0;
      while i < |chunks| && isRecording
        invariant 0 <= i <= |chunks| && Valid()
        invariant isRecording == old(isRecording)
        invariant isRecording ==> State() == L.Captured(old(State()), chunks[..i])
        invariant !isRecording ==> i == 0 && State() == old(State())
      {
        assert chunks[..i + 1][..i] == chunks[..i];
        audioFrames := audioFrames + [chunks[i]];
        i := i + 1;
      }
      if isRecording {
        assert chunks[..i] == chunks;
        L.CapturedWhileRecording(old(State()), chunks);
      } else {
        L.CapturedWhileIdle(old(State()), chunks);
      }
    }

    /** The `except` branch of `record`. */
    method RecordFailed()
      requires Valid()
      modifies this
      ensures Valid() && State() == L.CaptureError(old(State()))
      ensures !isRecording && audioFrames == old(audioFrames)
    {
      if recordingThread == L.Capturing {
        isRecording := false;
        recordingThread := L.Finished;
      }
    }

    /** `stop_recording`. */
    method StopRecording(io: L.Io) returns (outcome: L.StopOutcome)
      requires Valid()
      modifies this
      ensures Valid() && L.Stop(old(State()), config, io) == L.Stopped(State(), outcome)
      ensures !old(isRecording) ==> unchanged(this)
    {
      if !isRecording {
        return L.IgnoredWhileIdle;
      }
      isRecording := false;
      if recordingThread == L.Capturing {
        recordingThread := L.Finished;
      }
      outcome := ProcessAudio(io);
    }

    /** The part of `stop_recording` after the join: nothing else touches the
        frames any more. */
    method ProcessAudio(io: L.Io) returns (outcome: L.StopOutcome)
      requires !isRecording && recordingThread != L.Capturing
      modifies this
      ensures !isRecording && recordingThread == old(recordingThread)
      ensures L.Process(old(State()), config, io) == L.Stopped(State(), outcome)
    {
      if audioFrames == [] {
        return L.NoAudioRecorded;
      }
      var payload := Concat(audioFrames);
      if !io.containerWritten {
        return L.ContainerWriteFailed(payload);
      }
      ghost var attempt := Transcribe(config, recordingStartTime, io.now, io.headerBytes + |payload|,
                                      io.timestamp, io.reply);
      var transcription := TranscribeAudio(io.headerBytes + |payload|, io);
      if transcription.Some? && transcription.value != "" {
        PasteText(transcription.value);
      }
      outcome := L.Transcribed(payload, transcription);
      L.ProcessAttempted(old(State()), config, io, attempt);
    }

    /** `transcribe_audio`: journal exactly one record for the attempt and
        return the stripped text, or `None` when the endpoint raised. */
    method TranscribeAudio(fileSize: nat, io: L.Io) returns (result: Option<string>)
      modifies this`journal
      ensures var a := Transcribe(config, recordingStartTime, io.now, fileSize, io.timestamp, io.reply);
              State() == old(State()).(journal := old(journal) + [a.record]) && result == a.result
    {
      var attempt := Transcribe(config, recordingStartTime, io.now, fileSize, io.timestamp, io.reply);
      journal := journal + [attempt.record];
      result := attempt.result;
    }

    /** `paste_text`: the text goes to the clipboard and a paste keystroke is
        sent; failures there are swallowed, so the hand-over always happens. */
    method PasteText(text: string)
      modifies this`pasted
      ensures State() == old(State()).(pasted := old(pasted) + [text])
    {
      pasted := pasted + [text];
    }

    /** `on_key_press`. */
    method OnKeyPress(key: L.Key, io: L.Io)
      requires Valid()
      modifies this
      ensures Valid() && State() == L.KeyPress(old(State()), config, key, io)
    {
      pressedKeys := pressedKeys + {key};
      if L.IsHotkey(key, pressedKeys) {
        if isRecording {
          var _ := StopRecording(io);
        } else {
          StartRecording(io.now);
        }
      }
    }

    /** `on_key_release`. */
    method OnKeyRelease(key: L.Key)
      modifies this`pressedKeys
      ensures State() == L.KeyRelease(old(State()), key)
    {
      pressedKeys := pressedKeys - {key};
    }
  }
}
