/**
 * The recording lifecycle of `VoiceRecorder` as a state machine over values.
 * Each function is one atomic step: a hotkey press or release on the listener
 * thread, one iteration of the capture thread's `record` loop, or the
 * exception path of that thread. `Recorder.VoiceRecorder` is the class whose
 * methods perform these steps in place.
 */
module Lifecycle {
  import opened Wrappers
  import opened Strings
  import opened Config
  import opened Audio
  import opened Usage

  /** A key as the keyboard listener reports it: a key code, which has a
      `char` attribute (possibly `None`), or a named special key. */
  datatype Key = KeyCode(ch: Option<char>) | Special(name: string)

  const Cmd: Key := Special("cmd")
  const HotkeyChar: char := '`'

  /** `hasattr(key, 'char') and key.char == '`' and Key.cmd in pressed_keys`. */
  predicate IsHotkey(key: Key, held: set<Key>)
  {
    key.KeyCode? && key.ch == Some(HotkeyChar) && Cmd in held
  }

  /** The capture thread: never started, inside its `while` loop, or returned
      (and, once `stop_recording` has joined it, gone). */
  datatype CaptureThread = NoThread | Capturing | Finished

  /** What the world supplies during one step: the clock, the journal
      timestamp, whether the WAV file could be written, the size of the WAV
      header the `wave` library adds, and the transcription endpoint's reply. */
  datatype Io = Io(now: real, timestamp: string, containerWritten: bool,
                   headerBytes: nat, reply: Reply)

  /** The recorder's mutable fields, plus the two outputs it produces: the
      records appended to the usage journal and the texts handed to the paste
      action. */
  datatype State = State(isRecording: bool, audioFrames: seq<Chunk>, thread: CaptureThread,
                         startTime: Option<real>, pressedKeys: set<Key>,
                         journal: seq<UsageRecord>, pasted: seq<string>)

  /** The flag is raised exactly while the capture thread is in its loop, and
      a recording always has a start time. */
  predicate Valid(s: State)
  {
    (s.isRecording <==> s.thread == Capturing) && (s.isRecording ==> s.startTime.Some?)
  }

  /** What `stop_recording` did. */
  datatype StopOutcome =
    | IgnoredWhileIdle
    | NoAudioRecorded
    | ContainerWriteFailed(payload: seq<byte>)
    | Transcribed(payload: seq<byte>, transcription: Option<string>)

  datatype Stopped = Stopped(next: State, outcome: StopOutcome)

  /** The state right after `__init__`. */
  function Initial(): (s: State)
    ensures Valid(s) && !s.isRecording && s.audioFrames == [] && s.startTime == None
    ensures s.pressedKeys == {} && s.journal == [] && s.pasted == []
  {
    State(false, [], NoThread, None, {}, [], [])
  }

  /** `start_recording`, with `now` the clock reading. */
  function Start(s: State, now: real): (t: State)
    ensures t.isRecording && (Valid(s) ==> Valid(t) && t.thread == Capturing)
    ensures s.isRecording ==> t == s
    ensures !s.isRecording ==> t.audioFrames == [] && t.startTime == Some(now)
    ensures t.pressedKeys == s.pressedKeys && t.journal == s.journal && t.pasted == s.pasted
  {
    if s.isRecording then s
    else s.(startTime := Some(now), isRecording := true, audioFrames := [], thread := Capturing)
  }

  /** One iteration of the `record` loop: while the flag is raised, read one
      chunk and append it; once it is lowered the loop is no longer running. */
  function CaptureStep(s: State, chunk: Chunk): (t: State)
    ensures Valid(s) ==> Valid(t)
    ensures t.audioFrames == if s.isRecording then s.audioFrames + [chunk] else s.audioFrames
    ensures t.(audioFrames := s.audioFrames) == s
  {
    if s.isRecording then s.(audioFrames := s.audioFrames + [chunk]) else s
  }

  /** The chunks `chunks` offered to the loop, one step each, in order. */
  function Captured(s: State, chunks: seq<Chunk>): (t: State)
    ensures t.(audioFrames := s.audioFrames) == s
    decreases |chunks|
  {
    if chunks == [] then s
    else CaptureStep(Captured(s, chunks[..|chunks| - 1]), chunks[|chunks| - 1])
  }

  /** The `except` branch of `record`: the device could not be opened or a
      read failed, so the thread lowers the flag and returns. */
  function CaptureError(s: State): (t: State)
    ensures t.thread != Capturing && (Valid(s) ==> Valid(t) && !t.isRecording)
    ensures t.audioFrames == s.audioFrames && t.startTime == s.startTime
    ensures t.journal == s.journal && t.pasted == s.pasted && t.pressedKeys == s.pressedKeys
  {
    if s.thread == Capturing then s.(isRecording := false, thread := Finished) else s
  }

  /** `self.recording_thread.join()`: the loop sees the lowered flag, closes
      the stream and returns. */
  function JoinCapture(s: State): (t: State)
    ensures t.thread != Capturing && t.(thread := s.thread) == s
  {
    if s.thread == Capturing then s.(thread := Finished) else s
  }

  /** `stop_recording`: lower the flag, join the capture thread, then
      process what was captured. */
  function Stop(s: State, cfg: Settings, io: Io): (r: Stopped)
    ensures r.next.(isRecording := s.isRecording, thread := s.thread,
                    journal := s.journal, pasted := s.pasted) == s
  {
    if !s.isRecording then Stopped(s, IgnoredWhileIdle)
    else Process(JoinCapture(s.(isRecording := false)), cfg, io)
  }

  /** The rest of `stop_recording`, run once the capture thread has been
      joined: stop if no frames were captured or the WAV file could not be
      written; otherwise transcribe the frames joined in order, journal the
      attempt and paste a truthy result. */
  function Process(joined: State, cfg: Settings, io: Io): (r: Stopped)
    ensures r.next.(journal := joined.journal, pasted := joined.pasted) == joined
    ensures |joined.journal| <= |r.next.journal| <= |joined.journal| + 1
    ensures |joined.pasted| <= |r.next.pasted| <= |joined.pasted| + 1
  {
    if joined.audioFrames == [] then Stopped(joined, NoAudioRecorded)
    else
      var payload := Concat(joined.audioFrames);
      if !io.containerWritten then Stopped(joined, ContainerWriteFailed(payload))
      else
        var attempt := Transcribe(cfg, joined.startTime, io.now, io.headerBytes + |payload|,
                                  io.timestamp, io.reply);
        var journaled := joined.(journal := joined.journal + [attempt.record]);
        Stopped(Deliver(journaled, attempt.result), Transcribed(payload, attempt.result))
  }

  /** `Process` when there are frames and the WAV file was written, spelled
      out for the method that performs it. */
  lemma ProcessAttempted(joined: State, cfg: Settings, io: Io, attempt: Attempt)
    requires joined.audioFrames != [] && io.containerWritten
    requires attempt == Transcribe(cfg, joined.startTime, io.now,
                                   io.headerBytes + |Concat(joined.audioFrames)|, io.timestamp, io.reply)
    ensures Process(joined, cfg, io)
              == Stopped(Deliver(joined.(journal := joined.journal + [attempt.record]), attempt.result),
                         Transcribed(Concat(joined.audioFrames), attempt.result))
  {
  }

  /** `if transcription: self.paste_text(transcription)`. */
  function Deliver(s: State, transcription: Option<string>): (t: State)
    ensures t.pasted == s.pasted + (if transcription.Some? && transcription.value != "" then [transcription.value] else [])
    ensures t.(pasted := s.pasted) == s
  {
    if transcription.Some? && transcription.value != "" then
      s.(pasted := s.pasted + [transcription.value])
    else s
  }

  /** `on_key_press`: remember the key, and on the hotkey toggle recording. */
  function KeyPress(s: State, cfg: Settings, key: Key, io: Io): (t: State)
    ensures Valid(s) ==> Valid(t)
    ensures t.pressedKeys == s.pressedKeys + {key}
    ensures !IsHotkey(key, s.pressedKeys + {key}) ==> t == s.(pressedKeys := t.pressedKeys)
    ensures IsHotkey(key, s.pressedKeys + {key}) && s.isRecording ==>
              t == Stop(s.(pressedKeys := t.pressedKeys), cfg, io).next
    ensures IsHotkey(key, s.pressedKeys + {key}) && !s.isRecording ==>
              t == Start(s.(pressedKeys := t.pressedKeys), io.now)
  {
    var held := s.(pressedKeys := s.pressedKeys + {key});
    if !IsHotkey(key, held.pressedKeys) then held
    else if held.isRecording then Stop(held, cfg, io).next
    else Start(held, io.now)
  }

  /** `on_key_release`: forget the key; releasing a key that was never
      recorded as pressed changes nothing. */
  function KeyRelease(s: State, key: Key): (t: State)
    ensures t.pressedKeys == s.pressedKeys - {key}
    ensures key !in t.pressedKeys && t.pressedKeys + {key} >= s.pressedKeys
    ensures key !in s.pressedKeys ==> t == s
    ensures t.(pressedKeys := s.pressedKeys) == s
  {
    s.(pressedKeys := s.pressedKeys - {key})
  }

  // ---------------------------------------------------------------------
  // Capture

  /** While recording, k loop iterations append the k chunks, in capture
      order, after the frames already there, and change nothing else. */
  lemma {:induction false} CapturedWhileRecording(s: State, chunks: seq<Chunk>)
    requires s.isRecording
    ensures Captured(s, chunks) == s.(audioFrames := s.audioFrames + chunks)
    decreases |chunks|
  {
    if chunks != [] {
      var front := chunks[..|chunks| - 1];
      CapturedWhileRecording(s, front);
      assert s.audioFrames + front + [chunks[|chunks| - 1]] == s.audioFrames + chunks;
    }
  }

  /** With the flag lowered no chunk is ever appended. */
  lemma {:induction false} CapturedWhileIdle(s: State, chunks: seq<Chunk>)
    requires !s.isRecording
    ensures Captured(s, chunks) == s
    decreases |chunks|
  {
    if chunks != [] {
      CapturedWhileIdle(s, chunks[..|chunks| - 1]);
    }
  }

  /** A capture error ends the session for good: the chunks read so far stay
      in the buffer, but the following stop is ignored, so they are never
      transcribed, and the next start discards them. */
  lemma CaptureErrorDropsSession(s: State, cfg: Settings, io: Io, now: real)
    requires Valid(s) && s.isRecording
    ensures var e := CaptureError(s);
            Stop(e, cfg, io) == Stopped(e, IgnoredWhileIdle)
            && Start(e, now).audioFrames == []
  {
  }

  // ---------------------------------------------------------------------
  // Stop

  /** Stopping while idle does nothing: no transcription, no journal record,
      no paste. */
  lemma StopWhileIdle(s: State, cfg: Settings, io: Io)
    requires !s.isRecording
    ensures Stop(s, cfg, io) == Stopped(s, IgnoredWhileIdle)
  {
  }

  /** Stopping a recording lowers the flag and joins the capture thread
      before anything reads the frames; the frames, start time and held keys
      are left as they were. */
  lemma StopEndsCapture(s: State, cfg: Settings, io: Io)
    requires Valid(s) && s.isRecording
    ensures var t := Stop(s, cfg, io).next;
            Valid(t) && !t.isRecording && t.thread == Finished
            && t.audioFrames == s.audioFrames && t.startTime == s.startTime
            && t.pressedKeys == s.pressedKeys
  {
  }

  /** The payload written to the WAV file is the captured chunks joined in
      capture order, as long as all of them together. */
  lemma StopPayload(s: State, cfg: Settings, io: Io)
    ensures var o := Stop(s, cfg, io).outcome;
            (o.ContainerWriteFailed? || o.Transcribed?) ==>
              s.isRecording && s.audioFrames != []
              && o.payload == Concat(s.audioFrames) && |o.payload| == TotalLength(s.audioFrames)
  {
    ConcatLength(s.audioFrames);
  }

  /** Exactly one journal record is appended when there were frames and the
      WAV file was written, none otherwise; it is a failure record exactly
      when the endpoint raised, and its file size counts header and payload. */
  lemma StopJournal(s: State, cfg: Settings, io: Io)
    ensures var t := Stop(s, cfg, io).next;
            var attempted := s.isRecording && s.audioFrames != [] && io.containerWritten;
            (attempted ==> |t.journal| == |s.journal| + 1 && t.journal[..|s.journal|] == s.journal
                           && (t.journal[|s.journal|].Failed? <==> io.reply.Raised?)
                           && t.journal[|s.journal|].fileSizeBytes
                              == io.headerBytes + TotalLength(s.audioFrames))
            && (!attempted ==> t.journal == s.journal)
  {
    ConcatLength(s.audioFrames);
  }

  /** The paste action runs at most once per stop, and only with a truthy
      result: when the endpoint answered with some visible character, and
      then with the stripped answer. A failed call never reaches it. */
  lemma StopPaste(s: State, cfg: Settings, io: Io)
    ensures var t := Stop(s, cfg, io).next;
            var delivered := s.isRecording && s.audioFrames != [] && io.containerWritten
                             && io.reply.Transcript?
                             && exists k :: 0 <= k < |io.reply.body| && io.reply.body[k] !in Whitespace;
            (delivered ==> t.pasted == s.pasted + [Strip(io.reply.body)] && Strip(io.reply.body) != "")
            && (!delivered ==> t.pasted == s.pasted)
  {
    if io.reply.Transcript? {
      StripEmptyIff(io.reply.body);
    }
  }

  // ---------------------------------------------------------------------
  // Hotkeys

  /** A key that is not the hotkey, pressed and released, leaves the
      recorder as it found it, provided it was not already held. */
  lemma PressReleaseRestores(s: State, cfg: Settings, key: Key, io: Io)
    requires key !in s.pressedKeys && !IsHotkey(key, s.pressedKeys + {key})
    ensures KeyRelease(KeyPress(s, cfg, key, io), key) == s
  {
  }

  /** Releasing Cmd disarms the hotkey: the backtick alone then only adds
      itself to the held keys. */
  lemma ReleasedCmdDisarms(s: State, cfg: Settings, io: Io)
    ensures var r := KeyRelease(s, Cmd);
            KeyPress(r, cfg, KeyCode(Some(HotkeyChar)), io)
              == r.(pressedKeys := r.pressedKeys + {KeyCode(Some(HotkeyChar))})
  {
  }

  /** Two hotkey presses with Cmd held and some chunks captured in between:
      the recorder is idle again, exactly one session was processed (one
      journal record when there was audio and the WAV file was written, none
      otherwise), at most one paste happened, and the record's size counts
      exactly the chunks captured between the two presses. */
  lemma {:induction false} ToggleTwice(s: State, cfg: Settings, chunks: seq<Chunk>, io1: Io, io2: Io)
    requires Valid(s) && !s.isRecording && Cmd in s.pressedKeys
    ensures var hotkey := KeyCode(Some(HotkeyChar));
            var s1 := KeyPress(s, cfg, hotkey, io1);
            var s2 := Captured(s1, chunks);
            var s3 := KeyPress(s2, cfg, hotkey, io2);
            var attempted := chunks != [] && io2.containerWritten;
            Valid(s3) && !s3.isRecording
            && |s3.journal| == |s.journal| + (if attempted then 1 else 0)
            && s3.journal[..|s.journal|] == s.journal
            && (attempted ==> s3.journal[|s.journal|].fileSizeBytes == io2.headerBytes + TotalLength(chunks))
            && |s.pasted| <= |s3.pasted| <= |s.pasted| + 1
  {
    var hotkey := KeyCode(Some(HotkeyChar));
    var s1 := KeyPress(s, cfg, hotkey, io1);
    assert s1 == Start(s.(pressedKeys := s.pressedKeys + {hotkey}), io1.now);
    CapturedWhileRecording(s1, chunks);
    var s2 := Captured(s1, chunks);
    var held := s2.(pressedKeys := s2.pressedKeys + {hotkey});
    assert held.audioFrames == chunks && held.isRecording && Valid(held);
    assert held.journal == s.journal && held.pasted == s.pasted;
    assert KeyPress(s2, cfg, hotkey, io2) == Stop(held, cfg, io2).next;
    StopJournal(held, cfg, io2);
    StopPaste(held, cfg, io2);
    StopEndsCapture(held, cfg, io2);
  }
}
