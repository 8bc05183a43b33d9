# Voice recorder: recording lifecycle in Dafny

This project models the core of a desktop voice-to-text utility. A global hotkey
(Cmd+backtick) toggles microphone capture. When capture stops, the recorded
chunks are joined into a WAV payload and sent to a transcription endpoint
(OpenAI, or Azure OpenAI when both Azure variables are set). Every attempt is
written to a usage journal, and a non-empty result is pasted at the cursor.
All of this lives in the `VoiceRecorder` class of `voice_recorder.py`.

The model has two halves.

- **Pure helpers**, as functions with lemmas:
  - `Strings`: Python's `t in s`, `rstrip` and `strip`.
  - `Config`: provider, price tier and Azure base URL, chosen from the environment.
  - `Audio`: `b''.join` of the captured chunks.
  - `Usage`: the journal record shapes, the 100-character preview, the duration
    and cost estimate, and the record-building and return logic of
    `transcribe_audio`.
- **The lifecycle**:
  - `Lifecycle` gives every step as a function on a `State` value: start, one
    capture-loop iteration, the capture error path, stop (guard, join, process),
    key press and key release. The lemmas about these functions state the
    guarantees.
  - `Recorder.VoiceRecorder` is the class whose methods perform those steps
    in place, on the same fields as the source: `is_recording`, `audio_frames`,
    `recording_thread`, `recording_start_time` and `pressed_keys`. Each method
    ensures `State() == <step>(old(State()), ...)`.

How the world is modelled:

- Threads are interleaved atomic steps. The capture thread's loop body is one
  step (`CaptureStep`, or the method `Record` for several), and joining it is
  one more.
- Everything the outside world decides arrives in an `Io` value: the clock
  reading, the journal timestamp, whether the WAV file could be written, the
  size of the header the `wave` library adds, and the endpoint's reply
  (`Transcript(body, seconds)` or `Raised(message)`).
- The journal file and the paste action are two sequences the recorder
  appends to: `journal` and `pasted`.
- Prices are in tenths of a US cent per minute: 3 for the mini model, 6
  otherwise. Durations and costs are Dafny `real`s.

Where the design description and the code differ, the model follows the code:

- The code emits no audio or speech cues, so there is no cue model.
- A journal write failure is not always harmless. The success record is
  written inside the `try` of `transcribe_audio` (voice_recorder.py:232-233).
  If that write raises, the `except` journals a failure record and returns
  `None`, so a transcription that succeeded is never pasted. The model
  covers this case with `Reply.Raised`, whose message is the write error.
  The failure record's own write (voice_recorder.py:256-257) is outside any
  `try`, and its failure would propagate out of `stop_recording`.
- A failed attempt's `error` field is `str(e)`, which may be empty. The model
  keeps the message as given.
- When the WAV write fails, the code returns before deleting the temporary file.

## Model

| member | source | states |
|---|---|---|
| Strings.ContainsIff | voice_recorder.py:58-61 | Python's `t in s` (the recursive `Contains`) holds exactly when `t` occurs at some index of `s` |
| Strings.Contains | voice_recorder.py:58 | Python's `t in s` as a recursive search. A match implies `t` is no longer than `s`. `ContainsIff` proves it equal to "occurs at some index" |
| Strings.ContainsInfix | voice_recorder.py:58 | a name built around the mini model's name contains it |
| Strings.StripEnd | voice_recorder.py:54 | `rstrip(chars)` never lengthens and leaves no strip-set character at the end. `StripEndSpec` pins the result down exactly |
| Strings.StripEndSpec | voice_recorder.py:54 | `rstrip` keeps a prefix. It removes only the given characters and stops at the first other character from the right |
| Strings.StripStartSpec | voice_recorder.py:215 | `lstrip` keeps a suffix. It removes only the given characters and stops at the first other character from the left |
| Strings.StripStart | voice_recorder.py:215 | `lstrip(chars)` never lengthens and leaves no strip-set character at the front. `StripStartSpec` pins the result down exactly |
| Strings.Strip | voice_recorder.py:215 | `strip()` never lengthens and the result does not start with whitespace. `StripIsSlice` and `StripEmptyIff` characterise it fully |
| Strings.StripIsSlice | voice_recorder.py:215 | `strip()` returns one contiguous slice that neither starts nor ends with whitespace. Everything it drops is whitespace |
| Strings.StripEmptyIff | voice_recorder.py:215 | `strip()` gives the empty string exactly when every character is whitespace |
| Strings.StripEndAppend | voice_recorder.py:54 | a trailing character from the strip set never changes the `rstrip` result |
| Config.GetEnv | voice_recorder.py:44-45 | `os.getenv(name)` is present exactly when the variable is set, with its value |
| Config.GetEnvOr | voice_recorder.py:49 | `os.getenv(name, default)` gives the variable's value when set, even the empty string, and the default only when it is absent |
| Config.BaseUrl | voice_recorder.py:54 | the Azure base URL is a prefix of the endpoint, then `/openai/deployments/<name>`. That prefix does not end in `/`, and only `/` characters of the endpoint are dropped |
| Config.BaseUrlIgnoresTrailingSlash | voice_recorder.py:54 | adding a trailing `/` to the endpoint never changes the base URL |
| Config.AzurePrice | voice_recorder.py:57-66 | the price is 3 exactly when the deployment name contains `gpt-4o-mini-transcribe`, and 6 otherwise |
| Config.Configure | voice_recorder.py:44-72 | Azure is chosen iff both the key and the endpoint are set and non-empty. Then the deployment defaults to `gpt-4o-transcribe` only when its variable is absent, and the provider name, base URL, API version and price follow from it. Otherwise the OpenAI client is used at 6 |
| Config.PriceTiers | voice_recorder.py:44-72 | the price is always 3 or 6. It is 3 iff Azure is configured and the deployment name contains the mini model's name at some index |
| Config.DefaultAzureDeployment | voice_recorder.py:48-63 | Azure credentials with no deployment variable give `gpt-4o-transcribe` at the standard rate |
| Config.MiniDeploymentPrice | voice_recorder.py:58-60 | any Azure deployment named around `gpt-4o-mini-transcribe` gets the cheaper rate |
| Config.OpenAIFallback | voice_recorder.py:67-72 | without both Azure variables, the provider is plain OpenAI at the standard rate |
| Audio.Concat | voice_recorder.py:168 | `b''.join(frames)`. `ConcatAppend`, `ConcatLength` and `ConcatPlacesChunk` prove its order and length |
| Audio.ConcatAppend | voice_recorder.py:168 | the joined payload of `a + b` is the payload of `a` followed by that of `b`, so chunks stay in capture order |
| Audio.ConcatLength | voice_recorder.py:168 | the payload's length is the sum of the chunk lengths |
| Audio.ConcatPlacesChunk | voice_recorder.py:168 | byte `k` of chunk `n` is at offset (total length of chunks before `n`) + `k` of the payload |
| Audio.FullChunksLength | voice_recorder.py:80-119 | n full reads of 1024 mono 16-bit frames give a payload of n * 2048 bytes |
| Usage.Keys | voice_recorder.py:218-254 | a journal record has `error` and `status` keys iff it is a failure record. It has `transcription_text` and `estimated_cost_usd` iff it is a success record |
| Usage.Preview | voice_recorder.py:228 | the journaled text equals the result when it has at most 100 characters. Otherwise it is the first 100 characters followed by `...`, 103 in all |
| Usage.PreviewBounds | voice_recorder.py:228 | the preview never exceeds 103 characters and starts with the first min(len, 100) characters of the result |
| Usage.PreviewIdempotent | voice_recorder.py:228 | previewing a preview changes nothing |
| Usage.PreviewNotInjective | voice_recorder.py:228 | a 103-character result ending in `...` and that result plus one more character share one preview |
| Usage.RecordingDuration | voice_recorder.py:195 | the duration is clock minus start time when a truthy start time exists, and 0 for `None` or `0.0` |
| Usage.EstimatedCost | voice_recorder.py:196-197 | the cost estimate is non-negative for a non-negative duration, and zero exactly when the duration or the price is zero |
| Usage.CostScales | voice_recorder.py:196-197 | the cost estimate is non-negative for a non-negative duration and scales linearly with it |
| Usage.Transcribe | voice_recorder.py:190-259 | every attempt journals one record with the given timestamp, the configured provider name and the file size. The record is a failure record, and the result is `None`, exactly when the call raised. `AttemptShape` gives the rest |
| Usage.AttemptShape | voice_recorder.py:205-259 | one attempt yields one record for the configured provider and file size. It is a failure record with the error message and status `failed` iff the endpoint raised, and then the result is `None`. Otherwise the result is the stripped reply, and the record's length, preview, response time and cost describe it |
| Usage.FailedAttemptShape | voice_recorder.py:243-259 | a failed attempt returns `None` and journals a record with `error` and `status` keys and no text |
| Usage.TruthyResult | voice_recorder.py:215 | the returned text is truthy exactly when the endpoint answered with at least one non-whitespace character |
| Lifecycle.Initial | voice_recorder.py:74-86 | the recorder starts idle with no frames, no start time, no held keys and nothing journaled or pasted |
| Lifecycle.Start | voice_recorder.py:92-101 | start while recording changes nothing. From idle it raises the flag, resets the frames to empty, records the start time and starts the capture thread |
| Lifecycle.CaptureStep | voice_recorder.py:118-120 | one loop iteration appends exactly one chunk at the end while the flag is raised and changes nothing else |
| Lifecycle.CaptureError | voice_recorder.py:130-132 | the capture exception lowers the flag and ends the thread. Frames, start time, journal and pastes are untouched |
| Lifecycle.Captured | voice_recorder.py:118-120 | any number of loop iterations change only the frames. `CapturedWhileRecording` and `CapturedWhileIdle` say how |
| Lifecycle.JoinCapture | voice_recorder.py:145-147 | after the join the thread is no longer capturing, and nothing else changed |
| Lifecycle.Stop | voice_recorder.py:138-188 | stop changes only the flag, the thread, the journal and the pastes. `StopWhileIdle`, `StopEndsCapture`, `StopPayload`, `StopJournal` and `StopPaste` give the details |
| Lifecycle.Process | voice_recorder.py:152-188 | processing after the join changes only the journal and the pastes, and each by at most one entry |
| Lifecycle.Deliver | voice_recorder.py:183-188 | the paste action receives the transcription exactly when it is truthy (present and non-empty) |
| Lifecycle.KeyPress | voice_recorder.py:308-321 | every press adds the key to the held set. Only the backtick key code with Cmd held toggles, calling stop when recording and start otherwise |
| Lifecycle.KeyRelease | voice_recorder.py:323-328 | the held set after a release is exactly the old one without the key, and nothing else changes. Releasing a key that is not held is a no-op |
| Lifecycle.CapturedWhileRecording | voice_recorder.py:118-123 | after k loop iterations the frames are the earlier frames followed by the k chunks in capture order |
| Lifecycle.CapturedWhileIdle | voice_recorder.py:118 | with the flag lowered the loop appends nothing |
| Lifecycle.CaptureErrorDropsSession | voice_recorder.py:130-142 | after a capture error the next stop is ignored, so the frames read so far are never transcribed, and the next start discards them |
| Lifecycle.StopWhileIdle | voice_recorder.py:138-142 | stop while idle is a no-op: no transcription, no journal record, no paste |
| Lifecycle.StopEndsCapture | voice_recorder.py:144-150 | stopping a recording lowers the flag and joins the capture thread. Frames, start time and held keys are unchanged and the invariant holds |
| Lifecycle.StopPayload | voice_recorder.py:152-168 | a payload is produced only when recording with frames. It is the in-order join of the frames, and its length is the sum of the chunk lengths |
| Lifecycle.StopJournal | voice_recorder.py:152-177 | stop appends exactly one record when there were frames and the WAV file was written, and none otherwise. The record is a failure record iff the endpoint raised, and its file size is the header plus the payload |
| Lifecycle.StopPaste | voice_recorder.py:177-188 | stop pastes at most once: exactly when the endpoint answered with a visible character, and then with the stripped answer. A failed call never pastes |
| Lifecycle.PressReleaseRestores | voice_recorder.py:308-328 | pressing and releasing a key that is not the hotkey and was not held leaves the state as it was |
| Lifecycle.ReleasedCmdDisarms | voice_recorder.py:313 | after Cmd is released, the backtick alone only joins the held set |
| Lifecycle.ToggleTwice | voice_recorder.py:308-321 | two hotkey presses with capture in between leave the recorder idle with exactly one session processed. At most one record is journaled, with the size of exactly the captured chunks, and at most one paste happens |
| Recorder.VoiceRecorder.constructor | voice_recorder.py:38-90 | the settings are those of `Configure(env)` and the state is the initial one |
| Recorder.VoiceRecorder.StartRecording | voice_recorder.py:92-136 | performs `Start` in place and keeps the invariant. While recording it changes no field |
| Recorder.VoiceRecorder.Record | voice_recorder.py:117-124 | the capture loop performs the steps of `Captured` in place. While recording, the frames become the old frames followed by the chunks |
| Recorder.VoiceRecorder.RecordFailed | voice_recorder.py:130-132 | performs `CaptureError` in place, and leaves the flag lowered and the frames unchanged |
| Recorder.VoiceRecorder.StopRecording | voice_recorder.py:138-150 | performs `Stop` in place and returns its outcome. While idle it changes no field |
| Recorder.VoiceRecorder.ProcessAudio | voice_recorder.py:152-188 | after the join, performs `Process` in place: it checks for frames, writes the file, transcribes, journals and delivers |
| Recorder.VoiceRecorder.TranscribeAudio | voice_recorder.py:190-259 | appends exactly the attempt's record to the journal, returns the attempt's result, and changes no other field |
| Recorder.VoiceRecorder.PasteText | voice_recorder.py:261-306 | hands the text to the paste action exactly once and changes no other field |
| Recorder.VoiceRecorder.OnKeyPress | voice_recorder.py:308-321 | performs `KeyPress` in place and keeps the invariant |
| Recorder.VoiceRecorder.OnKeyRelease | voice_recorder.py:323-328 | performs `KeyRelease` in place |

## Left out

- Device I/O: PyAudio stream open, read and close, and `get_sample_size`. Each
  read is a chunk given to `CaptureStep`/`Record`. A failed open or read is
  `CaptureError`. The stream constants are recorded in `Audio` but nothing
  depends on them.
- The WAV header layout. The `wave` library produces it, so the model gives
  only the data payload plus a header size taken from `Io`. Temporary-file
  creation and deletion are left out too.
- The HTTP transcription call, `time.time()` and `datetime.now()`. Their
  results arrive through `Io`.
- The clipboard, the 0.2 s settle delay and the OS paste keystroke in
  `paste_text`. The model records the hand-over in `pasted`. The code
  swallows paste failures, so the hand-over always counts as done.
- Threading races. The flag is unsynchronised, so a chunk may be appended
  after the flag is cleared and before the join. The model treats each loop
  iteration and the join as atomic and does not capture this.
- Usage.Transcribe: journal fields are exact reals. The code applies
  `round(x, n)` to the durations, size in KB and cost, and that rounding is not
  modelled. The cost is also in tenths of a cent, not US dollars.
- Exceptions raised outside the `try` blocks: temporary-file creation,
  `os.unlink`, `pyperclip.copy`, and the failure record's journal write
  (voice_recorder.py:256-257). These are assumed to succeed. A partially
  written success line, left behind when the success-path write raises
  midway, is not modelled either.
- JSON serialisation of records and the `.jsonl` file append. Records are
  values in a sequence.
- Logging, `dotenv`, the `Listener` event loop, `run`'s credential check,
  `sys.exit` and `main`.
- The OpenAI client object itself. Only its settings (key, base URL, API
  version) are modelled.
