# Voice context switcher, modelled in Dafny

The context switcher is a menu-bar program with one job. You hold a hotkey and speak, and the program records you. When you let go, it turns the speech into text, merges the text into a Markdown "project context" file with a language model, and appends a record to a history file. This project models the five sequential pieces of that pipeline and proves what each one promises:

- **Hotkey edge detector** (`Hotkeys`). A set of held key names and a `recording` flag, changed in place by the press and release handlers. Start fires only when the combination becomes held, stop only when it stops being held; over any sequence of events the two alternate, beginning with start.
- **Recorder session and WAV encoding** (`Audio`).
  - The recorder is a class guarded by its `recording` flag.
  - Device buffers are kept only while recording.
  - Stopping encodes the buffer, in arrival order, as a RIFF/WAVE PCM file with 16-bit samples. Reading that file back gives the channel count, the rate, the sample width 2 and every sample again.
- **Staging uploader** (`Oss`).
  - It is configured exactly when all four credentials are non-empty.
  - The object key has the shape `audio/<yyyymmdd_hhmmss>_<8 hex digits>.<ext>`, and the key determines its parts.
  - An upload gives both a signed URL and a key or neither. A delete answers a boolean and never raises.
- **Transcription and merging** (`Speech`, over `PyJson` and `PyText`).
  - The DashScope/whisper dispatch.
  - The fall-back from the staged upload to the local-file path.
  - The extraction of the text from the transcript payload, with Python's semantics.
  - The `finally` clean-up that deletes a staged object exactly once.
  - The case-insensitive choice of merge backend and the concatenation fall-back when the backend raises.
- **Orchestrator** (`Switcher`).
  - The `processing` flag and the guards of the two hotkey callbacks.
  - The processing sequence with its early exits for no audio and no text.
  - Read, merge, write and history, in that order.
  - `processing` is down again on every path.

Everything that comes from outside is a parameter of the operation that receives it: the keyboard, the audio device, the clock, `uuid4`, the storage service, the recognition jobs, the transcript download, the chat services and the `gemini` command. The answers to one transcription are in `Speech.Outcomes`; the answers to one merge are in `Speech.MergeOutcomes`. Operations that talk to the outside world return, beside their result, the list of calls they made, in order (`Speech.Call`). The orchestrator logs what it shows and does as a list of `Switcher.Effect` values. The context files are a `Switcher.ContextStore` object.

Files: `wrappers.dfy` (Option, Result), `pytext.dfy` (Python `str` operations), `config.dfy` (constants of config.py), `json.dfy` (parsed JSON and the Python operations on it), `hotkeys.dfy`, `audio.dfy`, `oss.dfy`, `speech.dfy`, `switcher.dfy`.

## Model

| member | source | states |
|---|---|---|
| PyText.LowerChar | hotkey_manager.py:31 | lower-casing changes an upper-case ASCII letter to its lower-case form and leaves every other character alone |
| PyText.Lower | hotkey_manager.py:31-33 | `lower()` keeps the length and lower-cases every character in place |
| PyText.RemoveAllLeading | hotkey_manager.py:33 | `replace('Key.', '')` removes a leading `Key.` and then scans the rest as if it stood alone |
| PyText.RemoveAllAbsent | hotkey_manager.py:33 | `replace` of a pattern that does not occur returns the text unchanged |
| PyText.RemoveAll | hotkey_manager.py:33 | `replace(p, '')` never makes the text longer |
| PyText.TrimStart | speech_recognition.py:300 | `lstrip()` is a suffix, cuts only white space, and does not start with white space |
| PyText.TrimEnd | speech_recognition.py:305 | `rstrip()` is a prefix, cuts only white space, and does not end with white space |
| PyText.Strip | speech_recognition.py:300-305 | `strip()` is no longer than its input, and a non-empty result neither starts nor ends with white space |
| PyText.StripSpec | speech_recognition.py:300-305 | `strip()` is the contiguous piece between the leading and trailing white space; only white space is cut, and neither end of the result is white space |
| PyText.StripIdempotent | speech_recognition.py:300-305 | stripping a stripped answer changes nothing |
| PyText.Take | main.py:155 | `text[:50]` has length min(len, 50) and is a prefix of the text |
| PyText.Join | speech_recognition.py:94 | `sep.join(parts)` starts with the first part, followed by the separator when there are at least two parts |
| PyText.Split | speech_recognition.py:94 | `split` always gives at least one piece |
| PyText.SplitJoin | speech_recognition.py:94 | a `join` with a one-character separator that no part contains is undone by splitting on that separator, so the join keeps every sentence text and their order |
| PyJson.Contains | speech_recognition.py:84-91 | `key in v` tests an object's keys and a list's elements, raises on null, booleans and numbers |
| PyJson.Item | speech_recognition.py:86-93 | `v[key]` answers only for an object that has the key, with that key's value |
| PyJson.First | speech_recognition.py:86 | `v[0]` of a non-empty list is its first element, of a non-empty string its first character; an object, a scalar or an empty value raises |
| PyJson.Get | speech_recognition.py:71-74 | `v.get(key, default)` gives the key's value or the default, and raises on anything but an object |
| Hotkeys.KeyName | hotkey_manager.py:30-33 | a character key is held under its lower-cased character; one without a character raises; no name has an upper-case letter |
| Hotkeys.SpecialKeyName | hotkey_manager.py:33 | a special key `Key.<name>` is held under `<name>` lower-cased |
| Hotkeys.PressStep | hotkey_manager.py:26-44 | a press adds the key's name; start fires, and the flag rises, exactly when the name was computed, the flag was down and the whole combination is now held; a raise changes nothing; a press never fires stop |
| Hotkeys.ReleaseStep | hotkey_manager.py:46-65 | a release discards the key's name, and releasing a key that is not held leaves the set unchanged; stop fires, and the flag falls, exactly when the flag was up and the combination is no longer held; a release never fires start |
| Hotkeys.InitialConsistent | hotkey_manager.py:9-10 | the startup state, with no keys and the flag down, has the flag agreeing with the keys |
| Hotkeys.StepConsistent | hotkey_manager.py:26-65 | every event keeps the flag equal to "the combination is held" |
| Hotkeys.EdgeTriggered | hotkey_manager.py:38-62 | start fires exactly on the change from not held to held, and stop exactly on the change from held to not held |
| Hotkeys.StepFlips | hotkey_manager.py:38-62 | an event fires a callback exactly when it flips the flag, and the callback matches the direction of the flip |
| Hotkeys.Run | hotkey_manager.py:26-65 | a sequence of events fires at most one callback per event, and every fired signal is a real callback |
| Hotkeys.RunAlternates | hotkey_manager.py:38-62 | over any sequence of events the callbacks strictly alternate, beginning with start when the flag is down, and the flag flips once per callback |
| Hotkeys.StartsWithStart | hotkey_manager.py:9-62 | from the startup state the callbacks go start, stop, start, … |
| Hotkeys.HotkeyManager.constructor | hotkey_manager.py:6-11 | no keys held, flag down, target {cmd, shift, e}, consistent |
| Hotkeys.HotkeyManager.IsTargetHotkeyPressed | hotkey_manager.py:67-70 | held exactly when the target is a subset of the held keys, whatever the order of the presses |
| Hotkeys.HotkeyManager.OnPress | hotkey_manager.py:26-44 | the new set, flag and fired callback are those of `PressStep`, and consistency is kept |
| Hotkeys.HotkeyManager.OnRelease | hotkey_manager.py:46-65 | the new set, flag and fired callback are those of `ReleaseStep`, and consistency is kept |
| Audio.DecodeSampleBytes | audio_recorder.py:75 | the little-endian two's-complement bytes of the samples decode back to the same samples |
| Audio.SampleBytes | audio_recorder.py:75 | the written data holds two bytes per sample, twice as many bytes as samples |
| Audio.WavHeader | audio_recorder.py:71-74 | the header the `wave` module writes is 44 bytes long |
| Audio.HeaderDeclaresFormat | audio_recorder.py:71-74 | the header declares the channel count, the frame rate, the byte rate channels × rate × 2, the block align channels × 2, 16 bits per sample and the data length, each at its RIFF offset |
| Audio.EncodeWav | audio_recorder.py:70-77 | encoding succeeds exactly when the RIFF size fits 32 bits, and the file is then 44 + 2 × (number of samples) bytes long |
| Audio.ContainerRoundTrip | audio_recorder.py:71-75 | a header followed by its data parses as that format and the decoded data |
| Audio.WavRoundTrip | audio_recorder.py:71-75 | parsing the encoded file gives the channel count, the frame rate, sample width 2 and every sample |
| Audio.Saved | audio_recorder.py:61-77 | None exactly for an empty buffer; the `struct` error exactly when the data is too long; otherwise a file whose data length is 2 × total samples and which parses as the configured format and the frames concatenated in arrival order |
| Audio.ParseWav | audio_recorder.py:71-75 | a file is read as WAV only when it is at least 44 bytes with a well-formed header, and then with sample width 2 and one sample per two data bytes |
| Audio.AudioRecorder.constructor | audio_recorder.py:10-17 | the given format, not recording, empty buffer |
| Audio.AudioRecorder.IsRecording | audio_recorder.py:79-81 | answers true exactly while the recorder is recording |
| Audio.AudioRecorder.StartRecording | audio_recorder.py:19-31 | while recording it changes nothing and keeps the buffer; otherwise the flag rises and the buffer is emptied; returns whether a session began |
| Audio.AudioRecorder.StopRecording | audio_recorder.py:33-46 | when not recording: None and no change; otherwise the flag falls and the result is `Saved` of the buffer |
| Audio.AudioRecorder.CaptureCallback | audio_recorder.py:50-52 | a device buffer is appended exactly when recording; the flag is untouched |
| Audio.AudioRecorder.SaveAudio | audio_recorder.py:61-77 | the bytes written step by step are `Saved` of the buffer |
| Audio.ConcatFrames | audio_recorder.py:67 | the loop's result is the frames' samples one after another, in arrival order |
| Audio.WriteSamples | audio_recorder.py:75 | the loop's result is the header followed by every sample's two bytes |
| Oss.Numeral | oss_uploader.py:32-33 | exactly `w` digits, each from the base's alphabet |
| Oss.NumeralRoundTrip | oss_uploader.py:32-33 | a number below b^w printed with w digits reads back as itself |
| Oss.Timestamp | oss_uploader.py:32 | `%Y%m%d_%H%M%S` is 15 characters: digits with an underscore at position 8 |
| Oss.TimestampRoundTrip | oss_uploader.py:32 | the printed time stamp reads back as the time it was taken at |
| Oss.UuidPrefix | oss_uploader.py:33 | `str(uuid4())[:8]` is eight hex digits |
| Oss.ObjectKey | oss_uploader.py:34 | the key is `audio/`, the 15-character time stamp, `_`, the 8-digit prefix, `.`, the extension, at fixed positions |
| Oss.ObjectKeyParts | oss_uploader.py:32-34 | from the key one reads back the time, the uuid's top 32 bits and the extension |
| Oss.OssUploader.constructor | oss_uploader.py:9-22 | the client exists exactly when all four credentials are non-empty |
| Oss.OssUploader.IsConfigured | oss_uploader.py:68-70 | configured exactly when access key id, secret, endpoint and bucket name are all non-empty |
| Oss.OssUploader.UploadAudio | oss_uploader.py:24-53 | URL and key come back together or not at all, and exactly when configured and the put answered 200; the key is the `ObjectKey`; the URL signs a GET of that key on this bucket, with now + 3600 as the expiry argument handed to `sign_url` |
| Oss.OssUploader.DeleteAudio | oss_uploader.py:55-66 | true exactly when configured and the delete went through; otherwise false, never a raise |
| Speech.SentenceTexts | speech_recognition.py:94 | the sentence texts ('' where missing), one per sentence and in order; a raise exactly when some element is no object or its text is no string |
| Speech.TranscriptTextFirst | speech_recognition.py:84-90 | a first transcript with a `text` gives that value |
| Speech.SentencesJoined | speech_recognition.py:91-96 | without a `text`, a non-empty list of sentences gives their texts joined by single spaces |
| Speech.TopLevelFallback | speech_recognition.py:84-103 | with no transcripts, or a first transcript without text and sentences, the top-level `text` is returned when present, and nothing otherwise |
| Speech.ExtractText | speech_recognition.py:84-103 | the membership test raises on a payload that is no object, list or string; an object without `transcripts` gives its top-level `text`, or no text |
| Speech.DeletesNone | speech_recognition.py:114-118 | a list of calls without a delete deletes nothing |
| Speech.DeletesAppend | speech_recognition.py:114-118 | the deletes of two lists of calls add up |
| Speech.Await | speech_recognition.py:57-66 | the job is submitted first with hints zh and en and the given file; it has finished exactly when neither the submit nor the wait raised; no delete among the calls |
| Speech.ResultUrlSpec | speech_recognition.py:71-80 | the transcript is downloaded from exactly the non-empty URL the first result names |
| Speech.Collect | speech_recognition.py:68-109 | a non-200 status gives None and makes no call; otherwise the named URL is fetched once, and the text is what the extraction finds in the fetched payload |
| Speech.LocalFileTranscription | speech_recognition.py:120-176 | a failed temporary file gives None; otherwise the file is created and then submitted, it is unlinked exactly when the job finished, and a text needs status 200 |
| Speech.WhisperTranscription | speech_recognition.py:178-189 | one whisper call with model whisper-1 and language zh; the text exactly when it answered |
| Speech.AsText | main.py:117-118 | the value handed on as text is a string result; any other JSON value counts as no text |
| Speech.SelectBackend | speech_recognition.py:218-223 | DashScope exactly for "dashscope" in any case, Gemini exactly for "gemini", OpenAI for anything else |
| Speech.MergeWithOpenai | speech_recognition.py:230-245 | one chat call; the reply, or the raise passed on |
| Speech.MergeWithDashscope | speech_recognition.py:247-268 | one generation call; the output text exactly on status 200, otherwise a raise naming the service's message |
| Speech.MergeWithGemini | speech_recognition.py:270-317 | without a project it raises before running anything; otherwise one `gemini` run with timeout 60, answering the stripped stdout exactly on exit code 0 and raising with the stripped stderr on any other exit code |
| Speech.Concatenated | speech_recognition.py:228 | the fall-back text is the old context whole, then `\n\n## 新内容\n`, then the new text whole |
| Speech.SpeechRecognizer.constructor | speech_recognition.py:11-23 | the recognizer owns an uploader built from the credentials |
| Speech.SpeechRecognizer.TranscribeWithDashscope | speech_recognition.py:38-118 | the step-by-step method returns the text and calls of `DashscopeTranscription` |
| Speech.SpeechRecognizer.TranscribeAudio | speech_recognition.py:25-36 | the method returns the text and calls of `Transcription` |
| Speech.UnstagedUsesLocalFile | speech_recognition.py:45-53 | without a staged upload (not configured, or no URL) the result is the local-file path's, after the attempted upload if any |
| Speech.StagedObjectDeletedOnce | speech_recognition.py:114-118 | when a key was obtained, exactly one delete is made, of that key, as the last call, on every path; without a key nothing is deleted |
| Speech.StagedFileTranscribed | speech_recognition.py:57-103 | with a staged upload the job is given the signed URL of the staged key, and the text is what the job's transcript yields |
| Speech.SpeechRecognizer.DashscopeTranscription | speech_recognition.py:38-118 | a text needs the job submitted and finished with status 200; when storage is configured, the first call is the upload under the `ObjectKey` of the time stamp and uuid |
| Speech.TranscriptionDispatch | speech_recognition.py:29-33 | the DashScope path exactly when its key is set, the whisper path otherwise |
| Speech.SpeechRecognizer.Transcription | speech_recognition.py:25-36 | without a DashScope key, one whisper call and a text exactly when it answered; with the key, a text only from a job that finished with status 200 |
| Speech.MergeOutcome | speech_recognition.py:191-228 | an answering backend decides the merged text; a raising one leaves exactly the old context, the heading and the new text |
| Speech.SpeechRecognizer.MergeContext | speech_recognition.py:191-228 | the calls are the backend's; the merged text is the backend's answer, or the concatenation fall-back |
| Speech.FallbackKeepsBoth | speech_recognition.py:225-228 | the fall-back keeps the old context whole at the front and the new text whole at the end |
| Speech.MergeCallsOneBackend | speech_recognition.py:218-223 | exactly the chosen backend is called, once, and Gemini without a project is not run |
| Switcher.DoneNotice | main.py:151-156 | the success notice's message is `识别内容: `, the first 50 characters of the text (all of a shorter text), then `...` |
| Switcher.ErrorNotice | main.py:158-164 | the error notice carries `str(e)` as its message |
| Switcher.Stages | main.py:110-156 | with no usable text three effects (recognizing, transcription, failure notice) and nothing stored; with one eight effects, the stored pair being the text and the merge; first the recognizing notice and the transcription, last a notice |
| Switcher.Processing | main.py:95-166 | the sequence is never empty and ends with a notice; something is stored only after audio was obtained |
| Switcher.ContextStore.ReadContext | main.py:127 | the read gives the stored context |
| Switcher.ContextStore.WriteContext | main.py:142 | the write replaces the context and keeps the history |
| Switcher.ContextStore.AddHistory | main.py:145-149 | one record (existing, text, merged) is appended and the context kept |
| Switcher.AlwaysNotified | main.py:95-166 | every path ends by notifying the user; a caught error notifies with its message and nothing else |
| Switcher.NoAudioNoWork | main.py:101-108 | without audio nothing is transcribed, read or stored; only notices are shown |
| Switcher.NoTextNoContext | main.py:117-124 | without a usable text the context is neither read nor written, nothing is merged, and no history is added |
| Switcher.StagesWrite | main.py:127-149 | the only write of the sequence is its sixth effect, and it happens only with a usable text |
| Switcher.WriteFollowsReadAndMerge | main.py:127-149 | a write comes after a read and after the merge of what was read; the merge's result is what is written; the history record of exactly that read, text and merge follows it; what is stored is what was written |
| Switcher.SuccessStoresMerge | main.py:136-156 | on success the stored context is `merge_context` of the old context and the text, and the last notice echoes the text |
| Switcher.ContextSwitcher.constructor | main.py:17-38 | a recorder with 16 kHz and one channel, not recording; not processing; nothing shown |
| Switcher.ContextSwitcher.StartRecording | main.py:67-78 | nothing while processing; otherwise the recorder is started, the indicator is lit (twice when a session begins, once by the recorder's callback) and the start notice is shown |
| Switcher.ContextSwitcher.StopRecording | main.py:80-93 | nothing, and no processing spawned, unless the recorder is recording; then the indicator goes off and the stop notice is shown |
| Switcher.ContextSwitcher.RecognizeAndStore | main.py:110-156 | after audio was obtained, the effects and the stored pair are those of `Processing`; the store's context and history change exactly as stated |
| Switcher.ContextSwitcher.ProcessRecording | main.py:95-166 | the recorder is stopped; the log grows by the effects of `Processing` of what it returned; the store is updated exactly when a text was stored; `processing` is down on every path |

## Left out

- Threads and device streaming are not modelled: the capture thread, `join`, the `time.sleep` polling loop (audio_recorder.py:54-59) and the processing thread (main.py:93). The device callback is an operation that may run between any two others. `processing` is observed only before and after `ProcessRecording`, so the race between the hotkey thread and the processing thread is not modelled.
- Audio.AudioRecorder.constructor requires a format whose header fields fit their widths; the program is only ever built with 16 kHz and one channel.
- The callbacks' `if self.on_… :` None checks are not modelled: the program always installs both.
- Switcher.ContextSwitcher owns no `HotkeyManager` and does not install its callbacks (main.py:32-35); the two callbacks are the methods `StartRecording` and `StopRecording`, and the hotkey edge detection that fires them is `Hotkeys.HotkeyManager`, modelled on its own.
- Printing (`print`) is left out throughout, and so is the `rumps` status bar beyond the notices and the indicator state it is sent.
- The context files are left out as file I/O and rendering: their existence checks, the backups, the history template and its time stamp. The store is a `ContextStore` whose operations do not fail.
- `bucket_domain` is read from the environment but never used; it is carried in `Oss.Credentials` only.
- Oss.OssUploader.UploadAudio: the model records only the expiry argument, now + 3600, that `sign_url` receives. The storage library's `sign_url` documents `expires` as seconds from now, so the URL the source produces stays valid for about now + 3600 seconds rather than one hour; the resulting lifetime is the library's business and is not modelled.
- `sign_url` and `os.unlink` are treated as not raising.
- The staged upload's audio bytes are not recorded in its `Upload` call; the local path records them in `CreateTemp`.
- When the submit or the wait of the local-file path raises, the temporary file is left behind, as in the source; this is modelled and stated in `Speech.LocalFileTranscription`.
- Speech.AsText: a transcript `text` that is not a string (a number or a list) reaches `transcribe_audio`'s caller in Python; here it counts as no text, where Python would carry it on into the merge prompt and the notice.
- PyText.LowerChar: only ASCII letters change case. The provider names "dashscope" and "gemini" are matched exactly, since only U+212A KELVIN SIGN lowers into ASCII and neither name has a `k`. Key names from the keyboard are lowered the same way.
- JSON numbers are integers: the extraction never reads a number's value.
- The merge prompt's wording, the system prompt and `temperature=0.3` are left out. A merge call records only what the prompt is built from: the old context, the new text and the time.
- A `None` message content from the chat service is not modelled; the reply is a string.
- `if not audio_data` also rejects empty bytes; `_save_audio` never returns empty bytes (a WAV file has a 44-byte header), so only None is modelled as no audio.
- The configuration constants other than the sample rate, channel count, hotkey and model defaults come from the environment; they are the parameters `Speech.Settings` and `Oss.Credentials`.
