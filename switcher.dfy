/**
 * The orchestrator (main.py): the `processing` flag, the two hotkey callbacks
 * and the processing sequence that stops the recorder, transcribes, merges and
 * stores. The status bar is the effect log; the context files are a store.
 */
module Switcher {
  import opened Wrappers
  import PyText
  import Config
  import Audio
  import Oss
  import Speech

  /** A notification: title, subtitle and message. */
  datatype Notice = Notice(title: string, subtitle: string, message: string)

  const RECORDING_STARTED := Notice("录音开始", "正在录音...", "松开快捷键停止录音")
  const RECORDING_STOPPED := Notice("录音结束", "正在处理...", "请稍候")
  const NO_AUDIO := Notice("处理失败", "未获取到音频数据", "请重试")
  const RECOGNIZING := Notice("正在识别", "语音转文字中...", "请稍候")
  const RECOGNITION_FAILED := Notice("识别失败", "语音识别失败", "请检查网络和API配置")
  const MERGING := Notice("正在合并", "合并上下文中...", "请稍候")

  const DONE_PREFIX := "识别内容: "
  const ELLIPSIS := "..."

  /** How many characters of the recognised text the success notice echoes. */
  const ECHO_LENGTH := 50

  /** The success notice: the first 50 characters of the text, then an ellipsis. */
  function DoneNotice(text: string): (n: Notice)
    ensures n.title == "处理完成" && n.subtitle == "上下文已更新"
    ensures |n.message| == |DONE_PREFIX| + (if |text| < ECHO_LENGTH then |text| else ECHO_LENGTH) + |ELLIPSIS|
    ensures n.message[..|DONE_PREFIX|] == DONE_PREFIX
    ensures n.message[|DONE_PREFIX|..|n.message| - |ELLIPSIS|] <= text
    ensures |text| <= ECHO_LENGTH ==> n.message[|DONE_PREFIX|..|n.message| - |ELLIPSIS|] == text
  {
    var echo := PyText.Take(text, ECHO_LENGTH);
    var message := DONE_PREFIX + echo + ELLIPSIS;
    assert message[|DONE_PREFIX|..|message| - |ELLIPSIS|] == echo;
    Notice("处理完成", "上下文已更新", message)
  }

  /** The notice for an error caught by the processing sequence: its `str(e)` is the message. */
  function ErrorNotice(message: string): (n: Notice)
    ensures n.title == "处理失败" && n.subtitle == "发生错误" && n.message == message
  {
    Notice("处理失败", "发生错误", message)
  }

  /** What the switcher does to the outside world, in order. */
  datatype Effect =
    | ShowRecording(on: bool)
    | Notify(notice: Notice)
    | Transcribed(audio: seq<Audio.Byte>, calls: seq<Speech.Call>)
    | ReadContext
    | Merged(existing: string, addition: string, calls: seq<Speech.Call>)
    | WriteContext(content: string)
    | AddHistory(original: string, addition: string, merged: string)

  /** One history record: the context before, the recognised text, the context after. */
  datatype HistoryEntry = HistoryEntry(original: string, addition: string, merged: string)

  /** ContextManager as the switcher uses it: the context text and the appended history. */
  class ContextStore {
    var context: string
    var history: seq<HistoryEntry>

    constructor (context: string)
      ensures this.context == context && history == []
    {
      this.context := context;
      history := [];
    }

    /** `read_context`. */
    method ReadContext() returns (s: string)
      ensures s == context
    {
      s := context;
    }

    /** `write_context`: the context is replaced and the history kept. */
    method WriteContext(content: string)
      modifies this
      ensures context == content && history == old(history)
    {
      context := content;
    }

    /** `add_history`: one record is appended and the context kept. */
    method AddHistory(original: string, addition: string, merged: string)
      modifies this
      ensures history == old(history) + [HistoryEntry(original, addition, merged)] && context == old(context)
    {
      history := history + [HistoryEntry(original, addition, merged)];
    }
  }

  /** A recognised text the sequence goes on with: present and non-empty (`if not transcribed_text`). */
  predicate Usable(text: Option<string>) {
    text.Some? && text.value != ""
  }

  /**
   * The sequence once audio was transcribed into `text` through the calls `heard`:
   * with a usable text the context is read, merged into (`merge` is the merged
   * context and the calls that made it), written and recorded in the history.
   */
  function Stages(audio: seq<Audio.Byte>, text: Option<string>, heard: seq<Speech.Call>,
                  existing: string, merge: (string, seq<Speech.Call>))
    : (r: (seq<Effect>, Option<(string, string)>))
    ensures |r.0| == if Usable(text) then 8 else 3
    ensures r.0[0] == Notify(RECOGNIZING) && r.0[1] == Transcribed(audio, heard) && r.0[|r.0| - 1].Notify?
    ensures r.1.Some? <==> Usable(text)
    ensures r.1.Some? ==> r.1.value == (text.value, merge.0)
  {
    if !Usable(text) then ([Notify(RECOGNIZING), Transcribed(audio, heard), Notify(RECOGNITION_FAILED)], None)
    else
      ([Notify(RECOGNIZING), Transcribed(audio, heard), ReadContext, Notify(MERGING),
        Merged(existing, text.value, merge.1), WriteContext(merge.0),
        AddHistory(existing, text.value, merge.0), Notify(DoneNotice(text.value))],
       Some((text.value, merge.0)))
  }

  /**
   * The processing sequence after the recorder stopped with `stopped`: the effects
   * in order, and the (text, merged context) pair to store, None when nothing is stored.
   */
  function Processing(rec: Speech.SpeechRecognizer, stopped: Result<Option<seq<Audio.Byte>>, string>,
                      existing: string, w: Speech.Outcomes, m: Speech.MergeOutcomes)
    : (r: (seq<Effect>, Option<(string, string)>))
    requires rec.Valid()
    ensures r.0 != [] && r.0[|r.0| - 1].Notify?
    ensures r.1.Some? ==> stopped.Success? && stopped.value.Some?
  {
    match stopped
    case Failure(e) => ([Notify(ErrorNotice(e))], None)
    case Success(None) => ([Notify(NO_AUDIO)], None)
    case Success(Some(audio)) =>
      var (text, heard) := rec.Transcription(audio, w);
      // the merge only takes place with a usable text
      var merge := if Usable(text) then rec.MergeContext(existing, text.value, m) else ("", []);
      Stages(audio, text, heard, existing, merge)
  }

  /** Every path of the sequence ends by telling the user how it went. */
  lemma AlwaysNotified(rec: Speech.SpeechRecognizer, stopped: Result<Option<seq<Audio.Byte>>, string>,
                       existing: string, w: Speech.Outcomes, m: Speech.MergeOutcomes)
    requires rec.Valid()
    ensures var effects := Processing(rec, stopped, existing, w, m).0;
      && effects != [] && effects[|effects| - 1].Notify?
      && (stopped.Failure? ==> effects == [Notify(ErrorNotice(stopped.error))])
  {
  }

  /** Without audio nothing is transcribed and the context is not touched. */
  lemma NoAudioNoWork(rec: Speech.SpeechRecognizer, stopped: Result<Option<seq<Audio.Byte>>, string>,
                      existing: string, w: Speech.Outcomes, m: Speech.MergeOutcomes)
    requires rec.Valid() && !(stopped.Success? && stopped.value.Some?)
    ensures var (effects, stored) := Processing(rec, stopped, existing, w, m);
      && stored.None?
      && forall i :: 0 <= i < |effects| ==> effects[i].Notify?
  {
  }

  /** Without a usable text the context is neither read nor written, and no history is added. */
  lemma NoTextNoContext(rec: Speech.SpeechRecognizer, audio: seq<Audio.Byte>,
                        existing: string, w: Speech.Outcomes, m: Speech.MergeOutcomes)
    requires rec.Valid() && !Usable(rec.Transcription(audio, w).0)
    ensures var (effects, stored) := Processing(rec, Success(Some(audio)), existing, w, m);
      && stored.None?
      && forall i :: 0 <= i < |effects| ==>
           !effects[i].ReadContext? && !effects[i].WriteContext? && !effects[i].AddHistory? && !effects[i].Merged?
  {
  }

  /** The only write among the stages is the sixth effect, and it needs a usable text. */
  lemma StagesWrite(audio: seq<Audio.Byte>, text: Option<string>, heard: seq<Speech.Call>,
                    existing: string, merge: (string, seq<Speech.Call>), i: nat)
    requires var effects := Stages(audio, text, heard, existing, merge).0; i < |effects| && effects[i].WriteContext?
    ensures Usable(text) && i == 5
  {
  }

  /**
   * Whatever happens, a write of the context comes after a read and after the
   * merge that produced what is written, and is followed by the history record
   * of exactly that read, text and merge; what is stored is what was written.
   */
  lemma WriteFollowsReadAndMerge(rec: Speech.SpeechRecognizer, stopped: Result<Option<seq<Audio.Byte>>, string>,
                                 existing: string, w: Speech.Outcomes, m: Speech.MergeOutcomes, i: nat)
    requires rec.Valid()
    requires var effects := Processing(rec, stopped, existing, w, m).0; i < |effects| && effects[i].WriteContext?
    ensures var (effects, stored) := Processing(rec, stopped, existing, w, m);
      && 3 <= i < |effects| - 1
      && effects[i - 3] == ReadContext
      && effects[i - 1].Merged? && effects[i - 1].existing == existing
      && rec.MergeContext(existing, effects[i - 1].addition, m).0 == effects[i].content
      && effects[i + 1] == AddHistory(existing, effects[i - 1].addition, effects[i].content)
      && stored == Some((effects[i - 1].addition, effects[i].content))
  {
    match stopped
    case Success(Some(audio)) =>
      var (text, heard) := rec.Transcription(audio, w);
      var merge := if Usable(text) then rec.MergeContext(existing, text.value, m) else ("", []);
      StagesWrite(audio, text, heard, existing, merge, i);
    case _ =>
  }

  /** On success the merge is the one `merge_context` gives for the old context and the new text. */
  lemma SuccessStoresMerge(rec: Speech.SpeechRecognizer, audio: seq<Audio.Byte>,
                           existing: string, w: Speech.Outcomes, m: Speech.MergeOutcomes)
    requires rec.Valid() && Usable(rec.Transcription(audio, w).0)
    ensures var text := rec.Transcription(audio, w).0.value;
      var (effects, stored) := Processing(rec, Success(Some(audio)), existing, w, m);
      && stored == Some((text, rec.MergeContext(existing, text, m).0))
      && effects[|effects| - 1] == Notify(DoneNotice(text))
  {
  }

  /** ContextSwitcher: the `processing` flag, its collaborators, and the status bar's log. */
  class ContextSwitcher {
    const recorder: Audio.AudioRecorder
    const recognizer: Speech.SpeechRecognizer
    const store: ContextStore
    var processing: bool
    var log: seq<Effect>

    ghost predicate Valid()
      reads this, recorder
    {
      recorder.Valid() && recognizer.Valid()
    }

    /** `__init__`: a recorder with the configured format, not processing, nothing shown yet. */
    constructor (settings: Speech.Settings, credentials: Oss.Credentials, context: string)
      ensures Valid() && fresh(recorder) && fresh(store)
      ensures recorder.sampleRate == Config.SAMPLE_RATE && recorder.channels == Config.CHANNELS
      ensures !recorder.recording && recorder.audioData == []
      ensures recognizer.settings == settings && store.context == context && store.history == []
      ensures !processing && log == []
    {
      recorder := new Audio.AudioRecorder(Config.SAMPLE_RATE, Config.CHANNELS);
      recognizer := new Speech.SpeechRecognizer(settings, credentials);
      store := new ContextStore(context);
      processing := false;
      log := [];
    }

    /**
     * `_start_recording`: nothing while processing; otherwise the recorder is
     * started (its start callback lights the indicator when a session begins)
     * and the user is told.
     */
    method StartRecording()
      requires Valid()
      modifies this, recorder
      ensures Valid() && processing == old(processing)
      ensures old(processing) ==> unchanged(recorder) && log == old(log)
      ensures !old(processing) ==>
        && recorder.recording
        && recorder.audioData == (if old(recorder.recording) then old(recorder.audioData) else [])
        && log == old(log) + (if old(recorder.recording) then [] else [ShowRecording(true)])
                           + [ShowRecording(true), Notify(RECORDING_STARTED)]
    {
      if processing {
        return;
      }
      var started := recorder.StartRecording();
      if started {
        // `_on_recording_start`
        log := log + [ShowRecording(true)];
      }
      log := log + [ShowRecording(true), Notify(RECORDING_STARTED)];
    }

    /**
     * `_stop_recording`: nothing, and no processing spawned, unless the recorder is
     * recording; returns whether the processing thread is spawned.
     */
    method StopRecording() returns (spawned: bool)
      modifies this
      ensures spawned == recorder.recording
      ensures processing == old(processing)
      ensures log == old(log) + (if spawned then [ShowRecording(false), Notify(RECORDING_STOPPED)] else [])
    {
      if !recorder.IsRecording() {
        return false;
      }
      log := log + [ShowRecording(false), Notify(RECORDING_STOPPED)];
      spawned := true;
    }

    /**
     * The part of `_process_recording` after audio was obtained: transcribe, and
     * with a usable text read, merge, write and record history, telling the user
     * at each stage. Returns the effects and, as a ghost, what was stored.
     */
    method RecognizeAndStore(audio: seq<Audio.Byte>, w: Speech.Outcomes, m: Speech.MergeOutcomes)
      returns (shown: seq<Effect>, ghost stored: Option<(string, string)>)
      requires recognizer.Valid()
      modifies store
      ensures (shown, stored) == Processing(recognizer, Success(Some(audio)), old(store.context), w, m)
      ensures stored.None? ==> store.context == old(store.context) && store.history == old(store.history)
      ensures stored.Some? ==>
        && store.context == stored.value.1
        && store.history == old(store.history) + [HistoryEntry(old(store.context), stored.value.0, stored.value.1)]
    {
      ghost var context0 := store.context;
      stored := None;
      shown := [Notify(RECOGNIZING)];
      var text, heard := recognizer.TranscribeAudio(audio, w);
      shown := shown + [Transcribed(audio, heard)];
      if !Usable(text) {
        shown := shown + [Notify(RECOGNITION_FAILED)];
        assert shown == [Notify(RECOGNIZING), Transcribed(audio, heard), Notify(RECOGNITION_FAILED)];
        return;
      }
      var existing := store.ReadContext();
      shown := shown + [ReadContext, Notify(MERGING)];
      var merge := recognizer.MergeContext(existing, text.value, m);
      shown := shown + [Merged(existing, text.value, merge.1)];
      store.WriteContext(merge.0);
      shown := shown + [WriteContext(merge.0)];
      store.AddHistory(existing, text.value, merge.0);
      shown := shown + [AddHistory(existing, text.value, merge.0), Notify(DoneNotice(text.value))];
      stored := Some((text.value, merge.0));
      assert shown == [Notify(RECOGNIZING), Transcribed(audio, heard), ReadContext, Notify(MERGING),
                       Merged(existing, text.value, merge.1), WriteContext(merge.0),
                       AddHistory(existing, text.value, merge.0), Notify(DoneNotice(text.value))];
    }

    /**
     * `_process_recording`, run to completion: the recorder is stopped and its
     * audio taken through `Processing`; the flag is down again on every path.
     */
    method ProcessRecording(w: Speech.Outcomes, m: Speech.MergeOutcomes)
      requires Valid()
      modifies this, recorder, store
      ensures Valid() && !processing
      ensures !recorder.recording && recorder.audioData == old(recorder.audioData)
      ensures var stopped :=
          if old(recorder.recording) then Audio.Saved(recorder.channels, recorder.sampleRate, old(recorder.audioData))
          else Success(None);
        var (effects, stored) := Processing(recognizer, stopped, old(store.context), w, m);
        && log == old(log) + (if old(recorder.recording) then [ShowRecording(false)] else []) + effects
        && (stored.None? ==> store.context == old(store.context) && store.history == old(store.history))
        && (stored.Some? ==>
              && store.context == stored.value.1
              && store.history == old(store.history) + [HistoryEntry(old(store.context), stored.value.0, stored.value.1)])
    {
      processing := true;
      var callback: seq<Effect> := [];
      var shown: seq<Effect>;
      ghost var stored: Option<(string, string)> := None;
      // try:
      if recorder.recording {
        // `_on_recording_stop` fires inside `stop_recording`
        callback := [ShowRecording(false)];
      }
      var stopped := recorder.StopRecording();
      match stopped {
        case Failure(e) =>
          // except Exception as e:
          shown := [Notify(ErrorNotice(e))];
        case Success(None) =>
          shown := [Notify(NO_AUDIO)];
        case Success(Some(audio)) =>
          shown, stored := RecognizeAndStore(audio, w, m);
      }
      log := log + callback + shown;
      // finally:
      processing := false;
    }
  }
}
