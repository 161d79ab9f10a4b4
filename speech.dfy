/**
 * Transcription and merging (speech_recognition.py). Every answer a remote
 * service gives — the recognition job, the transcript download, the chat
 * completion, the `gemini` command — is a parameter, and each operation returns
 * the calls it made, in order, next to its result.
 */
module Speech {
  import opened Wrappers
  import PyText
  import Audio
  import Oss
  import opened PyJson

  const HTTP_OK := 200

  /** `language_hints` of every recognition job. */
  const LANGUAGE_HINTS := ["zh", "en"]

  /** The extension staged uploads are stored under. */
  const WAV := "wav"

  const WHISPER_MODEL := "whisper-1"
  const WHISPER_LANGUAGE := "zh"

  // ---------------------------------------------------------------------------
  // Reading the text out of a transcript payload
  // ---------------------------------------------------------------------------

  /** What the extraction ends with: a value to return, nothing found, or a raise. */
  datatype Extraction = Found(text: Json) | NoText | Raised

  /** `s.get('text', '')` for one sentence object. */
  function SentenceField(fields: map<string, Json>): Json {
    if "text" in fields then fields["text"] else JStr("")
  }

  /** A sentence the join accepts: an object whose text, if any, is a string. */
  predicate GoodSentence(v: Json) {
    v.JObj? && SentenceField(v.fields).JStr?
  }

  /**
   * `[s.get('text', '') for s in sentences]`, ready for `' '.join`: the texts,
   * '' where missing, or None when an element has no `get` or a text is no string.
   */
  function SentenceTexts(items: seq<Json>): (r: Option<seq<string>>)
    ensures r.Some? <==> forall i :: 0 <= i < |items| ==> GoodSentence(items[i])
    ensures r.Some? ==> |r.value| == |items|
    ensures r.Some? ==> forall i :: 0 <= i < |items| ==> r.value[i] == SentenceField(items[i].fields).s
  {
    if items == [] then Some([])
    else if !GoodSentence(items[0]) then None
    else
      match SentenceTexts(items[1..])
      case None => None
      case Some(rest) => Some([SentenceField(items[0].fields).s] + rest)
  }

  /**
   * `' '.join([...])` over a non-empty `sentences` value: only a list can be
   * joined; iterating a string or an object yields strings, which have no `get`,
   * and other values are not iterable.
   */
  function JoinedSentences(sentences: Json): Extraction {
    match sentences
    case JArr(items) =>
      (match SentenceTexts(items)
       case None => Raised
       case Some(texts) => Found(JStr(PyText.Join(" ", texts))))
    case _ => Raised
  }

  /** The last resort: a top-level `text`, else nothing. */
  function TopLevelText(result: Json): Extraction {
    match Contains(result, "text")
    case None => Raised
    case Some(has) =>
      if !has then NoText
      else
        match Item(result, "text")
        case None => Raised
        case Some(v) => Found(v)
  }

  /** What the first transcript yields: its `text`, else its joined sentences, else the top level. */
  function FromTranscript(result: Json, transcript: Json): Extraction {
    match Contains(transcript, "text")
    case None => Raised
    case Some(hasText) =>
      if hasText then
        match Item(transcript, "text")
        case None => Raised
        case Some(v) => Found(v)
      else
        match Contains(transcript, "sentences")
        case None => Raised
        case Some(hasSentences) =>
          if !hasSentences then TopLevelText(result)
          else
            match Item(transcript, "sentences")
            case None => Raised
            case Some(sentences) =>
              if Truthy(sentences) then JoinedSentences(sentences) else TopLevelText(result)
  }

  /** The extraction applied to a downloaded transcript payload, Python's semantics throughout. */
  function ExtractText(result: Json): (r: Extraction)
    ensures !(result.JObj? || result.JArr? || result.JStr?) ==> r == Raised
    ensures result.JObj? && "transcripts" !in result.fields ==>
      r == if "text" in result.fields then Found(result.fields["text"]) else NoText
  {
    match Contains(result, "transcripts")
    case None => Raised
    case Some(hasTranscripts) =>
      if !hasTranscripts then TopLevelText(result)
      else
        match Item(result, "transcripts")
        case None => Raised
        case Some(transcripts) =>
          if !Truthy(transcripts) then TopLevelText(result)
          else
            match First(transcripts)
            case None => Raised
            case Some(transcript) => FromTranscript(result, transcript)
  }

  /** The first transcript of an object payload, when there is one. */
  predicate HasFirstTranscript(result: Json) {
    && result.JObj? && "transcripts" in result.fields
    && result.fields["transcripts"].JArr? && result.fields["transcripts"].items != []
    && result.fields["transcripts"].items[0].JObj?
  }

  /** A first transcript with a `text` gives that value, whatever else is there. */
  lemma TranscriptTextFirst(result: Json)
    requires HasFirstTranscript(result)
    requires "text" in result.fields["transcripts"].items[0].fields
    ensures ExtractText(result) == Found(result.fields["transcripts"].items[0].fields["text"])
  {
  }

  /**
   * Without a `text`, a first transcript with a non-empty list of sentences gives
   * their texts ('' where missing) joined by single spaces.
   */
  lemma SentencesJoined(result: Json, texts: seq<string>)
    requires HasFirstTranscript(result)
    requires var t := result.fields["transcripts"].items[0].fields;
      && "text" !in t && "sentences" in t && t["sentences"].JArr? && t["sentences"].items != []
      && |texts| == |t["sentences"].items|
      && forall i :: 0 <= i < |texts| ==>
           t["sentences"].items[i].JObj? && SentenceField(t["sentences"].items[i].fields) == JStr(texts[i])
    ensures ExtractText(result) == Found(JStr(PyText.Join(" ", texts)))
  {
    var items := result.fields["transcripts"].items[0].fields["sentences"].items;
    assert forall i :: 0 <= i < |items| ==> GoodSentence(items[i]);
    assert SentenceTexts(items).value == texts;
  }

  /**
   * An object payload whose transcripts are missing or empty, or whose first
   * transcript has neither a `text` nor any sentences, gives its top-level `text`,
   * and nothing when that is missing too.
   */
  lemma TopLevelFallback(result: Json)
    requires result.JObj?
    requires
      || !("transcripts" in result.fields && Truthy(result.fields["transcripts"]))
      || (&& HasFirstTranscript(result)
          && var t := result.fields["transcripts"].items[0].fields;
             "text" !in t && !("sentences" in t && Truthy(t["sentences"])))
    ensures ExtractText(result) == if "text" in result.fields then Found(result.fields["text"]) else NoText
  {
  }

  // ---------------------------------------------------------------------------
  // The recognition job and its calls
  // ---------------------------------------------------------------------------

  /** The audio a job is given: a staged object's signed URL, or a local path. */
  datatype FileRef = StagedFile(url: Oss.SignedUrl) | LocalFile(path: string)

  /** The prompt a merge sends; its wording is not part of this model, only what it is built from. */
  datatype Prompt = Prompt(existing: string, addition: string, time: Oss.DateTime)

  /** A call to the outside world, in the order the code makes them. */
  datatype Call =
    | Upload(key: string)
    | Submit(model: string, file: FileRef, hints: seq<string>)
    | Wait(taskId: string)
    | Fetch(url: string)
    | Delete(key: string)
    | CreateTemp(path: string, data: seq<Audio.Byte>)
    | Unlink(path: string)
    | Whisper(model: string, data: seq<Audio.Byte>, language: string)
    | Chat(model: string, prompt: Prompt)
    | Generate(model: string, prompt: Prompt)
    | RunGemini(prompt: Prompt, project: string, timeout: int)

  /** No call deletes a staged object. */
  predicate DeletesNothing(calls: seq<Call>) {
    forall i :: 0 <= i < |calls| ==> !calls[i].Delete?
  }

  /** How many staged objects a sequence of calls deletes. */
  function Deletes(calls: seq<Call>): nat {
    if calls == [] then 0 else (if calls[0].Delete? then 1 else 0) + Deletes(calls[1..])
  }

  lemma {:induction false} DeletesNone(calls: seq<Call>)
    requires DeletesNothing(calls)
    ensures Deletes(calls) == 0
  {
    if calls != [] {
      DeletesNone(calls[1..]);
    }
  }

  lemma {:induction false} DeletesAppend(a: seq<Call>, b: seq<Call>)
    ensures Deletes(a + b) == Deletes(a) + Deletes(b)
  {
    if a == [] {
      assert a + b == b;
    } else {
      assert (a + b)[1..] == a[1..] + b;
      DeletesAppend(a[1..], b);
    }
  }

  /** `Transcription.async_call` either hands back a task or raises. */
  datatype SubmitOutcome = Submitted(taskId: string) | SubmitRaised

  /** `Transcription.wait` either hands back a status and an output, or raises. */
  datatype WaitOutcome = Finished(status: int, output: Json) | WaitRaised

  /** Downloading and parsing the transcript either gives a payload or raises. */
  datatype FetchOutcome = Fetched(payload: Json) | FetchRaised

  /** The service's answers to the one job a transcription runs. */
  datatype Job = Job(submit: SubmitOutcome, wait: WaitOutcome, fetch: FetchOutcome)

  /** Submitting the job and waiting for it: the finished status and output, or None after a raise. */
  function Await(model: string, file: FileRef, job: Job): (r: (Option<(int, Json)>, seq<Call>))
    ensures DeletesNothing(r.1)
    ensures r.1 != [] && r.1[0] == Submit(model, file, LANGUAGE_HINTS)
    ensures r.0.Some? <==> job.submit.Submitted? && job.wait.Finished?
    ensures r.0.Some? ==> r.0.value == (job.wait.status, job.wait.output)
  {
    var submit := Submit(model, file, LANGUAGE_HINTS);
    match job.submit
    case SubmitRaised => (None, [submit])
    case Submitted(taskId) =>
      match job.wait
      case WaitRaised => (None, [submit, Wait(taskId)])
      case Finished(status, output) => (Some((status, output)), [submit, Wait(taskId)])
  }

  /** The result listing a finished job points to. */
  datatype UrlLookup = UrlAt(url: string) | NoUrl | UrlRaised

  /** `output.get('results', [])`, its first entry's `transcription_url`, each tested for truth. */
  function ResultUrl(output: Json): UrlLookup {
    match Get(output, "results", JArr([]))
    case None => UrlRaised
    case Some(results) =>
      if !Truthy(results) then NoUrl
      else
        match First(results)
        case None => UrlRaised
        case Some(first) =>
          match Get(first, "transcription_url", JNull)
          case None => UrlRaised
          case Some(url) =>
            if !Truthy(url) then NoUrl
            // `urlopen` of anything but a string raises
            else if url.JStr? then UrlAt(url.s) else UrlRaised
  }

  /** The output of a job lists, first, an object whose `transcription_url` is `url`. */
  predicate ListsUrl(output: Json, url: string) {
    && output.JObj? && "results" in output.fields
    && output.fields["results"].JArr? && output.fields["results"].items != []
    && output.fields["results"].items[0].JObj?
    && "transcription_url" in output.fields["results"].items[0].fields
    && output.fields["results"].items[0].fields["transcription_url"] == JStr(url)
  }

  /** The transcript is downloaded from exactly the non-empty URL the first result names. */
  lemma ResultUrlSpec(output: Json, url: string)
    ensures ResultUrl(output) == UrlAt(url) <==> ListsUrl(output, url) && url != ""
  {
  }

  /**
   * After the job finished: a non-200 status gives None; otherwise the transcript
   * the result names is downloaded and the extraction applied to it.
   */
  function Collect(status: int, output: Json, fetch: FetchOutcome): (r: (Option<Json>, seq<Call>))
    ensures DeletesNothing(r.1)
    ensures status != HTTP_OK ==> r == (None, [])
    ensures r.1 != [] <==> status == HTTP_OK && ResultUrl(output).UrlAt?
    ensures r.1 != [] ==> r.1 == [Fetch(ResultUrl(output).url)]
    ensures r.0.Some? <==> r.1 != [] && fetch.Fetched? && ExtractText(fetch.payload).Found?
    ensures r.0.Some? ==> r.0.value == ExtractText(fetch.payload).text
  {
    if status != HTTP_OK then (None, [])
    else
      match ResultUrl(output)
      case UrlAt(url) =>
        var text :=
          match fetch
          case FetchRaised => None
          case Fetched(payload) =>
            (match ExtractText(payload)
             case Found(v) => Some(v)
             case _ => None);
        (text, [Fetch(url)])
      case _ => (None, [])
  }

  /** `_transcribe_with_local_file`; `temp` is the path of the temporary file, None when creating it raised. */
  function LocalFileTranscription(model: string, audio: seq<Audio.Byte>, temp: Option<string>, job: Job)
    : (r: (Option<Json>, seq<Call>))
    ensures DeletesNothing(r.1)
    ensures temp.None? ==> r == (None, [])
    ensures temp.Some? ==> |r.1| >= 2 && r.1[..2] == [CreateTemp(temp.value, audio), Submit(model, LocalFile(temp.value), LANGUAGE_HINTS)]
    // the file is removed once the job finished; a raise during submit or wait leaves it behind
    ensures temp.Some? ==> (Unlink(temp.value) in r.1 <==> job.submit.Submitted? && job.wait.Finished?)
    ensures r.0.Some? ==> job.submit.Submitted? && job.wait.Finished? && job.wait.status == HTTP_OK
    // once the job finished, the text is what the transcript it names yields, fetched after the unlink
    ensures temp.Some? && job.submit.Submitted? && job.wait.Finished? ==>
      var collected := Collect(job.wait.status, job.wait.output, job.fetch);
      && r.0 == collected.0
      && r.1 == [CreateTemp(temp.value, audio), Submit(model, LocalFile(temp.value), LANGUAGE_HINTS),
                 Wait(job.submit.taskId), Unlink(temp.value)] + collected.1
  {
    match temp
    case None => (None, [])
    case Some(path) =>
      var (finished, submitted) := Await(model, LocalFile(path), job);
      var created := [CreateTemp(path, audio)] + submitted;
      match finished
      case None =>
        assert Unlink(path) !in created;
        (None, created)
      case Some((status, output)) =>
        var (text, fetched) := Collect(status, output, job.fetch);
        (text, created + [Unlink(path)] + fetched)
  }

  /** `response.text` from the whisper endpoint, or a raise. */
  datatype WhisperOutcome = WhisperText(text: string) | WhisperRaised

  /** `_transcribe_with_openai`. */
  function WhisperTranscription(audio: seq<Audio.Byte>, o: WhisperOutcome): (r: (Option<string>, seq<Call>))
    ensures r.1 == [Whisper(WHISPER_MODEL, audio, WHISPER_LANGUAGE)]
    ensures r.0.Some? <==> o.WhisperText?
    ensures r.0.Some? ==> r.0.value == o.text
  {
    (match o case WhisperText(text) => Some(text) case WhisperRaised => None,
     [Whisper(WHISPER_MODEL, audio, WHISPER_LANGUAGE)])
  }

  /** Everything the outside world answers during one transcription. */
  datatype Outcomes = Outcomes(
    now: int, stamp: Oss.DateTime, id: Oss.Uuid, put: Oss.PutOutcome, delete: Oss.DeleteOutcome,
    temp: Option<string>, job: Job, whisper: WhisperOutcome)

  /** The value `transcribe_audio` hands on as text: a string result; any other JSON value is dropped. */
  function AsText(v: Option<Json>): (r: Option<string>)
    ensures r.Some? <==> v.Some? && v.value.JStr?
    ensures r.Some? ==> v.value == JStr(r.value)
  {
    match v
    case Some(JStr(s)) => Some(s)
    case _ => None
  }

  // ---------------------------------------------------------------------------
  // Merging
  // ---------------------------------------------------------------------------

  /** The three merge backends. */
  datatype Backend = DashScopeBackend | GeminiBackend | OpenAiBackend

  /** The provider setting, compared case-insensitively; anything unknown means OpenAI. */
  function SelectBackend(provider: string): (b: Backend)
    ensures b == DashScopeBackend <==> PyText.Lower(provider) == "dashscope"
    ensures b == GeminiBackend <==> PyText.Lower(provider) == "gemini"
    ensures b == OpenAiBackend <==> PyText.Lower(provider) != "dashscope" && PyText.Lower(provider) != "gemini"
  {
    if PyText.Lower(provider) == "dashscope" then DashScopeBackend
    else if PyText.Lower(provider) == "gemini" then GeminiBackend
    else OpenAiBackend
  }

  /** The chat completion's `choices[0].message.content`, or a raise with its message. */
  datatype ChatOutcome = ChatReply(content: string) | ChatRaised(message: string)

  /** `Generation.call`'s status, `output.text` and `message`, or a raise. */
  datatype GenerationOutcome = Generated(status: int, text: string, message: string) | GenerationRaised(message: string)

  /** `subprocess.run` of the `gemini` command: exit code and captured output, a timeout, no such command, or another raise. */
  datatype RunOutcome = Exited(returnCode: int, stdout: string, stderr: string) | TimedOut | NotInstalled | RunRaised(message: string)

  /** Everything the outside world answers during one merge; `time` is `datetime.now()`. */
  datatype MergeOutcomes = MergeOutcomes(time: Oss.DateTime, chat: ChatOutcome, generation: GenerationOutcome, run: RunOutcome)

  const DASHSCOPE_ERROR := "DashScope API错误: "
  const NO_PROJECT := "未设置 GOOGLE_CLOUD_PROJECT 环境变量"
  const GEMINI_FAILED := "Gemini命令执行失败: "
  const GEMINI_TIMED_OUT := "Gemini命令执行超时"
  const GEMINI_MISSING := "未找到gemini命令，请确保已安装Google Cloud CLI"
  const GEMINI_TIMEOUT_SECONDS := 60

  /** What `merge_context` appends when the backend raised. */
  const FALLBACK_HEADING := "\n\n## 新内容\n"

  /** `_merge_with_openai`: the reply, or the raise passed on. */
  function MergeWithOpenai(model: string, prompt: Prompt, o: ChatOutcome): (r: (Result<string, string>, seq<Call>))
    ensures r.1 == [Chat(model, prompt)]
    ensures r.0.Success? <==> o.ChatReply?
    ensures o.ChatReply? ==> r.0 == Success(o.content)
    ensures o.ChatRaised? ==> r.0 == Failure(o.message)
  {
    (match o case ChatReply(content) => Success(content) case ChatRaised(message) => Failure(message),
     [Chat(model, prompt)])
  }

  /** `_merge_with_dashscope`: the output text on status 200, otherwise a raise naming the service's message. */
  function MergeWithDashscope(model: string, prompt: Prompt, o: GenerationOutcome): (r: (Result<string, string>, seq<Call>))
    ensures r.1 == [Generate(model, prompt)]
    ensures r.0.Success? <==> o.Generated? && o.status == HTTP_OK
    ensures r.0.Success? ==> r.0.value == o.text
    ensures o.Generated? && o.status != HTTP_OK ==> r.0 == Failure(DASHSCOPE_ERROR + o.message)
  {
    var result :=
      match o
      case Generated(status, text, message) =>
        if status == HTTP_OK then Success(text) else Failure(DASHSCOPE_ERROR + message)
      case GenerationRaised(message) => Failure(message);
    (result, [Generate(model, prompt)])
  }

  /**
   * `_merge_with_gemini`: without a project it raises before running anything;
   * otherwise it runs `gemini -p <prompt>` and answers the stripped standard
   * output on exit code 0, and raises with the stripped standard error otherwise.
   */
  function MergeWithGemini(project: string, prompt: Prompt, o: RunOutcome): (r: (Result<string, string>, seq<Call>))
    ensures project == "" ==> r == (Failure(NO_PROJECT), [])
    ensures project != "" ==> r.1 == [RunGemini(prompt, project, GEMINI_TIMEOUT_SECONDS)]
    ensures r.0.Success? <==> project != "" && o.Exited? && o.returnCode == 0
    ensures r.0.Success? ==> r.0.value == PyText.Strip(o.stdout)
    ensures project != "" && o.Exited? && o.returnCode != 0 ==> r.0 == Failure(GEMINI_FAILED + PyText.Strip(o.stderr))
  {
    if project == "" then (Failure(NO_PROJECT), [])
    else
      var result :=
        match o
        case Exited(code, stdout, stderr) =>
          if code == 0 then Success(PyText.Strip(stdout)) else Failure(GEMINI_FAILED + PyText.Strip(stderr))
        case TimedOut => Failure(GEMINI_TIMED_OUT)
        case NotInstalled => Failure(GEMINI_MISSING)
        case RunRaised(message) => Failure(message);
      (result, [RunGemini(prompt, project, GEMINI_TIMEOUT_SECONDS)])
  }

  /** The text `merge_context` falls back to: the old context, a heading, the new text. */
  function Concatenated(existing: string, addition: string): (r: string)
    ensures |r| == |existing| + |FALLBACK_HEADING| + |addition|
    ensures r[..|existing|] == existing
    ensures r[|existing|..|existing| + |FALLBACK_HEADING|] == FALLBACK_HEADING
    ensures r[|r| - |addition|..] == addition
  {
    existing + FALLBACK_HEADING + addition
  }

  /** The settings the recognizer reads from the environment. */
  datatype Settings = Settings(
    dashscopeKey: string, asrModel: string, mergeProvider: string, mergeModel: string, googleCloudProject: string)

  /** SpeechRecognizer: its settings and the staging uploader it owns. */
  class SpeechRecognizer {
    const settings: Settings
    const uploader: Oss.OssUploader

    ghost predicate Valid() {
      uploader.Valid()
    }

    constructor (settings: Settings, credentials: Oss.Credentials)
      ensures this.settings == settings && uploader.credentials == credentials
      ensures Valid()
    {
      this.settings := settings;
      uploader := new Oss.OssUploader(credentials);
    }

    /** What `_transcribe_with_dashscope` returns and calls. */
    function DashscopeTranscription(audio: seq<Audio.Byte>, w: Outcomes): (r: (Option<Json>, seq<Call>))
      requires Valid()
      ensures r.0.Some? ==> w.job.submit.Submitted? && w.job.wait.Finished? && w.job.wait.status == HTTP_OK
      ensures uploader.IsConfigured() ==> r.1 != [] && r.1[0] == Upload(Oss.ObjectKey(w.stamp, w.id, WAV))
    {
      if !uploader.IsConfigured() then LocalFileTranscription(settings.asrModel, audio, w.temp, w.job)
      else
        var staged := [Upload(Oss.ObjectKey(w.stamp, w.id, WAV))];
        var (url, key) := uploader.UploadAudio(audio, WAV, w.now, w.stamp, w.id, w.put);
        if url.None? then
          var (text, local) := LocalFileTranscription(settings.asrModel, audio, w.temp, w.job);
          (text, staged + local)
        else
          var (finished, submitted) := Await(settings.asrModel, StagedFile(url.value), w.job);
          if finished.None? then (None, staged + submitted + [Delete(key.value)])
          else
            var (text, fetched) := Collect(finished.value.0, finished.value.1, w.job.fetch);
            (text, staged + submitted + fetched + [Delete(key.value)])
    }

    /**
     * `_transcribe_with_dashscope`, step by step: stage the audio, fall back to the
     * local file when staging is unavailable, run the job, and in the `finally`
     * delete the staged object whenever a key was obtained.
     */
    method TranscribeWithDashscope(audio: seq<Audio.Byte>, w: Outcomes) returns (text: Option<Json>, calls: seq<Call>)
      requires Valid()
      ensures (text, calls) == DashscopeTranscription(audio, w)
    {
      var ossUrl: Option<Oss.SignedUrl> := None;
      var objectKey: Option<string> := None;
      text, calls := None, [];
      // try:
      if uploader.IsConfigured() {
        calls := [Upload(Oss.ObjectKey(w.stamp, w.id, WAV))];
        var staged := uploader.UploadAudio(audio, WAV, w.now, w.stamp, w.id, w.put);
        ossUrl, objectKey := staged.0, staged.1;
      }
      if ossUrl.None? {
        var local := LocalFileTranscription(settings.asrModel, audio, w.temp, w.job);
        assert [] + local.1 == local.1;
        text, calls := local.0, calls + local.1;
      } else {
        var submit := Submit(settings.asrModel, StagedFile(ossUrl.value), LANGUAGE_HINTS);
        calls := calls + [submit];
        match w.job.submit {
          case SubmitRaised =>
          case Submitted(taskId) =>
            calls := calls + [Wait(taskId)];
            assert calls == [calls[0]] + [submit, Wait(taskId)];
            match w.job.wait {
              case WaitRaised =>
              case Finished(status, output) =>
                var collected := Collect(status, output, w.job.fetch);
                text, calls := collected.0, calls + collected.1;
            }
        }
      }
      // finally:
      if objectKey.Some? {
        var _ := uploader.DeleteAudio(objectKey.value, w.delete);
        calls := calls + [Delete(objectKey.value)];
      }
    }

    /** What `transcribe_audio` returns and calls: DashScope when its key is set, whisper otherwise. */
    function Transcription(audio: seq<Audio.Byte>, w: Outcomes): (r: (Option<string>, seq<Call>))
      requires Valid()
      ensures settings.dashscopeKey == "" ==>
        r.1 == [Whisper(WHISPER_MODEL, audio, WHISPER_LANGUAGE)] && (r.0.Some? <==> w.whisper.WhisperText?)
      ensures settings.dashscopeKey != "" && r.0.Some? ==> w.job.wait.Finished? && w.job.wait.status == HTTP_OK
    {
      if settings.dashscopeKey != "" then
        var (text, calls) := DashscopeTranscription(audio, w);
        (AsText(text), calls)
      else WhisperTranscription(audio, w.whisper)
    }

    /** `transcribe_audio`; neither path raises, so its `except` is never taken. */
    method TranscribeAudio(audio: seq<Audio.Byte>, w: Outcomes) returns (text: Option<string>, calls: seq<Call>)
      requires Valid()
      ensures (text, calls) == Transcription(audio, w)
    {
      if settings.dashscopeKey != "" {
        var found;
        found, calls := TranscribeWithDashscope(audio, w);
        text := AsText(found);
      } else {
        var whispered := WhisperTranscription(audio, w.whisper);
        text, calls := whispered.0, whispered.1;
      }
    }

    /** The backend's answer to the merge prompt. */
    function MergeResult(prompt: Prompt, m: MergeOutcomes): (Result<string, string>, seq<Call>) {
      match SelectBackend(settings.mergeProvider)
      case DashScopeBackend => MergeWithDashscope(settings.mergeModel, prompt, m.generation)
      case GeminiBackend => MergeWithGemini(settings.googleCloudProject, prompt, m.run)
      case OpenAiBackend => MergeWithOpenai(settings.mergeModel, prompt, m.chat)
    }

    /** `merge_context`: the backend's answer, or the plain concatenation when it raised. */
    function MergeContext(existing: string, addition: string, m: MergeOutcomes): (r: (string, seq<Call>))
      ensures var result := MergeResult(Prompt(existing, addition, m.time), m);
        && r.1 == result.1
        && (result.0 == Success(r.0) || r.0 == Concatenated(existing, addition))
    {
      var (result, calls) := MergeResult(Prompt(existing, addition, m.time), m);
      match result
      case Success(merged) => (merged, calls)
      case Failure(_) => (Concatenated(existing, addition), calls)
    }
  }

  /** A staged upload exists: the uploader is configured and the put answered 200. */
  predicate Staged(rec: SpeechRecognizer, w: Outcomes)
    requires rec.Valid()
  {
    rec.uploader.IsConfigured() && w.put == Oss.PutStatus(Oss.HTTP_OK)
  }

  /**
   * Without staging — no configuration, or an upload that gave no URL — the
   * transcription is the local-file one, after the attempted upload if any.
   */
  lemma UnstagedUsesLocalFile(rec: SpeechRecognizer, audio: seq<Audio.Byte>, w: Outcomes)
    requires rec.Valid() && !Staged(rec, w)
    ensures var local := LocalFileTranscription(rec.settings.asrModel, audio, w.temp, w.job);
      var r := rec.DashscopeTranscription(audio, w);
      && r.0 == local.0
      && r.1 == (if rec.uploader.IsConfigured() then [Upload(Oss.ObjectKey(w.stamp, w.id, WAV))] else []) + local.1
  {
  }

  /**
   * The `finally` clean-up: when the upload gave a key, exactly one delete is
   * made, of that key, and it is the last call; without a key nothing is deleted.
   */
  lemma StagedObjectDeletedOnce(rec: SpeechRecognizer, audio: seq<Audio.Byte>, w: Outcomes)
    requires rec.Valid()
    ensures var calls := rec.DashscopeTranscription(audio, w).1;
      && Deletes(calls) == (if Staged(rec, w) then 1 else 0)
      && (Staged(rec, w) ==> calls[|calls| - 1] == Delete(Oss.ObjectKey(w.stamp, w.id, WAV)))
  {
    var model := rec.settings.asrModel;
    var staged := [Upload(Oss.ObjectKey(w.stamp, w.id, WAV))];
    var (url, key) := rec.uploader.UploadAudio(audio, WAV, w.now, w.stamp, w.id, w.put);
    var local := LocalFileTranscription(model, audio, w.temp, w.job).1;
    if !rec.uploader.IsConfigured() {
      DeletesNone(local);
    } else if url.None? {
      DeletesNone(staged + local);
    } else {
      var (finished, submitted) := Await(model, StagedFile(url.value), w.job);
      if finished.None? {
        DeletesNone(staged + submitted);
        DeletesAppend(staged + submitted, [Delete(key.value)]);
      } else {
        var fetched := Collect(finished.value.0, finished.value.1, w.job.fetch).1;
        DeletesNone(staged + submitted + fetched);
        DeletesAppend(staged + submitted + fetched, [Delete(key.value)]);
      }
    }
  }

  /**
   * With a staged upload, the job is given the signed URL of the staged key, and
   * the text is what the job's transcript yields.
   */
  lemma StagedFileTranscribed(rec: SpeechRecognizer, audio: seq<Audio.Byte>, w: Outcomes)
    requires rec.Valid() && Staged(rec, w)
    ensures var key := Oss.ObjectKey(w.stamp, w.id, WAV);
      var url := Oss.SignedUrl("GET", rec.uploader.bucket.value, key, w.now + Oss.URL_LIFETIME);
      var r := rec.DashscopeTranscription(audio, w);
      && r.1[1] == Submit(rec.settings.asrModel, StagedFile(url), LANGUAGE_HINTS)
      && r.0 == (if w.job.submit.Submitted? && w.job.wait.Finished?
                 then Collect(w.job.wait.status, w.job.wait.output, w.job.fetch).0 else None)
  {
  }

  /** `transcribe_audio` takes the DashScope path exactly when its key is set. */
  lemma TranscriptionDispatch(rec: SpeechRecognizer, audio: seq<Audio.Byte>, w: Outcomes)
    requires rec.Valid()
    ensures var r := rec.Transcription(audio, w);
      if rec.settings.dashscopeKey != "" then
        r == (AsText(rec.DashscopeTranscription(audio, w).0), rec.DashscopeTranscription(audio, w).1)
      else r == WhisperTranscription(audio, w.whisper) && r.1 == [Whisper(WHISPER_MODEL, audio, WHISPER_LANGUAGE)]
  {
  }

  /** A backend that answers decides the merged text; one that raises leaves the plain concatenation. */
  lemma MergeOutcome(rec: SpeechRecognizer, existing: string, addition: string, m: MergeOutcomes)
    ensures var result := rec.MergeResult(Prompt(existing, addition, m.time), m);
      var merged := rec.MergeContext(existing, addition, m);
      && merged.1 == result.1
      && (result.0.Success? ==> merged.0 == result.0.value)
      && (result.0.Failure? ==> merged.0 == existing + FALLBACK_HEADING + addition)
  {
  }

  /** The fallback loses nothing: the old context is kept whole at the front and the new text whole at the end. */
  lemma FallbackKeepsBoth(rec: SpeechRecognizer, existing: string, addition: string, m: MergeOutcomes)
    requires rec.MergeResult(Prompt(existing, addition, m.time), m).0.Failure?
    ensures var merged := rec.MergeContext(existing, addition, m).0;
      && merged[..|existing|] == existing
      && merged[|merged| - |addition|..] == addition
      && |merged| == |existing| + |FALLBACK_HEADING| + |addition|
  {
  }

  /** The provider decides which service is called, and only that one is called, once. */
  lemma MergeCallsOneBackend(rec: SpeechRecognizer, existing: string, addition: string, m: MergeOutcomes)
    ensures var prompt := Prompt(existing, addition, m.time);
      var calls := rec.MergeContext(existing, addition, m).1;
      match SelectBackend(rec.settings.mergeProvider)
      case DashScopeBackend => calls == [Generate(rec.settings.mergeModel, prompt)]
      case OpenAiBackend => calls == [Chat(rec.settings.mergeModel, prompt)]
      case GeminiBackend =>
        calls == if rec.settings.googleCloudProject == "" then []
                 else [RunGemini(prompt, rec.settings.googleCloudProject, GEMINI_TIMEOUT_SECONDS)]
  {
  }
}
