/**
 * The application object: the form fields it reads, the voice map and
 * selection it keeps, the generate flow with its ordered precondition checks,
 * the success/error dispatch of background work, voice loading and the run
 * history view. Background work runs here to completion in sequence: a task's
 * result is dispatched to exactly one of its success or error handlers, which
 * is what `_run_bg` intends; `RunBgAsWritten` models what its error path does
 * instead.
 */
module App {
  import opened Wrappers
  import opened Text
  import opened Errors
  import opened Extraction
  import opened Summarization
  import opened ElevenLabs
  import opened VoiceCatalog
  import opened LocalStore

  /** The warning dialogs, one per rejected precondition. */
  datatype Warning =
    | MissingPdf          // "Please select a valid PDF file."
    | MissingStyle        // "Please enter a style prompt."
    | MissingOpenAiKey    // "Please add your OpenAI API key in Settings."
    | MissingElevenKey    // "Please add your ElevenLabs API key in Settings."
    | MissingVoice        // "Please select a faculty voice."
    | MissingKeyForAdd    // "Please add your ElevenLabs API key in Settings first."
    | MissingNameOrAudio  // "Please provide a name and audio file."

  /** The calls made to the two remote services, in the order made. */
  datatype Request =
    | ChatCall(chat: ChatRequest)
    | ListVoicesCall(apiKey: string)
    | AddVoiceCall(apiKey: string, name: string, samplePath: string)
    | TtsCall(apiKey: string, voiceId: string, text: string, model: string)

  /** Where `_run_bg` means to deliver a finished background task: exactly one of the two handlers. */
  datatype Completion<T> = OnSuccess(value: T) | OnError(message: string)

  /** `_run_bg` as intended: a returned value goes to on_success, a raised error to on_error as `str(e)`. */
  function RunBg<T>(result: Result<T, Error>): (c: Completion<T>)
    ensures c.OnSuccess? <==> result.Ok?
    ensures c.OnSuccess? ==> c.value == result.value
    ensures c.OnError? ==> c.message == Message(result.error)
  {
    match result
    case Ok(v) => OnSuccess(v)
    case Err(e) => OnError(Message(e))
  }

  /**
   * `_run_bg` as written: the error callback reads the `except` variable after
   * the `except` clause has unbound it, so it raises NameError right after
   * stopping the progress bar and on_error never runs. Only a returned value
   * is delivered (`Some`); after a raised error no handler runs (`None`).
   */
  function RunBgAsWritten<T>(result: Result<T, Error>): (delivered: Option<T>)
    ensures delivered.Some? <==> result.Ok?
    ensures delivered.Some? ==> delivered.value == result.value
  {
    match result
    case Ok(v) => Some(v)
    case Err(_) => None
  }

  /** The two dispatches agree on every success and differ on every error. */
  lemma RunBgAsWrittenDiffers<T>(result: Result<T, Error>)
    ensures result.Ok? ==> RunBg(result) == OnSuccess(RunBgAsWritten(result).value)
    ensures result.Err? ==> RunBgAsWritten(result) == None && RunBg(result) == OnError(Message(result.error))
  {
  }

  /** The pdf path check: non-empty after stripping and naming an existing file. */
  predicate PdfAccepted(pdfPath: string, files: Files) {
    Strip(pdfPath) != "" && Strip(pdfPath) in files
  }

  /** The voice check: the stripped selection is non-empty and a key of the voice map. */
  predicate VoiceAccepted(selected: string, vm: VoiceMap) {
    Strip(selected) != "" && Strip(selected) in vm.ids
  }

  /**
   * The checks of `handle_generate`, in order; the first that fails decides
   * the one warning shown.
   */
  function ValidateGenerate(pdfPath: string, files: Files, styleText: string, openaiKey: string,
                            elevenKey: string, selected: string, vm: VoiceMap): (w: Option<Warning>)
  {
    var pdf := Strip(pdfPath);
    if pdf == "" || pdf !in files then Some(MissingPdf)
    else if Strip(styleText) == "" then Some(MissingStyle)
    else if Strip(openaiKey) == "" then Some(MissingOpenAiKey)
    else if Strip(elevenKey) == "" then Some(MissingElevenKey)
    else
      var vname := Strip(selected);
      if vname == "" || vname !in vm.ids then Some(MissingVoice) else None
  }

  /**
   * Each warning is shown exactly when every earlier check passed and its own
   * check failed; generation proceeds exactly when all five pass. A text
   * field passes when it holds a non-whitespace character.
   */
  lemma ValidateGenerateChecks(pdfPath: string, files: Files, styleText: string, openaiKey: string,
                               elevenKey: string, selected: string, vm: VoiceMap)
    ensures var w := ValidateGenerate(pdfPath, files, styleText, openaiKey, elevenKey, selected, vm);
            && (w.None? <==> PdfAccepted(pdfPath, files) && HasContent(styleText) && HasContent(openaiKey)
                             && HasContent(elevenKey) && VoiceAccepted(selected, vm))
            && (w == Some(MissingPdf) <==> !PdfAccepted(pdfPath, files))
            && (w == Some(MissingStyle) <==> PdfAccepted(pdfPath, files) && !HasContent(styleText))
            && (w == Some(MissingOpenAiKey) <==>
                  PdfAccepted(pdfPath, files) && HasContent(styleText) && !HasContent(openaiKey))
            && (w == Some(MissingElevenKey) <==>
                  PdfAccepted(pdfPath, files) && HasContent(styleText) && HasContent(openaiKey)
                  && !HasContent(elevenKey))
            && (w == Some(MissingVoice) <==>
                  PdfAccepted(pdfPath, files) && HasContent(styleText) && HasContent(openaiKey)
                  && HasContent(elevenKey) && !VoiceAccepted(selected, vm))
  {
    StripEmptyIff(styleText);
    StripEmptyIff(openaiKey);
    StripEmptyIff(elevenKey);
  }

  /** `Path(dir) / name` for a POSIX path. */
  function JoinPath(dir: string, name: string): (path: string) {
    if dir != [] && dir[|dir| - 1] == '/' then dir + name else dir + "/" + name
  }

  function OutputsDir(cwd: string): (dir: string) {
    JoinPath(cwd, "outputs")
  }

  /** `outputs/summary_<seconds>.mp3` under the working directory. */
  function AudioOutPath(cwd: string, seconds: nat): (path: string) {
    JoinPath(OutputsDir(cwd), "summary_" + NatToString(seconds) + ".mp3")
  }

  /** What a finished generate task produced: summary, audio path, and the files afterwards. */
  datatype TaskOutput = TaskOutput(summary: string, audioPath: string, files: Files)

  /** The generate task: summarize, then synthesize; the first stage to raise aborts the rest. */
  function GenerateTask(document: Result<seq<PageResult>, Error>, reply: Result<string, Error>,
                        tts: TtsResponse, audioOut: string, files: Files): (r: Result<TaskOutput, Error>)
  {
    match Summarize(document, reply)
    case Err(e) => Err(e)
    case Ok(summary) =>
      match ElevenTts(tts, audioOut, files)
      case Err(e) => Err(e)
      case Ok(written) => Ok(TaskOutput(summary, written.path, written.files))
  }

  /**
   * The task succeeds exactly when the document reads, the chat call answers
   * and synthesis answers 200; then the audio file holds the payload and no
   * other file changed, and otherwise no file changed at all.
   */
  lemma GenerateTaskOutcome(document: Result<seq<PageResult>, Error>, reply: Result<string, Error>,
                            tts: TtsResponse, audioOut: string, files: Files)
    ensures var r := GenerateTask(document, reply, tts, audioOut, files);
            && (r.Ok? <==> document.Ok? && reply.Ok? && tts.status == 200)
            && (r.Ok? ==> r.value.summary == Strip(reply.value) && r.value.audioPath == audioOut
                          && r.value.files == files[audioOut := tts.content])
            && (document.Ok? && reply.Ok? && tts.status != 200 ==>
                  r == Err(StatusError(tts.status, tts.text)))
  {
  }

  /**
   * A generate task whose synthesis call answers 500: the intended dispatch
   * hands "500: <body>" to the error handler, while as written nothing is
   * delivered (the resulting state is `App.LaunchGenerateAsWritten`'s).
   */
  lemma FailedSynthesisAsWritten(pages: seq<PageResult>, reply: string, body: string,
                                 content: seq<byte>, audioOut: string, files: Files)
    ensures var r := GenerateTask(Ok(pages), Ok(reply), TtsResponse(500, body, content), audioOut, files);
            && r == Err(StatusError(500, body))
            && RunBgAsWritten(r) == None
            && RunBg(r) == OnError("500: " + body)
  {
    var r := GenerateTask(Ok(pages), Ok(reply), TtsResponse(500, body, content), audioOut, files);
    GenerateTaskOutcome(Ok(pages), Ok(reply), TtsResponse(500, body, content), audioOut, files);
    assert NatToString(5) == "5";
    assert NatToString(50) == "50";
    assert NatToString(500) == "500";
    assert RunBg(r).message == "500: " + body;
  }

  /** The calls the generate task makes: chat once the document reads, speech once a summary exists. */
  function GenerateRequests(openaiKey: string, elevenKey: string, document: Result<seq<PageResult>, Error>,
                            stylePrompt: string, reply: Result<string, Error>, voiceId: string): (calls: seq<Request>)
  {
    match document
    case Err(_) => []
    case Ok(pages) =>
      [ChatCall(BuildRequest(openaiKey, Assemble(pages), stylePrompt))]
      + match Summarize(document, reply)
        case Ok(summary) => [TtsCall(elevenKey, voiceId, summary, TtsModel)]
        case Err(_) => []
  }

  /** Synthesis is requested only after a summary exists, and then after the single chat call. */
  lemma GenerateRequestsOrder(openaiKey: string, elevenKey: string, document: Result<seq<PageResult>, Error>,
                              stylePrompt: string, reply: Result<string, Error>, voiceId: string)
    ensures var rs := GenerateRequests(openaiKey, elevenKey, document, stylePrompt, reply, voiceId);
            && |rs| <= 2
            && (document.Err? <==> rs == [])
            && (rs != [] ==> rs[0].ChatCall?)
            && (|rs| == 2 <==> document.Ok? && reply.Ok?)
            && (|rs| == 2 ==> rs[1] == TtsCall(elevenKey, voiceId, Strip(reply.value), TtsModel))
  {
  }

  /** A row of the history view: created at, PDF, voice. */
  datatype HistoryRow = HistoryRow(createdAt: string, pdfPath: string, voiceName: string)

  function HistoryRows(runs: seq<RunRow>): (rows: seq<HistoryRow>) {
    var h := History(runs);
    seq(|h|, i requires 0 <= i < |h| => HistoryRow(h[i].createdAt, h[i].pdfPath, h[i].voiceName))
  }

  /** The outcome of pressing Generate. */
  datatype GenerateOutcome =
    | Rejected(warning: Warning)
      /** `mkdir(exist_ok=True)` raised because "outputs" is a regular file. */
    | OutputsDirBlocked
    | Finished(completion: Completion<TaskOutput>)

  const DefaultStyle: string := "Exam oriented, concise bullet points with formulas preserved where present."

  class App {
    const store: Store
    /** Regular files and directories on disk (only what the application touches). */
    var files: Files
    var dirs: set<string>
    /** The form: PDF path entry, style text box, the two key entries, the voice combobox. */
    var pdfPath: string
    var styleText: string
    var openaiKey: string
    var elevenKey: string
    var selectedVoiceName: string
    /** `self.voice_map`. */
    var voiceMap: VoiceMap
    /** Summary box, last audio path, the Save/Play button, status line, add-voice dialog status. */
    var summaryText: string
    var audioOutPath: Option<string>
    var saveAudioEnabled: bool
    var status: string
    var addVoiceStatus: string
    /** The rows of the history view. */
    var history: seq<HistoryRow>
    /** Every call made to the remote services. */
    var requests: seq<Request>

    ghost predicate Valid()
      reads this`voiceMap, store
    {
      store.Valid() && WellFormed(voiceMap)
    }

    /** `App.__init__` with `_build_ui`: keys read from settings, history filled, nothing selected. */
    constructor (store: Store, files: Files, dirs: set<string>)
      requires store.Valid()
      ensures Valid() && this.store == store && this.files == files && this.dirs == dirs
      ensures openaiKey == store.GetSetting("OPENAI_API_KEY") && elevenKey == store.GetSetting("ELEVEN_API_KEY")
      ensures pdfPath == "" && styleText == DefaultStyle && selectedVoiceName == ""
      ensures voiceMap == EmptyVoiceMap && summaryText == "" && audioOutPath == None && !saveAudioEnabled
      ensures history == HistoryRows(store.runs) && status == "Ready." && requests == []
    {
      this.store := store;
      this.files := files;
      this.dirs := dirs;
      openaiKey := store.GetSetting("OPENAI_API_KEY");
      elevenKey := store.GetSetting("ELEVEN_API_KEY");
      pdfPath := "";
      styleText := DefaultStyle;
      selectedVoiceName := "";
      voiceMap := EmptyVoiceMap;
      summaryText := "";
      audioOutPath := None;
      saveAudioEnabled := false;
      status := "Ready.";
      addVoiceStatus := "";
      history := HistoryRows(store.runs);
      requests := [];
    }

    /** The Save button of the settings dialog: both keys stored stripped. */
    method SaveKeys()
      requires Valid()
      modifies store
      ensures Valid()
      ensures store.settings == old(store.settings)["OPENAI_API_KEY" := Strip(openaiKey)]
                                                   ["ELEVEN_API_KEY" := Strip(elevenKey)]
      ensures store.voices == old(store.voices) && store.runs == old(store.runs)
    {
      store.SetSetting("OPENAI_API_KEY", Strip(openaiKey));
      store.SetSetting("ELEVEN_API_KEY", Strip(elevenKey));
    }

    /** `refresh_history`. */
    method RefreshHistory()
      modifies this`history
      ensures history == HistoryRows(store.runs)
    {
      history := HistoryRows(store.runs);
    }

    /**
     * `_load_voices_from_db`, given the rows its query returns: the map is
     * rebuilt from them, and the first key is selected only if nothing was.
     */
    method LoadVoicesFromDb(rows: seq<VoiceEntry>)
      requires Valid()
      requires IsNameOrderedListing(rows, store.voices)
      modifies this`voiceMap, this`selectedVoiceName
      ensures Valid()
      ensures voiceMap == BuildVoiceMap(rows)
      ensures selectedVoiceName == SelectAfterCached(voiceMap, old(selectedVoiceName))
    {
      BuildVoiceMapKeys(rows);
      voiceMap := BuildVoiceMap(rows);
      if voiceMap.names != [] && selectedVoiceName == "" {
        selectedVoiceName := voiceMap.names[0];
      }
    }

    /** The task of `load_voices`: upsert every listed voice, in list order. */
    method ReconcileVoices(voices: seq<VoiceEntry>, clock: nat -> string)
      requires store.Valid()
      modifies store
      ensures store.Valid()
      ensures store.voices == ReconcileAll(old(store.voices), voices, clock)
      ensures store.settings == old(store.settings) && store.runs == old(store.runs)
    {
      var i := 0;
      while i < |voices|
        invariant 0 <= i <= |voices|
        invariant store.Valid()
        invariant store.voices == ReconcileAll(old(store.voices), voices[..i], clock)
        invariant store.settings == old(store.settings) && store.runs == old(store.runs)
      {
        ReconcileAllStep(old(store.voices), voices, i, clock);
        store.UpsertVoice(voices[i].voiceId, voices[i].name, clock(i));
        i := i + 1;
      }
      assert voices[..|voices|] == voices;
    }

    /** `on_success` of `load_voices`: the map is rebuilt from the listed voices and the first is selected. */
    method OnVoicesLoaded(voices: seq<VoiceEntry>)
      requires Valid()
      modifies this`voiceMap, this`selectedVoiceName, this`status
      ensures Valid()
      ensures voiceMap == BuildVoiceMap(voices)
      ensures selectedVoiceName == SelectAfterRemote(voiceMap, old(selectedVoiceName))
      ensures status == "Voices loaded."
    {
      BuildVoiceMapKeys(voices);
      voiceMap := BuildVoiceMap(voices);
      if voiceMap.names != [] {
        selectedVoiceName := voiceMap.names[0];
      }
      status := "Voices loaded.";
    }

    /**
     * `load_voices`. Without a voice-service key it loads from the cache
     * (`cachedRows` is what the cache query returns). Otherwise it lists the
     * remote voices (`listing` is the service's answer), upserts each listed
     * voice in order (the i-th upsert reads the clock as `clock(i)`), and on
     * success rebuilds the map from the listed voices and selects the first.
     */
    method LoadVoices(listing: ListResponse, clock: nat -> string, cachedRows: seq<VoiceEntry>)
      requires Valid()
      requires Strip(elevenKey) == "" ==> IsNameOrderedListing(cachedRows, store.voices)
      modifies this`voiceMap, this`selectedVoiceName, this`status, this`requests, store
      ensures Valid()
      ensures store.settings == old(store.settings) && store.runs == old(store.runs)
      ensures Strip(elevenKey) == "" ==>
                && voiceMap == BuildVoiceMap(cachedRows)
                && selectedVoiceName == SelectAfterCached(voiceMap, old(selectedVoiceName))
                && store.voices == old(store.voices) && status == old(status) && requests == old(requests)
      ensures Strip(elevenKey) != "" ==>
                && requests == old(requests) + [ListVoicesCall(Strip(elevenKey))]
                && var r := ElevenListVoices(listing);
                   && (r.Ok? ==>
                         && store.voices == ReconcileAll(old(store.voices), r.value, clock)
                         && voiceMap == BuildVoiceMap(r.value)
                         && selectedVoiceName == SelectAfterRemote(voiceMap, old(selectedVoiceName))
                         && status == "Voices loaded.")
                   && (r.Err? ==>
                         && store.voices == old(store.voices) && voiceMap == old(voiceMap)
                         && selectedVoiceName == old(selectedVoiceName)
                         && status == "Voice load error: " + Message(r.error))
    {
      var key := Strip(elevenKey);
      if key == "" {
        LoadVoicesFromDb(cachedRows);
        return;
      }
      status := "Loading voices...";
      requests := requests + [ListVoicesCall(key)];
      var listed := ElevenListVoices(listing);
      if listed.Ok? {
        ReconcileVoices(listed.value, clock);
      }
      match RunBg(listed) {
        case OnSuccess(voices) => OnVoicesLoaded(voices);
        case OnError(msg) => status := "Voice load error: " + msg;
      }
    }

    /**
     * `_after_add_voice`: store the new voice and select it. The voice reload
     * it also starts is the LoadVoices call that follows; its completion
     * arrives after this selection.
     */
    method AfterAddVoice(voiceId: string, name: string, now: string)
      requires Valid()
      modifies this`addVoiceStatus, this`selectedVoiceName, store
      ensures Valid()
      ensures store.voices == VoiceUpsert(old(store.voices), voiceId, name, now)
      ensures store.settings == old(store.settings) && store.runs == old(store.runs)
      ensures selectedVoiceName == name && addVoiceStatus == "Voice added successfully."
    {
      store.UpsertVoice(voiceId, name, now);
      addVoiceStatus := "Voice added successfully.";
      selectedVoiceName := name;
    }

    /**
     * The add-voice dialog (`open_add_voice` and its `do_add`). `resp` is the
     * service's answer to the upload and `now` the clock reading of the upsert.
     */
    method AddVoice(rawName: string, rawPath: string, resp: AddVoiceResponse, now: string)
      returns (warning: Option<Warning>)
      requires Valid()
      modifies this`addVoiceStatus, this`selectedVoiceName, this`requests, store
      ensures Valid()
      ensures store.settings == old(store.settings) && store.runs == old(store.runs)
      ensures old(Strip(elevenKey)) == "" ==> warning == Some(MissingKeyForAdd)
      ensures old(Strip(elevenKey)) != "" && (Strip(rawName) == "" || Strip(rawPath) == "") ==>
                warning == Some(MissingNameOrAudio)
      ensures warning.Some? ==> unchanged(this) && unchanged(store)
      ensures warning.None? ==>
                && old(Strip(elevenKey)) != "" && Strip(rawName) != "" && Strip(rawPath) != ""
                && var name := Strip(rawName);
                   var path := Strip(rawPath);
                   var r := if path in old(files) then ElevenAddVoice(resp)
                            else Err(External("[Errno 2] No such file or directory: '" + path + "'"));
                   && requests == old(requests)
                                  + (if path in old(files) then [AddVoiceCall(old(Strip(elevenKey)), name, path)] else [])
                   && (r.Ok? ==>
                         && store.voices == VoiceUpsert(old(store.voices), r.value, name, now)
                         && selectedVoiceName == name && addVoiceStatus == "Voice added successfully.")
                   && (r.Err? ==>
                         && store.voices == old(store.voices) && selectedVoiceName == old(selectedVoiceName)
                         && addVoiceStatus == "Error: " + Message(r.error))
    {
      if Strip(elevenKey) == "" {
        return Some(MissingKeyForAdd);
      }
      var vname := Strip(rawName);
      var apath := Strip(rawPath);
      if vname == "" || apath == "" {
        return Some(MissingNameOrAudio);
      }
      addVoiceStatus := "Cloning voice... please wait.";
      var result: Result<string, Error>;
      if apath in files {
        requests := requests + [AddVoiceCall(Strip(elevenKey), vname, apath)];
        result := ElevenAddVoice(resp);
      } else {
        result := Err(External("[Errno 2] No such file or directory: '" + apath + "'"));
      }
      match RunBg(result) {
        case OnSuccess(voiceId) => AfterAddVoice(voiceId, vname, now);
        case OnError(msg) => addVoiceStatus := "Error: " + msg;
      }
      return None;
    }

    /**
     * The task of `handle_generate`: summarize, then synthesize to `audioOut`;
     * the first stage to raise aborts the rest.
     */
    method GenerateRun(openaiApiKey: string, elevenApiKey: string, voiceId: string, stylePrompt: string,
                       audioOut: string, document: Result<seq<PageResult>, Error>,
                       reply: Result<string, Error>, tts: TtsResponse)
      returns (result: Result<TaskOutput, Error>)
      modifies this`files, this`requests
      ensures result == GenerateTask(document, reply, tts, audioOut, old(files))
      ensures files == if result.Ok? then result.value.files else old(files)
      ensures requests == old(requests)
                          + GenerateRequests(openaiApiKey, elevenApiKey, document, stylePrompt, reply, voiceId)
    {
      var chat, summary := SummarizePdf(openaiApiKey, document, stylePrompt, reply);
      if chat.Some? {
        requests := requests + [ChatCall(chat.value)];
      }
      match summary {
        case Err(e) =>
          result := Err(e);
        case Ok(text) =>
          requests := requests + [TtsCall(elevenApiKey, voiceId, text, TtsModel)];
          match ElevenTts(tts, audioOut, files) {
            case Err(e) =>
              result := Err(e);
            case Ok(written) =>
              files := written.files;
              result := Ok(TaskOutput(text, written.path, written.files));
          }
      }
    }

    /** `on_success` of `handle_generate`: show the summary, keep the audio path, record the run. */
    method OnGenerateSuccess(createdAt: string, pdfPath: string, stylePrompt: string, voiceId: string,
                             voiceName: string, summary: string, audioPath: string)
      requires Valid()
      modifies this`summaryText, this`audioOutPath, this`saveAudioEnabled, this`history, this`status, store
      ensures Valid()
      ensures store.runs == old(store.runs)
                + [RunRow(|old(store.runs)| + 1, createdAt, pdfPath, stylePrompt, voiceId, voiceName, summary, audioPath)]
      ensures store.settings == old(store.settings) && store.voices == old(store.voices)
      ensures summaryText == summary && audioOutPath == Some(audioPath) && saveAudioEnabled
      ensures history == HistoryRows(store.runs) && status == "Done. Audio generated."
    {
      summaryText := summary;
      audioOutPath := Some(audioPath);
      saveAudioEnabled := true;
      store.InsertRun(createdAt, pdfPath, stylePrompt, voiceId, voiceName, summary, audioPath);
      history := HistoryRows(store.runs);
      status := "Done. Audio generated.";
    }

    /** The two handlers `handle_generate` passes to `_run_bg`; exactly one of them runs. */
    method GenerateDone(completion: Completion<TaskOutput>, createdAt: string, pdfPath: string,
                        stylePrompt: string, voiceId: string, voiceName: string)
      requires Valid()
      modifies this`summaryText, this`audioOutPath, this`saveAudioEnabled, this`history, this`status, store
      ensures Valid()
      ensures store.settings == old(store.settings) && store.voices == old(store.voices)
      ensures completion.OnSuccess? ==>
                && store.runs == old(store.runs)
                     + [RunRow(|old(store.runs)| + 1, createdAt, pdfPath, stylePrompt, voiceId, voiceName,
                               completion.value.summary, completion.value.audioPath)]
                && summaryText == completion.value.summary && audioOutPath == Some(completion.value.audioPath)
                && saveAudioEnabled && history == HistoryRows(store.runs) && status == "Done. Audio generated."
      ensures completion.OnError? ==>
                && store.runs == old(store.runs) && summaryText == old(summaryText)
                && audioOutPath == old(audioOutPath) && saveAudioEnabled == old(saveAudioEnabled)
                && history == old(history) && status == "Error: " + completion.message
    {
      match completion {
        case OnSuccess(done) =>
          OnGenerateSuccess(createdAt, pdfPath, stylePrompt, voiceId, voiceName, done.summary, done.audioPath);
        case OnError(msg) => status := "Error: " + msg;
      }
    }

    /**
     * `handle_generate` once its checks have passed and the outputs directory
     * exists: name the audio file after `seconds` and run the task in the
     * background with the two handlers.
     */
    method StartGenerate(cwd: string, seconds: nat, createdAt: string, pdf: string, style: string,
                         vname: string, voiceId: string, openaiApiKey: string, elevenApiKey: string,
                         document: Result<seq<PageResult>, Error>, reply: Result<string, Error>, tts: TtsResponse)
      returns (completion: Completion<TaskOutput>)
      requires Valid()
      modifies this`files, this`summaryText, this`audioOutPath, this`saveAudioEnabled,
               this`status, this`history, this`requests, store
      ensures Valid()
      ensures store.settings == old(store.settings) && store.voices == old(store.voices)
      ensures var r := GenerateTask(document, reply, tts, AudioOutPath(cwd, seconds), old(files));
              && requests == old(requests)
                             + GenerateRequests(openaiApiKey, elevenApiKey, document, style, reply, voiceId)
              && completion == RunBg(r)
              && files == if r.Ok? then r.value.files else old(files)
      ensures completion.OnSuccess? ==>
                && store.runs == old(store.runs)
                     + [RunRow(|old(store.runs)| + 1, createdAt, pdf, style, voiceId, vname,
                               completion.value.summary, completion.value.audioPath)]
                && summaryText == completion.value.summary && audioOutPath == Some(completion.value.audioPath)
                && saveAudioEnabled && history == HistoryRows(store.runs) && status == "Done. Audio generated."
      ensures completion.OnError? ==>
                && store.runs == old(store.runs) && summaryText == old(summaryText)
                && audioOutPath == old(audioOutPath) && saveAudioEnabled == old(saveAudioEnabled)
                && history == old(history) && status == "Error: " + completion.message
    {
      var audioOut := AudioOutPath(cwd, seconds);
      var result := GenerateRun(openaiApiKey, elevenApiKey, voiceId, style, audioOut, document, reply, tts);
      completion := RunBg(result);
      GenerateDone(completion, createdAt, pdf, style, voiceId, vname);
    }

    /**
     * The part of `handle_generate` after its checks: the outputs directory is
     * created, the status announces the task, and the task runs.
     */
    method LaunchGenerate(cwd: string, seconds: nat, createdAt: string, document: Result<seq<PageResult>, Error>,
                          reply: Result<string, Error>, tts: TtsResponse)
      returns (completion: Completion<TaskOutput>)
      requires Valid() && Strip(selectedVoiceName) in voiceMap.ids && OutputsDir(cwd) !in files
      modifies this`files, this`dirs, this`summaryText, this`audioOutPath, this`saveAudioEnabled,
               this`status, this`history, this`requests, store
      ensures Valid()
      ensures store.settings == old(store.settings) && store.voices == old(store.voices)
      ensures var voiceId := old(voiceMap.ids[Strip(selectedVoiceName)]);
              var r := GenerateTask(document, reply, tts, AudioOutPath(cwd, seconds), old(files));
              && dirs == old(dirs) + {OutputsDir(cwd)}
              && requests == old(requests)
                             + GenerateRequests(old(Strip(openaiKey)), old(Strip(elevenKey)), document,
                                                old(Strip(styleText)), reply, voiceId)
              && completion == RunBg(r)
              && files == if r.Ok? then r.value.files else old(files)
      ensures completion.OnSuccess? ==>
                var done := completion.value;
                && store.runs == old(store.runs)
                     + [RunRow(|old(store.runs)| + 1, createdAt, old(Strip(pdfPath)), old(Strip(styleText)),
                               old(voiceMap.ids[Strip(selectedVoiceName)]), old(Strip(selectedVoiceName)),
                               done.summary, done.audioPath)]
                && summaryText == done.summary && audioOutPath == Some(done.audioPath)
                && saveAudioEnabled && history == HistoryRows(store.runs) && status == "Done. Audio generated."
      ensures completion.OnError? ==>
                && store.runs == old(store.runs) && summaryText == old(summaryText)
                && audioOutPath == old(audioOutPath) && saveAudioEnabled == old(saveAudioEnabled)
                && history == old(history) && status == "Error: " + completion.message
    {
      var pdf := Strip(pdfPath);
      var style := Strip(styleText);
      var vname := Strip(selectedVoiceName);
      var voiceId := voiceMap.ids[vname];
      dirs := dirs + {OutputsDir(cwd)};
      status := "Summarizing and generating audio...";
      completion := StartGenerate(cwd, seconds, createdAt, pdf, style, vname, voiceId,
                                  Strip(openaiKey), Strip(elevenKey), document, reply, tts);
    }

    /** `StartGenerate` under the dispatch `_run_bg` has as written: after a raised error nothing changes. */
    method StartGenerateAsWritten(cwd: string, seconds: nat, createdAt: string, pdf: string, style: string,
                                  vname: string, voiceId: string, openaiApiKey: string, elevenApiKey: string,
                                  document: Result<seq<PageResult>, Error>, reply: Result<string, Error>,
                                  tts: TtsResponse)
      returns (delivered: Option<TaskOutput>)
      requires Valid()
      modifies this`files, this`summaryText, this`audioOutPath, this`saveAudioEnabled,
               this`status, this`history, this`requests, store
      ensures Valid()
      ensures store.settings == old(store.settings) && store.voices == old(store.voices)
      ensures var r := GenerateTask(document, reply, tts, AudioOutPath(cwd, seconds), old(files));
              && requests == old(requests)
                             + GenerateRequests(openaiApiKey, elevenApiKey, document, style, reply, voiceId)
              && delivered == RunBgAsWritten(r)
              && files == if r.Ok? then r.value.files else old(files)
      ensures delivered.Some? ==>
                && store.runs == old(store.runs)
                     + [RunRow(|old(store.runs)| + 1, createdAt, pdf, style, voiceId, vname,
                               delivered.value.summary, delivered.value.audioPath)]
                && summaryText == delivered.value.summary && audioOutPath == Some(delivered.value.audioPath)
                && saveAudioEnabled && history == HistoryRows(store.runs) && status == "Done. Audio generated."
      ensures delivered.None? ==>
                && store.runs == old(store.runs) && summaryText == old(summaryText)
                && audioOutPath == old(audioOutPath) && saveAudioEnabled == old(saveAudioEnabled)
                && history == old(history) && status == old(status)
    {
      var result := GenerateRun(openaiApiKey, elevenApiKey, voiceId, style, AudioOutPath(cwd, seconds),
                                document, reply, tts);
      delivered := RunBgAsWritten(result);
      if delivered.Some? {
        OnGenerateSuccess(createdAt, pdf, style, voiceId, vname, delivered.value.summary, delivered.value.audioPath);
      }
    }

    /**
     * `LaunchGenerate` under the dispatch `_run_bg` has as written: a
     * successful task is handled as before, but after a raised error no
     * handler runs, so no run is recorded and the status keeps the text
     * on_start set.
     */
    method LaunchGenerateAsWritten(cwd: string, seconds: nat, createdAt: string,
                                   document: Result<seq<PageResult>, Error>,
                                   reply: Result<string, Error>, tts: TtsResponse)
      returns (delivered: Option<TaskOutput>)
      requires Valid() && Strip(selectedVoiceName) in voiceMap.ids && OutputsDir(cwd) !in files
      modifies this`files, this`dirs, this`summaryText, this`audioOutPath, this`saveAudioEnabled,
               this`status, this`history, this`requests, store
      ensures Valid()
      ensures store.settings == old(store.settings) && store.voices == old(store.voices)
      ensures var voiceId := old(voiceMap.ids[Strip(selectedVoiceName)]);
              var r := GenerateTask(document, reply, tts, AudioOutPath(cwd, seconds), old(files));
              && dirs == old(dirs) + {OutputsDir(cwd)}
              && requests == old(requests)
                             + GenerateRequests(old(Strip(openaiKey)), old(Strip(elevenKey)), document,
                                                old(Strip(styleText)), reply, voiceId)
              && delivered == RunBgAsWritten(r)
              && files == if r.Ok? then r.value.files else old(files)
      ensures delivered.Some? ==>
                var done := delivered.value;
                && store.runs == old(store.runs)
                     + [RunRow(|old(store.runs)| + 1, createdAt, old(Strip(pdfPath)), old(Strip(styleText)),
                               old(voiceMap.ids[Strip(selectedVoiceName)]), old(Strip(selectedVoiceName)),
                               done.summary, done.audioPath)]
                && summaryText == done.summary && audioOutPath == Some(done.audioPath)
                && saveAudioEnabled && history == HistoryRows(store.runs) && status == "Done. Audio generated."
      ensures delivered.None? ==>
                && store.runs == old(store.runs) && summaryText == old(summaryText)
                && audioOutPath == old(audioOutPath) && saveAudioEnabled == old(saveAudioEnabled)
                && history == old(history) && status == "Summarizing and generating audio..."
    {
      var pdf := Strip(pdfPath);
      var style := Strip(styleText);
      var vname := Strip(selectedVoiceName);
      var voiceId := voiceMap.ids[vname];
      dirs := dirs + {OutputsDir(cwd)};
      status := "Summarizing and generating audio...";
      delivered := StartGenerateAsWritten(cwd, seconds, createdAt, pdf, style, vname, voiceId,
                                          Strip(openaiKey), Strip(elevenKey), document, reply, tts);
    }

    /**
     * `handle_generate` with its background task. `seconds` is `int(time.time())`,
     * `createdAt` the clock reading of `insert_run`; `document` is what the PDF
     * reader made of the file, `reply` the chat service's answer and `tts` the
     * speech service's answer. A run row is written only when the task finished
     * without raising.
     */
    method HandleGenerate(cwd: string, seconds: nat, createdAt: string, document: Result<seq<PageResult>, Error>,
                          reply: Result<string, Error>, tts: TtsResponse)
      returns (outcome: GenerateOutcome)
      requires Valid()
      modifies this`files, this`dirs, this`summaryText, this`audioOutPath, this`saveAudioEnabled,
               this`status, this`history, this`requests, store
      ensures Valid()
      ensures store.settings == old(store.settings) && store.voices == old(store.voices)
      ensures var w := old(ValidateGenerate(pdfPath, files, styleText, openaiKey, elevenKey,
                                            selectedVoiceName, voiceMap));
              && (w.Some? ==> outcome == Rejected(w.value))
              && (!outcome.Rejected? ==> w == None)
      ensures outcome == OutputsDirBlocked <==> !outcome.Rejected? && OutputsDir(cwd) in old(files)
      ensures !outcome.Finished? ==> unchanged(this) && unchanged(store)
      ensures outcome.Finished? ==>
                var voiceId := old(voiceMap.ids[Strip(selectedVoiceName)]);
                var r := GenerateTask(document, reply, tts, AudioOutPath(cwd, seconds), old(files));
                && dirs == old(dirs) + {OutputsDir(cwd)}
                && requests == old(requests)
                               + GenerateRequests(old(Strip(openaiKey)), old(Strip(elevenKey)), document,
                                                  old(Strip(styleText)), reply, voiceId)
                && outcome.completion == RunBg(r)
                && files == if r.Ok? then r.value.files else old(files)
      ensures outcome.Finished? && outcome.completion.OnSuccess? ==>
                var done := outcome.completion.value;
                && store.runs == old(store.runs)
                     + [RunRow(|old(store.runs)| + 1, createdAt, old(Strip(pdfPath)), old(Strip(styleText)),
                               old(voiceMap.ids[Strip(selectedVoiceName)]), old(Strip(selectedVoiceName)),
                               done.summary, done.audioPath)]
                && summaryText == done.summary && audioOutPath == Some(done.audioPath)
                && saveAudioEnabled && history == HistoryRows(store.runs) && status == "Done. Audio generated."
      ensures outcome.Finished? && outcome.completion.OnError? ==>
                && store.runs == old(store.runs) && summaryText == old(summaryText)
                && audioOutPath == old(audioOutPath) && saveAudioEnabled == old(saveAudioEnabled)
                && history == old(history) && status == "Error: " + outcome.completion.message
    {
      var w := ValidateGenerate(pdfPath, files, styleText, openaiKey, elevenKey, selectedVoiceName, voiceMap);
      if w.Some? {
        return Rejected(w.value);
      }
      if OutputsDir(cwd) in files {
        return OutputsDirBlocked;
      }
      var completion := LaunchGenerate(cwd, seconds, createdAt, document, reply, tts);
      return Finished(completion);
    }

    /**
     * `load_run_from_history` for the focused row, if any: the run looked up
     * by the row's timestamp fills the summary and the audio path, and the
     * row's own PDF and voice fill the form.
     */
    method LoadRunFromHistory(focus: Option<nat>)
      requires focus.Some? ==> focus.value < |history|
      modifies this`summaryText, this`audioOutPath, this`saveAudioEnabled, this`pdfPath,
               this`selectedVoiceName, this`status
      ensures focus.None? ==> unchanged(this)
      ensures focus.Some? ==>
                var row := history[focus.value];
                && ((forall i :: 0 <= i < |store.runs| ==> store.runs[i].createdAt != row.createdAt) ==>
                      unchanged(this))
                && ((exists i :: 0 <= i < |store.runs| && store.runs[i].createdAt == row.createdAt) ==>
                      && (exists r :: r in store.runs && r.createdAt == row.createdAt
                                      && summaryText == r.summaryText && audioOutPath == Some(r.audioPath))
                      && saveAudioEnabled && pdfPath == row.pdfPath && selectedVoiceName == row.voiceName
                      && status == "Loaded run from " + row.createdAt)
    {
      if focus.None? {
        return;
      }
      var row := history[focus.value];
      var found := FindRunByCreated(store.runs, row.createdAt);
      if found.Some? {
        summaryText := found.value.summaryText;
        audioOutPath := Some(found.value.audioPath);
        saveAudioEnabled := true;
        pdfPath := row.pdfPath;
        selectedVoiceName := row.voiceName;
        status := "Loaded run from " + row.createdAt;
      }
    }
  }
}
