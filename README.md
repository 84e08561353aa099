# HappyVocals ("EduSummarizer Box") in Dafny

HappyVocals is a desktop application. The user picks a PDF and writes a style
prompt. The application extracts the PDF's text page by page and asks a chat
model for a summary in that style. It then has a text-to-speech service read the
summary aloud into an MP3 under `outputs/`. Every finished run is recorded in a
local SQLite database, whose last twelve runs are listed in a history view. Voices
come from the speech service (listed, or cloned from an uploaded sample). Each
listed voice is cached in the database, and the window keeps a name-to-id
voice map with a current selection.

This project models the deterministic logic around the GUI and the network. It
proves what that logic promises.

- **Extraction**: the page loop of `extract_pdf_text`. Each page contributes
  `"\n--- Page k ---\n" + body + "\n"`. The body is the page's text, or
  `"[No extractable text]"` when the text is empty, absent or the extractor
  raised.
- **Summarization**: the 180000-character cap with its marker, the chat
  request, and the stripped reply.
- **ElevenLabs**: status handling of the three voice-service calls. The answer
  is abstracted to its status and the parts of the body the code reads.
- **Errors**: the exceptions and the text `str(e)` gives for each. That text is
  what the intended error handler would show on the status line.
- **VoiceCatalog**: the `voice_map` dict with its key order, and the default
  selection after a remote or a cached load.
- **LocalStore**: the three tables as maps and a sequence inside a `Store`
  class. Its methods are `set_setting`, `get_setting`, `upsert_voice` and
  `insert_run`. Pure functions specify the reconcile loop and the history query.
- **App**: the application object as a class. It holds:
  - the ordered checks of `handle_generate` and the generate task;
  - the `_run_bg` success/error dispatch;
  - voice loading and adding;
  - the settings Save button and the history view.
- **Text**, **Seqs** and **Wrappers**: support code.
  - Text: Python's `str.strip()`, decimal rendering of numbers, and SQLite's
    BINARY text ordering.
  - Seqs: facts about concatenated sequences.
  - Wrappers: `Option` and `Result`.

The outside world enters as parameters:
- the pages the PDF reader returned;
- the chat service's reply;
- the HTTP answers;
- clock readings;
- `int(time.time())`;
- the working directory.

Files on disk are a map from path to bytes plus a set of directories. The
calls made to the two remote services are kept in a `requests` log. A
statement such as "a rejected request calls nothing" is therefore a statement
about the model's state. Background work runs to completion in sequence. The
model delivers a task's result to exactly one of its two handlers, which is
what `_run_bg` intends. As written, `_run_bg` drops every error: no error
handler ever runs (see "## Findings").

## Model

| member | source | states |
|---|---|---|
| Extraction.PageBody | HappyVocals.py:97-104 | a page contributes its own text when that is non-empty, else the placeholder; the body is never empty |
| Extraction.ExtractPdfText | HappyVocals.py:92-105 | the loop's result equals the in-order concatenation of every page's section (marker, body, newline) |
| Extraction.AssembleStep | HappyVocals.py:96-104 | each round of the loop appends exactly page k's section to the text of the pages before it |
| Extraction.AssemblePrefix | HappyVocals.py:96-104 | the text of the first n pages is a prefix of the whole text: later pages only append |
| Extraction.SectionAt | HappyVocals.py:96-104 | page k's section sits in the text right after the sections of pages 1..k-1, whatever those pages gave, so a failing page never stops the loop |
| Extraction.FailedPageShowsPlaceholder | HappyVocals.py:97-104 | a page whose extraction raised, returned None or returned "" shows its marker followed by "[No extractable text]" at its place in the text |
| Extraction.TextPageShowsText | HappyVocals.py:101-102 | a page that returned non-empty text shows its marker followed by exactly that text at its place in the text |
| Extraction.AssembleTwoPages | HappyVocals.py:96-104 | a two-page document is the section of page 1 followed by the section of page 2 |
| Extraction.FirstPageMarker | HappyVocals.py:102 | the marker of page 1 is "\n--- Page 1 ---\n" |
| Extraction.SecondPageMarker | HappyVocals.py:104 | the marker of page 2 is "\n--- Page 2 ---\n" |
| Extraction.TwoPageScenario | HappyVocals.py:92-105 | pages ["Intro text", failure] give page 1's marker, "Intro text", a newline, page 2's marker, the placeholder and a newline |
| Summarization.Truncate | HappyVocals.py:111-112 | text of at most 180000 characters passes unchanged; longer text becomes its first 180000 characters followed by the marker; the result is never longer than 180000 plus the marker |
| Summarization.TruncateKeepsPrefix | HappyVocals.py:111-112 | the text sent always begins with the document's first min(length, 180000) characters |
| Summarization.TruncateFixedPoints | HappyVocals.py:111-112 | the cap leaves the text unchanged exactly when it fits, or when it already is its capped prefix followed by the marker |
| Summarization.OverCapScenario | HappyVocals.py:111-112 | a 180050-character text is sent as its first 180000 characters followed by "\n[Truncated due to size]" |
| Summarization.RequestEmbedsCappedText | HappyVocals.py:113-120 | the request names the chat model and has two messages: the fixed system directive, then a user message made of "PDF content:\n", the capped text, the style instruction, the style prompt and the request for bullet points suitable for audio narration, in that order |
| Summarization.SummarizePdf | HappyVocals.py:107-121 | no request is made when the document cannot be read; otherwise the request is built from the assembled, capped text; the result is the stripped reply, or the first error raised |
| ElevenLabs.ParseVoices | HappyVocals.py:129-130 | the list comprehension succeeds exactly when every element has both fields, and then yields one entry per element in order; on failure the error is one of the two KeyErrors |
| ElevenLabs.ParseVoicesFirstMissing | HappyVocals.py:130 | a failing comprehension raises for the first element that lacks a field: KeyError('name') when that element has no name, else KeyError('voice_id') |
| ElevenLabs.ElevenListVoices | HappyVocals.py:123-130 | a 4xx/5xx answer raises the HTTP error for the list URL; a body without "voices" gives the empty list; a result is returned only for a decodable body with an accepted status |
| ElevenLabs.ListVoicesEntries | HappyVocals.py:127-130 | an accepted, fully populated list answer yields one entry per listed voice, carrying that voice's id |
| ElevenLabs.ElevenAddVoice | HappyVocals.py:132-141 | an id is returned exactly when the status is 200 and the body is a JSON object carrying one; a 200 object without "voice_id" raises KeyError('voice_id'); any other status raises an error whose text is "<status>: <body>" |
| ElevenLabs.AddVoiceBadRequest | HappyVocals.py:139-141 | a 400 answer raises with the text "400: " followed by the body |
| ElevenLabs.AddVoiceCreated | HappyVocals.py:139-140 | a 200 answer with voice_id "v123" yields "v123" |
| ElevenLabs.ElevenTts | HappyVocals.py:143-152 | the call succeeds exactly on status 200; it then writes the payload verbatim to the output file, returns that path and leaves every other file as it was; any other status raises "<status>: <body>" |
| Errors.StatusErrorMessage | HappyVocals.py:141 | the text of a status error is the decimal status, ": ", then the body, and nothing else |
| Errors.BadRequestMessage | HappyVocals.py:141 | the text of a status error for 400 is "400: " followed by the body |
| VoiceCatalog.BuildVoiceMapKeys | HappyVocals.py:370 | the dict built from a list has exactly the list's distinct names as keys, each listed once in key order |
| VoiceCatalog.BuildVoiceMapLastWins | HappyVocals.py:388 | a later row with a repeated name overwrites the id: a name maps to the id of its last row |
| VoiceCatalog.BuildVoiceMapFirstKey | HappyVocals.py:370-373 | the first key of the dict built from a non-empty list is the first row's name |
| VoiceCatalog.SelectAfterRemote | HappyVocals.py:390-391 | after a remote load the selection is the first key when there is one, else unchanged |
| VoiceCatalog.SelectAfterCached | HappyVocals.py:372-373 | after a cached load the selection becomes the first key only when the map is non-empty and nothing was selected |
| LocalStore.CachedLoadSelectsLeastName | HappyVocals.py:367-373 | a cached load keeps a non-empty selection and, with no cached voice, an empty one; with nothing selected and some voice cached, it selects a cached voice's name that resolves in the map and precedes every other cached name in BINARY order |
| VoiceCatalog.RemoteLoadSelectsFirst | HappyVocals.py:387-391 | a remote load that lists voices selects the first listed name, and that name resolves in the map |
| LocalStore.VoiceUpsert | HappyVocals.py:72-78 | a new id gets a row with the given name stamped now; an existing id takes the new name and keeps its added_at; every other row is untouched; the row count grows by one exactly for a new id |
| LocalStore.VoiceUpsertIdempotent | HappyVocals.py:72-78 | upserting the same voice twice leaves the table as the first upsert left it |
| LocalStore.ReconcileAllKeys | HappyVocals.py:383-384 | after the reconcile loop the table holds exactly the old ids and the listed ids |
| LocalStore.ReconcileAllNames | HappyVocals.py:383-384 | each listed id ends up with the name of its last listing |
| LocalStore.ReconcileAllKeepsAddedAt | HappyVocals.py:383-384 | a row that was already present keeps its added_at through the loop |
| LocalStore.ReconcileAllOthers | HappyVocals.py:383-384 | a row whose id is not listed is left exactly as it was |
| LocalStore.ReconcileIdempotent | HappyVocals.py:380-385 | reconciling twice against the same list leaves the table as the first reconcile left it, whatever the clock reads the second time |
| LocalStore.ReconcileRowCount | HappyVocals.py:383-384 | reconciling into an empty table yields one row per distinct listed id, with no duplicates |
| LocalStore.ReconcileAllStep | HappyVocals.py:383-384 | one more round of the loop upserts the next listed voice into the table the earlier rounds left |
| LocalStore.NewestAt | HappyVocals.py:457 | ORDER BY id DESC LIMIT k yields min(k, n) rows, the i-th being the i-th from the end of the table |
| LocalStore.HistoryNewestFirst | HappyVocals.py:457 | the history lists at most 12 runs with strictly decreasing ids, starting with the newest, and contains every run among the newest twelve |
| LocalStore.FindRunByCreated | HappyVocals.py:472-473 | a run is found exactly when one has the timestamp, and the run found is in the table and has it |
| LocalStore.CachedVoiceMapKeys | HappyVocals.py:367-370 | the dict built from the cache query has exactly the cached voices' names as keys |
| LocalStore.ListingNames | HappyVocals.py:367-370 | a listing that pairs every cached voice with its own name names exactly the cached voices |
| LocalStore.Store.constructor | HappyVocals.py:26-55 | a fresh database has three empty tables |
| LocalStore.Store.GetSetting | HappyVocals.py:64-70 | the stored value for a present key, the supplied default (empty unless given) for a missing one |
| LocalStore.Store.SetSetting | HappyVocals.py:57-62 | after setting, reading the key gives the value; every other key reads as before; the other tables are untouched |
| LocalStore.Store.UpsertVoice | HappyVocals.py:72-78 | the voices table becomes the upsert of the old one; the other tables are untouched |
| LocalStore.Store.InsertRun | HappyVocals.py:80-87 | exactly one row is appended, with the next id and the given fields; ids stay 1, 2, 3, ... |
| App.RunBg | HappyVocals.py:493-499 | as intended, a task's result goes to exactly one handler: a value to on_success, a raised error to on_error as its text |
| App.RunBgAsWritten | HappyVocals.py:493-499 | as written, a returned value reaches on_success unchanged, and after a raised error no handler runs |
| App.RunBgAsWrittenDiffers | HappyVocals.py:493-499 | the written and the intended dispatch agree on every success and differ on every error |
| App.FailedSynthesisAsWritten | HappyVocals.py:419-436 | a generate task whose synthesis answers 500 fails with the status error for 500 and the body; the intended dispatch hands "500: <body>" to the error handler, while the written dispatch delivers nothing |
| App.ValidateGenerateChecks | HappyVocals.py:396-414 | generation proceeds exactly when all five checks pass; each warning is shown exactly when every earlier check passed and its own failed |
| App.GenerateTaskOutcome | HappyVocals.py:421-424 | the task succeeds exactly when the document reads, the chat call answers and synthesis answers 200; then the audio file holds the payload and the summary is the stripped reply |
| App.GenerateRequestsOrder | HappyVocals.py:421-424 | the task calls the chat model once the document reads, and calls synthesis, second and last, only when a summary exists |
| App.App.constructor | HappyVocals.py:175-186 | keys are read from the settings table, the style box holds its default text, nothing is selected, the history is filled and the status is "Ready." |
| App.App.SaveKeys | HappyVocals.py:295-297 | both keys are stored stripped under their setting names; the other tables are untouched |
| App.App.RefreshHistory | HappyVocals.py:452-461 | the history view shows the rows of the newest-twelve query |
| App.App.LoadVoicesFromDb | HappyVocals.py:364-373 | the map is rebuilt from the cached rows and the selection follows the cached-load rule |
| App.App.ReconcileVoices | HappyVocals.py:380-385 | the voices table ends up as the reconcile of the listed voices into the old table; the other tables are untouched |
| App.App.OnVoicesLoaded | HappyVocals.py:387-392 | the map is rebuilt from the listed voices, the selection follows the remote-load rule and the status reads "Voices loaded." |
| App.App.LoadVoices | HappyVocals.py:375-394 | without a key the cache is loaded and nothing is called; with one the list call is made; on success the table is reconciled, the map rebuilt and the first voice selected; on failure nothing but the status changes |
| App.App.AfterAddVoice | HappyVocals.py:349-353 | the new voice is upserted and selected and the dialog reports success |
| App.App.AddVoice | HappyVocals.py:304-339 | without a key, or without a name or a sample, a warning is shown and nothing changes; otherwise the upload is attempted once for an existing sample, and its outcome either stores and selects the voice or reports the error text |
| App.App.GenerateRun | HappyVocals.py:421-424 | the task's result is the generate task's; only a successful task changes files; the calls logged are the chat call and, when a summary exists, the synthesis call |
| App.App.OnGenerateSuccess | HappyVocals.py:426-433 | exactly one run row is appended with the summary and audio path, the summary and audio path are shown, the history is refreshed and the status reads "Done. Audio generated." |
| App.App.GenerateDone | HappyVocals.py:426-436 | on success exactly one run is recorded; on error no run is recorded, nothing but the status changes, and the status is "Error: " with the error text |
| App.App.StartGenerate | HappyVocals.py:419-436 | the audio file is named after the time; the task's completion is dispatched to exactly one handler; a run is recorded only when summarizing and synthesis both succeeded |
| App.App.LaunchGenerate | HappyVocals.py:415-436 | after the checks the outputs directory is created, the chosen voice's id is used, and the task's completion determines the new state as for StartGenerate |
| App.App.StartGenerateAsWritten | HappyVocals.py:419-436 | under the written dispatch a successful task records its run exactly as StartGenerate does; after a raised error no run is recorded and the summary, audio path, history and status are left as they were |
| App.App.LaunchGenerateAsWritten | HappyVocals.py:415-436 | under the written dispatch the outputs directory is created and the calls are made as in LaunchGenerate; after a raised error no run is recorded and the status stays "Summarizing and generating audio..." |
| App.App.HandleGenerate | HappyVocals.py:396-436 | the first failing check is the warning returned and then nothing changes (no directory, no call, no run); a blocked outputs directory changes nothing; otherwise the task runs and a run is recorded only on success |
| App.App.LoadRunFromHistory | HappyVocals.py:463-481 | no focus or no run with the row's timestamp changes nothing; otherwise some run with that timestamp fills the summary and audio path, and the row fills the PDF path and the voice |
| Text.NatToString | HappyVocals.py:102 | the decimal rendering of a number is a non-empty string of digits without a leading zero unless the number is 0 |
| Text.NatToStringRoundTrip | HappyVocals.py:102 | reading the decimal rendering back gives the number |
| Text.NatToStringInjective | HappyVocals.py:102 | distinct page numbers render differently |
| Extraction.PageMarkersDistinct | HappyVocals.py:102-104 | distinct pages open with distinct marker lines |
| Text.StripShape | HappyVocals.py:397 | strip() returns a contiguous piece of the string, everything around it is whitespace, and it neither starts nor ends with whitespace |
| Text.StripEmptyIff | HappyVocals.py:401-402 | a stripped field is empty exactly when the field holds only whitespace |
| Text.StripIdempotent | HappyVocals.py:397 | stripping twice is stripping once |
| Text.NameLeReflexive | HappyVocals.py:367 | every name sorts no later than itself in BINARY order |
| Text.NameLeAntisymmetric | HappyVocals.py:367 | two names that each sort before the other are equal |

## Left out

- The Tkinter GUI is not modelled: widgets, styling, dialogs, message boxes and
  the progress bar. Each warning dialog is a `Warning` constructor returned to
  the caller; its text appears only as a comment beside the constructor.
- `open_audio` and the platform file opener are not modelled, nor are the
  file pickers for the PDF and the sample. They are operating-system calls.
- Threads and the `after(0, ...)` hand-off are not modelled. A background
  task runs to completion before its handler is called. Interleavings of two
  tasks and of user input with a running task are not modelled.
- SQLite is modelled only through the `Store` class. Connections, commits and
  SQL parsing are not. The cache query (`ORDER BY name`) enters
  `LoadVoicesFromDb` as rows that satisfy the `IsNameOrderedListing`
  predicate.
- PyPDF2 is not modelled. Its page results are the input, and a file that
  cannot be opened or parsed is an `Error` value.
- The chat and speech services are not modelled. Their answers are inputs,
  and the calls made are recorded in the `requests` log. The temperature
  (a floating-point setting) and the transport timeouts are not modelled.
- The JSON decoding of answers is not modelled. An answer is abstracted to
  the fields the code reads. A list or add-voice body that is not JSON gives
  one `External` error. A chat reply whose content is None is not modelled.
- Transport failures of the voice-service calls are not modelled: a
  connection error or timeout at `requests.get` (line 126) or `requests.post`
  (lines 138 and 147) has no representation, because each call's answer is an
  input. A failed chat call is represented, because the reply is a `Result`.
- Every `Store` method always succeeds. SQLite errors (a locked or full
  database) are not modelled, neither in `upsert_voice` nor in `insert_run`.
  As written, an `insert_run` failure raises inside the generate success
  handler (lines 428-431), after the summary is already shown and before the
  history refresh and the "Done" status.
- `datetime.now()` and `time.time()` become parameters.
- `load_voices_auto` is not modelled separately. It calls `load_voices` when
  a key is present and the cache load otherwise, and LoadVoices already does
  the same on its own empty-key branch.
- AddVoice does not model the voice reload that `_after_add_voice` starts.
  That reload is a separate LoadVoices call, and its completion may later
  reset the selection.
- LoadRunFromHistory: the lookup by timestamp has no ORDER BY, so the
  contract says only that some run with that timestamp is shown, not which
  one.
- ElevenListVoices: the list call raises only for status 400 to 599, as
  `raise_for_status` does. Any other status, such as 1xx or 3xx, is read as
  a list.
- RunBg: models the dispatch `_run_bg` intends, not the written one. As
  written, no error handler runs (`RunBgAsWritten`); the rest of the model uses
  the intended dispatch.
- LoadVoices: its error-path status "Voice load error: <text>" is the intended
  one. As written, the status keeps "Loading voices...".
- AddVoice: its error-path dialog status "Error: <text>" is the intended one.
  As written, the dialog keeps "Cloning voice... please wait.".
- StartGenerate: its error-path status "Error: <text>" is the intended one. As
  written, the status keeps "Summarizing and generating audio...".
- LaunchGenerate: the same error-path status as StartGenerate, for the same
  reason.
- HandleGenerate: the same error-path status as StartGenerate, for the same
  reason.

## Findings

| source | as written | input that shows it | evidently intended | confidence | as-written member | corrected member |
|---|---|---|---|---|---|---|
| HappyVocals.py:498-499 | the error callback closes over the `except` variable `e`, which Python unbinds when the `except` clause ends; when `after(0)` runs the callback, it stops the progress bar and then raises NameError, so on_error never runs | generate with all fields valid and a synthesis answer of status 500: the status stays "Summarizing and generating audio..." instead of "Error: 500: <body>"; likewise "Loading voices..." and "Cloning voice... please wait." stay on a failed list or add call | call on_error with the raised error, e.g. by binding it as a default argument of the callback | high, not executed | App.RunBgAsWritten, App.FailedSynthesisAsWritten, App.App.LaunchGenerateAsWritten | App.RunBg, App.App.GenerateDone, App.App.LaunchGenerate |
