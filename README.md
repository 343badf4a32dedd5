# TalkSense call-centre assistant: a Dafny model of its sequential core

This project models the parts of the call-centre assistant that can be stated precisely:

- **Backend service** (FastAPI):
  - The batch transcription handler. It waits on the transcription job's status and folds the recognised items into Agent/Customer speaker turns.
  - The object keys built for uploads and deletes, and the HTTP errors each handler answers with.
  - The knowledge-base analysis, which folds an object listing into a file count, a total size and per-file entries.
- **Streamlit application**:
  - The storage wrapper: upload and delete return a (success, message) pair, and the listing drops the bare prefix key.
  - The "existing files" table. Both the file-upload component and the training-data page build it.
  - The batch input check.
  - The live call simulator's session state: initialisation, call control, chat buttons, replay and clear.
  - The customer-sentiment tally.
  - The data overview's frequency tallies.
- **React front end**:
  - The call simulator's one-second clock and its scripted transcript, insights and sentiment.
  - `formatTime` and the satisfaction mapping.
  - The chatbot's submit, reply and loading cycle.

## How the model is organised

Each source file gets one module.

- Code that only computes values is written as datatypes, functions and lemmas.
- Loops become methods with loop invariants. Each method is proved equal to a specification function, and the properties are proved about that function:
  - the speaker-turn fold;
  - the analysis fold;
  - the listing-row builder;
  - both tally loops;
  - the polling loop.
- State that the source updates in place becomes a class. Its methods state the whole new state:
  - React component state (`CallSimulator.Simulator`, `Chatbot.Chat`);
  - `st.session_state` (`CallSession.Session`).

Cloud SDK calls are inputs of the model:

- `SdkOutcome` stands for an outcome of an object-store call.
- A sequence of job statuses stands for the polling.
- An optional item list stands for the fetched transcript document.
- A listing sequence stands for `list_objects_v2`.
- A function parameter stands for presigned URLs.

The random upload identifier, the clock's `now` string and whether speech synthesis succeeded are parameters. `random.choice` and `random.randint` become nondeterministic picks (`:|`) within the source's lists and ranges.

| file | module | source |
|---|---|---|
| common.dfy | `Common` | shared `Option` and SDK outcome |
| text.dfy | `Text` | `str(n)`, `os.path.basename`/`split('/')[-1]`, `os.path.splitext`, `str.join`, JS `trim` |
| transcript.dfy | `Transcript` | backend/main.py polling and speaker turns |
| backend_api.dfy | `BackendApi` | backend/main.py handlers |
| s3_service.dfy | `S3Service` | services/s3_service.py |
| file_table.dfy | `FileTable` | the row builder shared by components/file_upload.py and pages/training_data_manager.py |
| file_upload.dfy | `FileUpload` | components/file_upload.py |
| training_data_manager.dfy | `TrainingDataManager` | pages/training_data_manager.py |
| call_simulator.dfy | `CallSimulator` | frontend/src/pages/CallSimulator.jsx |
| chatbot.dfy | `Chatbot` | frontend/src/pages/Chatbot.jsx |
| call_session.dfy | `CallSession` | pages/live_call_simulator.py, components/call_control.py, components/chat_interface.py |
| data_overview.dfy | `DataOverview` | components/data_overview.py |

## Model

| member | source | states |
|---|---|---|
| Text.Basename | backend/main.py:287 | The longest '/'-free suffix of a key, which the preceding character (if any) shows to be a '/'; the same value as `split('/')[-1]` |
| Text.Extension | backend/main.py:79 | `os.path.splitext(...)[1]`: a suffix of the name that is empty or starts with the segment's last '.', has no other '.', no '/', and follows a non-dot character of the last segment (so ".env" has none) |
| Text.SegmentExtensionExists | backend/main.py:79 | A path segment has a non-empty extension exactly when some '.' in it follows a non-dot character (".env" and "a" have none, "a.b" and ".a.b" have one) |
| Text.ExtensionExists | backend/main.py:79 | `splitext(name)[1]` is non-empty exactly when, within the last '/'-segment, some '.' follows a non-dot character |
| Text.Trim | frontend/src/pages/Chatbot.jsx:24 | `input.trim()` is empty exactly when every character is JavaScript whitespace; otherwise it starts and ends with a non-whitespace character |
| Text.ParseDecimalOfDecimal | frontend/src/pages/CallSimulator.jsx:32-34 | Reading back the decimal rendering of a number gives the number |
| Text.Decimal | components/call_control.py:32 | `str(n)` / `n.toString()`: a non-empty string of decimal digits with no leading zero (only 0 itself starts with "0"), one digit exactly when n is below 10 |
| Text.JoinLength | backend/main.py:187 | `sep.join(parts)` of a non-empty list holds every part's characters plus one separator between each two neighbours |
| Transcript.RenderedLength | backend/main.py:185-188 | A turn's 'text' field is its words with single spaces between them, so it is non-empty whenever one of its words is |
| Transcript.FirstTerminal | backend/main.py:161-164 | The first poll reporting COMPLETED or FAILED, with every earlier poll still running; None when no poll is terminal |
| Transcript.WaitForJob | backend/main.py:161-165 | The polling loop stops at exactly the first COMPLETED/FAILED status and only there; it does not stop while neither appears |
| Transcript.FirstTerminalAt | backend/main.py:161-164 | A terminal status with only running statuses before it is the one the loop stops at |
| Transcript.SpeakerTurns | backend/main.py:176-199 | The loop and final flush compute the turn fold; the turns' words, in order, are exactly the first-alternative words of the items; no turn is empty; there are no more turns than words |
| Transcript.RunConservesWords | backend/main.py:181-193 | Loop invariant: flushed words followed by pending words are the words read so far |
| Transcript.RunHasNoEmptyTurn | backend/main.py:181-190 | Loop invariant: a turn is flushed only while words are pending, so no flushed turn is empty |
| Transcript.SegmentConservesWords | backend/main.py:181-199 | Nothing is lost, duplicated or reordered between the items and the returned turns |
| Transcript.SegmentHasNoEmptyTurn | backend/main.py:184-199 | A turn is flushed only while words are pending, so every returned turn has words |
| Transcript.SegmentTurnCount | backend/main.py:181-199 | The number of turns is at most the number of recognised words |
| Transcript.TurnBoundary | backend/main.py:182-193 | A new turn starts only at a labelled item whose speaker differs from a current speaker while words are pending; any other item extends the pending words |
| Transcript.AgentExactlyForLabelOne | backend/main.py:183-186 | A turn is Agent exactly when its speaker label is "1" |
| Transcript.UnlabelledIsCustomer | backend/main.py:195-198 | Words flushed with no speaker seen are attributed to the Customer |
| Transcript.RunSingleSpeaker | backend/main.py:181-193 | With a single label, nothing is flushed during the loop and every word stays pending under that speaker (or none if unlabelled) |
| Transcript.OneSpeakerOneTurn | backend/main.py:181-199 | A transcript labelled with one speaker is one turn holding all its words, leading unlabelled words included |
| Transcript.UnlabelledTranscriptIsOneCustomerTurn | backend/main.py:181-199 | With no speaker labels at all, the words form one Customer turn |
| BackendApi.DeleteKey | backend/main.py:214 | The delete key starts with "knowledge-base/" and the file id follows it |
| BackendApi.UploadKeyShape | backend/main.py:79-80 | An upload key starts with its prefix, ends in the identifier plus the file's extension, and has the same extension as the uploaded file name |
| BackendApi.DeleteReachesUploadedDocument | backend/main.py:210-214 | Prefixing the last segment of an uploaded document's key, as the analysis reports it, gives that key back |
| BackendApi.UploadDocument | backend/main.py:75-109 | Success exactly when the store and presign calls succeed, returning the fresh "knowledge-base/" key and the link; every failure is a 500 |
| BackendApi.UploadAudio | backend/main.py:111-135 | Success exactly when the store call succeeds, returning the fresh "recordings/" key; every failure is a 500 |
| BackendApi.DeleteFileAsWritten | backend/main.py:210-232 | As written: success exactly when the delete succeeds; every error, a missing object included, answers 500 |
| BackendApi.DeleteFile | backend/main.py:225-228 | As intended: 404 exactly for NoSuchKey, 500 for any other failure |
| BackendApi.MissingObjectAnswers500 | backend/main.py:225-232 | A NoSuchKey failure answers 500 as written and 404 as intended |
| BackendApi.TranscribeAsWritten | backend/main.py:137-208 | As written: every error is a 500, a missing or empty key gives the wrapped 400 and a failed job start gives the SDK error; the handler keeps polling exactly when the key is present, the job started and no terminal status came; it succeeds exactly when the key is present, the job started, the first terminal status is COMPLETED and the transcript was fetched, and then returns the segmented turns |
| BackendApi.Transcribe | backend/main.py:137-208 | As intended: a missing or empty audioKey answers 400 and is the only 400; a failed start gives the SDK error as a 500; polling, success exactly after COMPLETED with a fetched transcript, and the segmented turns as written |
| BackendApi.MissingAudioKeyAnswers500 | backend/main.py:140-208 | A request whose audioKey is absent or empty answers 500 as written and 400 as intended |
| BackendApi.TranscribeAgreesExceptStatus | backend/main.py:137-208 | Both versions poll for the same inputs, succeed for the same inputs, and return the same turns |
| BackendApi.FailedJobIsAnError | backend/main.py:167-168 | A FAILED job never yields turns |
| BackendApi.AggregateListing | backend/main.py:271-302 | totalFiles counts the listed objects other than the bare prefix, totalSize sums their sizes, and files holds one entry per counted object in order; no 'Contents' gives 0, 0 and [] |
| BackendApi.CountedExactly | backend/main.py:277-284 | An object is counted exactly when it is listed and is not the bare prefix; the count is the listing size minus the prefix entries |
| BackendApi.GetAnalysis | backend/main.py:234-317 | Every failure of the connectivity, bucket or listing step is a 500; success exactly when all three succeed, with the aggregated listing |
| S3Service.UploadKey | services/s3_service.py:24 | The upload key is the prefix followed by the filename |
| S3Service.UploadFile | services/s3_service.py:21-33 | Uploads privately to the configured bucket under UploadKey(filename), the prefix followed by the name; (True, "Successfully uploaded " + filename) exactly on success, else (False, the error text) |
| S3Service.DeleteFile | services/s3_service.py:35-44 | Deletes exactly the given key in the configured bucket; (True, "Successfully deleted " + key) exactly on success, else (False, the error text) |
| S3Service.Visible | services/s3_service.py:54-62 | No returned file has the prefix as its key, every URL is the bucket's virtual-hosted URL of the key, and no more files come back than were listed |
| S3Service.ListFiles | services/s3_service.py:46-65 | No 'Contents' and any exception give []; otherwise the filtered listing |
| S3Service.VisibleDistributes | services/s3_service.py:54-62 | The filter works entry by entry, so it keeps the listing order |
| S3Service.VisibleExactly | services/s3_service.py:54-62 | A listed object is returned, with its key, size, timestamp and URL, exactly when its key differs from the prefix; nothing else is returned |
| S3Service.VisibleCount | services/s3_service.py:54-62 | Only the bare-prefix entries are dropped |
| FileTable.BuildRows | components/file_upload.py:28-39 | The enumerate/skip loop produces exactly the row fold; pages/training_data_manager.py:351-362 repeats it verbatim |
| FileTable.RowsSound | pages/training_data_manager.py:352-362 | Every row belongs to a shown file at its own enumerate index (so skips leave gaps), with that key's last segment, its size and timestamp, and the full key |
| FileTable.RowsOrdered | pages/training_data_manager.py:352-362 | Row indexes lie within the listing and strictly increase, so rows keep the listing order and no file yields two rows |
| FileTable.RowsComplete | components/file_upload.py:29-39 | Every listed file with a non-empty last segment gets a row |
| FileTable.RowsEmptyIffNoneShown | components/file_upload.py:31-32 | There are no rows exactly when every listed key ends in '/' |
| FileTable.ShownIffNamed | components/file_upload.py:30-32 | A file is skipped exactly when its last '/'-segment is empty |
| FileTable.DeleteTargetsListedKey | pages/training_data_manager.py:399-400 | The Delete button passes the listed object's full key, whose last segment is the row's displayed name |
| FileTable.View | components/file_upload.py:26-69 | An empty listing shows "No files uploaded yet."; a table is drawn exactly when some row exists, with those rows |
| FileTable.DeleteNotice | components/file_upload.py:61-67 | After Delete, success names the row's file, and failure names it with the service's error text |
| FileUpload.UploadNotice | components/file_upload.py:13-22 | The upload notice is the service's success message naming the file, or its error text |
| FileUpload.Render | components/file_upload.py:13-69 | An upload notice appears exactly when a file was chosen; the "no files" notice appears exactly when the listing is empty; the listing part is the shared table view of what the service lists, so its rows are those FileTable.RowsSound and FileTable.RowsComplete describe |
| TrainingDataManager.ProcessBatch | pages/training_data_manager.py:131-135 | Success exactly for non-empty input (whitespace counts as input), else the error notice |
| CallSimulator.Progress | frontend/src/pages/CallSimulator.jsx:37-65 | Second 3 resets to the first line and insight; 6 to 18 each append the next line and insight (two at 18); sentiment becomes neutral, negative or positive at 3, 9 and 15; any other second changes nothing |
| CallSimulator.TranscriptClosedForm | frontend/src/pages/CallSimulator.jsx:37-65 | After n seconds the transcript is the first min(n div 3, 6) script lines joined by newlines |
| CallSimulator.InsightsClosedForm | frontend/src/pages/CallSimulator.jsx:37-65 | After n seconds the insights are the first 0,1,2,3,4,5 or 7 of the seven, in script order |
| CallSimulator.SentimentClosedForm | frontend/src/pages/CallSimulator.jsx:42-55 | The sentiment is neutral before second 9, negative from 9, positive from 15 |
| CallSimulator.AfterTicksClosedForm | frontend/src/pages/CallSimulator.jsx:37-65 | The whole displayed state after n seconds of a call, in closed form |
| CallSimulator.ScriptEnds | frontend/src/pages/CallSimulator.jsx:57-64 | From second 18 on the display no longer changes: seven insights, positive sentiment |
| CallSimulator.Satisfaction | frontend/src/pages/CallSimulator.jsx:212-218 | 80 exactly for "positive", 50 exactly for "neutral", 30 for anything else |
| CallSimulator.SatisfactionOverCall | frontend/src/pages/CallSimulator.jsx:212-218 | During a call, satisfaction reads 50, then 30 from second 9, then 80 from second 15 |
| CallSimulator.Pad2 | frontend/src/pages/CallSimulator.jsx:34 | Seconds below 60 always render as exactly two digits |
| CallSimulator.FormatTime | frontend/src/pages/CallSimulator.jsx:31-35 | Digits, a colon, then exactly two digits |
| CallSimulator.FormatTimeRoundTrip | frontend/src/pages/CallSimulator.jsx:31-35 | The two fields read back as mins and secs with secs < 60 and mins*60 + secs equal to the input |
| CallSimulator.Simulator.constructor | frontend/src/pages/CallSimulator.jsx:6-10 | Inactive, at second 0, with the empty display |
| CallSimulator.Simulator.StartCall | frontend/src/pages/CallSimulator.jsx:67-73 | Active, duration 0, empty transcript and insights, neutral sentiment |
| CallSimulator.Simulator.EndCall | frontend/src/pages/CallSimulator.jsx:75-77 | Only the active flag is cleared; the duration and display stay |
| CallSimulator.Simulator.SimulateCallProgress | frontend/src/pages/CallSimulator.jsx:37-65 | The setters apply Progress for the given second and touch nothing else |
| CallSimulator.Simulator.Tick | frontend/src/pages/CallSimulator.jsx:20-29 | While active the duration grows by exactly 1 and the display stays the script's state for it; while inactive nothing changes |
| Chatbot.SubmitEnabled | frontend/src/pages/Chatbot.jsx:96 | The send button is enabled exactly when not loading and the input has a non-whitespace character |
| Chatbot.Chat.constructor | frontend/src/pages/Chatbot.jsx:9-11 | No messages, empty input, not loading |
| Chatbot.Chat.SetInput | frontend/src/pages/Chatbot.jsx:90 | Typing replaces the input only |
| Chatbot.Chat.HandleSubmit | frontend/src/pages/Chatbot.jsx:22-29 | Blank input changes nothing; otherwise exactly one user message with the untrimmed input is appended, input is cleared and loading starts |
| Chatbot.Chat.FinishReply | frontend/src/pages/Chatbot.jsx:31-40 | The fixed assistant reply is appended unless the wait failed; loading ends in every case; earlier messages are kept |
| CallSession.EngineFor | components/chat_interface.py:110-113 | Offline speech exactly for mode "offline", Edge TTS otherwise |
| CallSession.PreselectedIndex | components/call_control.py:44-49 | The preselected option is 0 exactly when the stored mode is "offline" |
| CallSession.PreselectionKeepsMode | components/call_control.py:44-49 | Keeping the preselected option keeps the stored mode |
| CallSession.DurationLabel | components/call_control.py:30-32 | The duration is shown only while active, as digits followed by "s" |
| CallSession.DurationLabelRoundTrip | components/call_control.py:32 | The digits of the duration label read back as call_duration |
| CallSession.LastTextBy | components/chat_interface.py:151-153 | None exactly when the speaker has no message; otherwise the text of that speaker's last message |
| CallSession.TallyCustomerSentiments | pages/live_call_simulator.py:67-70 | Counts exactly when no customer sentiment is unknown, then each count is that sentiment's number of customer messages; otherwise the KeyError of the first unknown one |
| CallSession.TalliesSum | pages/live_call_simulator.py:67-70 | The three counts sum to the number of customer messages with a sentiment |
| CallSession.AgentMessagesNotCounted | pages/live_call_simulator.py:69 | Agent messages never change a count |
| CallSession.WellFormedIsKnown | components/chat_interface.py:93-106 | Messages the chat buttons produce never raise the tally's KeyError |
| CallSession.Session.constructor | pages/live_call_simulator.py:7-19 | A fresh browser session: `st.session_state` holds no key yet, so InitDefaults will set every default |
| CallSession.Session.InitDefaults | pages/live_call_simulator.py:8-19 | Each absent field gets its default (inactive, empty histories, 0, auto-speak on, "offline") and each present one keeps its value; a second run changes nothing |
| CallSession.Session.StartCall | components/call_control.py:10-16 | Offered only when inactive: active, empty histories, duration 0, settings kept |
| CallSession.Session.EndCall | components/call_control.py:20-23 | Only the active flag is cleared |
| CallSession.Session.ApplySettings | components/call_control.py:43-49 | auto_speak is the checkbox and tts_mode one of "offline"/"edge-tts" |
| CallSession.Session.Append | components/chat_interface.py:106-118 | One message appended, marked played exactly when auto-speak is on and speech succeeded; speech requested exactly when auto-speak is on; duration grows within the range |
| CallSession.Session.CustomerSpeaks | components/chat_interface.py:93-119 | One Customer message from the list, with a Positive/Neutral/Negative sentiment; earlier messages untouched; duration +5..15 |
| CallSession.Session.AgentResponds | components/chat_interface.py:122-147 | One Agent message from the list, with sentiment "Professional"; earlier messages untouched; duration +3..10 |
| CallSession.Session.ReplayLast | components/chat_interface.py:150-169 | Speaks the last message of the speaker, if any, with the current engine; changes nothing |
| CallSession.Session.ClearChat | components/chat_interface.py:172-176 | Both histories emptied; duration and call flag unchanged |
| CallSession.Session.RenderPage | pages/live_call_simulator.py:7-73 | The session afterwards is the initialised one (each absent field at its default, each present one kept); the chat and analytics are drawn exactly while a call is active, with the sentiment tally when every customer sentiment is known and otherwise the KeyError of the first unknown one; the settings widgets are taken as left at the values they show, which `PreselectionKeepsMode` and `ApplySettings` justify |
| DataOverview.IndexOf | components/data_overview.py:28 | The dictionary lookup finds the key's entry exactly when the key is present |
| DataOverview.Tally | components/data_overview.py:25-28 | The counting loop produces exactly the tally fold |
| DataOverview.TallyCounts | components/data_overview.py:40-43 | Keys are the distinct values in first-occurrence order, each count is that value's number of occurrences, and the counts sum to the number of files |
| DataOverview.TallyEmpty | components/data_overview.py:30 | A tally is empty exactly when there are no files |
| DataOverview.RenderOverview | components/data_overview.py:5-51 | "Total Files" is the number of files; each chart is drawn exactly when there are files, from the tally by type or by status |

## Left out

- Real-time transcription over WebSockets (backend/main.py:320-393) is concurrency between tasks and threads.
- Text-to-speech and audio playback are foreign calls. The model keeps only the request it makes and whether it succeeded. This covers services/tts_service.py, `stop_audio` and the browser's audio capture.
- Cloud SDK calls are inputs. The model does not see into them:
  - object-store calls, presigned URLs, starting a transcription job, querying its status with `get_transcription_job`, and fetching the transcript document with `requests.get`.
  - A status query that raises (backend/main.py:162) goes through `except Exception` to a 500. The model's poll sequence lists only the statuses returned, so this case is not represented.
  - The `asyncio.sleep` between polls is ignored. A job that never ends is modelled by `None`.
- S3Service.DefaultConfig: the region is fixed at "ap-south-1", the configuration file's default. The deployment can set another through AWS_DEFAULT_REGION. Only the public URLs depend on it.
- CallSession.Session.RenderPage: each run also writes the auto-speak checkbox and the TTS-mode select box back into the session (components/call_control.py:42-48). The page is modelled as drawn with both widgets untouched, which keeps the stored values (`PreselectionKeepsMode`). A user's change goes through `ApplySettings`.
- Timestamps are kept as opaque strings: `datetime.now().strftime(...)`, `LastModified.strftime(...)` and `isoformat()`.
- Floating point and charting are not modelled: KB sizes, plotly charts, the random "Processing Queue" metric and the fixed percentage metrics.
- Presentation is not modelled:
  - HTML/CSS, the insight and sentiment colours, and the scenario selector (the script never reads it).
  - The chatbot's scroll-to-bottom effect and the settings widgets that the session never stores.
  - The navigation bar, dashboard, routing, app.py, configuration, CORS, the root endpoint and the debug endpoint.
- `random.choice`/`random.randint` are nondeterministic picks within the source's lists and ranges. Uniformity is not modelled.
- A Python `KeyError` is returned as a `KeyError` value rather than raised.
- BackendApi.UploadKeyShape: the random identifier is assumed to look like `str(uuid4())`: non-empty, with no '/' and no '.'.
- BackendApi.TranscribeAsWritten: the detail text of a re-raised HTTPException is modelled by the `Wrapped` reason, not by Starlette's exact `str()` of it.
- Transcript.SpeakerTurns: "no empty turn" is stated for the turn's word list. If a transcript word were itself the empty string, its turn's joined text could be empty.
- CallSimulator.Simulator.Tick: React's interval re-subscription and cleanup are collapsed into one tick per second while active.
- Chatbot.Chat.FinishReply: the awaited one-second delay is split from `handleSubmit` as its own step. Interleaving of two overlapping submissions is only what these two methods allow.

## Findings

| source | as written | input that shows it | evidently intended | confidence | as-written member | corrected member |
|---|---|---|---|---|---|---|
| backend/main.py:225-232 | The 404 raised for NoSuchKey inside the outer `try` is caught by `except Exception` and re-raised as a 500 | `DELETE /api/delete/x` when `delete_object` raises a ClientError with code NoSuchKey | Answer 404 "File not found" | not executed | BackendApi.DeleteFileAsWritten | BackendApi.DeleteFile |
| backend/main.py:140-142 | The 400 for a missing audioKey is raised inside the `try` and is re-raised as a 500 by `except Exception` (lines 206-208) | `POST /api/transcribe` with body `{}` | Answer 400 "Audio key is required" | not executed | BackendApi.TranscribeAsWritten | BackendApi.Transcribe |

The lemmas `BackendApi.MissingObjectAnswers500` and `BackendApi.MissingAudioKeyAnswers500` show each discrepancy on its input.
