# MINDHUE frontend core, modelled in Dafny

This project models the deterministic logic of the MINDHUE medical-diagnosis web
frontend and proves properties of it. The frontend is a React application on a hosted
backend, and the logic in question is the following.

- **The diagnosis workflow** (`src/pages/Diagnosis.jsx`):
  - a four-step controller: intake, upload, confirm, result;
  - the prompt sent to the classifier;
  - reconciliation of the classifier's answer with the disease catalogue, which yields a report with a severity, a review flag and the file URL in the field that matches the analysis type.
- **Page-name resolution** from the URL (`src/pages/index.jsx`).
- **The report list**: its filters, patient-name lookup, severity colours, the stats counts and the condition badges (`src/pages/Reports.jsx`).
- **The doctor directory**: its filters and the star row (`src/pages/Doctors.jsx`).
- **The patient intake form** and its "Other symptoms" box.
- **The two assistant chats** and their send guards.
- **The drag-and-drop state and file gating** of the two upload widgets.

Layout, one module per source file, plus four support modules:

| module | file | models |
|---|---|---|
| `Wrappers` | `wrappers.dfy` | `Option`; `Outcome`, the success or failure of a backend call |
| `JsText` | `jstext.dfy` | the JavaScript string built-ins the core uses: `toLowerCase` (ASCII), `trim`/`trimStart` (the ECMAScript white-space set), `includes`, `startsWith`, `endsWith`, `join`, integer printing and `parseInt` on decimal text |
| `Seqs` | `seqs.dfy` | `Array.prototype.filter` and `find`, order-preserving subsequences |
| `Dom` | `dom.dfy` | files, the first file of a `FileList`, and drag-event handling |
| `Pages` | `pages.dfy` | `src/pages/index.jsx` |
| `Reports` | `reports.dfy` | `src/pages/Reports.jsx` |
| `Doctors` | `doctors.dfy` | `src/pages/Doctors.jsx` |
| `PatientForm` | `patient_form.dfy` | `src/components/diagnosis/PatientForm.jsx` |
| `Chat` | `chat.dfy` | `src/pages/Chat.jsx` |
| `FloatingAssistant` | `assistant.dfy` | `src/components/ui/FloatingAIAssistant.jsx` |
| `ImageUpload` | `image_upload.dfy` | `src/components/diagnosis/ImageUpload.jsx` |
| `ErgUpload` | `erg_upload.dfy` | `src/components/diagnosis/ErgUpload.jsx` |
| `Diagnosis` | `diagnosis.dfy` | `src/pages/Diagnosis.jsx` |

Pure code becomes functions and lemmas. Each component whose state the handlers update
becomes a class with the same fields:
- `DiagnosisPage`;
- `PatientFormState`;
- `ChatPage`;
- `AssistantWidget`;
- the two upload widgets.

Each handler becomes a method whose `ensures` clauses give the whole new state.

**Backend calls.** Every backend call enters the model as an `Outcome` parameter: success
with a value, or failure. This covers:
- `UploadFile`;
- `Patient.create`;
- `DiseaseInfo.list`;
- `InvokeLLM`;
- `DiagnosisReport.create`.

**Asynchronous handlers.** An async handler is split at its first `await`:
- **The synchronous prefix:**
  - `DiagnosisPage.BeginDiagnosis`;
  - the chats' `HandleSend`.
- **The part that runs once the calls settle:**
  - `DiagnosisPage.FinishDiagnosis`;
  - `CompleteSend`.
- **The progress interval:** each firing is `DiagnosisPage.Tick`.

The values the `performDiagnosis` closure captured are kept in `inFlight`:
- the patient record;
- the file URL;
- the analysis type.

So a run that finishes after a reset still uses them, as the code does.

**Severity.** The classifier's severity is stated twice:
- `SeverityFor` gives it as a decision table;
- `ComputeSeverity` repeats the source's sequence of `let severity` reassignments, with the upper-case `'ARMD'` entry, and is proved equal to `SeverityFor`.

Because the label is lower-cased before the membership test, `'ARMD'` can never match
(`ArmdEntryUnreachable`). An ARMD classification is therefore moderate, or mild below
70 (`ArmdIsNeverSevere`).

Three further facts of the code that the model keeps:
- **Intake:** the form does no validation; `required`, `min` and `max` are HTML attributes only.
- **Analysis types:** the ERG path goes through the same catalogue lookup, schema and severity rules as the fundus path.
- **Stale results:** there is no guard against a stale analysis result.

## Model

| member | source | states |
|---|---|---|
| Pages.StripTrailingSlash | src/pages/index.jsx:38-40 | exactly one trailing `/` is removed, and nothing else changes |
| Pages.LastSegment | src/pages/index.jsx:41 | the result is the suffix after the last `/`: it holds no `/`, and the character before it is `/` |
| Pages.BeforeQuery | src/pages/index.jsx:42-44 | the result is the prefix before the first `?`: it holds no `?` |
| Pages.CurrentSegment | src/pages/index.jsx:38-44 | the segment that is matched holds no `/` and no `?` |
| Pages.PageKeysLowerDistinct | src/pages/index.jsx:19-35 | no two page keys lower-case to the same text, so a case-insensitive match is unambiguous |
| Pages.MatchPage | src/pages/index.jsx:46-47 | the result is always a key; it is the key matching the segment case-insensitively, or the first key when none matches |
| Pages.GetCurrentPage | src/pages/index.jsx:37-48 | the resolved page is always one of the page keys |
| Pages.LastSegmentAfterSlash | src/pages/index.jsx:41 | the last segment of `prefix/seg` is `seg` when `seg` has no slash |
| Pages.SegmentOfLastPart | src/pages/index.jsx:41-44 | the matched segment of `prefix/tail` is `tail`, cut at its first `?` |
| Pages.LastSegmentDecides | src/pages/index.jsx:41-47 | only the last path segment decides the page, whatever precedes it |
| Pages.MatchIgnoresCase | src/pages/index.jsx:46 | a last segment equal to a key up to case resolves to that key, so `/reports` gives `Reports` |
| Pages.QueryIgnored | src/pages/index.jsx:42-44 | anything after `?` in the last segment does not affect the page |
| Pages.BeforeQueryStopsAtMark | src/pages/index.jsx:43 | splitting at `?` keeps exactly the text before the first mark |
| Pages.TrailingSlashIgnored | src/pages/index.jsx:38-40 | `url/` resolves to the same page as `url` |
| Pages.EmptySegmentFallsBack | src/pages/index.jsx:47 | an empty segment resolves to `Home`, the first key |
| Pages.DoubleTrailingSlashFallsBack | src/pages/index.jsx:38-47 | a second trailing slash is not ignored: `url//` resolves to `Home` |
| Pages.RootIsHome | src/pages/index.jsx:37-48 | `/` resolves to `Home` |
| Reports.FindPatient | src/pages/Reports.jsx:68 | no result exactly when no patient has the id; a result is the first listed patient with that id |
| Reports.HitsSearch | src/pages/Reports.jsx:67-71 | a report with neither a named patient nor a diagnosis never matches the search |
| Reports.FilterReports | src/pages/Reports.jsx:63-83 | the shown list is no longer than the loaded one, and every shown report is loaded and passes every active filter |
| Reports.FilterReportsIsOneFilter | src/pages/Reports.jsx:63-83 | the three chained filters equal one filter by the conjunction of the active predicates |
| Reports.ShownIffKept | src/pages/Reports.jsx:66-80 | a report is shown iff it passes the search (patient name or diagnosis, case-insensitive), severity and status tests that are active |
| Reports.FilterReportsIsSubsequence | src/pages/Reports.jsx:63-82 | the shown list is an order-preserving subsequence of the loaded list |
| Reports.NoFilterShowsAll | src/pages/Reports.jsx:64-82 | with an empty search and both filters at `all`, every report is shown, in order |
| Reports.GetPatientName | src/pages/Reports.jsx:93-96 | `Unknown Patient` when no patient has the id or the name is missing or empty; otherwise the linked patient's name |
| Reports.GetSeverityColor | src/pages/Reports.jsx:28-36 | an unknown severity gets the slate classes and no known one does; only `critical` gets the red classes |
| Reports.SeverityColorsDistinct | src/pages/Reports.jsx:29-34 | the four known severities get four different colour classes |
| Reports.MildCount | src/pages/Reports.jsx:161 | at most the total, and 0 iff no report is mild |
| Reports.ModerateSevereCount | src/pages/Reports.jsx:175 | at most the total, and 0 iff no report is moderate or severe |
| Reports.StatsWithinTotal | src/pages/Reports.jsx:148-175 | the mild count plus the moderate/severe count never exceeds the total |
| Reports.ConditionBadges | src/pages/Reports.jsx:304-313 | no conditions give no badges; otherwise the first min(3, n) conditions in order, then a `+(n-3) more` badge exactly when n > 3 |
| Reports.BadgesAccountForAll | src/pages/Reports.jsx:304-313 | the badges account for every condition: shown names plus the hidden count equal n |
| Doctors.MenuRating | src/pages/Doctors.jsx:163-167 | each rating-menu value reads as a minimum between 3.0 and 4.5 |
| Doctors.HitsSearch | src/pages/Doctors.jsx:48-52 | a doctor with no name, specialization or hospital never matches the search |
| Doctors.FilterDoctors | src/pages/Doctors.jsx:44-67 | the shown list is no longer than the loaded one, and every shown doctor is loaded and passes every active filter |
| Doctors.FilterDoctorsIsOneFilter | src/pages/Doctors.jsx:44-67 | the three chained filters equal one filter by the conjunction of the active predicates |
| Doctors.ShownIffKept | src/pages/Doctors.jsx:47-64 | a doctor is shown iff it passes the active tests: the search on name, specialization or hospital; the specialization substring test; `(rating \|\| 0) >= min` |
| Doctors.FilterDoctorsIsSubsequence | src/pages/Doctors.jsx:44-66 | the shown list is an order-preserving subsequence of the loaded list |
| Doctors.SpecializationIsSubstringTest | src/pages/Doctors.jsx:55-59 | the specialization filter is a substring test: `retinal` matches "Retinal Specialist" |
| Doctors.UnratedFailsEveryMinimum | src/pages/Doctors.jsx:61-64 | an unrated doctor counts as 0 and fails every menu minimum |
| Doctors.RatingOrZero | src/pages/Doctors.jsx:63 | `doctor.rating \|\| 0`: a missing rating reads as 0 (no contract of its own; `UnratedFailsEveryMinimum` and `MissingRatingAllEmpty` state its effect) |
| Doctors.Ceil | src/pages/Doctors.jsx:90 | `Math.ceil`: the least integer not below the rating |
| Doctors.StarRow | src/pages/Doctors.jsx:79-93 | the row never draws more of a star after drawing less: full stars, then the half star, then empty ones |
| Doctors.RenderStars | src/pages/Doctors.jsx:77-96 | the two push loops and the half-star test produce exactly the star row of the rating |
| Doctors.StarsOfRatingInRange | src/pages/Doctors.jsx:79-93 | for 0 ≤ r ≤ 5: 5 stars in all, of which floor(r) full, one half iff r is not whole, and 5 − ceil(r) empty |
| Doctors.NoEmptyStarsAboveFive | src/pages/Doctors.jsx:90-93 | above 5 the empty-star loop runs no times |
| Doctors.MissingRatingAllEmpty | src/pages/Doctors.jsx:79-93 | a missing rating gives five empty stars |
| PatientForm.SymptomMenuShape | src/components/diagnosis/PatientForm.jsx:30-43 | twelve symptom choices, of which only the last is "Other symptoms" |
| PatientForm.AgeValue | src/components/diagnosis/PatientForm.jsx:89 | the age field stores `parseInt` of the typed text, or NaN when it has no leading integer |
| PatientForm.AgeOfDecimalText | src/components/diagnosis/PatientForm.jsx:89 | typing the decimal text of an integer stores that integer |
| PatientForm.ClearedAgeIsNaN | src/components/diagnosis/PatientForm.jsx:89 | clearing the age box stores NaN |
| PatientForm.PatientFormState.constructor | src/components/diagnosis/PatientForm.jsx:12-19 | the form starts with all six fields as empty strings and the custom-symptom box hidden |
| PatientForm.PatientFormState.HandleChange | src/components/diagnosis/PatientForm.jsx:26-28 | the named field takes the value and every other field is unchanged |
| PatientForm.PatientFormState.TypeAge | src/components/diagnosis/PatientForm.jsx:89 | the age field becomes the parse of the typed text, and nothing else changes |
| PatientForm.PatientFormState.SelectSymptom | src/components/diagnosis/PatientForm.jsx:166 | the symptom field becomes the choice; the custom box shows iff the choice is "Other symptoms" |
| PatientForm.PatientFormState.TypeCustomSymptoms | src/components/diagnosis/PatientForm.jsx:180-187 | typing in the custom box overwrites the symptom field, so the box stays open only for the literal "Other symptoms" |
| PatientForm.PatientFormState.HandleSubmit | src/components/diagnosis/PatientForm.jsx:21-24 | the record is passed on unchanged, with all six fields and no validation |
| Chat.MessageText | src/pages/Chat.jsx:100 | a non-empty question wins over the trimmed input; the text is empty iff there is no question and the input is all white space |
| Chat.ChatPage.constructor | src/pages/Chat.jsx:80-92 | after mounting, the transcript is the AI greeting alone, and suggestions are shown |
| Chat.ChatPage.TypeInput | src/pages/Chat.jsx:217 | the input box holds the typed text; the transcript and loading flag are unchanged |
| Chat.ChatPage.HandleSend | src/pages/Chat.jsx:99-106 | accepted iff the message text is non-empty and nothing is in flight; if accepted, one user message is appended, the box is cleared and loading starts; otherwise nothing changes |
| Chat.ReplyText | src/pages/Chat.jsx:136-141 | the apology is shown iff the call failed or the model answered with the apology's exact text |
| Chat.ChatPage.CompleteSend | src/pages/Chat.jsx:134-145 | exactly one AI message is appended, the reply or the fixed apology, and loading ends |
| Chat.ChatPage.HandleKeyPress | src/pages/Chat.jsx:148-153 | Enter without Shift, with nothing in flight, sends the trimmed input; every other key changes nothing |
| Chat.ChatPage.SelectSuggestion | src/pages/Chat.jsx:181-183 | a suggested question, offered only while the transcript has at most one message, is always sent, after which suggestions are hidden |
| FloatingAssistant.IsBlank | src/components/ui/FloatingAIAssistant.jsx:32 | the input is blank iff every character is white space |
| FloatingAssistant.AssistantWidget.constructor | src/components/ui/FloatingAIAssistant.jsx:10-19 | the widget starts closed and not minimized, with the assistant greeting alone and an empty box |
| FloatingAssistant.AssistantWidget.Open | src/components/ui/FloatingAIAssistant.jsx:82 | the launcher opens the widget and keeps the transcript |
| FloatingAssistant.AssistantWidget.Close | src/components/ui/FloatingAIAssistant.jsx:120 | closing keeps the transcript, so it reappears on reopening |
| FloatingAssistant.AssistantWidget.ToggleMinimize | src/components/ui/FloatingAIAssistant.jsx:112 | minimize flips the flag and changes nothing else |
| FloatingAssistant.AssistantWidget.TypeInput | src/components/ui/FloatingAIAssistant.jsx:178 | the input box holds the typed text |
| FloatingAssistant.NotBlankIsVisible | src/components/ui/FloatingAIAssistant.jsx:32 | text that is not blank has a character outside the white-space set |
| FloatingAssistant.AskKeepsAlternation | src/components/ui/FloatingAIAssistant.jsx:35 | a non-blank question after an answered transcript keeps the greeting-question-answer shape |
| FloatingAssistant.AnswerKeepsAlternation | src/components/ui/FloatingAIAssistant.jsx:59-69 | an answer after an open question keeps that shape |
| FloatingAssistant.ReplyContent | src/components/ui/FloatingAIAssistant.jsx:59-66 | the apology is appended iff the call failed or the model answered with the apology's exact text |
| FloatingAssistant.AssistantWidget.HandleSend | src/components/ui/FloatingAIAssistant.jsx:31-37 | accepted iff the trimmed input is non-empty and nothing is in flight; the stored message is the untrimmed input; otherwise nothing changes |
| FloatingAssistant.AssistantWidget.Ask | src/components/ui/FloatingAIAssistant.jsx:34-37 | the accepted send appends the input as typed, clears the box and starts loading |
| FloatingAssistant.AssistantWidget.CompleteSend | src/components/ui/FloatingAIAssistant.jsx:59-69 | exactly one assistant message is appended, the reply or the fixed apology, and loading ends |
| FloatingAssistant.AssistantWidget.HandleKeyPress | src/components/ui/FloatingAIAssistant.jsx:72-76 | Enter without Shift calls the send, whose own guard makes Enter during a request a no-op; an accepted key appends the untrimmed input, clears the box and starts loading |
| Dom.DragActiveAfter | src/components/diagnosis/ImageUpload.jsx:13-17 | `dragenter`/`dragover` set the flag, `dragleave` clears it, other events leave it |
| Dom.FirstFile | src/components/diagnosis/ImageUpload.jsx:36 | a file is forwarded iff the list exists and is non-empty, and it is the first one |
| ImageUpload.ImageDropForwards | src/components/diagnosis/ImageUpload.jsx:25-31 | a drop forwards the first file iff its MIME type starts with `image/` |
| ImageUpload.NonImageIgnored | src/components/diagnosis/ImageUpload.jsx:28-30 | a first file of another type is ignored, whatever follows it |
| ImageUpload.ImageUploadWidget.constructor | src/components/diagnosis/ImageUpload.jsx:7 | the widget starts with no drag in progress |
| ImageUpload.ImageUploadWidget.HandleDrag | src/components/diagnosis/ImageUpload.jsx:10-18 | the drag flag follows the event type |
| ImageUpload.ImageUploadWidget.HandleDrop | src/components/diagnosis/ImageUpload.jsx:20-32 | a drop always clears the drag flag and forwards only a first image file |
| ImageUpload.ImageUploadWidget.HandleFileSelect | src/components/diagnosis/ImageUpload.jsx:34-39 | the picker forwards the first file with no type check, and nothing on an empty list |
| ErgUpload.ErgUploadWidget.constructor | src/components/diagnosis/ErgUpload.jsx:8 | the widget starts with no drag in progress |
| ErgUpload.ErgUploadWidget.HandleDrag | src/components/diagnosis/ErgUpload.jsx:11-19 | the same drag-flag transitions as the image widget |
| ErgUpload.ErgUploadWidget.HandleDrop | src/components/diagnosis/ErgUpload.jsx:21-30 | a drop clears the drag flag and forwards the first file whatever its type |
| ErgUpload.ErgUploadWidget.HandleFileSelect | src/components/diagnosis/ErgUpload.jsx:32-37 | the picker forwards the first file, and nothing on an empty list |
| Diagnosis.AnalysisTypeOf | src/pages/Diagnosis.jsx:35-43 | the analysis type is ERG exactly for `?type=erg`, and fundus otherwise |
| Diagnosis.PrintedOr | src/pages/Diagnosis.jsx:72-74 | `value \|\| fallback`: the fallback for a falsy value, otherwise the printed value, which is non-empty |
| Diagnosis.ContextBlock | src/pages/Diagnosis.jsx:90-95 | the `Patient Context` block; it has no contract of its own, and `ContextBlockStatesLines` states the lines it holds |
| Diagnosis.GetAnalysisPrompt | src/pages/Diagnosis.jsx:63-102 | the ERG or the fundus template around the context block; it has no contract of its own, and the prompt lemmas below state what it contains |
| Diagnosis.FundusPromptCarriesCategories | src/pages/Diagnosis.jsx:87-101 | any text inside the joined category list is inside the fundus prompt |
| Diagnosis.FundusPromptListsEveryDisease | src/pages/Diagnosis.jsx:88 | the fundus prompt names every catalogue entry as a category |
| Diagnosis.ErgPromptIgnoresCatalogue | src/pages/Diagnosis.jsx:64-84 | the ERG prompt does not depend on the catalogue |
| Diagnosis.ErgCarriesContext | src/pages/Diagnosis.jsx:65-84 | the ERG prompt contains the patient-context block at its indentation |
| Diagnosis.FundusPromptCarriesBlock | src/pages/Diagnosis.jsx:87-101 | the fundus template contains the context block it is given, at any indentation |
| Diagnosis.FundusCarriesContext | src/pages/Diagnosis.jsx:87-101 | the fundus prompt contains the patient-context block at its indentation |
| Diagnosis.PromptCarriesContext | src/pages/Diagnosis.jsx:63-102 | both prompts contain the patient-context block |
| Diagnosis.ContextBlockStatesLines | src/pages/Diagnosis.jsx:90-95 | the context block has the gender, history and symptom lines, each with its fallback text |
| Diagnosis.PromptStatesContextLines | src/pages/Diagnosis.jsx:63-102 | both prompts state gender, history and symptoms, with `Not specified` and the other fallbacks for falsy fields |
| Diagnosis.DiseaseNames | src/pages/Diagnosis.jsx:120 | one name per catalogue entry, in catalogue order |
| Diagnosis.NamesComeFromCatalogue | src/pages/Diagnosis.jsx:120 | every name in the list is the name of a catalogue entry |
| Diagnosis.ClassifierRequestFor | src/pages/Diagnosis.jsx:119-135 | the `InvokeLLM` argument: prompt, file list and label enum (no contract of its own; the three request lemmas below state what it carries) |
| Diagnosis.RequestCarriesFileAndLabels | src/pages/Diagnosis.jsx:119-135 | the classifier request sends the captured file URL alone, and its schema allows exactly the catalogue's names |
| Diagnosis.RequestCarriesContext | src/pages/Diagnosis.jsx:121-124 | the request's prompt carries the context block of the record the run captured |
| Diagnosis.FundusRequestNamesEveryLabel | src/pages/Diagnosis.jsx:87-88 | a fundus request's prompt names every label its schema allows |
| Diagnosis.LookupDisease | src/pages/Diagnosis.jsx:141-142 | the first catalogue entry whose lower-cased name equals the lower-cased label; none iff no entry matches |
| Diagnosis.SeverityFor | src/pages/Diagnosis.jsx:149-152 | never critical; mild iff confidence < 70 or label `normal fundus`; severe iff confidence ≥ 70 and label glaucoma or diabetic retinopathy |
| Diagnosis.ArmdEntryUnreachable | src/pages/Diagnosis.jsx:141-151 | a lower-cased label never equals the list's upper-case `ARMD` |
| Diagnosis.ArmdIsNeverSevere | src/pages/Diagnosis.jsx:151-152 | an ARMD classification is moderate, or mild below 70, never severe |
| Diagnosis.ComputeSeverity | src/pages/Diagnosis.jsx:148-152 | the sequence of reassignments, including the `ARMD` entry, computes the decision table |
| Diagnosis.StoredConfidence | src/pages/Diagnosis.jsx:159 | `\|\| 85`: the score is kept unless it is 0, which becomes 85 |
| Diagnosis.BuildReport | src/pages/Diagnosis.jsx:155-171 | review required iff not mild; never critical; the URL goes in the fundus field iff the type is fundus, otherwise in the ERG field; description, precaution, justification and the catalogue's spelling of the name are copied |
| Diagnosis.AssembleReport | src/pages/Diagnosis.jsx:148-171 | the statements that build `reportData`, with the URL field set after the record literal, build exactly that report |
| Diagnosis.RunAnalysis | src/pages/Diagnosis.jsx:115-188 | no answer iff patient creation, the catalogue call or the classifier failed; unknown disease iff all three succeeded and no entry matches the label in any case; otherwise the report is built from the first matching entry, and the run is saved iff the report creation succeeded, with a result carrying the headline, the entry's precaution, the patient's name and the new report id |
| Diagnosis.UnknownDiseaseBuildsNothing | src/pages/Diagnosis.jsx:141-146 | a label no catalogue entry spells, in any case, builds no report |
| Diagnosis.Headline | src/pages/Diagnosis.jsx:180 | the result's diagnosis starts with the bold `Prediction:` line naming the entry and ends with its description |
| Diagnosis.NextProgress | src/pages/Diagnosis.jsx:112 | a tick adds 8, capped at 90, and never leaves 0..90 |
| Diagnosis.ProgressAfterTicks | src/pages/Diagnosis.jsx:111-113 | after k ticks the bar shows min(8k, 90) |
| Diagnosis.ProgressAfter | src/pages/Diagnosis.jsx:111-113 | the bar after k firings of the interval stays within 0..90, is at least 8 after the first firing, and never goes down |
| Diagnosis.DiagnosisPage.constructor | src/pages/Diagnosis.jsx:25-43 | the page starts at step 1 with an empty record, no file, result or error, and the type from the query |
| Diagnosis.DiagnosisPage.HandlePatientSubmit | src/pages/Diagnosis.jsx:45-49 | the record is stored, the step becomes 2 and the error is cleared |
| Diagnosis.DiagnosisPage.HandleFileUpload | src/pages/Diagnosis.jsx:51-61 | a successful upload keeps the file and URL and opens step 3; a failed one keeps the step and sets the upload error |
| Diagnosis.DiagnosisPage.ChangeFile | src/pages/Diagnosis.jsx:279-280 | the button returns to step 2 and changes nothing else |
| Diagnosis.DiagnosisPage.BeginDiagnosis | src/pages/Diagnosis.jsx:104-109 | with no (or empty) file URL nothing changes; otherwise the run starts at progress 0 with the error cleared, capturing record, URL and type |
| Diagnosis.DiagnosisPage.Tick | src/pages/Diagnosis.jsx:111-113 | the bar moves to min(p + 8, 90), so it never exceeds 90 while waiting |
| Diagnosis.DiagnosisPage.FinishDiagnosis | src/pages/Diagnosis.jsx:115-192 | once patient creation and the catalogue call succeed, the request sent to the classifier is the one built from the captured type, record and URL and the catalogue's names; a saved run shows step 4 with the result; any other end keeps the step and result and sets the analysis error; progress is 100 once the classifier has answered; the analysis flag always ends false |
| Diagnosis.DiagnosisPage.Settle | src/pages/Diagnosis.jsx:137-192 | the state updates that end a run, as a function of how it ended |
| Diagnosis.DiagnosisPage.ResetDiagnosis | src/pages/Diagnosis.jsx:195-203 | back to step 1 with an empty record and no file, URL, result, error or progress; a second reset changes nothing |

## Left out

Interaction with the outside world:
- **The backend SDK** (`src/api/base44Client.js`, `src/api/entities.js`) is not part of this model. So is the integrations module that defines `UploadFile` and `InvokeLLM`. Each call is an `Outcome` parameter: success with a value, or failure.
- **The classifier's answer** is assumed to have the schema the call requests: a disease name, a numeric score and a justification. The model does not cover a malformed answer.
- **The two chat prompts** are not modelled as text, because they only go to the language model. Nor is `User.me`, whose result appears only inside those prompts.
- **Console logging, scrolling, focus and markup** are left out, because they are not logic.

Time and concurrency:
- **Timers and interleaving:** `setInterval`, `clearInterval` and the interleaving of async continuations with user events are reduced to discrete steps (`Tick` and `FinishDiagnosis`, `HandleSend` and `CompleteSend`).
- **Diagnosis.DiagnosisPage.FinishDiagnosis:** the await-separated continuation is applied atomically. The state between awaits is not modelled, for example progress at 100 before the report is created. No tick arrives after the run finishes, because the code clears the interval first.
- **Chat.ChatPage.constructor:** models the page after its mount effect. The empty transcript of the first, pre-effect render is not modelled.
- **Diagnosis.DiagnosisPage.constructor:** models the page after its mount effect has read the analysis type from the query. The first render, whose type is always `fundus` (src/pages/Diagnosis.jsx:26, 35-43), is not modelled.

JavaScript semantics narrowed:
- **Doctors.FilterDoctors:** the rating filter is limited to the values its menu offers (`all`, 4.5, 4.0, 3.5, 3.0). `parseFloat` of other text is not modelled.
- **Ratings** are exact reals, not IEEE doubles, as the admin form enters them in steps of 0.1.
- **Lower-casing** is ASCII only.
- **JsText.ParseInt:** models `parseInt` on optional white space, an optional sign and decimal digits. It does not model hexadecimal `0x` prefixes, or digits beyond the range of exact doubles.

Whole files outside the core:
- **Display mapping, charts and PDF:** `src/components/diagnosis/DiagnosisResults.jsx`, `AnalysisCharts.jsx` (which uses `Math.random`) and `PDFReport.jsx` (which uses `new Date()` and `window.open`) are not part of this model.
- **Dates and confidence rounding:** the report list's `formatDate` (`toLocaleDateString`) and `Math.round` of confidence are not modelled, because they are locale and float formatting.
- **Static pages and thin wrappers:** Home, About, Layout and AdminDashboard, and the admin components (doctor, disease and user management, admin stats), are not part of this model. They are static markup and thin backend wrappers.
