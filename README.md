# Customer care console: a Dafny model

This project models the core of a call-centre console for a maternity
hospital. Customer care executives (CCEs) pick a patient, record or upload a
conversation, and review a form that fills itself from what was said. The
model covers both halves of that flow.

Frontend (React):
- the console page (`CCE.js`): patient list, selection, recording and upload guards, `clearAll`, Change Patient;
- the session controls and their inactivity watchdog (`ControlsPanel.js`);
- the patient sidebar's display id, search and filters (`PatientSidebar.js`);
- the customer details form's record load, its extraction merge with "new" and "updated" highlights, editing, Cancel and Save (`CustomerDetailsForm.js`);
- thumbs-up/down feedback over the WebSocket (`FeedbackControls.js`);
- the header's user label (`GlobalHeader.js`);
- the patients API route (`pages/api/patients.js`).

Backend (AWS Lambda, Python):
- `audio_upload`: validates the request, picks the format, lays out the session's S3 keys and records the session;
- `transcribe_audio`: starts the Amazon Transcribe job for an uploaded file;
- `transcription_processing`: handles the job's completion and extracts patient information from the language model's reply;
- `get_session`: returns a normalised session record.

Module layout:
- One Dafny module per source file.
- `Values` models JavaScript/JSON values: truthiness for both JavaScript and Python, property access, `String(v)` and `!==`.
- `Text` holds the string operations.
- `Pipeline` states how the pieces fit together.

React state that a component updates in place is a `class` whose methods carry `modifies` clauses. Effects and event handlers are methods. The merge's `trackField` loop and the route's query building are loops or step-by-step code, as in the source. The lambdas are pure functions from their inputs to an outcome, except where the source builds a dict step by step (`TranscribeParams`).

I/O does not happen in the model. Every call the code makes to the outside is given as a parameter that describes its outcome:
- `fetch`, `pool.query` and the WebSocket;
- boto3 calls (S3, DynamoDB, Transcribe, Bedrock);
- `json.loads`/`JSON.parse`;
- `shortuuid`, the clock.

Where the written description of the system and the code disagree, the model follows the code:
- The merge writes a field even when its value is unchanged. It is not idempotent: a `false` or missing baseline makes the field "new" again on every merge.
- `first_pregnancy` and the other seven `!== null` fields are tracked when the answer is missing (undefined).
- Nothing prevents a second Submit Session while the first `clearAll` is pending.
- After a Submit in the wired console, the controls stay disabled. `sessionActive` is never true there, so `waitingForSessionEnd` is never lifted.
- The form saves with `PUT`, which the patients route answers 405. A save therefore never succeeds.
- Against the baseline `{customer_edd: null, having_twins: "no"}`, the payload `{customer_edd: "2024-06-15", having_twins: "no"}` keeps `having_twins` in the merged draft (unmarked) rather than omitting it. It also writes the absent `first_pregnancy` as undefined and marks it new.

## Model

| member | source | states |
|---|---|---|
| Values.ErrorBody | Frontend/pages/api/patients.js:47 | the `{error: message}` body has exactly the one key and carries the message |
| Text.Contains | Frontend/components/PatientSidebar.js:28-30 | `includes` holds exactly when the text occurs at some position |
| Text.Basename | Backend/audio_upload/app.py:44 | the base name is a '/'-free suffix of the path: the whole path when it has no '/', else exactly what follows the last '/' |
| Text.Strip | Backend/transcription_processing/app.py:173 | the result is no longer than the input and neither starts nor ends with whitespace |
| Text.StripTrims | Backend/transcription_processing/app.py:173 | `strip()` returns a slice of the input, and all it drops before and after that slice is whitespace |
| Text.Split | Backend/transcribe_audio/app.py:29 | `split` yields at least one part, no part holds the separator, and joining the parts with it gives back the input |
| Text.SplitAfterSegment | Backend/transcribe_audio/app.py:29-30 | splitting `a/b` where `a` has no '/' yields `a` followed by the parts of `b` |
| CustomerDetailsForm.TrackOrderEnumeratesSchema | Frontend/components/CustomerDetailsForm.js:57-147 | the order of the `trackField` calls lists exactly the 24 schema fields, and each field's category is one of the six the merge reads |
| CustomerDetailsForm.TrackField | Frontend/components/CustomerDetailsForm.js:48-55 | the value is written; the field joins "updated" exactly when the baseline is truthy and `!==` the value, and joins "new" exactly when the baseline is falsy |
| CustomerDetailsForm.Merge | Frontend/components/CustomerDetailsForm.js:42-154 | a field is in the draft iff its category is truthy and its value passes the field's test, and then holds that value; "updated" and "new" are as `trackField` classifies, and are disjoint |
| CustomerDetailsForm.LoadRecord | Frontend/components/CustomerDetailsForm.js:13-39 | `scans_done` is parsed when it is a truthy string (with [] on a parse error); every other column is copied exactly when it is neither null nor undefined |
| CustomerDetailsForm.SaveBody | Frontend/components/CustomerDetailsForm.js:180-191 | the PUT body has `created_by: 'Manojkumar'`, every other draft field, and the record's `patient_id` unless the draft has its own |
| CustomerDetailsForm.Form.constructor | Frontend/components/CustomerDetailsForm.js:6-10 | empty draft, not saving, no highlights |
| CustomerDetailsForm.Form.LoadPatient | Frontend/components/CustomerDetailsForm.js:13-39 | the draft becomes the loaded record and both highlight sets empty |
| CustomerDetailsForm.Form.ApplyExtraction | Frontend/components/CustomerDetailsForm.js:42-154 | a truthy payload replaces the draft and both sets with the merge result; a falsy one changes nothing |
| CustomerDetailsForm.Form.PropsChanged | Frontend/components/CustomerDetailsForm.js:13-154 | both effects in declaration order: with a truthy payload the merge result wins over a fresh load, and without a record a payload naming no tracked field empties the draft and highlights; otherwise a changed record is loaded |
| CustomerDetailsForm.Form.HandleInputChange | Frontend/components/CustomerDetailsForm.js:156-158 | only the named field changes |
| CustomerDetailsForm.Form.Cancel | Frontend/components/CustomerDetailsForm.js:920 | the draft is emptied, so Save is disabled; the highlights stay |
| CustomerDetailsForm.Form.Save | Frontend/components/CustomerDetailsForm.js:170-212 | no `patient_id`, no request; otherwise one request with `SaveBody`; a 2xx clears `notes` and both sets, anything else keeps them; `isSaving` ends false |
| CustomerDetailsForm.UnchangedFieldStillWritten | Frontend/components/CustomerDetailsForm.js:48-55 | a field whose truthy baseline equals the payload scalar is written yet highlighted neither way |
| CustomerDetailsForm.FalseBaselineNeverUpdated | Frontend/components/CustomerDetailsForm.js:50-53 | a `false` baseline is never "updated"; the field is "new" exactly when it is tracked |
| CustomerDetailsForm.ArrayAgainstTruthyBaselineIsUpdated | Frontend/components/CustomerDetailsForm.js:50 | an array value against a truthy baseline is always "updated" (`!==` compares references) |
| CustomerDetailsForm.NotNullFieldsTrackFalseAndMissing | Frontend/components/CustomerDetailsForm.js:63-64 | a `!== null` field is tracked iff its value is not null, and a missing answer is written as undefined |
| CustomerDetailsForm.TruthyFieldsNeedTruthyValue | Frontend/components/CustomerDetailsForm.js:58-62 | a truthiness-tested field is tracked iff its category and its value are both truthy |
| CustomerDetailsForm.EightNotNullFields | Frontend/components/CustomerDetailsForm.js:42-154 | exactly the eight named fields use the `!== null` test |
| CustomerDetailsForm.NoCategoryEmptiesDraft | Frontend/components/CustomerDetailsForm.js:42-154 | a payload with no truthy category (an error object) leaves an empty draft and no highlights |
| CustomerDetailsForm.UnlistedKeyIgnored | Frontend/components/CustomerDetailsForm.js:42-154 | adding a key the category does not list changes neither the draft nor the highlights |
| CustomerDetailsForm.UnknownCategoryIgnored | Frontend/components/CustomerDetailsForm.js:42-154 | adding an unknown category changes neither the draft nor the highlights |
| CustomerDetailsForm.HighlightAfterMerge | Frontend/components/CustomerDetailsForm.js:160-168 | after a merge a field is yellow iff it was updated, green iff tracked against a falsy baseline, and unmarked otherwise |
| CustomerDetailsForm.RemergeOfFalseIsNewAgain | Frontend/components/CustomerDetailsForm.js:50-53 | merging against the merged draft marks an explicit `false` as new again: the merge is not idempotent |
| CustomerDetailsForm.EddNewTwinsUnchanged | Frontend/components/CustomerDetailsForm.js:58-71 | against `{customer_edd: null, having_twins: 'no'}` the EDD is new, twins is written unmarked, and an absent `first_pregnancy` is written as undefined and marked new |
| CustomerDetailsForm.OnlyCategoryTracked | Frontend/components/CustomerDetailsForm.js:42-154 | a payload with one category tracks only that category's fields |
| CustomerDetailsForm.LocationChangeIsUpdated | Frontend/components/CustomerDetailsForm.js:50-51 | a changed truthy location is "updated" and not "new" |
| ControlsPanel.Panel.constructor | Frontend/components/ControlsPanel.js:22-28 | initial flags false, language 'en-IN', timer at mount time |
| ControlsPanel.Panel.ResetInactivityTimer | Frontend/components/ControlsPanel.js:43-46 | the last activity becomes now and the warning is hidden; nothing else changes |
| ControlsPanel.Panel.ContinueSession | Frontend/components/ControlsPanel.js:48-57 | a reset that leaves the other state alone |
| ControlsPanel.Panel.Tick | Frontend/components/ControlsPanel.js:59-69 | the warning is raised when the session is active, not recording and idle for a minute; it is never lowered |
| ControlsPanel.Panel.RunTicks | Frontend/components/ControlsPanel.js:59-69 | a run of ticks leaves the warning as the tick function folded over the times |
| ControlsPanel.Panel.BeginSubmit | Frontend/components/ControlsPanel.js:30-34 | `handleSubmit` up to its call of `clearAll`: both ending flags set, one more `clearAll` |
| ControlsPanel.Panel.EndSubmit | Frontend/components/ControlsPanel.js:37-40 | the `finally`: local ending cleared and the warning hidden; the wait for the session end stays |
| ControlsPanel.Panel.Submit | Frontend/components/ControlsPanel.js:30-41 | one `clearAll`, still waiting for the session end, the warning hidden, whether or not `clearAll` threw |
| ControlsPanel.Panel.SubmitSessionTwice | Frontend/components/ControlsPanel.js:260-265 | the modal's Submit Session is not disabled while transitioning, so two clicks call `clearAll` twice |
| ControlsPanel.Panel.SelectLanguage | Frontend/components/ControlsPanel.js:94-97 | the language is set and the timer reset |
| ControlsPanel.Panel.Rerender | Frontend/components/ControlsPanel.js:74-82 | a change of recording or transcript resets the timer; the session turning inactive ends the wait |
| ControlsPanel.NoEarlyWarning | Frontend/components/ControlsPanel.js:63-67 | no tick earlier than a minute after the last activity raises the warning |
| ControlsPanel.TicksNeverClear | Frontend/components/ControlsPanel.js:66-67 | once shown, ticks never hide the warning |
| ControlsPanel.TicksInertUnlessActiveAndIdle | Frontend/components/ControlsPanel.js:60-66 | without an active session, or while recording, ticks leave the warning as it was |
| ControlsPanel.WarningIffLateTick | Frontend/components/ControlsPanel.js:62-68 | in an active idle session the warning is up iff it was up or some tick came a minute or more after the last activity |
| ControlsPanel.TransitionGatesToolbarOnly | Frontend/components/ControlsPanel.js:84-85 | while transitioning every toolbar control is disabled, yet the modal's buttons are usable exactly when the warning shows |
| Cce.FetchedPatient | Frontend/components/CCE.js:70-84 | null on rejection, a non-2xx status, an unparsable body or an `error` body; a 2xx non-null body without a truthy `error` is returned as parsed |
| Cce.PatientList | Frontend/components/CCE.js:46-68 | no error exactly for a 2xx response with a parsed body that is not null and has no `error`, and then the list is that body; otherwise an empty list, and the message names the status or the body's error |
| Cce.ShownPatient | Frontend/components/CCE.js:86-91 | the fetched record when it is truthy, else the list entry, in particular after a failed fetch |
| Cce.ShownPatientByResponse | Frontend/components/CCE.js:70-91 | read against the response alone: a 2xx truthy body without a truthy `error` is shown; a rejected fetch, another status, an unparsable, null or falsy body or an `error` body shows the list entry |
| Cce.Console.constructor | Frontend/components/CCE.js:14-35 | the initial page state, with the panel mounted |
| Cce.Console.FetchAllPatients | Frontend/components/CCE.js:46-68 | the list and the error become `PatientList` of the outcome; loading ends false; nothing else changes |
| Cce.Console.SelectPatient | Frontend/components/CCE.js:86-91 | the selected id is the entry's `patient_id` and the shown record is `ShownPatient` |
| Cce.Console.ToggleRecording | Frontend/components/CCE.js:94-100 | recording flips exactly when a patient is selected |
| Cce.Console.HandleFileUpload | Frontend/components/CCE.js:102-113 | the input is reset exactly when a file was chosen without a patient |
| Cce.Console.ClearAll | Frontend/components/CCE.js:115-122 | transcript emptied and the four session flags false; nothing else changes |
| Cce.Console.ChangePatient | Frontend/components/CCE.js:191-194 | the selection and the record are cleared; nothing else changes |
| Cce.Console.StartStopClicked | Frontend/components/ControlsPanel.js:117-120 | toggle, then reset; the console keeps its wiring invariant |
| Cce.Console.FileChosen | Frontend/components/ControlsPanel.js:137-140 | `handleFileUpload`, then reset |
| Cce.Console.SubmitClicked | Frontend/components/ControlsPanel.js:30-41 | with this page's `clearAll`, the recording state is cleared and the panel is left waiting for the session end |
| Cce.Console.Tick | Frontend/components/ControlsPanel.js:59-69 | in the wired page a tick never raises the warning |
| Cce.StuckAfterSubmit | Frontend/components/ControlsPanel.js:78-85 | once waiting for the session end in the wired page, every panel control is disabled |
| Cce.SelectionEnablesRecording | Frontend/components/CCE.js:89 | selecting a truthy entry always leaves a truthy record, whatever the fetch did |
| PatientSidebar.DisplayId | Frontend/components/PatientSidebar.js:17-21 | '' for a falsy id; '...' and the last four characters when longer than four; else the id's text |
| PatientSidebar.FilterPatients | Frontend/components/PatientSidebar.js:23-67 | the result is an order-preserving subsequence of the list holding exactly the patients that pass the search and the filter, each as many times as in the list |
| PatientSidebar.SubsequenceOfTail | Frontend/components/PatientSidebar.js:23-67 | a subsequence of the tail is a subsequence of the list |
| PatientSidebar.SubsequenceDropHead | Frontend/components/PatientSidebar.js:23-67 | dropping the head of a subsequence keeps it a subsequence |
| PatientSidebar.NoSearchShowsAll | Frontend/components/PatientSidebar.js:26-67 | with no search and the default filter the whole list is shown, in order |
| PatientSidebar.SearchNarrowing | Frontend/components/PatientSidebar.js:26-32 | extending the search term never brings a patient back |
| PatientSidebar.ContainsPrefix | Frontend/components/PatientSidebar.js:28-30 | a text containing a term contains each of its prefixes |
| PatientSidebar.DateFiltersNeedFollowUpDate | Frontend/components/PatientSidebar.js:34-52 | the 'recent' and 'today' filters keep exactly the patients whose `follow_up_date` is truthy and passes the day comparison |
| PatientSidebar.FollowupKeepsExactly | Frontend/components/PatientSidebar.js:54-60 | the follow-up filter keeps exactly the patients with the two lead statuses or no interaction |
| PatientSidebar.NotesPreview | Frontend/components/PatientSidebar.js:244-247 | notes over 100 characters show their first 100 and '...'; shorter notes show whole |
| PatientSidebar.DetailText | Frontend/components/PatientSidebar.js:261 | a falsy value shows 'N/A'; the shown text is always truthy |
| PatientSidebar.Sidebar.constructor | Frontend/components/PatientSidebar.js:13-15 | dropdown closed, empty search, 'search' filter |
| PatientSidebar.Sidebar.SetSearchTerm | Frontend/components/PatientSidebar.js:91 | only the search term changes |
| PatientSidebar.Sidebar.SetActiveFilter | Frontend/components/PatientSidebar.js:99-129 | only the filter changes |
| PatientSidebar.Sidebar.HandleSelectPatient | Frontend/components/PatientSidebar.js:69-73 | one selection reported, the dropdown closed and the search cleared |
| FeedbackControls.ActiveSessionId | Frontend/components/FeedbackControls.js:21 | the ref's id when truthy, else the prop |
| FeedbackControls.SendFeedback | Frontend/components/FeedbackControls.js:20-40 | a message is sent iff there is an active session and an open socket, and it carries that session, the panel, the type, the text, the user id (`id` else `sub`) and the time |
| FeedbackControls.SentMessageHasSession | Frontend/components/FeedbackControls.js:21-58 | a sent message names a truthy session, so the buttons were enabled |
| FeedbackControls.Feedback.constructor | Frontend/components/FeedbackControls.js:5-7 | nothing selected, box hidden, empty text |
| FeedbackControls.Feedback.Send | Frontend/components/FeedbackControls.js:38 | the sent messages grow by exactly the message `sendFeedback` builds, if any |
| FeedbackControls.Feedback.HandleClick | Frontend/components/FeedbackControls.js:42-45 | the type is selected and sent without text |
| FeedbackControls.Feedback.ToggleFeedbackBox | Frontend/components/FeedbackControls.js:87 | the box visibility flips |
| FeedbackControls.Feedback.SetFeedbackText | Frontend/components/FeedbackControls.js:102 | only the text changes |
| FeedbackControls.Feedback.HandleFeedbackSubmit | Frontend/components/FeedbackControls.js:47-55 | without a selection nothing changes; otherwise the text is sent with the selection, cleared, and the box hidden |
| GlobalHeader.FirstTruthyClaim | Frontend/components/GlobalHeader.js:32-40 | the result is truthy and is 'User' or one of the remaining claims |
| GlobalHeader.DisplayUsername | Frontend/components/GlobalHeader.js:32-40 | the label is always truthy |
| GlobalHeader.AvatarInitial | Frontend/components/GlobalHeader.js:42 | an initial exists iff the label is a string, and it is its first character upper-cased |
| GlobalHeader.DisplayUsernameIsFirstTruthy | Frontend/components/GlobalHeader.js:33-39 | the label is the first truthy of the four claims, in order |
| GlobalHeader.FirstTruthyFrom | Frontend/components/GlobalHeader.js:33-39 | from any starting claim, the first truthy later claim is chosen |
| GlobalHeader.NoClaimsGivesUser | Frontend/components/GlobalHeader.js:38 | with no truthy claim the label is 'User' |
| GlobalHeader.NoUserShowsU | Frontend/components/GlobalHeader.js:32-42 | without a user the label is 'User' and the initial 'U' |
| GlobalHeader.StringClaimsHaveInitial | Frontend/components/GlobalHeader.js:42 | when every truthy claim is a string the initial exists |
| AudioUpload.FindFormat | Backend/audio_upload/app.py:45-48 | the first supported extension, in table order, that the name ends with, or none |
| AudioUpload.LanguagePreferences | Backend/audio_upload/app.py:37 | the request's list, or ['en-IN'] when the key is absent |
| AudioUpload.Upload | Backend/audio_upload/app.py:35-98 | the fixed CORS headers; status 200, 400 or 500; a session is stored iff 200; a missing name or file name is the 400 with its message; a string file name of no supported format is the 400 listing the formats; a 500 is always the generic error, and happens exactly for a non-string file name, or a supported one whose presign or `put_item` fails |
| AudioUpload.Handle | Backend/audio_upload/app.py:32-98 | a body that reads as a JSON object is answered exactly as `Upload` answers its fields; any other body is the generic 500 |
| AudioUpload.LastCharsDistinct | Backend/audio_upload/app.py:17-25 | the seven extensions end in seven different characters |
| AudioUpload.AtMostOneFormat | Backend/audio_upload/app.py:17-48 | a name ends with at most one supported extension, so the first match is the only one |
| AudioUpload.UnsupportedMessageText | Backend/audio_upload/app.py:50-53 | the 400 message lists the seven extensions in table order, as Python prints the list |
| AudioUpload.Mp4AndM4aShareMime | Backend/audio_upload/app.py:20-55 | `.m4a` and `.mp4` files both upload as `audio/mp4` |
| AudioUpload.AcceptedUpload | Backend/audio_upload/app.py:55-94 | an accepted request whose URL and write succeed answers 200 with the success body and stores the session item, both with the `session-<suffix>` key layout |
| AudioUpload.SuccessBodyFields | Backend/audio_upload/app.py:87-94 | the 200 body carries the id, the URL, expiry 3600, status UPLOAD_URL_GENERATED and both paths |
| AudioUpload.SessionItemFields | Backend/audio_upload/app.py:73-85 | the stored item repeats both paths and records the name, languages and MIME type, with equal timestamps |
| AudioUpload.DirectoryAndCaseIgnored | Backend/audio_upload/app.py:44-48 | 'a/B.MP3' is reduced to 'b.mp3' and accepted as `.mp3` |
| AudioUpload.SessionIdHasNoSlash | Backend/audio_upload/app.py:56 | a generated session id has no '/', so it is a single key segment |
| TranscribeAudio.SessionIdOf | Backend/transcribe_audio/app.py:29-30 | an id is found exactly when the key contains '/' |
| TranscribeAudio.StringsOf | Backend/transcribe_audio/app.py:48 | the strings are read iff every element is a string attribute, in order and one per element |
| TranscribeAudio.LanguagePreferences | Backend/transcribe_audio/app.py:35-54 | ['en-IN'] on a client error, a missing item or a non-list attribute; otherwise the list's strings; another `get_item` failure escapes (None) |
| TranscribeAudio.Strs | Backend/transcribe_audio/app.py:76 | the language list as JSON strings, element by element |
| TranscribeAudio.TranscribeParams | Backend/transcribe_audio/app.py:59-81 | none exactly for an empty list; the five common keys with their values; several languages add identification and the options, one adds `LanguageCode`, and no other key is set |
| TranscribeAudio.Handle | Backend/transcribe_audio/app.py:20-120 | the job starts iff the record, the id, a non-empty language list and both calls succeed; the job and output key are named after the session; the media URI is `s3://bucket/key`, the output bucket is the input bucket, speaker labels are on with at most two; one language is the `LanguageCode`, several are the `LanguageOptions` with multi-language identification; the update and the body are as the source writes them; a `get_item` failure other than a ClientError raises |
| TranscribeAudio.SessionIdIsSecondSegment | Backend/transcribe_audio/app.py:29-30 | `a/id/rest` yields `id` whenever `a` and `id` have no '/' |
| TranscribeAudio.EmptyListReachesIndexError | Backend/transcribe_audio/app.py:47-80 | an empty stored list is accepted by the lookup, and then the job cannot be built |
| TranscribeAudio.NonStringLanguageRaises | Backend/transcribe_audio/app.py:48-52 | a non-string element raises out of the lookup: the KeyError is not caught as a client error |
| TranscriptionProcessing.LeadingSpaces | Backend/transcription_processing/app.py:173 | the length of the whitespace run at the start |
| TranscriptionProcessing.Braces | Backend/transcription_processing/app.py:176 | the braces of a text, and nothing else |
| TranscriptionProcessing.JsonCandidate | Backend/transcription_processing/app.py:176-181 | a match exists iff some '{' precedes some '}', and it is a substring that starts with '{' and ends with '}' |
| TranscriptionProcessing.ExtractPatientInfo | Backend/transcription_processing/app.py:129-202 | a candidate that parses is returned as parsed; one that does not, or an unreadable response body, gives "Invalid JSON in response" with the message; no match gives `raw_content` of the first 500 characters; a failed call gives "Failed to extract information" |
| TranscriptionProcessing.ExtractionFromRawReply | Backend/transcription_processing/app.py:173-187 | read against the raw reply: no '{' before a '}' gives "No JSON found in response"; otherwise a candidate survives cleaning and its parse decides the result |
| TranscriptionProcessing.Recover | Backend/transcription_processing/app.py:102-126 | the error is re-raised; PROCESSING_FAILED with the message is written exactly when the job name can be read and the recovery write succeeds, independently of whether an earlier status write failed |
| TranscriptionProcessing.Handle | Backend/transcription_processing/app.py:21-126 | a return is always 200; at most one write; a raise after a readable job name records PROCESSING_FAILED with its message whenever the recovery write succeeds |
| TranscriptionProcessing.FailedJobMarksSession | Backend/transcription_processing/app.py:28-49 | a FAILED job writes TRANSCRIPTION_FAILED and answers 200 |
| TranscriptionProcessing.OtherStatusSkipped | Backend/transcription_processing/app.py:28-49 | any status other than COMPLETED and FAILED writes nothing and answers 200 |
| TranscriptionProcessing.CompletedJobRecordsInfo | Backend/transcription_processing/app.py:70-100 | a completed job writes COMPLETED with the extracted info and answers with the session id and transcript length |
| TranscriptionProcessing.ReadsOnlyTranscriptKey | Backend/transcription_processing/app.py:53-58 | the finisher's outcome depends on the bucket only through the object at `sessions/{job}/output/{job}.json` |
| TranscriptionProcessing.MissingTranscriptRaises | Backend/transcription_processing/app.py:53-126 | a missing transcript file raises with its key; PROCESSING_FAILED is recorded exactly when the recovery write succeeds |
| TranscriptionProcessing.StatusWriteFailureRecovered | Backend/transcription_processing/app.py:31-122 | a failed COMPLETED or TRANSCRIPTION_FAILED write re-raises its error, and PROCESSING_FAILED with that text is recorded exactly when the recovery write succeeds |
| TranscriptionProcessing.BracesAppend | Backend/transcription_processing/app.py:176 | the braces of a concatenation are the concatenated braces |
| TranscriptionProcessing.DropBraceFree | Backend/transcription_processing/app.py:173 | dropping a brace-free prefix keeps the braces |
| TranscriptionProcessing.JsonFenceBraceFree | Backend/transcription_processing/app.py:173 | a `json` fence and its whitespace hold no braces |
| TranscriptionProcessing.BareFenceBraceFree | Backend/transcription_processing/app.py:173 | a bare fence with its leading whitespace holds no braces |
| TranscriptionProcessing.StripFencesKeepsBraces | Backend/transcription_processing/app.py:173 | removing the fences keeps every brace, in order |
| TranscriptionProcessing.StripKeepsBraces | Backend/transcription_processing/app.py:173 | `strip()` keeps every brace, in order |
| TranscriptionProcessing.OpenBeforeCloseOnBraces | Backend/transcription_processing/app.py:176 | whether a match exists depends only on the braces |
| TranscriptionProcessing.CloseInBraces | Backend/transcription_processing/app.py:176 | a text has a '}' iff its braces do |
| TranscriptionProcessing.CleaningKeepsCandidate | Backend/transcription_processing/app.py:173-178 | a reply has a JSON match after cleaning iff it had one before |
| TranscriptionProcessing.KeepsPlainFirst | Backend/transcription_processing/app.py:173 | a first character that starts no fence is kept |
| TranscriptionProcessing.StripFencesPrefix | Backend/transcription_processing/app.py:173 | a fence-free, whitespace-free prefix passes through unchanged |
| TranscriptionProcessing.FencedReply | Backend/transcription_processing/app.py:173 | a ```` ```json ```` fenced object is reduced to the object |
| GetSession.DecimalToNumber | Backend/get_session/app.py:22-28 | other values pass through; a Decimal becomes a number iff it is whole, and that number times the scale is the Decimal |
| GetSession.DecimalOfWholeNumber | Backend/get_session/app.py:27 | a whole number at any scale turns back into itself |
| GetSession.Normalize | Backend/get_session/app.py:73-89 | the answer has exactly the fourteen keys |
| GetSession.NormalizedFields | Backend/get_session/app.py:74-88 | each ordinary key echoes the item's attribute, or null when the item lacks it |
| GetSession.NormalizedSpecialFields | Backend/get_session/app.py:80-86 | `extracted_data` is the stored `extracted_info`; a missing language list reads as [] |
| GetSession.UnlistedAttributeDropped | Backend/get_session/app.py:73-89 | an attribute outside the fourteen never reaches the answer |
| GetSession.Handle | Backend/get_session/app.py:31-104 | the fixed headers; status 200, 400, 404 or 500; a missing id is the 400; for a string id a found item is the 200 with the normalised session (and 200 happens only so), a missing item the 404 echoing the id, a `ClientError` the 500 'DynamoDB error' and any other error the 500 'Internal server error', each with the message |
| GetSession.DumpedBody | Backend/get_session/app.py:40 | the `default` hook is applied to every top-level attribute: same keys, each value what `decimal_to_number` gives; None exactly when some Decimal is fractional |
| PatientsApi.Handle | Frontend/pages/api/patients.js:4-71 | GET runs the list query and answers its rows or a 500; POST without a body is a 500, without an id a 400, then 404, the first row or a 500; any other method is a 405 |
| PatientsApi.ListQueryShape | Frontend/pages/api/patients.js:9-37 | the GET text is the column list, the search clause only when searching, then the ordering; a search binds the pattern to all three placeholders |
| PatientsApi.SearchNeverInSqlText | Frontend/pages/api/patients.js:31-34 | the SQL text does not depend on the search term: it is bound, never spliced |
| Pipeline.InputKeyYieldsSessionId | Backend/transcribe_audio/app.py:29-30 | the starter recovers, from the upload's input key, the session id the upload generated |
| Pipeline.OutputKeysAgree | Backend/transcription_processing/app.py:53 | Transcribe's output file, the upload's recorded output path and the finisher's key coincide |
| Pipeline.FinisherReadsStoredOutput | Backend/transcription_processing/app.py:53-110 | for a completed job named after a session, a transcript at the upload's recorded output path is recorded COMPLETED with its length, and a missing one raises naming that path |
| Pipeline.UploadThenTranscribe | Backend/transcribe_audio/app.py:59-65 | an accepted upload followed by the start names the job after the stored session, and the finisher reads the stored output path |
| Pipeline.SaveThroughRoute | Frontend/components/CustomerDetailsForm.js:185-186 | the form's PUT is answered 405 by the route, so a save keeps the draft and highlights and ends not saving |

## Left out

- Rendering, styling, `alert`, `console` output, `setTimeout` message clearing and the save message text are not modelled; they change no state the logic reads.
- Every external call is a parameter describing its outcome, and is not modelled itself: `fetch`, the Postgres pool, the WebSocket, boto3 (S3, DynamoDB, Transcribe, Bedrock), `json.loads`/`JSON.parse`/`json.dumps`, `unquote_plus`, `shortuuid` and the clock. `get_indian_datetime` is a given string.
- Asynchronous interleavings are reduced to the orders the methods state. Each handler runs to completion, except the two Submit clicks of `SubmitSessionTwice`.
- Numbers are integers. JavaScript's floating point, `NaN` and the float a fractional Decimal becomes are not represented.
- GetSession.DecimalToNumber: returns None for a fractional Decimal instead of the float, which has no integer value.
- GetSession.Handle: the answer's body holds the deserialised attributes, Decimals included; `GetSession.DumpedBody` applies the `default` hook to its top-level attributes only. Nested Decimals are not represented: a number inside a list or map is already an integer `Num` value.
- The `TypeDeserializer` and the raw DynamoDB wire format of `get_session` are not modelled; the item is given already deserialised.
- PatientSidebar.FilterPatients: the 'recent' and 'today' date comparisons on a truthy `follow_up_date` are a given predicate, because they depend on the clock and on date parsing.
- PatientSidebar.NotesPreview: lengths and slices count Dafny characters, whereas JavaScript's `length` and `substring` count UTF-16 code units; the two differ only for text outside the Basic Multilingual Plane.
- PatientSidebar.DisplayId: the same character-versus-UTF-16-code-unit difference applies to its length test and `slice(-4)`.
- Text.IsSpace covers the whitespace characters up to U+00FF, not the rest of Unicode.
- Text.Lower and Text.UpperChar map ASCII letters only.
- CustomerDetailsForm.Form.PropsChanged: requires a record whenever a truthy payload names at least one tracked field (some `trackField` call runs). Without one the source throws a TypeError reading `patientData[fieldName]` of null, which the model does not represent.
- PatientSidebar.Patient: `name` and `mpid` are strings. A missing one makes `toLowerCase` throw in the source.
- The prompt text (`bedrock_prompt.py`) and the Bedrock request payload are not part of this model; only the reply is.
- The other source files (`CCENotes.js`, `notes.js`, `logout.js`, `index.js`, `_app.js`, `apiClient.js`, `sarvam-test.py`) are not part of this model.
- The upload lambda's `event` body may be any JSON value; values that are neither a string nor missing take the generic 500 path.
