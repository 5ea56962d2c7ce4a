# zeroscript core, modelled in Dafny

Zeroscript is a sales-call coaching tool. A browser extension transcribes the call live and
sends each transcript to the `get-script` edge function. That function embeds the text and
looks up the best-matching scripted answer in a `playbook` table filled by a population script.
A second edge function, `deepgram-token`, issues short-lived speech-to-text keys. A small tool
server helps debug the speech-service account. This project models the logic of all of these:

- the two edge functions, as pure decision functions from the request, the configuration and the
  outcomes of their external calls to the response and the calls made (`get_script.dfy`,
  `deepgram_token.dfy`, shared parts in `edge_http.dfy`);
- the playbook population loop, as a method with nested loops over a table keyed by
  (intent, phrase), proved against a fold of one-phrase steps (`populate_playbook.dfy`);
- the debugging tool server, as a class with a bounded log and a tool dispatcher
  (`mcp_debugger.dfy`);
- the guided-diagnosis wizard, the live-transcription gate, the background worker and the two
  floating widgets. Each is a class whose methods are proved against a pure transition function,
  with lemmas about whole sequences of events (`guided_diagnosis.dfy`, `live_transcription.dfy`,
  `background.dfy`, `widget_content.dfy`, `widget.dfy`, geometry in `widget_geometry.dfy`);
- the status-bar label mapping (`status_bar.dfy`).

`common.dfy` holds the JavaScript semantics the code relies on. That is truthiness and `||`
defaults, `String.prototype.trim` with the ECMAScript white-space set, `replace` of the first
occurrence, number-to-text rendering and `Math.max`/`Math.min` clamping.

External services are never called. Each one's answer is an input: an outcome datatype, or a
function from the call's argument to its outcome. Clock readings, timestamps and durations are
inputs too.

## Model

| member | source | states |
|---|---|---|
| Common.TrimIsTheMiddle | supabase/functions/get-script/index.ts:46 | `trim` removes exactly the leading and trailing ECMAScript white space: the result is a middle slice, neither end of it is white space, and everything dropped is |
| Common.TrimEmptyIff | supabase/functions/get-script/index.ts:46 | `text.trim().length === 0` holds exactly when every character is white space |
| Common.TrimIdempotent | supabase/functions/get-script/index.ts:113 | trimming twice is trimming once |
| Common.ReplaceFirstAbsent | supabase/functions/get-script/index.ts:69 | `replace` with a string pattern that does not occur returns the text unchanged |
| Common.ReplaceFirstAt | supabase/functions/get-script/index.ts:69 | wherever the first occurrence stands (at the front included), only it is replaced: the text before it and the text after it are kept as they are |
| Common.OrString | src/components/DynamicStatusBar.js:21 | `s \|\| d` is `s` when it is a non-empty string, else `d` |
| Common.OrNumber | src/components/DynamicStatusBar.js:19 | `n \|\| d` is `n` when it is a non-zero number, else `d` |
| Common.IntToString | mcp-deepgram-debugger/src/index.ts:88 | a number renders as a non-empty string that starts with `-` exactly for negatives |
| Common.NatToStringValue | mcp-deepgram-debugger/src/index.ts:88 | the decimal digits written for a natural number denote it, and only zero is written with a leading `0` (as "0") |
| Common.IntToStringValue | mcp-deepgram-debugger/src/index.ts:88 | after the optional `-`, the digits denote the magnitude, with no leading zero other than "0" itself |
| Common.IntToStringInjective | mcp-deepgram-debugger/src/index.ts:88 | different numbers render as different strings |
| Common.Clamp | src/components/FloatingWidgetContent.js:56-57 | `max(lo, min(hi, v))` is at least `lo`, at most `hi` when `lo <= hi`, `v` when `v` is in range, and always one of `v`, `lo`, `hi` |
| EdgeHttp.BearerTokenStrips | supabase/functions/get-script/index.ts:69 | the first "Bearer " is removed wherever it stands, keeping the text before and after it; a header without it is passed through unchanged |
| GetScript.Admit | supabase/functions/get-script/index.ts:12-69 | a request gets past the method, JSON, text and header checks exactly when its text is accepted and it carries an authorization header, and then continues with that header's token and the request's text; a request answered early has made no call |
| GetScript.MatchStage | supabase/functions/get-script/index.ts:153-212 | the lookup is made once, at threshold 0.4, after the earlier calls. 500 exactly for a reported or thrown error, a thrown one being the catch-all's 500; 200 exactly for a match or no-match body; a match exactly when rows came back, answering with the first row |
| GetScript.DatabaseResponses | supabase/functions/get-script/index.ts:161-212 | a throwing lookup is 500 "An unexpected error occurred", a reported error 500 "Database query failed", and null or no rows 200 "No matching script found" |
| GetScript.EmbedStage | supabase/functions/get-script/index.ts:107-151 | the embedding call is made with the fixed model on the trimmed input. A failure ends the run after it, with 500 for status 401 and 503 for any other status; success continues to the lookup with the returned vector |
| GetScript.EmbeddingFailureResponses | supabase/functions/get-script/index.ts:119-151 | a failed embedding answers 503 "Embedding service rate limit exceeded…" for 429, 500 "Embedding service authentication failed" for 401, and 503 "Embedding service unavailable…" otherwise |
| GetScript.AuthenticatedStage | supabase/functions/get-script/index.ts:71-105 | calls made are a prefix of getUser, embed and match; 401 exactly when the token is rejected; a throwing client creation or user lookup falls through to the catch-all's 500 "An unexpected error occurred" |
| GetScript.Handle | supabase/functions/get-script/index.ts:10-214 | OPTIONS gets the preflight before anything else. Otherwise each of 405, 400 and 401 is characterised exactly, and a `null` body is 500 "An unexpected error occurred". Calls happen only after text and header are accepted, in plan order, embedding `trim(text)` with the fixed model and querying at threshold 0.4. 200 happens exactly when all three calls ran and a match or no-match body resulted |
| GetScript.ThrownIsUnexpected | supabase/functions/get-script/index.ts:203-212 | whatever throws outside the embedding step (a `null` body, client creation, the user lookup, the database call) is answered with 500 "An unexpected error occurred" |
| GetScript.BlankTextRejectedBeforeAuth | supabase/functions/get-script/index.ts:42-66 | a missing, non-string or blank text is a 400 with no call made, whatever the header says |
| GetScript.EmbeddingFailureMapping | supabase/functions/get-script/index.ts:119-151 | for any authenticated user and any failed embedding, a rate limit is 503, a bad key is 500, any other failure is 503, after exactly the user lookup and the embedding call |
| GetScript.MissingOpenAiKey | supabase/functions/get-script/index.ts:95-105 | for any authenticated user, without the embeddings key the request gets 500 and only the user lookup ran |
| GetScript.MatchOutcomes | supabase/functions/get-script/index.ts:161-201 | for any authenticated user and any returned embedding: a database error is 500; a non-empty list answers with its first row; an empty or null list answers "No matching script found" |
| GetScript.OnlyTrimmedTextMatters | supabase/functions/get-script/index.ts:111-114 | two texts with the same trim are handled identically |
| GetScript.SameTrimSameAdmission | supabase/functions/get-script/index.ts:42-54 | two requests whose texts have the same trim get the same early answer, or are admitted with the same token and input |
| GetScript.StageIgnoresOtherThresholds | supabase/functions/get-script/index.ts:153-157 | after authentication, two databases that answer alike at threshold 0.4 give the same response and calls |
| GetScript.OnlyThresholdPointFourMatters | supabase/functions/get-script/index.ts:154-157 | the lookup is only ever made at threshold 0.4 |
| DeepgramToken.KeyRequestFor | supabase/functions/deepgram-token/index.ts:80-92 | the key request has scope `usage:write`, a 300-second lifetime and an expiration 300 000 ms after the clock reading |
| DeepgramToken.KeyStage | supabase/functions/deepgram-token/index.ts:63-120 | without the speech key it is 500 with no key call. Otherwise exactly one key call is made: 503 when no key came back, 200 with the key, expiry, lifetime and user id when one did |
| DeepgramToken.Handle | supabase/functions/deepgram-token/index.ts:10-137 | OPTIONS gets the preflight. A missing header is 401 before the configuration is checked, missing configuration is 500 before any call, and a throwing client creation is the catch-all's 500. 401 is characterised exactly. At most two calls: the user lookup with the bearer token, then the key request for that user. Success carries the created key |
| DeepgramToken.NoMethodCheck | supabase/functions/deepgram-token/index.ts:10-16 | every method other than OPTIONS is treated like POST |
| DeepgramToken.ThrownErrorsAreInternal | supabase/functions/deepgram-token/index.ts:47-136 | an exception from creating the client, from the user lookup or from the key call is a 500 "Internal server error" carrying its message |
| Playbook.Items | scripts/populate-playbook.js:111-115 | one work item per phrase of an intent, in order, keyed by (intent, phrase) and carrying the intent's script |
| Playbook.WorkLength | scripts/populate-playbook.js:104-115 | the loops visit exactly `totalEntries` phrases |
| Playbook.GoldenTotal | scripts/populate-playbook.js:35-83 | the shipped golden scripts hold 17 phrases |
| Playbook.Step | scripts/populate-playbook.js:116-180 | each phrase adds one to exactly one counter. An error writes nothing, and a failed embedding or a lookup error other than PGRST116 is an error. A success stores the phrase's script and embedding under its key and changes no other row. A found row keeps its id; otherwise a fresh id is used |
| Playbook.ProcessPhrase | scripts/populate-playbook.js:118-180 | the loop body's effect equals one `Step` |
| Playbook.PopulatePlaybook | scripts/populate-playbook.js:98-191 | the phrases are visited in order and `entryCounter` reaches `totalEntries`. The final table and counters are the fold of `Step` over all phrases, and success + error = entries |
| Playbook.RunCounts | scripts/populate-playbook.js:107-180 | over any phrase list the two counters together grow by its length |
| Playbook.RunKeepsRows | scripts/populate-playbook.js:141-164 | with every call succeeding, no row disappears and every row keeps its id |
| Playbook.RunStoresEveryPhrase | scripts/populate-playbook.js:141-172 | with every call succeeding, every processed phrase has a row and no error is counted |
| Playbook.RerunInsertsNothing | scripts/populate-playbook.js:126-151 | phrases that already have rows are updated, not inserted: keys, ids and the id supply are unchanged |
| Playbook.PopulatingTwiceAddsNoRows | scripts/populate-playbook.js:126-164 | running the script a second time adds no row and keeps every id |
| McpDebugger.Appended | mcp-deepgram-debugger/src/index.ts:47-52 | after `addLog` the log ends with the new entry, is a suffix of old + new, and holds min(n + 1, 100) entries |
| McpDebugger.AppendAllKeepsNewest | mcp-deepgram-debugger/src/index.ts:47-52 | after any number of `addLog` calls the log is exactly the newest 100 entries (all of them while fewer), oldest first |
| McpDebugger.SliceFrom | mcp-deepgram-debugger/src/index.ts:56 | `slice(start)` with negative starts counting from the end |
| McpDebugger.LogsFor | mcp-deepgram-debugger/src/index.ts:54-59 | no limit or 0 gives every entry; a positive limit the newest min(limit, n); a negative one drops the first \|limit\| |
| McpDebugger.Debugger.constructor | mcp-deepgram-debugger/src/index.ts:36-45 | empty log; a client exactly when the environment key is non-empty |
| McpDebugger.Debugger.InitializeClient | mcp-deepgram-debugger/src/index.ts:40-45 | a client is (re)created only for a non-empty key; the log is untouched |
| McpDebugger.Debugger.AddLog | mcp-deepgram-debugger/src/index.ts:47-52 | the log becomes `Appended(old, entry)` and stays within 100 |
| McpDebugger.Debugger.GetLogs | mcp-deepgram-debugger/src/index.ts:54-59 | reads the log: all entries without a limit, the newest `limit` with a positive one |
| McpDebugger.Debugger.ClearLogs | mcp-deepgram-debugger/src/index.ts:61-63 | the log is emptied and the client kept |
| McpDebugger.Debugger.TestConnection | mcp-deepgram-debugger/src/index.ts:65-109 | no client: failure, nothing logged. Otherwise success exactly when the project listing did not throw, reporting "Successfully connected to Deepgram API (<n>ms)" and the projects, or "Failed to connect to Deepgram API: …" with the error, and logging one response entry or one error entry |
| McpDebugger.Debugger.TestTranscription | mcp-deepgram-debugger/src/index.ts:111-178 | no client: error, nothing logged. Otherwise the given or default options are used and a request entry is logged. Then one response entry and the report; or, for a returned API error, two error entries; or one error entry for a thrown one; the error is "Transcription failed: …" |
| McpDebugger.Debugger.FetchForProject | mcp-deepgram-debugger/src/index.ts:180-284 | the target is the given project id or the first project's. A fetch for it gives one response entry and the payload; any failure gives one error entry and the prefixed `FetchFailure` message, whose local errors carry "Error: " (`LocalErrorsAreRendered`) |
| McpDebugger.Debugger.GetUsage | mcp-deepgram-debugger/src/index.ts:180-233 | no client: failure, nothing logged. Otherwise, for the target project, a fetched usage gives the payload with the duration and one `manage.getUsage` response entry; any failure gives "Failed to get usage: " and the `FetchFailure` message (for example "Failed to get usage: Error: No project ID available") and one error entry |
| McpDebugger.Debugger.GetBalances | mcp-deepgram-debugger/src/index.ts:235-284 | no client: failure, nothing logged. Otherwise, for the target project, fetched balances give the payload with the duration and one `manage.getBalances` response entry; any failure gives "Failed to get balances: " and the `FetchFailure` message (for example "Failed to get balances: Error: Failed to get projects") and one error entry |
| McpDebugger.TargetProject | mcp-deepgram-debugger/src/index.ts:189-194 | the given id when non-empty, else the first project's when non-empty, else none; never without a project list |
| McpDebugger.BuildOptions | mcp-deepgram-debugger/src/index.ts:421-427 | model and language are copied only when non-empty, the three flags whenever given (false included) |
| McpDebugger.OptionsArgument | mcp-deepgram-debugger/src/index.ts:429 | options are passed exactly when at least one key was set |
| McpDebugger.EffectiveOptions | mcp-deepgram-debugger/src/index.ts:117 | with no option given the transcription uses `{model: "nova-2", smart_format: true}`, otherwise exactly the given ones |
| McpDebugger.AudioUrlOf | mcp-deepgram-debugger/src/index.ts:420 | the given URL when non-empty, else the sample recording |
| McpDebugger.ConnectionTool | mcp-deepgram-debugger/src/index.ts:416-417 | `test_connection` replies with the connection report. Without a client it reports "Deepgram client not initialized…" and logs nothing; with one it logs exactly the response or error entry |
| McpDebugger.TranscriptionTool | mcp-deepgram-debugger/src/index.ts:419-430 | `test_transcription` transcribes the given or sample URL. Without a client it fails, logging nothing. Otherwise it logs the request and then, by outcome, the response, the API error's two entries, or the thrown error's one entry, and replies with the report or "Transcription failed: …" |
| McpDebugger.LocalErrorsAreRendered | mcp-deepgram-debugger/src/index.ts:185-233 | the failure message is "Error: Failed to get projects" without a project list and "Error: No project ID available" without a target, as `String(new Error(…))` renders them; a throwing service call is reported by its message |
| McpDebugger.ProjectTool | mcp-deepgram-debugger/src/index.ts:449-457 | `get_usage` and `get_balances` reply with the fetched payload, or "Failed to get …: " and the `FetchFailure` message, as the dispatcher's catch passes `error.message` on; each logs exactly one entry, and nothing without a client |
| McpDebugger.CallTool | mcp-deepgram-debugger/src/index.ts:411-486 | an unknown tool name, and only that, raises `Tool not found`. Reading logs changes nothing and clearing empties them. `set_api_key` without a key fails with "API key is required" and changes nothing; with one it replaces the client. The connection, transcription, usage and balance tools reply and log as stated for `ConnectionTool`, `TranscriptionTool` and `ProjectTool` |
| GuidedDiagnosis.FindQuestion | src/components/GuidedDiagnosis.js:46 | `find` returns the first question with the id, and nothing when none has it |
| GuidedDiagnosis.DiagnosisQuestionsAreNumbered | src/components/GuidedDiagnosis.js:4-40 | `DIAGNOSIS_QUESTIONS` holds seven questions whose ids are 1..7 in order |
| GuidedDiagnosis.QuestionAtEveryStep | src/components/GuidedDiagnosis.js:46 | in a list of seven questions numbered 1..7, steps 1..7 find the step-th question and no other step finds one |
| GuidedDiagnosis.Advance | src/components/GuidedDiagnosis.js:54-58 | completion exactly at step 7, which stays put; otherwise the step goes up by one |
| GuidedDiagnosis.Next | src/components/GuidedDiagnosis.js:48-68 | steps stay in 1..7. Yes emits the current question's script, shows Continue and keeps the step. No and Continue advance to min(step + 1, 7), and Continue also hides itself. Completion happens exactly for No/Continue at step 7 |
| GuidedDiagnosis.StepCountsAdvances | src/components/GuidedDiagnosis.js:43-68 | from the start the step is min(1 + number of No/Continue, 7) |
| GuidedDiagnosis.CompletionsCountAdvances | src/components/GuidedDiagnosis.js:53-68 | from the start, completion is reported max(0, number of No/Continue − 6) times |
| GuidedDiagnosis.CompletesOnlyAtLastStep | src/components/GuidedDiagnosis.js:53-68 | `onComplete` is only called at step 7 |
| GuidedDiagnosis.OfferedRunShowsContinueAfterYes | src/components/GuidedDiagnosis.js:84-106 | pressing only the buttons shown, Continue is shown exactly after a Yes, and every Yes is followed by Continue |
| GuidedDiagnosis.Wizard.constructor | src/components/GuidedDiagnosis.js:42-46 | step 1, Continue hidden, reading `DIAGNOSIS_QUESTIONS` |
| GuidedDiagnosis.Wizard.HandleYes | src/components/GuidedDiagnosis.js:46-51 | the handler looks the current question up with `find`; its effect and new state are `Next(_, Yes)` |
| GuidedDiagnosis.Wizard.HandleNo | src/components/GuidedDiagnosis.js:53-59 | the handler's effect and new state are `Next(_, No)` |
| GuidedDiagnosis.Wizard.HandleContinue | src/components/GuidedDiagnosis.js:61-68 | the handler's effect and new state are `Next(_, Continue)` |
| LiveTranscription.AfterInitialize | src/utils/deepgram.js:8-16 | an empty key creates nothing and returns null; otherwise a new client replaces the old |
| LiveTranscription.AfterStart | src/utils/deepgram.js:18-60 | a client is created only if none exists. With no client and no key, `onError` is called and nothing changes. Success exactly when a client exists and `listen.live` does not throw; the new connection, with the fixed options, becomes current. On failure the old connection stays. Nothing is finished or sent |
| LiveTranscription.AfterStop | src/utils/deepgram.js:62-68 | a live connection is finished, then forgotten; without one nothing changes |
| LiveTranscription.AfterSend | src/utils/deepgram.js:70-74 | data goes to the current connection exactly when there is one and its ready state is 1; otherwise it is dropped |
| LiveTranscription.TranscriptDelivery | src/utils/deepgram.js:37-42 | a transcript reaches the callback, with its `is_final`, exactly when it is non-empty and a callback exists |
| LiveTranscription.StopIsIdempotent | src/utils/deepgram.js:62-68 | stopping twice equals stopping once |
| LiveTranscription.SendsAfterStopAreDropped | src/utils/deepgram.js:62-74 | after a stop, any sequence of sends changes nothing |
| LiveTranscription.SendsGoToTheCurrentConnection | src/utils/deepgram.js:70-74 | with a live connection, exactly the chunks sent while it was open are forwarded, to it, in order |
| LiveTranscription.RestartLeavesOldConnectionUnfinished | src/utils/deepgram.js:53-54 | starting over a live connection replaces it without finishing it |
| LiveTranscription.Gate.constructor | src/utils/deepgram.js:3-6 | the key is `REACT_APP_DEEPGRAM_API_KEY \|\| ''`; no client, no connection |
| LiveTranscription.Gate.Initialize | src/utils/deepgram.js:8-16 | the new state and result are `AfterInitialize` |
| LiveTranscription.Gate.Start | src/utils/deepgram.js:18-60 | the new state and result are `AfterStart` |
| LiveTranscription.Gate.Stop | src/utils/deepgram.js:62-68 | the new state is `AfterStop` |
| LiveTranscription.Gate.Send | src/utils/deepgram.js:70-74 | the new state is `AfterSend` |
| Background.AfterInstall | src/background.js:3-14 | install writes `isRecording` false, an empty history and settings `{autoRecord: false, language: 'en-US'}` |
| Background.AfterMessage | src/background.js:16-57 | start writes true and stop writes false, each replying success. The status reply is the stored flag, false when unset, and writes nothing. Any other action replies "Unknown action" and changes nothing. Only the flag is ever written, and the listener returns true |
| Background.StartAndStopAreIdempotent | src/background.js:36-48 | repeating start, or stop, changes nothing further |
| Background.StatusFollowsLastCommand | src/background.js:36-57 | after any message sequence the status is the last start/stop (true for start), or the stored flag when there was none |
| Background.InstalledIsNotRecording | src/background.js:3-14 | right after install the status is false |
| Background.Worker.OnInstalled | src/background.js:3-14 | the new storage is `AfterInstall` |
| Background.Worker.OnMessage | src/background.js:16-57 | the new storage, the reply and the return value are `AfterMessage` |
| WidgetGeometry.Bounded | src/components/FloatingWidgetContent.js:55-57 | the clamped position is never negative, lies inside a viewport that can hold the widget, is unchanged when already inside, and is pinned to 0 when the viewport is too small |
| WidgetGeometry.ExpandAdjusted | src/components/FloatingWidgetContent.js:93-99 | expanding never moves the widget right or down, leaves room for 400×500, and does not move a widget that already has room |
| WidgetGeometry.ExpandStaysInside | src/components/FloatingWidgetContent.js:88-99 | in a viewport of at least 400×500, expanding from an on-screen position stays on screen |
| WidgetGeometry.ExpandInNarrowViewportLeavesScreen | src/components/FloatingWidgetContent.js:96-99 | in a viewport narrower than 400 the expanded widget gets a negative x |
| WidgetGeometry.SmallerStaysInside | src/components/FloatingWidgetContent.js:52-53 | collapsing to a smaller size keeps an on-screen widget on screen |
| WidgetGeometry.SizeOf | src/components/FloatingWidgetContent.js:52-53 | collapsed, a widget has its component's collapsed size (280×44 here, 280×40 in `FloatingWidget`); expanded, 400×500; a collapsed form within 400×500 means neither form exceeds 400×500 |
| WidgetContent.Next | src/components/FloatingWidgetContent.js:32-100 | a drag starts only on the handle, recording the offset. A move while dragging sets `hasDragged` and places the clamped widget. Up ends the drag and schedules a reset. Toggle does nothing during or just after a drag; otherwise it flips, re-clamping on expand. Each event's clause gives the whole new state: what it names changes and nothing else; a timer event with no reset scheduled changes nothing. The position changes only by a drag or an expand, and on-screen stays on screen in a large enough viewport |
| WidgetContent.AlwaysOnScreen | src/components/FloatingWidgetContent.js:44-100 | from the initial state, in a viewport of at least 400×500, the widget is on screen after any sequence of events |
| WidgetContent.ClickEndingADragIsIgnored | src/components/FloatingWidgetContent.js:46-83 | after a drag move and mouse-up, a click does not toggle until the reset timer has run |
| WidgetContent.ExpandThenCollapse | src/components/FloatingWidgetContent.js:88-99 | expanding then collapsing returns the widget collapsed, no further right or down |
| WidgetContent.ContentWidget.constructor | src/components/FloatingWidgetContent.js:5-9 | collapsed at (20, 20), no drag |
| WidgetContent.ContentWidget.HandleMouseDown | src/components/FloatingWidgetContent.js:32-41 | the new state is `Next(_, MouseDown)` |
| WidgetContent.ContentWidget.HandleMouseMove | src/components/FloatingWidgetContent.js:45-61 | the new state is `Next(_, MouseMove)` |
| WidgetContent.ContentWidget.HandleMouseUp | src/components/FloatingWidgetContent.js:63-67 | the new state is `Next(_, MouseUp)` |
| WidgetContent.ContentWidget.ResetHasDragged | src/components/FloatingWidgetContent.js:66 | the new state is `Next(_, ResetTimer)` |
| WidgetContent.ContentWidget.ToggleCollapsed | src/components/FloatingWidgetContent.js:81-100 | the new state is `Next(_, Toggle)` |
| Widget.Initial | src/components/FloatingWidget.js:6-10 | collapsed at (innerWidth − 300, innerHeight − 60), on screen when the viewport is at least 300×60, sample script shown |
| Widget.ScriptText | src/components/FloatingWidget.js:128-130 | the script text is empty exactly when the sample is switched off |
| Widget.Next | src/components/FloatingWidget.js:32-91 | a drag starts only on the header; a move while dragging places the clamped widget; up ends the drag and changes nothing else. Toggle always flips, even mid-drag, re-clamping only on expand and changing nothing else. The sample toggle flips only its flag. In a viewport of at least 400×500, an on-screen widget stays on screen |
| Widget.AlwaysOnScreen | src/components/FloatingWidget.js:44-91 | from the initial place, in a viewport of at least 400×500, the widget never leaves the screen |
| Widget.SampleScriptAlternates | src/components/FloatingWidget.js:129-132 | the sample is shown exactly when the button was pressed an even number of times (from shown) |
| Widget.ClickEndingADragToggles | src/components/FloatingWidget.js:32-91 | with no drag guard, after a mouse-down on the header, a move and a mouse-up, the click that follows toggles the widget |
| Widget.FloatingWidget.constructor | src/components/FloatingWidget.js:6-10 | the state is `Initial(viewport)` |
| Widget.FloatingWidget.HandleMouseDown | src/components/FloatingWidget.js:32-41 | the new state is `Next(_, MouseDown)` |
| Widget.FloatingWidget.HandleMouseMove | src/components/FloatingWidget.js:45-60 | the new state is `Next(_, MouseMove)` |
| Widget.FloatingWidget.HandleMouseUp | src/components/FloatingWidget.js:62-64 | the new state is `Next(_, MouseUp)` |
| Widget.FloatingWidget.ToggleCollapsed | src/components/FloatingWidget.js:78-91 | the new state is `Next(_, Toggle)` |
| Widget.FloatingWidget.ToggleSampleScript | src/components/FloatingWidget.js:131-132 | the new state is `Next(_, ToggleSample)` |
| StatusBar.LabelFor | src/components/DynamicStatusBar.js:14-95 | any type other than the seven known ones gets the "[ ○ ] Ready" label; every icon is bracketed |
| StatusBar.ClassNamesTheType | src/components/DynamicStatusBar.js:14-85 | each of the seven known types is shown with class `status-<type>` |
| StatusBar.Render | src/components/DynamicStatusBar.js:4-12 | a missing status or type shows "[ ● ] Listening..."; the idle class appears exactly for that case or an unknown type |
| StatusBar.IdleAndUnknownTypesAreReady | src/components/DynamicStatusBar.js:86-93 | `idle` and every unknown type show "[ ○ ] Ready" |
| StatusBar.ZeroTakesTheDefault | src/components/DynamicStatusBar.js:19-60 | a phase of 0/0 shows like one without counts, and a diagnosis step 0/0 like one without data |
| StatusBar.DefaultCounters | src/components/DynamicStatusBar.js:19-62 | without data, a phase shows "[ 1/6 ] Unknown Phase" and a diagnosis "[ 1 / 7 ] Guided Diagnosis" |
| StatusBar.StageIsOutOfNine | src/components/DynamicStatusBar.js:29-32 | a stage always counts out of 9; its text is name, colon, description with their defaults |
| StatusBar.TopicIsPrefixed | src/components/DynamicStatusBar.js:36-54 | questions and objections show their fixed prefix followed by the topic, or "Unknown" |
| StatusBar.MessagesFallBack | src/components/DynamicStatusBar.js:66-84 | without a message, connecting shows "Connecting..." and listening "Listening to call..." |
| StatusBar.PhaseShowsItsCounts | src/components/DynamicStatusBar.js:16-24 | a phase with non-zero counts shows `[ current/total ]` and its name, or "Unknown Phase" |
| StatusBar.DiagnosisShowsItsSteps | src/components/DynamicStatusBar.js:56-64 | a diagnosis with non-zero steps shows `[ current / total ]` and "Guided Diagnosis" |
| StatusBar.FixedIcons | src/components/DynamicStatusBar.js:36-84 | a question shows `[ ? ]`, an objection `[ ! ]`, connecting `[ ⟳ ]` and listening `[ ● ]` |
| StatusBar.MessagesAreShown | src/components/DynamicStatusBar.js:66-84 | a non-empty message is shown as it is while connecting or listening |

## Left out

- External services (identity provider, embeddings API, database, speech service, Chrome storage) are outcomes supplied as inputs. Their own behaviour is not modelled, and neither is which intent a sentence matches (that depends on embeddings).
- Logging to the console, the 500 ms delay between phrases, and the extension's startup message are not modelled.
- Dates are represented by the milliseconds they encode. ISO formatting is not modelled, nor the usage query's 30-day window.
- Each tool call of the debugging server uses one timestamp and one duration for all its log entries.
- The tool server's transport, its tool listing and its `main` are not modelled.
- Tool arguments are typed fields: a non-string `model` or `language`, a JSON `null` flag, or a non-integer `limit` is not modelled.
- Widget.Next: the sample-script toggle is accepted while collapsed, although its button is rendered only in the expanded view; every clause holds either way.
- McpDebugger.LogsFor: `limit` is an optional integer; a fractional limit, which `slice` truncates toward zero, and NaN, which makes `slice` return every entry, are not modelled.
- The SDK's error rendering (`error.message` versus `String(error)`) is folded into one message string for errors raised by the speech service; the errors the debugger throws itself are rendered as `String(error)` gives them, with the "Error: " prefix.
- The population script's start-up check for missing environment variables is not modelled.
- The model's table is a map from (intent, phrase) to one row. The lookup's "no rows" code (PGRST116) is also what a lookup that finds several rows reports. There the script inserts yet another row, while the map holds one row per key. So a PGRST116 lookup on a key that already has a row replaces that row, and duplicate rows are not represented.
- JSON parsing is reduced to the cases the handlers distinguish: unparseable, `null` (destructuring it throws, so it is a 500), and a value whose `text` is absent, not a string, or a string.
- The React renders, timers and event-listener timing are not modelled. Each handler runs on the latest state, one event at a time; stale closures and batched updates are not modelled. The 100 ms `hasDragged` timer is the explicit event `ResetTimer`.
- Positions restored from and saved to `localStorage`, inline styles and markup are not modelled; mouse coordinates are whole pixels.
- The live connection's `open`, `close` and `error` listeners only log or forward to `onError`; only the transcript listener is modelled. A connection's ready state is an input to each send.
- Numbers in the status bar are integers (fractional values are not modelled).
- The wizard's transition functions take the question list as a parameter. Their lemmas hold for any list of seven questions numbered 1..7, and the component's list is one (`DiagnosisQuestionsAreNumbered`).
