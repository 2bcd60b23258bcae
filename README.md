# SpeechCoach session orchestration, in Dafny

A model of the speech-coaching web application's core: the React client that
takes in audio (an uploaded file or a microphone recording), has it
transcribed, sends the transcription with the user's context for analysis,
saves the session for a signed-in user and shows the saved sessions,
improvement scores and a generated summary; the authentication provider and
header panel it depends on; and the Django views that validate an analysis
request, build the prompt, pick the answering model and decide what to save.

Every remote call is a parameter describing how it ended:
`Http<T>` for `fetch` (threw, or answered with an `ok` flag and a JSON body
that may fail to parse) and `Axios<T>` for axios (which rejects every non-2xx
status). A model call on the server is `Some(text)` or `None` when it raised.
A JSON key that is missing is `None`; JavaScript reads it as `undefined`.

Modules, one per source file, plus shared helpers (`Wrappers`, `Api`, `Text`) and the
cross-file properties (`Integration`):

- `AuthContext` (`auth_context.dfy`): class `AuthProvider` with the
  credential, the identity and the browser storage slot. Its invariant
  `Valid()` says the in-memory credential is the stored one and an identity is
  only held together with a credential; every method keeps it.
- `AuthPanel` (`auth_panel.dfy`): class `HeaderAuthPanel`, the login and
  sign-up modal.
- `Pipeline` (`pipeline.dfy`): class `TranscribeAndAnalyze`, the main page's
  state, its handlers, the button predicates and the analysis request.
- `Scores`, `Summary` (`scores.dfy`, `summary.dfy`): the two derived views and
  their loading/error/data life cycle, split into the synchronous start
  (`BeginFetch`) and the settled end (`FinishFetch`) so that the loading screen
  is a state of its own.
- `Helpers` (`helpers.dfy`): the improvement prompt.
- `Views` (`views.dfy`): the decisions of `analyze_text`,
  `generate_improvements`, `get_improvements` and `profile_view` as functions,
  and class `Database` whose methods apply the inserts they decide.
- `Palette` (`palette.dfy`): `getRandomColor`, which the header panel and the
  main page each declare identically; it is modelled once.
- `Text` (`text.dfy`): Python's `strip()`, `lower()` and `join()`.
- `Integration` (`integration.dfy`): what the client's request means to the
  server, and client methods that replay the page's main scenarios
  (anonymous analysis, signed-in analysis with refresh, wrong password,
  transcription service down, logout).

The model follows the code as written, including its surprising cases:

- `handleTranscribe` and `handleAnalyze` never look at the status. Any JSON
  answer is stored: an error answer without a `transcription` key leaves the
  transcription `undefined` (Analyze then stays disabled and no failure text
  is shown), and one without an `analysis` key shows
  `"undefined\n\n(Source: gemini)"`. Only a thrown error gives the failure
  texts.
- `loginUser` has no `try`: a network error, or an ok answer whose body is
  not JSON, rejects the promise instead of returning false. The header
  panel's handler then stops before touching its state.
- Choosing a new file or finishing a recording keeps the old transcription
  and analysis. An emptied file picker clears the audio.
- The four context fields are always sent, so the server's "N/A" defaults
  never apply to this client's requests; empty inputs reach the prompt empty.
- `generate_improvements` is commented as working on the last five sessions,
  but its query has no limit: every saved transcription of the user is used.

## Model

| member | source | states |
|---|---|---|
| Text.TrimLeft | speechcoach-backend/moins_project/moins/app/views.py:60-61 | the result is a suffix of the input that does not start with whitespace, and everything cut was whitespace |
| Text.TrimRight | speechcoach-backend/moins_project/moins/app/views.py:60-61 | the result is a prefix of the input that does not end with whitespace, and everything cut was whitespace |
| Text.Strip | speechcoach-backend/moins_project/moins/app/views.py:60-61 | `strip()` keeps one contiguous infix, cutting only Python whitespace before and after it, and the kept part neither starts nor ends with whitespace |
| Text.StripEmptyIffBlank | speechcoach-backend/moins_project/moins/app/views.py:80-83 | a stripped field is empty exactly when the field is all whitespace |
| Text.LowerChar | speechcoach-backend/moins_project/moins/app/views.py:81 | an upper-case ASCII letter becomes its lower-case letter; every other character is kept |
| Text.Lower | speechcoach-backend/moins_project/moins/app/views.py:81-83 | the lowered text has the same length, is lowered position by position, and holds no upper-case ASCII letter |
| Text.Join | speechcoach-backend/moins_project/moins/app/helpers.py:3 | `sep.join(parts)`: the empty list joins to "", one part to itself, and more parts to the first, a separator and the join of the rest; its length and left-to-right reading are fixed by `Text.JoinLength` and `Text.JoinSnoc` |
| Text.JoinLength | speechcoach-backend/moins_project/moins/app/helpers.py:3 | joining n parts adds exactly n - 1 separators' worth of characters |
| Text.JoinSnoc | speechcoach-backend/moins_project/moins/app/helpers.py:3 | joining parts plus one more is the old join, one separator and the new part |
| Palette.FirstCodeUnit | speechcoach-frontend/src/components/TranscribeAndAnalyze.js:19 | `charCodeAt(0)` is below 0x10000: the character itself inside the Basic Multilingual Plane; outside it, the one high surrogate u in 0xD800..0xDBFF whose block of 0x400 code points, starting at 0x10000 + (u - 0xD800) * 0x400, holds the character |
| Palette.RandomColor | speechcoach-frontend/src/components/HeaderAuthPanel.js:4-8 | a non-empty name always gets one of the five palette colours; the empty name gets `undefined` |
| Palette.ColorFollowsFirstChar | speechcoach-frontend/src/components/TranscribeAndAnalyze.js:17-21 | two names with the same first character get the same colour |
| Palette.ColorCycle | speechcoach-frontend/src/components/HeaderAuthPanel.js:6-7 | two non-empty names share a colour exactly when the first UTF-16 code units `charCodeAt(0)` reads from them are congruent modulo 5, for every first character, inside the Basic Multilingual Plane or not |
| AuthContext.AuthProvider.Stored | speechcoach-frontend/src/components/AuthContext.js:7 | the stored credential is present exactly when the 'tokens' key is, and is its value |
| AuthContext.AuthProvider.constructor | speechcoach-frontend/src/components/AuthContext.js:6-9 | the credential starts as the value under 'tokens' or null, the identity as null |
| AuthContext.AuthProvider.LookupIdentity | speechcoach-frontend/src/components/AuthContext.js:11-24 | with a credential the identity becomes the ok answer's body, and null on a non-ok answer or an error; without one it becomes null without a request; the credential is never changed |
| AuthContext.AuthProvider.LoginUser | speechcoach-frontend/src/components/AuthContext.js:26-41 | an ok answer stores its body as the credential and under 'tokens' and resolves true; a non-ok answer resolves false; a thrown error rejects; only the first case changes any state |
| AuthContext.AuthProvider.LogoutUser | speechcoach-frontend/src/components/AuthContext.js:43-48 | credential and identity become null, 'tokens' is removed from storage and the page goes to '/' |
| AuthContext.AuthProvider.RegisterUser | speechcoach-frontend/src/components/AuthContext.js:50-57 | resolves to the answer's ok flag, rejects on a network error, and touches no state |
| AuthPanel.HeaderAuthPanel.constructor | speechcoach-frontend/src/components/HeaderAuthPanel.js:12-15 | closed modal, login mode, all-empty form, no error |
| AuthPanel.HeaderAuthPanel.ToggleModal | speechcoach-frontend/src/components/HeaderAuthPanel.js:17 | the modal flag is negated, so two toggles restore it |
| AuthPanel.HeaderAuthPanel.ToggleRegister | speechcoach-frontend/src/components/HeaderAuthPanel.js:231 | the sign-up flag is negated |
| AuthPanel.HeaderAuthPanel.HandleChange | speechcoach-frontend/src/components/HeaderAuthPanel.js:19 | only the named field takes the new value; every other field keeps its own |
| AuthPanel.HeaderAuthPanel.HandleSubmit | speechcoach-frontend/src/components/HeaderAuthPanel.js:21-36 | sign-up mode registers with (username, email, password) and leaves the credential alone, login mode logs in with (username, password); success closes the modal, empties the form and clears the error; failure sets the fixed error and keeps modal and form; a rejection changes nothing in the panel; a successful login stores the answer's credential in memory and under 'tokens', and any other outcome leaves credential and storage as they were |
| Pipeline.TranscribeDisabled | speechcoach-frontend/src/components/TranscribeAndAnalyze.js:267 | the Transcribe button is disabled exactly when there is no audio |
| Pipeline.AnalyzeDisabled | speechcoach-frontend/src/components/TranscribeAndAnalyze.js:353 | the Analyze button is disabled exactly when the transcription is `undefined` or empty, the falsy values it can hold; `Integration.AnalyzeEnabledIffAccepted` ties it to the server's check |
| Pipeline.Shown | speechcoach-frontend/src/components/TranscribeAndAnalyze.js:100 | a template literal shows a missing value as "undefined" |
| Pipeline.SourceLabel | speechcoach-frontend/src/components/TranscribeAndAnalyze.js:100 | the label is the server's source when it is non-empty, else "gemini", and never empty |
| Pipeline.SourceSuffix | speechcoach-frontend/src/components/TranscribeAndAnalyze.js:100 | the "\n\n(Source: …)" ending of the shown analysis; `Pipeline.AnalysisText` and `Integration.ShownSourceIsServerSource` state what it holds |
| Pipeline.AnalysisText | speechcoach-frontend/src/components/TranscribeAndAnalyze.js:99-100 | the shown analysis is the answer's analysis, a blank line and "(Source: label)", and can never be mistaken for the failure text |
| Pipeline.ContextObject | speechcoach-frontend/src/components/TranscribeAndAnalyze.js:76-81 | the context object has exactly the keys listener, situation, speaker_trait and topic_priority, holding the four inputs |
| Pipeline.SaveFlag | speechcoach-frontend/src/components/TranscribeAndAnalyze.js:82 | the save flag is "true" exactly when a user is present and "false" exactly when none is |
| Pipeline.Authorization | speechcoach-frontend/src/components/TranscribeAndAnalyze.js:89 | the Authorization header is present exactly when a credential is, carrying "Bearer " and the access token |
| Pipeline.TranscribeAndAnalyze.constructor | speechcoach-frontend/src/components/TranscribeAndAnalyze.js:26-37 | no audio, empty texts and inputs, no recording, no sessions |
| Pipeline.TranscribeAndAnalyze.HandleFileChange | speechcoach-frontend/src/components/TranscribeAndAnalyze.js:40 | the first chosen file replaces the audio whatever produced the previous one, and no file clears it; nothing else changes |
| Pipeline.TranscribeAndAnalyze.StartRecording | speechcoach-frontend/src/components/TranscribeAndAnalyze.js:43-45 | the recording flag is raised only when the recorder started; otherwise nothing changes |
| Pipeline.TranscribeAndAnalyze.StopRecording | speechcoach-frontend/src/components/TranscribeAndAnalyze.js:48-55 | a finished recording replaces the audio as "recording.mp3" with the blob's type, lowers the recording flag and marks a recording available; a failure changes nothing |
| Pipeline.TranscribeAndAnalyze.ToggleRecording | speechcoach-frontend/src/components/TranscribeAndAnalyze.js:248 | the record button stops a running recording, which on success becomes the audio "recording.mp3" with the blob's type, lowers the recording flag and marks a recording available, and on failure changes nothing; otherwise it starts one, raising the flag only when the recorder started and keeping the audio and the availability flag |
| Pipeline.TranscribeAndAnalyze.SetListener | speechcoach-frontend/src/components/TranscribeAndAnalyze.js:315 | the listener input takes the typed value |
| Pipeline.TranscribeAndAnalyze.SetSituation | speechcoach-frontend/src/components/TranscribeAndAnalyze.js:320 | the situation input takes the typed value |
| Pipeline.TranscribeAndAnalyze.SetSpeakerTrait | speechcoach-frontend/src/components/TranscribeAndAnalyze.js:325 | the speaker-trait input takes the typed value |
| Pipeline.TranscribeAndAnalyze.SetTopicPriority | speechcoach-frontend/src/components/TranscribeAndAnalyze.js:330 | the topic-priority input takes the typed value |
| Pipeline.TranscribeAndAnalyze.SetFeedbackType | speechcoach-frontend/src/components/TranscribeAndAnalyze.js:338 | the feedback-type select takes the chosen value |
| Pipeline.TranscribeAndAnalyze.SetFeedbackGoal | speechcoach-frontend/src/components/TranscribeAndAnalyze.js:344 | the feedback-goal select takes the chosen value |
| Pipeline.TranscribeAndAnalyze.HandleTranscribe | speechcoach-frontend/src/components/TranscribeAndAnalyze.js:58-72 | the current audio is what is sent; without audio nothing changes; a thrown error stores exactly "Transcription failed." (which enables Analyze); any JSON answer, whatever its status, stores its transcription field |
| Pipeline.TranscribeAndAnalyze.AnalyzeRequest | speechcoach-frontend/src/components/TranscribeAndAnalyze.js:76-97 | the request carries the transcription, both feedback fields, the four-key context and the save flag of the current user |
| Pipeline.TranscribeAndAnalyze.FetchSessions | speechcoach-frontend/src/components/TranscribeAndAnalyze.js:111-122 | a request is made exactly when credential and user are both present; a successful answer replaces the sessions in server order, a failure or a missing user empties them |
| Pipeline.TranscribeAndAnalyze.HandleAnalyze | speechcoach-frontend/src/components/TranscribeAndAnalyze.js:75-108 | the request and header are those of the current state; a JSON answer shows its analysis with its source and refreshes the sessions exactly when a user is present; a thrown error shows exactly "Analysis failed." and refreshes nothing |
| Pipeline.FailureTextEnablesAnalyze | speechcoach-frontend/src/components/TranscribeAndAnalyze.js:351-353 | after a failed transcription both Transcribe and Analyze are enabled |
| Pipeline.ErrorBodyShowsUndefined | speechcoach-frontend/src/components/TranscribeAndAnalyze.js:99-100 | an answer without analysis and source keys is shown as "undefined\n\n(Source: gemini)" |
| Scores.NoBars | speechcoach-frontend/src/components/CommunicationImprovements.jsx:30 | there is nothing to draw exactly when the scores are missing or have no key |
| Scores.Display | speechcoach-frontend/src/components/CommunicationImprovements.jsx:59-65 | loading is shown first, then a non-empty error, then bars; no bars exactly when the scores are missing or empty |
| Scores.CommunicationImprovements.Screen | speechcoach-frontend/src/components/CommunicationImprovements.jsx:59-65 | the panel shows `Scores.Display` of its current loading flag, error and scores; `FetchScores` states the screen after a fetch |
| Scores.CommunicationImprovements.constructor | speechcoach-frontend/src/components/CommunicationImprovements.jsx:7-9 | loading, no error, empty scores |
| Scores.CommunicationImprovements.BeginFetch | speechcoach-frontend/src/components/CommunicationImprovements.jsx:13-14 | a fetch starts by showing the loading state with the error cleared |
| Scores.CommunicationImprovements.FinishFetch | speechcoach-frontend/src/components/CommunicationImprovements.jsx:15-24 | success stores the answer's scores; a failure or a missing credential sets "Could not load scores." and keeps the scores; loading ends either way |
| Scores.CommunicationImprovements.FetchScores | speechcoach-frontend/src/components/CommunicationImprovements.jsx:12-27 | after a whole fetch the loading screen is gone; a failure shows "Could not load scores.", a success leaves no error |
| Summary.Display | speechcoach-frontend/src/components/GeminiSuggestions.js:32-38 | loading is shown first, then a non-empty error, then the summary, or "No summary available." when it is missing or empty |
| Summary.GeminiSuggestions.Screen | speechcoach-frontend/src/components/GeminiSuggestions.js:32-38 | the panel shows `Summary.Display` of its current loading flag, error and summary; `FetchSummary` states the screen after a fetch |
| Summary.GeminiSuggestions.constructor | speechcoach-frontend/src/components/GeminiSuggestions.js:7-9 | loading, no error, empty summary |
| Summary.GeminiSuggestions.BeginFetch | speechcoach-frontend/src/components/GeminiSuggestions.js:13-14 | a fetch starts by showing the loading state with the error cleared |
| Summary.GeminiSuggestions.FinishFetch | speechcoach-frontend/src/components/GeminiSuggestions.js:15-24 | success stores the answer's summary; a failure or missing credential sets "Could not load summary." and keeps the summary; loading ends either way |
| Summary.GeminiSuggestions.FetchSummary | speechcoach-frontend/src/components/GeminiSuggestions.js:12-27 | after a whole fetch the loading screen is gone; success shows a summary text, failure shows "Could not load summary." |
| Helpers.Transcriptions | speechcoach-backend/moins_project/moins/app/helpers.py:3 | the list holds each session's transcription, in input order |
| Helpers.JoinedTexts | speechcoach-backend/moins_project/moins/app/helpers.py:3 | `"\n\n---\n\n".join` of the transcriptions; its length, order and separators are stated by `Helpers.JoinedLength`, `Helpers.LastSessionComesLast` and `Helpers.DashesCountSeparators` |
| Helpers.ImprovementPrompt | speechcoach-backend/moins_project/moins/app/helpers.py:4-13 | the prompt begins with the fixed head, ends with the fixed tail, and its length is theirs plus the joined text's |
| Helpers.EmbeddedRoundTrip | speechcoach-backend/moins_project/moins/app/helpers.py:4-13 | the joined text is embedded once between head and tail and reads back unchanged |
| Helpers.PromptDeterminesJoinedTexts | speechcoach-backend/moins_project/moins/app/helpers.py:4-13 | equal prompts come from equal joined texts |
| Helpers.NoSessionsJoinEmpty | speechcoach-backend/moins_project/moins/app/helpers.py:3 | no sessions give an empty joined text |
| Helpers.OneSessionJoinsToItself | speechcoach-backend/moins_project/moins/app/helpers.py:3 | one session gives its transcription with no separator |
| Helpers.LastSessionComesLast | speechcoach-backend/moins_project/moins/app/helpers.py:3 | the transcriptions are joined in input order: a later session comes after one more separator |
| Helpers.JoinedLength | speechcoach-backend/moins_project/moins/app/helpers.py:3 | n sessions give their transcriptions plus n - 1 separators in length |
| Helpers.DashesCountSeparators | speechcoach-backend/moins_project/moins/app/helpers.py:3 | when no transcription holds a dash, the joined text holds 3 * (n - 1) dashes: n - 1 separators |
| Views.PromptHeader | speechcoach-backend/moins_project/moins/app/views.py:71-78 | the f-string header with the four context values in the order speaker traits, listener type, situation, priority topics; `Integration.ClientContextBypassesDefaults` fills it from the client's inputs |
| Views.StrippedField | speechcoach-backend/moins_project/moins/app/views.py:60-61 | `request.data.get(name, '').strip()`: a missing field reads as ""; `Views.FeedbackLinesIffNotBlank` states when it is empty |
| Views.ContextHeader | speechcoach-backend/moins_project/moins/app/views.py:59-78 | the header built from the request's context (`{}` when absent), each missing key read as "N/A"; `Views.PromptLayout` puts it first in the prompt |
| Views.ContextField | speechcoach-backend/moins_project/moins/app/views.py:66-69 | `context.get(key, 'N/A')`: the value under the key, or "N/A" without it; `Views.DefaultOnlyForMissingKey` states when the default applies |
| Views.AnalysisPrompt | speechcoach-backend/moins_project/moins/app/views.py:71-85 | the prompt `analyze_text` builds: the f-string header, the optional type and goal lines, the closing sentence; its shape is stated by `Views.PromptLayout`, `Views.PromptFeedbackOrder`, `Views.FeedbackLinesIffNotBlank`, `Views.BlankFeedbackTypeIgnored` and `Views.FeedbackCaseIgnored` |
| Views.HasText | speechcoach-backend/moins_project/moins/app/views.py:63-64 | the request is accepted exactly when its text is present and non-empty, the falsy cases of `if not text` for a string |
| Views.TypeLine | speechcoach-backend/moins_project/moins/app/views.py:80-81 | a feedback-type line is added exactly when the stripped type is non-empty |
| Views.GoalLine | speechcoach-backend/moins_project/moins/app/views.py:82-83 | a feedback-goal line is added exactly when the stripped goal is non-empty |
| Views.PromptLayout | speechcoach-backend/moins_project/moins/app/views.py:71-85 | the prompt starts with the header for the request's context and always ends with "Keep the response helpful and clear."; its length is the sum of its four parts |
| Views.PromptFeedbackOrder | speechcoach-backend/moins_project/moins/app/views.py:80-85 | after the header come the type line, then the goal line, then the closing sentence, in that order |
| Views.FeedbackLinesIffNotBlank | speechcoach-backend/moins_project/moins/app/views.py:60-61 | each feedback line appears exactly when its request field is not blank |
| Views.BlankFeedbackTypeIgnored | speechcoach-backend/moins_project/moins/app/views.py:80 | a blank feedback type builds the same prompt as an absent one |
| Views.FeedbackCaseIgnored | speechcoach-backend/moins_project/moins/app/views.py:81-83 | feedback words differing only in case or surrounding whitespace build the same prompt |
| Views.DefaultOnlyForMissingKey | speechcoach-backend/moins_project/moins/app/views.py:66-69 | a context field reads "N/A" only when its key is missing (or holds "N/A"); a present value is used as it is |
| Views.AnalyzeText | speechcoach-backend/moins_project/moins/app/views.py:56-103 | a missing or empty text gives 400 "No text provided" with no model call and no insert; otherwise 200 exactly when some model answered, with the primary model's text and "gemini", or the local model's and "local_llm"; when the local model raises too the exception escapes the view, giving 500 and no insert; a session is inserted exactly when a model answered, the caller is authenticated and save is "true" (default "false") |
| Views.GenerateImprovements | speechcoach-backend/moins_project/moins/app/views.py:117-150 | no sessions give 400 "Not enough data to analyze" and save nothing; otherwise the prompt starts with the fixed head of `generate_improvement_prompt`, ends with its fixed tail, holds the joined transcriptions between them, and a row is saved and returned in both branches, with the fixed scores or the fixed failure summary |
| Views.FailedModelScoresZero | speechcoach-backend/moins_project/moins/app/views.py:143-146 | when the model raises, all four saved scores are 0 |
| Views.NewestFirst | speechcoach-backend/moins_project/moins/app/db.py:32 | a list query returns only the user's rows, empty exactly when the user has none |
| Views.NewestFirstConcat | speechcoach-backend/moins_project/moins/app/db.py:32 | `ORDER BY created_at DESC` over two batches of inserts reads all of the user's later rows, newest first, before all of the earlier ones |
| Views.NewestFirstAfterInsert | speechcoach-backend/moins_project/moins/app/views.py:123-127 | a row just inserted for the user is the first one a newest-first query reads back |
| Views.GetImprovements | speechcoach-backend/moins_project/moins/app/views.py:153-187 | no improvement row gives 404 "No improvement data yet"; otherwise 200 with the latest summary and its clarity, emotion and pacing scores, each 0 when missing (the structure score is dropped) |
| Views.ScoreOr | speechcoach-backend/moins_project/moins/app/views.py:173-175 | `scores.get(key, 0)`: the stored score when the key is present, 0 otherwise |
| Views.ProfileView | speechcoach-backend/moins_project/moins/app/views.py:197-201 | the stored profile, or bio and avatar_url as empty strings when there is none |
| Views.Database.AnalyzeTextView | speechcoach-backend/moins_project/moins/app/views.py:97-98 | the sessions table grows by the decided row and only by it; a saved session is the first one its user's list shows |
| Views.Database.GenerateImprovementsView | speechcoach-backend/moins_project/moins/app/views.py:119-150 | the decision is made on the user's saved transcriptions, newest first; the improvements table grows by the decided row, and by nothing when there are no sessions |
| Views.Database.UserSessions | speechcoach-backend/moins_project/moins/app/db.py:27-37 | `get_user_sessions` returns only rows of the user that are in the table, and is empty exactly when the user has none |
| Views.Database.GetImprovementsView | speechcoach-backend/moins_project/moins/app/views.py:153-187 | the view answers 404 "No improvement data yet" exactly when the user has no improvement row, and a 200 answer carries the summary of one of the user's rows |
| Views.Database.ProfileViewOf | speechcoach-backend/moins_project/moins/app/views.py:197-201 | always 200 with a profile body: the stored bio and avatar URL, or both as empty strings when the user has no profile |
| Views.GeneratedRowIsLatest | speechcoach-backend/moins_project/moins/app/views.py:148 | the row a generation saves is the one the next get_improvements returns |
| Integration.AnalyzeEnabledIffAccepted | speechcoach-frontend/src/components/TranscribeAndAnalyze.js:353 | the Analyze button is enabled exactly when the server will accept the request's text |
| Integration.AnonymousAnalysisNeverSaved | speechcoach-frontend/src/components/TranscribeAndAnalyze.js:82 | without a user the server saves nothing, even if it authenticates the caller's token |
| Integration.SignedInAnalysisSaved | speechcoach-backend/moins_project/moins/app/views.py:97-98 | with a user and an authenticated caller the session is saved, with the client's transcription and context, exactly when one of the models answered |
| Integration.ClientContextBypassesDefaults | speechcoach-frontend/src/components/TranscribeAndAnalyze.js:76-81 | the server's header holds the client's four inputs verbatim, never "N/A" defaults |
| Integration.ShownSourceIsServerSource | speechcoach-frontend/src/components/TranscribeAndAnalyze.js:100 | an analysis comes back exactly when a model answered, and the client then shows it with the server's source, never the default label |

## Left out

- Remote services are parameters: Whisper, Gemini, the local transformer
  model (`llm_fallback.py`), fetch, axios, `MicRecorder`. Their contents are
  not modelled; only whether each call answered or raised.
- Database I/O (`db.py`, raw SQL): the tables are sequences of rows in
  insertion order, and `ORDER BY created_at DESC` is read as newest-inserted
  first. Equal timestamps are not modelled.
- `localStorage` holds the credential value itself. JSON serialisation, and a
  stored text that `JSON.parse` rejects, are not modelled.
- Request and response bodies hold strings where the code expects strings.
  JSON `null`, numbers or nested values in those places are not modelled;
  neither is a session-list answer that is not a list.
- Text.Lower, Text.LowerChar: lower-case ASCII letters only, where Python's `lower()` covers
  all of Unicode. The feedback values the client offers are ASCII.
- Views.GetImprovements: the `overall` score (`round(avg, 2)`) is floating
  point and is left out of the response; so is `created_at`, because the
  model's rows carry no timestamps (their order in the table stands for
  `ORDER BY created_at`).
- Scores are exact decimal `real` values, not IEEE doubles. The score-bar
  width is layout.
- Permission checks of the authenticated views (`IsAuthenticated`, 401) are
  framework behaviour; these views take the authenticated user's id.
- `TranscribeAudio` wraps the remote Whisper call and its error answer; it is
  left out as a remote-service wrapper, and the client sees only how the call
  ended (`Http`).
- `user_sessions`, `current_user`, `RegisterUserView`, `profile_update` and
  `save_user_improvement` are framework or plain database code; the saving is
  modelled only as the appended row.
- Asynchrony: effects (`useEffect`) are the methods the caller invokes when
  their dependencies change. Races between in-flight requests, and a logout
  arriving mid-request, are not modelled.
- `logoutUser`'s navigation is returned as the target path; the page reload
  itself is not modelled.
- The unused `LoginForm` and `ProfileIcon` inside the main page, JSX layout,
  styles, Lottie and icons, `URL.createObjectURL`, routing (`urls.py`,
  `App.js`).
