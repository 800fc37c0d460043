# Kaiwa, modelled in Dafny

Kaiwa is a live Japanese–English conversation translator. The iOS app
streams microphone audio to the Soniox speech-to-text socket. It shows final
and interim transcript lines, has each final line translated by a Convex
backend, and keeps a searchable history and a glossary on the device. The
backend keeps a table of users, gates the paid endpoints by approval and by a
sliding-window rate limit, and is kept up to date by identity-provider
(Clerk) webhooks.

This project models the core of that system and proves properties of the
model:

- `soniox.dfy` (module `Soniox`): the speech client.
  - The connection is a class with `Connect`, `SendAudio`, `Disconnect` and the receive loop.
  - `ParseResponse` turns one server message into final and interim notifications.
  - Its token loop (`SortTokens`) is proved against the functions `FinalText`, `InterimText` and `DetectedLanguage`.
- `audio_capture.dfy` (module `AudioCapture`): the microphone service.
  - A class with the `isCapturing` and `hasInstalledTap` flags, and the number of taps on the input bus.
  - `Start` has its ordered failure points. `Stop` is also modelled.
  - The tap closure turns one buffer into 16-bit little-endian PCM bytes.
- `pcm.dfy` (module `Pcm`): the byte layout of those frames, with both round trips.
- `session.dfy` (module `Session`): the session view-model.
  - A class owning the microphone and the speech client.
  - Its states are idle, connecting, listening and error.
  - It covers `startSession`, `stopSession`, `handleFinalUtterance`, `startErrorMessage` and the delegate callbacks.
- `storage.dfy` (module `Storage`): local storage of history and glossary, over a key-value store.
  - Saving cuts history to `maxHistoryEntries`.
  - Loading sorts newest first.
  - Anything undecodable loads as an empty list.
- `users.dfy` (module `Users`): the backend's `users` and `apiUsageLog` tables.
  - The mutations `ensureUser`, `assertApiAccess`, `assertAndLogUsage` and `upsertFromClerkWebhook`.
  - The query `getMe`.
  - The helper `buildDisplayName`.
- `webhook.dfy` (module `Webhook`): the `/clerk/webhook` HTTP handler.
- `transcript.dfy` (module `Transcript`): what the transcript screen derives from the session state.
  - The language badge.
  - The original and translated sides of an entry.
  - When the interim row and the listening indicator show.
- `history_glossary.dfy` (module `HistoryGlossary`): the history search and the add-term form.
- `auth_sheet.dfy` (module `AuthDiagnostics`): the sign-in diagnostics.
  - The error snapshot and its alert text.
  - Error-code labels.
  - Masking, the redirect URL, the application identifier and the URL schemes.
- `text.dfy`, `wrappers.dfy` and `models.dfy` hold shared helpers and records.
  - `Text` holds trimming over an explicit whitespace set, substring search, ASCII case mapping and number rendering.
  - `Wrappers` holds `Option` and `Result`.
  - `Models` holds `ConversationEntry` and `GlossaryItem`.

Sockets, the audio hardware, the clock, identities, JSON, the key-value
store and backend calls are not executed. Each call's outcome is a parameter
of the operation that makes the call: the outcome of a send, the server's
first reply, the result of each receive, the platform's answer to each audio
session call, the translation result, the verified webhook event, and the
current time.

Behaviour of the code that the model keeps as written:

- A failed microphone start leaves the speech connection open, because `startSession` only stops it before connecting.
- A first-time caller of `assertApiAccess` is inserted and then refused. Convex rolls back a mutation that throws, so the insert never persists. The model's tables are unchanged on every error path.
- `configuredURLSchemes` keeps URL types whose scheme list is missing; they contribute no schemes.

## Model

| member | source | states |
|---|---|---|
| Soniox.ParseResponse | ios/Kaiwa/Services/SonioxService.swift:136-186 | The notifications are exactly `ResponseEvents(m)`: nothing after the finished marker; one server error after an error code; nothing without a token list; otherwise the trimmed final text, then the trimmed interim text, each only when non-empty. |
| Soniox.SortTokens | ios/Kaiwa/Services/SonioxService.swift:154-171 | The loop's results are the concatenated final texts, the concatenated interim texts, the last non-empty language (default "en"), and whether any token was final. |
| Soniox.BucketTextAppend | ios/Kaiwa/Services/SonioxService.swift:159-171 | Each bucket's text of a concatenation of token lists is the concatenation of the two buckets' texts. |
| Soniox.BucketTextSingle | ios/Kaiwa/Services/SonioxService.swift:165-170 | One token adds its text to the bucket of its own finality and nothing to the other. |
| Soniox.FinalTextNeedsFinalToken | ios/Kaiwa/Services/SonioxService.swift:165-173 | Non-empty final text implies that some token was final, so the `hasFinalTokens` guard never decides the outcome. |
| Soniox.DetectedLanguageDefault | ios/Kaiwa/Services/SonioxService.swift:156-164 | With no token carrying a non-empty language, the reported language is "en". |
| Soniox.DetectedLanguageIsLast | ios/Kaiwa/Services/SonioxService.swift:162-164 | The reported language is that of the last token carrying a non-empty one. |
| Soniox.LastLanguageExists | ios/Kaiwa/Services/SonioxService.swift:162-164 | If any token carries a language, a last such token exists. |
| Soniox.NotificationsTable | ios/Kaiwa/Services/SonioxService.swift:173-185 | The four-way table over empty/non-empty trimmed texts: final before interim, each exactly when its text is non-empty, with the same language. |
| Soniox.TranscriptEventsTable | ios/Kaiwa/Services/SonioxService.swift:153-185 | The same table for a token list, and every text sent is non-empty with no whitespace at either end. |
| Soniox.ResponseEventsCases | ios/Kaiwa/Services/SonioxService.swift:136-151 | The finished marker wins over an error code; an error code yields exactly one server error; no token list yields nothing. |
| Soniox.NotificationsAreTranscript | ios/Kaiwa/Services/SonioxService.swift:173-185 | The token path only ever yields final and interim notifications. |
| Soniox.ResponseEventsNeverDisconnect | ios/Kaiwa/Services/SonioxService.swift:136-186 | No message yields a disconnection, and its only possible error is the server error carrying the raw text. |
| Soniox.LoopReportsFailureLast | ios/Kaiwa/Services/SonioxService.swift:111-134 | A receive failure is reported as one error and then one disconnection, with nothing after them, and the loop was not cancelled. |
| Soniox.CancelledLoopReportsNoFailure | ios/Kaiwa/Services/SonioxService.swift:102-134 | A loop ended by `disconnect()` never reports a disconnection or a transport error. |
| Soniox.ConnectOutcome | ios/Kaiwa/Services/SonioxService.swift:41-81 | `connect` succeeds exactly when the send worked and the first reply is undecodable or has no error code; on success the notifications are that reply's `ResponseEvents`. |
| Soniox.SonioxClient.Connect | ios/Kaiwa/Services/SonioxService.swift:21-87 | Opens a task and sends the fixed handshake (pcm_s16le, 16000 Hz, mono, endpoint detection and language identification on). A failed send is a transport error; a timeout is `ConnectionTimeout`; an error-code reply is `ServerError`. Connected exactly on success. |
| Soniox.SonioxClient.SendAudio | ios/Kaiwa/Services/SonioxService.swift:89-100 | A frame is sent only while connected with a task, and is otherwise dropped. A failed send disconnects and reports the error once. |
| Soniox.SonioxClient.Disconnect | ios/Kaiwa/Services/SonioxService.swift:102-109 | From any state: not connected, no task, and the empty end-of-audio frame sent iff there was a task. |
| Soniox.SonioxClient.ReceiveLoop | ios/Kaiwa/Services/SonioxService.swift:111-134 | While connected, the notifications are `LoopEvents(incoming)`. The client stays connected unless a cancellation (`disconnect()`) ended the loop. |
| AudioCapture.StartOutcomeCases | ios/Kaiwa/Services/AudioCaptureService.swift:13-83 | `start()` succeeds exactly when every step does. Once the tap is installed only the engine can fail; before activation only the session can; an invalid input format is reported as `invalidInputFormat` with its rate and channels. |
| AudioCapture.ResampledFrameCountZero | ios/Kaiwa/Services/AudioCaptureService.swift:53-56 | The rescaled frame count is zero exactly when the buffer holds less than one 16 kHz frame's worth of input. |
| AudioCapture.TapOutput | ios/Kaiwa/Services/AudioCaptureService.swift:50-78 | The tap emits bytes exactly when the frame count is positive, the output buffer exists, conversion succeeded and there is channel data; the bytes are two per sample and decode to the converted samples. |
| AudioCapture.AudioCaptureService.Start | ios/Kaiwa/Services/AudioCaptureService.swift:13-83 | While capturing, nothing happens. Otherwise the error is `StartOutcome(p)` and capture is on exactly on success. An old tap is removed before the new one is installed, so the bus never holds two. The tap stays installed once reached, even if the engine fails. |
| AudioCapture.AudioCaptureService.Stop | ios/Kaiwa/Services/AudioCaptureService.swift:85-96 | From any state: no tap, engine stopped, not capturing. |
| Pcm.EncodeS16LE | ios/Kaiwa/Services/AudioCaptureService.swift:71-75 | Two bytes per sample. |
| Pcm.SampleRoundTrip | ios/Kaiwa/Services/AudioCaptureService.swift:71-75 | A sample's low and high bytes decode back to the sample, negative values included. |
| Pcm.BytesRoundTrip | ios/Kaiwa/Services/AudioCaptureService.swift:71-75 | Any byte pair is the encoding of the sample it decodes to. |
| Pcm.DecodeEncode | ios/Kaiwa/Services/AudioCaptureService.swift:71-75 | Decoding an encoded frame gives the samples back. |
| Pcm.EncodeDecode | ios/Kaiwa/Services/AudioCaptureService.swift:71-75 | Encoding a decoded even-length frame gives the bytes back. |
| Session.StartErrorMessage | ios/Kaiwa/ViewModels/SessionViewModel.swift:96-102 | A message containing "SONIOX_API_KEY" becomes "Backend is missing SONIOX_API_KEY."; any other passes unchanged. |
| Session.MissingApiKeyMessageNamesKey | ios/Kaiwa/ViewModels/SessionViewModel.swift:99-100 | The replacement sentence itself names the key. |
| Session.StartErrorMessageIdempotent | ios/Kaiwa/ViewModels/SessionViewModel.swift:96-102 | The result names the key exactly when the input did, so rewriting twice equals rewriting once. |
| Session.StartListeningIff | ios/Kaiwa/ViewModels/SessionViewModel.swift:36-61 | A start ends listening iff auth, connect and audio start all succeed, and in an error otherwise; an auth failure's message is the rewritten auth error. |
| Session.FinalEntry | ios/Kaiwa/ViewModels/SessionViewModel.swift:71-92 | The entry carries the given language and time; after a successful translation it holds the result's jp and en. |
| Session.FailedEntryShowsSpokenText | ios/Kaiwa/ViewModels/SessionViewModel.swift:81-90 | After a failed translation, the transcript shows the spoken text as the original and "[error]" as the translation. The spoken text goes in jp for a "ja" language, else in en. |
| Session.EntriesOnlyGrow | ios/Kaiwa/ViewModels/SessionViewModel.swift:71-139 | Every notification keeps the earlier entries; only a final text adds one, exactly one. |
| Session.EventsNeverStartListening | ios/Kaiwa/ViewModels/SessionViewModel.swift:114-139 | No notification enters listening; any state change a notification makes is to an error. |
| Session.DisconnectOnlyWhileListening | ios/Kaiwa/ViewModels/SessionViewModel.swift:127-139 | A disconnection changes the state only from listening, to "Connection lost", and a second one changes nothing. An error shows from any state. |
| Session.InterimTouchesOnlyInterim | ios/Kaiwa/ViewModels/SessionViewModel.swift:114-119 | An interim notification sets the interim text and language and nothing else. |
| Session.SessionViewModel.StartSession | ios/Kaiwa/ViewModels/SessionViewModel.swift:32-62 | No-op while connecting or listening. Otherwise: state `StartState(...)`, interim fields cleared, entries kept, capturing iff listening, connected iff auth and connect succeeded; the client keeps a socket task iff the key was fetched; its outbox gains the reset's end-of-audio frame (when there was a task) and then the handshake (when the key was fetched and the send went through); a tap is installed iff the connection succeeded and the microphone start got as far as the tap. |
| Session.SessionViewModel.ConnectAndCapture | ios/Kaiwa/ViewModels/SessionViewModel.swift:44-61 | From a reset microphone and connection, the steps stop at the first failure with its rewritten message, else end listening; the socket task exists iff the key was fetched, the outbox gains exactly the handshake when it was sent, and a tap is installed iff the connection succeeded and the microphone start reached the tap. |
| Session.SessionViewModel.StopSession | ios/Kaiwa/ViewModels/SessionViewModel.swift:64-69 | From any state: idle, interim text cleared, entries and interim language kept, microphone stopped with no tap left, connection closed with no task, and the end-of-audio frame sent iff there was a task. |
| Session.SessionViewModel.HandleFinalUtterance | ios/Kaiwa/ViewModels/SessionViewModel.swift:71-92 | Appends exactly `FinalEntry(...)`, clears the interim text, and changes nothing else. |
| Session.SessionViewModel.OnInterim | ios/Kaiwa/ViewModels/SessionViewModel.swift:114-119 | Overwrites the interim text and language only. |
| Session.SessionViewModel.OnError | ios/Kaiwa/ViewModels/SessionViewModel.swift:127-131 | Shows the error's description from any state. |
| Session.SessionViewModel.OnDisconnect | ios/Kaiwa/ViewModels/SessionViewModel.swift:133-139 | Error "Connection lost" only from listening; otherwise no change. |
| Session.SessionViewModel.Dispatch | ios/Kaiwa/ViewModels/SessionViewModel.swift:113-140 | The screen after a notification is `AfterEvent` of the screen before, and listening still implies capturing. |
| Session.SessionViewModel.OnAudioBuffer | ios/Kaiwa/ViewModels/SessionViewModel.swift:105-111 | A microphone buffer is sent exactly when the client is connected; a failed send is reported and leaves the client disconnected; the socket task is kept either way. |
| Storage.Insert | ios/Kaiwa/Services/SessionStorageService.swift:21-24 | Insertion adds exactly the one element: the multiset grows by `x`. |
| Storage.InsertSorted | ios/Kaiwa/Services/SessionStorageService.swift:21-24 | Inserting into a newest-first list keeps it newest first. |
| Storage.SortDescending | ios/Kaiwa/Services/SessionStorageService.swift:21-24 | The sort is a permutation of the input with keys non-increasing. |
| Storage.SortKeepsSorted | ios/Kaiwa/Services/SessionStorageService.swift:21-24 | A list already newest first comes back unchanged. |
| Storage.DecodedHistory | ios/Kaiwa/Services/SessionStorageService.swift:40-46 | A missing or undecodable value loads as the empty list. |
| Storage.DecodedGlossary | ios/Kaiwa/Services/SessionStorageService.swift:40-46 | The same for the glossary. |
| Storage.HistoryPrefix | ios/Kaiwa/Services/SessionStorageService.swift:26-29 | The kept history is the first min(n, max) entries in input order. |
| Storage.Saved | ios/Kaiwa/Services/SessionStorageService.swift:48-51 | A save writes its key only; a failed encoding leaves the store unchanged. |
| Storage.HistoryRoundTrip | ios/Kaiwa/Services/SessionStorageService.swift:21-29 | Save then load returns a newest-first permutation of the kept prefix, at most max long, and a short newest-first list comes back as it was. |
| Storage.SingleEntryRoundTrip | ios/KaiwaTests/SessionStorageServiceTests.swift:23-29 | With a limit of at least one, a saved single entry loads back as exactly that entry. |
| Storage.GlossaryRoundTrip | ios/Kaiwa/Services/SessionStorageService.swift:31-38 | Every saved item loads back newest first; a sorted or single-item glossary comes back as it was. |
| Storage.SavesAreIndependent | ios/Kaiwa/Services/SessionStorageService.swift:26-38 | Under distinct keys, saving one list leaves what the other loads unchanged. |
| Storage.SharedKeyOverwrites | ios/Kaiwa/Services/SessionStorageService.swift:26-46 | When both lists share a key, a glossary saved there makes history load empty. |
| Storage.SessionStorage.constructor | ios/Kaiwa/Services/SessionStorageService.swift:9-19 | The service keeps the given store, keys and limit. |
| Storage.SessionStorage.Standard | ios/Kaiwa/Services/SessionStorageService.swift:9-19 | The default keys "kaiwa.history.entries" and "kaiwa.history.glossary", with a limit of 500. |
| Storage.SessionStorage.LoadHistory | ios/Kaiwa/Services/SessionStorageService.swift:21-24 | A permutation of the stored history, timestamps non-increasing. |
| Storage.SessionStorage.LoadGlossary | ios/Kaiwa/Services/SessionStorageService.swift:31-34 | A permutation of the stored glossary, `updatedAt` non-increasing. |
| Storage.SessionStorage.SaveHistory | ios/Kaiwa/Services/SessionStorageService.swift:26-29 | Writes the kept prefix under the history key, or nothing if encoding fails. |
| Storage.SessionStorage.SaveGlossary | ios/Kaiwa/Services/SessionStorageService.swift:36-38 | Writes all items under the glossary key, or nothing if encoding fails. |
| Users.BuildDisplayName | convex/users.ts:4-7 | No name exactly when "first last" is all whitespace; otherwise the trimmed "first last", which is non-empty, has no whitespace at either end and is contained in "first last". |
| Users.DisplayNameIsWholeName | convex/users.ts:4-7 | Any non-empty run of "first last" that starts and ends outside the whitespace set, with only whitespace around it, is the display name; no shorter part of the name qualifies. |
| Users.DisplayNameOfBothParts | convex/users.ts:4-7 | With both parts present and no outer whitespace, the display name is "first last" with the space kept. |
| Users.DisplayNameOfFirstNameOnly | convex/users.ts:4-7 | A first name with no whitespace at either end, given alone, is the display name unchanged. |
| Users.NewUser | convex/users.ts:24-34 | A new user has the given id, is not approved, and has all three times at now. |
| Users.Refreshed | convex/users.ts:38-44 | The patch replaces email, name and picture by the identity's and sets both times; id, creation time and approval flags stay. |
| Users.Merged | convex/users.ts:182-188 | A webhook patch replaces the email, picture and name with those it carries (the name when a display name results) and keeps each one it does not; it sets both times; id, creation time and flags stay. |
| Users.Find | convex/users.ts:18-21 | The index finds a position holding the id, or reports that none does. |
| Users.InsertKeepsUnique | convex/users.ts:23-34 | Inserting an unknown id keeps ids unique. |
| Users.PatchKeepsUnique | convex/users.ts:38-44 | Patching a user in place keeps ids unique. |
| Users.FindUnique | convex/users.ts:18-21 | Under unique ids the index finds exactly the user's position. |
| Users.CountRecentAppend | convex/users.ts:127-146 | Logging a call adds one to its own caller/endpoint window and leaves every other count alone. |
| Users.CountRecentBound | convex/users.ts:127-134 | The window count never exceeds the log's length. |
| Users.GrantedCallStaysWithinLimit | convex/users.ts:136-146 | A granted call never leaves more than `maxRequests` calls in its window. |
| Users.Backend.GetMe | convex/users.ts:52-65 | Nothing without an identity; otherwise the caller's record exactly when one exists. |
| Users.Backend.EnsureUser | convex/users.ts:9-50 | Unauthenticated: refused, tables unchanged. A new caller is inserted, not approved. A known caller is refreshed in place and told its approval. Ids stay unique. |
| Users.Backend.AssertApiAccess | convex/users.ts:67-110 | Succeeds only for a known approved caller, refreshing its profile. Every refusal (no identity, new caller, unapproved) leaves the tables unchanged. |
| Users.Backend.AssertAndLogUsage | convex/users.ts:112-148 | Refuses with the endpoint's rate-limit message once the window holds `maxRequests` calls; otherwise appends one log entry at now, and the window then holds at most `maxRequests`. |
| Users.Backend.UpsertFromClerkWebhook | convex/users.ts:150-190 | Inserts an unknown user awaiting approval, or merges the payload into the known one; ids stay unique. |
| Webhook.SessionUpsert | convex/http.ts:69-75 | A session event's upsert names only the user id. |
| Webhook.HandleWebhook | convex/http.ts:28-78 | Every response that ran a mutation is 200 "ok". |
| Webhook.MissingSecretFirst | convex/http.ts:29-34 | Without a signing secret the answer is 500, whatever else the request holds. |
| Webhook.MissingHeadersRejected | convex/http.ts:36-42 | A missing or empty Svix header gives 400 before verification. |
| Webhook.InvalidSignatureRejected | convex/http.ts:47-55 | A failed verification gives 400 "Invalid signature" and no mutation. |
| Webhook.UpsertExactlyForKnownEvents | convex/http.ts:57-77 | A mutation runs iff all checks pass and the event is user.created, user.updated or session.created. User events carry the payload's user; other verified events give 200 "ignored". |
| Webhook.SessionEventOnlyTouchesTimes | convex/http.ts:69-75 | A session event for a known user changes only its two times. |
| Transcript.LanguageBadge | ios/Kaiwa/Views/TranscriptView.swift:196-204 | "JP" for a "ja" prefix (checked first), "EN" for "en", "UNK" for empty, and any other code uppercased; no badge contains a lowercase ASCII letter. |
| Transcript.BadgeJapanese | ios/Kaiwa/Views/TranscriptView.swift:196-204 | The badge is "JP" iff the language starts with "ja" or is a two-letter code uppercasing to "JP". |
| Transcript.EntrySides | ios/Kaiwa/Views/TranscriptView.swift:108-111 | A "ja" entry shows jp then en; any other shows en then jp. |
| Transcript.BadgeAgreesWithOriginal | ios/Kaiwa/Views/TranscriptView.swift:108-119 | An "EN"-badged entry shows English first; a "ja" entry is badged "JP" and shows Japanese first. |
| Transcript.SidesArePermutation | ios/Kaiwa/Views/TranscriptView.swift:108-111 | The two sides are the entry's two texts, neither lost nor duplicated. |
| Transcript.IndicatorExcludesContent | ios/Kaiwa/Views/TranscriptView.swift:29-31 | The listening indicator and the interim row never show together, and the indicator goes once there is an entry. |
| HistoryGlossary.FilteredHistory | ios/Kaiwa/Views/HistoryGlossaryView.swift:12-19 | A blank query shows the whole history; the result is never longer than the history. |
| HistoryGlossary.FilterLength | ios/Kaiwa/Views/HistoryGlossaryView.swift:15-18 | Filtering never lengthens the list. |
| HistoryGlossary.FilterIsSubsequence | ios/Kaiwa/Views/HistoryGlossaryView.swift:15-18 | The matches appear in history order, and nothing is added. |
| HistoryGlossary.FilterMembership | ios/Kaiwa/Views/HistoryGlossaryView.swift:15-18 | An entry is shown iff it is in the history and either text contains the query, ignoring case. |
| HistoryGlossary.FilterMultiplicity | ios/Kaiwa/Views/HistoryGlossaryView.swift:15-18 | A matching entry is shown as many times as it occurs in the history, a non-matching one never. |
| HistoryGlossary.FilterIgnoresQueryCase | ios/Kaiwa/Views/HistoryGlossaryView.swift:16-17 | The query in capitals finds exactly the same entries, in the same order. |
| HistoryGlossary.FilteredHistoryShowsMatches | ios/Kaiwa/Views/HistoryGlossaryView.swift:12-19 | For a non-blank query, the shown entries are the in-order matches of the trimmed query. |
| HistoryGlossary.AddEnabledIff | ios/Kaiwa/Views/HistoryGlossaryView.swift:106-107 | The add button is enabled iff neither field is all whitespace. |
| HistoryGlossary.HistoryGlossaryForm.AddTapped | ios/Kaiwa/Views/HistoryGlossaryView.swift:99-103 | Hands on the fields as typed, clears both, and leaves the search alone. |
| AuthDiagnostics.ResolveCodeLabel | ios/Kaiwa/Views/AuthSheet.swift:70-116 | An authorization error's label is "ASAuthorizationError.<case>". A web-authentication-domain error's label is "ASWebAuthenticationSessionError.<case>". Any other error has none. |
| AuthDiagnostics.CaseNamesDistinct | ios/Kaiwa/Views/AuthSheet.swift:72-96 | Distinct known authorization codes have distinct case names. |
| AuthDiagnostics.AuthorizationLabelsDistinct | ios/Kaiwa/Views/AuthSheet.swift:72-96 | Distinct known authorization codes get distinct labels. |
| AuthDiagnostics.SnapshotOf | ios/Kaiwa/Views/AuthSheet.swift:58-68 | The domain and code are the error's (an authorization error's code given); the message is the error's own description if it has one, else the localized one; the label is the resolved one; failure reason and recovery suggestion are copied. |
| AuthDiagnostics.AlertLines | ios/Kaiwa/Views/AuthSheet.swift:44-56 | The header, then the message, then the failure reason only when non-empty. |
| AuthDiagnostics.AlertShowsCaughtError | ios/Kaiwa/Views/AuthSheet.swift:44-66 | The alert for a caught error names its domain in the header, shows its message, and shows its failure reason exactly when that is non-empty. |
| AuthDiagnostics.AlertMessage | ios/Kaiwa/Views/AuthSheet.swift:44-56 | The lines built one by one, joined with line breaks. |
| AuthDiagnostics.AlertIgnoresRecoverySuggestion | ios/Kaiwa/Views/AuthSheet.swift:44-56 | The recovery suggestion never affects the alert. |
| AuthDiagnostics.AlertText | ios/Kaiwa/Views/AuthSheet.swift:44-56 | The alert is header, newline, message, then newline and reason when there is one. |
| AuthDiagnostics.Mask | ios/Kaiwa/Views/AuthSheet.swift:254-257 | Up to 14 characters unchanged; longer values become the first 10, "...", and the last 4 (17 characters). |
| AuthDiagnostics.MaskIdempotent | ios/Kaiwa/Views/AuthSheet.swift:254-257 | Masking a masked value changes nothing. |
| AuthDiagnostics.UrlSchemeOfPrefix | ios/Kaiwa/Views/AuthSheet.swift:220-226 | A colon-free text followed by a colon is the URL's scheme. |
| AuthDiagnostics.ExpectedRedirectURL | ios/Kaiwa/Views/AuthSheet.swift:220-226 | When the bundle identifier has no colon, the redirect URL's scheme is the "Expected callback scheme" row's value and the remainder is "//callback"; with no bundle identifier the scheme is "n/a". |
| AuthDiagnostics.ApplicationIdentifier | ios/Kaiwa/Views/AuthSheet.swift:228-233 | "n/a" iff the team or the bundle is "n/a"; otherwise exactly the team, a dot and the bundle. |
| AuthDiagnostics.NonEmptyOnly | ios/Kaiwa/Views/AuthSheet.swift:217 | Keeps exactly the non-empty strings: every string kept is non-empty, and a string is kept iff it is present and non-empty. |
| AuthDiagnostics.NonEmptyOnlyMultiset | ios/Kaiwa/Views/AuthSheet.swift:217 | Each non-empty string is kept as often as it occurs (the multiset less the empty string). |
| AuthDiagnostics.NonEmptyOnlyAppend | ios/Kaiwa/Views/AuthSheet.swift:217 | Filtering distributes over concatenation, so the kept strings stay in input order. |
| AuthDiagnostics.SchemesOfIsFilteredFlatMap | ios/Kaiwa/Views/AuthSheet.swift:215-217 | The listed schemes are the URL types' schemes flattened in order, then filtered of empty strings. |
| AuthDiagnostics.SchemesOfMembership | ios/Kaiwa/Views/AuthSheet.swift:215-217 | A scheme is listed iff it is non-empty and some URL type declares it. |
| AuthDiagnostics.ConfiguredURLSchemes | ios/Kaiwa/Views/AuthSheet.swift:210-218 | No URL types gives no schemes; otherwise the flattened non-empty schemes. |
| AuthDiagnostics.DiagnosticValue | ios/Kaiwa/Views/AuthSheet.swift:185 | An empty value shows as "n/a" and any other value as it is, so no row is blank. |
| Text.Trim | ios/Kaiwa/Services/SonioxService.swift:173-182 | The trimmed text is no longer than the input and, when non-empty, has no whitespace at either end. |
| Text.TrimEmptyIffAllWhitespace | convex/users.ts:5-6 | Trimming gives the empty string iff the text is all whitespace. |
| Text.TrimIsInfix | convex/users.ts:5 | The trimmed text is a contiguous run of the input, and everything removed before and after it is whitespace. |
| Text.TrimUnique | convex/users.ts:5 | Any run of the input that is empty or has no whitespace at either end, with only whitespace around it, is the trimmed text. |
| Text.TrimIdempotent | ios/Kaiwa/Views/HistoryGlossaryView.swift:13 | Trimming twice equals trimming once. |
| Text.Uppercased | ios/Kaiwa/Views/TranscriptView.swift:203 | No lowercase ASCII letter is left, and the result equals the input up to letter case (both lowercase to the same text). |
| Text.Lowercased | ios/Kaiwa/Views/HistoryGlossaryView.swift:16-17 | No uppercase ASCII letter is left, and every scalar that is not an ASCII letter is kept. |
| Text.LowercasedIdempotent | ios/Kaiwa/Views/HistoryGlossaryView.swift:16-17 | Lowercasing twice equals lowercasing once. |
| Text.ContainsIgnoringQueryCase | ios/Kaiwa/Views/HistoryGlossaryView.swift:16-17 | A case-insensitive search gives the same answer for the query uppercased or lowercased. |
| Text.ContainsIgnoringTextCase | ios/Kaiwa/Views/HistoryGlossaryView.swift:16-17 | Likewise for the text searched. |
| Text.NatToString | ios/Kaiwa/Views/AuthSheet.swift:47 | Decimal rendering: digits only, with no leading zero, denoting the number itself. |

## Left out

- Sockets, URLSession tasks and the ten-second race between the first receive and the timer: the outcome of each is a parameter (`Reply`, `Incoming`, send errors).
- `invalidURL`: the socket URL is a constant well-formed URL, so the error cannot arise.
- The "WebSocket task deallocated" guard (SonioxService.swift:46-48): the task was set just before and nothing can clear it in between without concurrency.
- Concurrency: main-actor tasks, the receive loop running beside `disconnect()`, and the order in which delegate callbacks interleave with `startSession`. Every operation runs to completion in the order of the calls. The notifications parsed during `connect` are returned for the caller to dispatch.
- JSON encoding and decoding (the handshake, server messages, stored lists): a message is its raw text plus the decoded token list; a stored list decodes to itself.
- `ConversationEntry` is not `Codable` in the source, and the tests build entries with `isTranslating` and `confidence` fields it does not have. The storage model assumes that an entry's four fields round-trip. Its `id` is not modelled.
- Storage.SortDescending: is a stable insertion sort, so entries with equal timestamps keep their stored order; `SortKeepsSorted`, `HistoryRoundTrip` and `GlossaryRoundTrip` rely on that for lists with ties. Swift's `sort(by:)` is not documented as stable, so for tied timestamps the app's order may differ from the model's.
- Storage.SessionStorage.constructor: `maxHistoryEntries` is a `nat`; the Swift initialiser takes an `Int`, and a negative limit would trap in `prefix`. The app only ever passes the default 500.
- AudioCapture.ResampledFrameCount: does not model the floating-point frame count. Sample rates are whole hertz, and the count is integer division truncated towards zero.
- AVAudioConverter's resampling: the converted samples are a parameter of the tap.
- `setPreferredInputNumberOfChannels` (its failure is ignored) and `setActive(false)` in `stop()`: they change nothing the model tracks.
- The Foundation/JavaScript whitespace sets are written out by code point. Case-insensitive search folds ASCII letters only, not the platform's localized comparison. Uppercasing of badges is ASCII only.
- AuthDiagnostics.Mask: counts Unicode scalars, where Swift counts grapheme clusters.
- The version and build rows show the Info.plist string or "n/a", as `OrNotAvailable` states. The entitlement and associated-domain rows read string arrays that default to `[]` and are joined with ", "; an empty join shows "n/a" through `DiagnosticValue`. Those two lookups and the join are not modelled separately.
- The raw codes of `ASAuthorizationError` are not modelled: the snapshot takes the authorization error's code as a parameter.
- AuthDiagnostics.ResolveCodeLabel: an `OtherError` whose domain is `ASAuthorizationErrorDomain` gets no label, whereas Swift's `as? ASAuthorizationError` would bridge such an `NSError` and label it. Errors in that domain are meant to be written as `AuthorizationError`.
- Svix signature verification: the request carries its outcome (the verified event or a refusal).
- Users.Backend.AssertAndLogUsage: `windowMs` and `maxRequests` are integers, whereas `v.number()` (convex/users.ts:115-116) also accepts fractional JavaScript numbers; the comparison with a fractional limit is not modelled.
- Convex transactions are assumed: a mutation that throws leaves both tables unchanged.
- `HistoryGlossaryView` reads `viewModel.historyEntries` and calls `addGlossaryItem`, neither of which `SessionViewModel` declares. The history is a parameter of `FilteredHistory`, and the add button's request is returned.
- `TranscriptView`'s `interimConfidence` row, scrolling, copying and sharing are presentation only.
- `LanguageSide` and the `reconnecting` state that other views mention are not part of this model.
- `ConvexService`, `ConfigService`, `translate.ts` and `session.ts`: `ConvexService` is not part of this model; its results are the `auth` and `translation` parameters.
