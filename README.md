# Murphy's Kitchen front end: a Dafny model of its stateful logic

Murphy's Kitchen is a browser front end for an AI kitchen assistant. It joins a remote
video call, shows a chat panel that talks to a chat-completion endpoint, and displays a
speaking indicator driven by the loudness of the remote audio. This project models the
parts of it that hold logic rather than layout:

- the **chat log store** (`Chat`): an append-only message sequence with append and clear
  actions, plus the loading flag;
- the **send flow** of the chat panel (`ChatInterface`): the input guard, the user turn, one
  assistant turn (the reply, or a fixed apology on failure), the loading flag, and the
  Enter-key binding;
- the **request builders** (`ChatGpt`, `CreateConversation`): the prompt list, the
  reply/fallback selection, the conversation payload (context, greeting, persona) and the
  HTTP error text;
- the **loudness loop** (`AudioProcessor`): the per-frame sum of squares over the analyser's
  128 byte-valued frequency bins (section 1.8 of the W3C Web Audio API, where
  `frequencyBinCount` is `fftSize / 2`), and the order of its callbacks;
- the **speaking indicator** (`VoiceVisualizer`): a memoryless threshold on the latest volume
  and a five-bar level meter;
- the **session stores** (`Auth`, `Tokens`, `Theme`): mock login/logout, the API token
  (environment first, then storage) and the light/dark theme;
- the **screen routing** (`App`): the authentication gate, the screen-name switch and when
  the header and footer show.

Browser services are explicit. `localStorage` is a shared `Browser.Storage` object holding a
string-to-string map. The document's class list is a `Browser.DocumentElement`. Clock
readings, the system colour-scheme preference, the build-time token, and the answers of
remote endpoints are all parameters. `Text` gives the string operations the code relies on:
`trim` with ECMAScript's whitespace set, `split('@')[0]` and the decimal rendering of a
number.

Parts that change state in place are classes whose methods state the whole new state:
`Chat.ChatStore`, `ChatInterface.ChatPanel`, `AudioProcessor.AudioMonitor`,
`Auth.AuthStore`, `Tokens.TokenStore` and `Theme.ThemeStore`. Pure selection and
construction are functions with lemmas. The two asynchronous handlers (sending a chat
message and logging in) are each split at their one `await`. The state in between is then
visible: loading is true while the request is outstanding.

Three behaviours of the code are worth stating plainly:

- Speech detection is only the instantaneous test `vol > 0.01` at
  src/components/VoiceVisualizer.tsx:10. There is no hysteresis, no utterance recorder and no
  transcription. `VoiceVisualizer.NoHysteresis` proves that no earlier sample affects it.
- Message ids come from `Date.now()`, so two appends in the same millisecond get the same id
  (`Chat.SameClockSameId`). Different readings do give different ids
  (`Chat.DistinctClocksDistinctIds`).
- The audio cleanup closes the context but never cancels the frame loop, and the analyser
  reference stays set. `AudioMonitor.ProcessAudio` therefore still runs after `Cleanup`.

## Model

| member | source | states |
|---|---|---|
| `Chat.NewMessage` | src/store/chat.ts:10-16 | the appended record carries the caller's role and content unchanged; its timestamp is the clock reading; its id is the decimal rendering of the other clock reading |
| `Chat.ChatStore.constructor` | src/store/chat.ts:4-5 | the log starts empty and the loading flag starts false |
| `Chat.ChatStore.AddMessage` | src/store/chat.ts:8-19 | the new log is the old log plus exactly one message at the end, so the old log is a prefix of the new one; the loading flag is unchanged |
| `Chat.ChatStore.ClearMessages` | src/store/chat.ts:22-24 | the log is empty whatever it held, so clearing twice is the same as clearing once; the loading flag is unchanged |
| `Chat.ChatStore.SetLoading` | src/store/chat.ts:5 | the loading flag takes the given value and the log is unchanged |
| `Chat.SameClockSameId` | src/store/chat.ts:14 | two appends with the same clock reading get equal ids, so ids are not unique |
| `Chat.DistinctClocksDistinctIds` | src/store/chat.ts:14 | appends with different clock readings get different ids |
| `Chat.AppendInCallOrder` | src/store/chat.ts:11-17 | appends A, B, C leave the old log as a prefix, followed by A, B, C in call order |
| `ChatGpt.Project` | src/api/chatGPT.ts:18-21 | history entries are forwarded one for one and in order, with role and content only |
| `ChatGpt.ProjectIgnoresIdAndTimestamp` | src/api/chatGPT.ts:18-21 | histories that differ only in ids and timestamps give the same forwarded list |
| `ChatGpt.FormatMessages` | src/api/chatGPT.ts:13-26 | the prompt list is the system message, then the forwarded history, then the user message; its length is the history length plus 2 |
| `ChatGpt.BuildRequest` | src/api/chatGPT.ts:34-39 | the request always uses model "gpt-4o" and max_tokens 500; its first message is the system prompt, entry i+1 is history entry i (role and content), and the last entry is the user text |
| `ChatGpt.ReplyText` | src/api/chatGPT.ts:47 | the reply is the first choice's content when it is present and non-empty, else "Sorry, I could not process your message."; it is never empty |
| `ChatGpt.SendChatMessage` | src/api/chatGPT.ts:41-52 | once the request has been answered: success iff the fetch resolved with an OK status and a body with `choices`; every failure is the single error "Failed to send message to PICA GPT-4o"; a successful text is non-empty and is exactly the reply selection of the body's choices: the first choice's content when present and non-empty, else the fallback |
| `ChatInterface.Accepts` | src/components/ChatInterface.tsx:38 | a send is accepted iff the input has a character outside ECMAScript whitespace and nothing is loading |
| `ChatInterface.TriggersSend` | src/components/ChatInterface.tsx:72 | a send is triggered iff the key is Enter and Shift is not held |
| `ChatInterface.AssistantText` | src/components/ChatInterface.tsx:53-65 | the assistant turn holds the reply on success and the fixed apology on failure |
| `ChatInterface.ChatPanel.constructor` | src/components/ChatInterface.tsx:25 | the input starts empty |
| `ChatInterface.ChatPanel.BeginSend` | src/components/ChatInterface.tsx:37-53 | a send is accepted iff the trimmed input is non-empty and nothing is loading; a rejected send changes nothing; an accepted one clears the input, appends a user turn with the trimmed text, raises the loading flag, and posts the request built from the log as it was before the user turn and the trimmed text |
| `ChatInterface.ChatPanel.FinishSend` | src/components/ChatInterface.tsx:53-68 | exactly one assistant turn is appended (the reply, or the apology on failure), and the loading flag ends false on both paths |
| `ChatInterface.ChatPanel.HandleSendMessage` | src/components/ChatInterface.tsx:37-69 | a rejected send changes nothing; an accepted one grows the log by exactly two (user turn, then assistant turn, with their contents) and leaves the input empty and loading false |
| `ChatInterface.ChatPanel.HandleKeyPress` | src/components/ChatInterface.tsx:71-76 | the default is prevented and a send runs iff the key is Enter without Shift; any other key changes nothing; under Enter the outcome is that of the whole send: a rejected send (blank input or loading) changes nothing, an accepted one clears the input, appends the trimmed user turn then the assistant turn, and ends not loading |
| `ChatInterface.SendWhileLoading` | src/components/ChatInterface.tsx:38-49 | while a send is outstanding, a second send is rejected whatever has been typed; the log is the old log plus exactly the first send's trimmed user turn |
| `CreateConversation.BuildContextString` | src/api/createConversation.ts:16-21 | with a non-empty name: "You are talking with the user, <name>. Additional context: " followed by the context or ""; otherwise only the context or "" |
| `CreateConversation.BuildGreeting` | src/api/createConversation.ts:23-29 | the greeting is personalised with the name iff the name is non-empty after trimming, and is otherwise the generic greeting |
| `CreateConversation.PersonalGreetingIsNotGeneric` | src/api/createConversation.ts:26-28 | no name makes the personalised greeting equal the generic one |
| `CreateConversation.HttpErrorMessage` | src/api/createConversation.ts:48-58 | "HTTP error! status: <status>", with " - <body>" appended only when the body was read and is non-empty |
| `CreateConversation.CreateConversation` | src/api/createConversation.ts:5-63 | the request carries the token, the persona (or "pcd2c84e5c66" when it is absent or empty), the context string, and a greeting that is the personal greeting with the name when the name is non-empty after trimming and the generic one otherwise; a network failure propagates; a non-OK status rejects with the HTTP error text; an OK status resolves |
| `CreateConversation.WhitespaceNameRequest` | src/api/createConversation.ts:18-29 | every non-empty whitespace-only name gets the context sentence naming it, but the generic greeting |
| `AudioProcessor.SquareSumBound` | src/components/AudioProcessor.tsx:44-48 | with every bin in 0..255, the sum of squares is at most n·255², so the mean square is at most 255² and the volume at most 1 |
| `AudioProcessor.SquareSumZeroIff` | src/components/AudioProcessor.tsx:44-48 | the sum of squares is zero iff every bin is zero, so silence, and only silence, gives volume 0 |
| `AudioProcessor.SumOfSquares` | src/components/AudioProcessor.tsx:44-47 | the loop adds the square of every bin exactly once, in index order, and the result respects the n·255² bound |
| `AudioProcessor.AudioMonitor.constructor` | src/components/AudioProcessor.tsx:15-16 | before the effect runs there is no context, no analyser and no callback |
| `AudioProcessor.AudioMonitor.Attach` | src/components/AudioProcessor.tsx:18-57 | without a persistent track, nothing is created, fftSize is kept and no callback fires; with one, a context is opened, fftSize is 256, both buffers get exactly 128 entries, and the first frame runs, leaving the readings in both buffers and recording its two callbacks |
| `AudioProcessor.AudioMonitor.ProcessAudio` | src/components/AudioProcessor.tsx:36-55 | without an analyser a frame does nothing; otherwise both buffers hold the frame's readings, and onAudioData is called before onVolumeChange, which gets the frame's sum of squares over its bins |
| `AudioProcessor.AudioMonitor.Cleanup` | src/components/AudioProcessor.tsx:59-61 | an opened context is closed; the analyser stays set |
| `VoiceVisualizer.HandleVolumeChange` | src/components/VoiceVisualizer.tsx:8-11 | the stored volume is the sample, and the speaking flag is true iff the sample exceeds 0.01 |
| `VoiceVisualizer.NoHysteresis` | src/components/VoiceVisualizer.tsx:8-11 | after any history, the flag is the threshold test of the latest sample; two histories ending in the same sample give the same state |
| `VoiceVisualizer.Bars` | src/components/VoiceVisualizer.tsx:29-35 | there are five bars, and bar i is tall iff volume·5 > i |
| `VoiceVisualizer.TallBarsFormPrefix` | src/components/VoiceVisualizer.tsx:33 | if bar i is tall, every bar to its left is tall |
| `VoiceVisualizer.TallBarsMonotone` | src/components/VoiceVisualizer.tsx:33 | a louder sample never shows fewer tall bars |
| `VoiceVisualizer.MeterExtremes` | src/components/VoiceVisualizer.tsx:29-35 | volume 0 (or below) shows no tall bar, and volume above 0.8 shows all five |
| `Auth.InitialAuthState` | src/store/auth.ts:15-22 | authenticated iff a non-empty user entry is stored; the user is then whatever the entry parses to, null included (a stored "null" is authenticated with no user), and null otherwise; not loading |
| `Auth.MockUser` | src/store/auth.ts:35-39 | the user has id "1", the given email, and as name the text before the first "@" (the whole email when there is none) |
| `Auth.AuthStore.constructor` | src/store/auth.ts:24 | the initial state is read from the stored "user" entry |
| `Auth.AuthStore.BeginLogin` | src/store/auth.ts:28 | the first step of login sets loading true and changes nothing else |
| `Auth.AuthStore.FinishLogin` | src/store/auth.ts:30-52 | the mock user is stored under "user", and the state becomes authenticated with that user and not loading, whatever the password; if the storage write throws, storage is untouched, loading drops and the result is "Invalid credentials" |
| `Auth.AuthStore.Login` | src/store/auth.ts:27-53 | for any password, a login succeeds iff the storage write goes through; then the user record is stored and the state is authenticated and not loading; otherwise storage is untouched, the result is "Invalid credentials" and only the loading flag changes, to false |
| `Auth.AuthStore.Logout` | src/store/auth.ts:56-63 | the stored user is removed, and the state is unauthenticated, user null, not loading |
| `Auth.LoginSurvivesReload` | src/store/auth.ts:15-22 | if the serialiser round-trips, the entry that login stores gives back the same authenticated state on reload |
| `Auth.LoginThenLogout` | src/store/auth.ts:27-63 | login (with or without a successful write) followed by logout leaves no stored user and an unauthenticated state, and a reload agrees |
| `Tokens.InitialToken` | src/store/tokens.ts:4-14 | the environment token if it is non-empty and not "your_tavus_api_key_here"; otherwise the stored token if non-empty; otherwise null; never the empty string |
| `Tokens.HasToken` | src/store/tokens.ts:23 | a token is held exactly when the atom is not null, even when it holds the empty string |
| `Tokens.HasTokenAtStartup` | src/store/tokens.ts:4-23 | at start-up a token is held iff the environment has a usable token or a non-empty token is stored, and the held token is never empty |
| `Tokens.TokenStore.constructor` | src/store/tokens.ts:17-20 | the token is the initial token, and the validating flag starts false |
| `Tokens.TokenStore.SetApiToken` | src/store/tokens.ts:26-29 | the same value is written to storage and to the atom, so they agree and hasToken holds |
| `Tokens.TokenStore.ClearApiToken` | src/store/tokens.ts:32-35 | the stored token is removed and the atom set to null, so hasToken is false |
| `Tokens.ReloadAfterSet` | src/store/tokens.ts:12-13 | without a usable environment token, a reload restores a stored token, except that an empty one reads back as none |
| `Tokens.EnvironmentTakesPrecedence` | src/store/tokens.ts:6-9 | a usable environment token wins whatever is stored |
| `Theme.InitialTheme` | src/store/theme.ts:5-11 | a non-empty stored value is used as it is; otherwise the theme is "dark" iff the system prefers dark, else "light" |
| `Theme.NextTheme` | src/store/theme.ts:18 | a toggle maps "light" to "dark" and every other value to "light" |
| `Theme.ToggleTwice` | src/store/theme.ts:17-18 | toggling twice restores the value iff it was "light" or "dark" |
| `Theme.ThemeStore.constructor` | src/store/theme.ts:13 | the theme starts at the initial theme |
| `Theme.ThemeStore.ToggleTheme` | src/store/theme.ts:16-24 | the new theme is persisted and becomes the atom's value; the document has the dark class iff the new theme is "dark"; other classes are untouched |
| `App.RenderScreen` | src/App.tsx:33-50 | each of the six known screen names renders its screen, and any other name renders IntroLoading |
| `App.RenderApp` | src/App.tsx:28-60 | when unauthenticated, only Login is rendered; otherwise the selected screen, with header and footer iff the name is not "introLoading" |
| `App.UnknownScreenKeepsChrome` | src/App.tsx:47-58 | an unknown name renders IntroLoading but still shows header and footer; the name "introLoading" hides them |
| `App.ApplyTheme` | src/App.tsx:24-26 | the document has the dark class iff the theme is "dark"; other classes are untouched |
| `Text.Trim` | src/components/ChatInterface.tsx:38-40 | `trim` returns a contiguous slice of the input whose first and last characters are not ECMAScript whitespace and where everything before and after it is whitespace; it is empty iff the input is all whitespace |
| `Text.BeforeFirst` | src/store/auth.ts:38 | `split('@')[0]` is the longest prefix without "@": either the whole string, or followed in it by "@" |
| `Text.DecimalString` | src/store/chat.ts:14 | the rendering is a non-empty string of decimal digits, without a leading zero, and exactly "0" for 0, whose numeric value is the number |
| `Text.DecimalStringInjective` | src/store/chat.ts:14 | distinct clock readings have distinct decimal renderings |

## Left out

- All network I/O: the `fetch` calls, their headers (including the secret key) and JSON
  parsing. Each endpoint's answer is a parameter (`CompletionReply`, `FetchOutcome`). The
  JSON body of a successful `createConversation` is not modelled: success resolves with `()`.
- src/api/elevenlabs.ts: nothing shown calls it, and its only logic collapses failures to "".
- Floating point: `Math.sqrt(sum / n) / 255`, `getFloatFrequencyData`, and the request's
  temperature 0.7. The float readings are carried through unchanged as `real` values.
- AudioProcessor.AudioMonitor.ProcessAudio: the volume handed to `onVolumeChange` is
  represented by its exact inputs, the integer sum of squares and the bin count, not as the
  rounded `sqrt` value. Its bounds are stated on those inputs in `SquareSumBound` and
  `SquareSumZeroIff`.
- The `onAudioData` and `onVolumeChange` props are optional (src/components/AudioProcessor.tsx:5-6,
  51-52); the model treats both as always present, so every frame records both calls.
- AudioProcessor.AudioMonitor.ProcessAudio: `onAudioData` receives the live `floatArray`, which
  the next frame overwrites (src/components/AudioProcessor.tsx:51); the model records a copy of
  its contents at the time of the call.
- Tokens.TokenStore.SetApiToken: `localStorage.setItem` can throw (src/store/tokens.ts:27),
  leaving the atom unchanged and propagating the error; the model's write always succeeds.
- Theme.ThemeStore.ToggleTheme: `localStorage.setItem` can throw (src/store/theme.ts:19),
  leaving the atom and the document class unchanged and propagating the error; the model's
  write always succeeds.
- Console logging (src/api/chatGPT.ts:49, src/api/createConversation.ts:12-14 and 37,
  src/components/ChatInterface.tsx:61) and `handleAudioData` in
  src/components/VoiceVisualizer.tsx:16, which only logs: nothing else depends on them.
- The `requestAnimationFrame` scheduling: each frame is one call of `ProcessAudio`. The
  `AudioContext` is reduced to open or closed. The media-stream wiring is not modelled.
- `Date.now()` and `new Date()`: these are parameters, one reading for the id and one for
  the timestamp. `localStorage` is a map. `JSON.stringify`/`JSON.parse` of the user record
  are function parameters (a `parse` result of None is an entry that parses to null); a saved
  user entry that makes `JSON.parse` throw is not modelled.
- Asynchronous interleavings other than the split at each `await`. React's render closure
  is not modelled: the handler reads the log and flags as they are at call time, which equals
  the render snapshot when no other update happens in between. The simulated one-second
  login delay is not modelled.
- Pure rendering: src/screens/Login.tsx, src/components/Header.tsx, Footer.tsx,
  ThemeToggle.tsx, AudioButton.tsx, src/screens/Settings.tsx and tailwind.config.ts.
- Remote video-session handling, device selection and the auto-start timers in
  src/screens/Intro.tsx and src/screens/Conversation.tsx. This includes `leaveConversation`,
  both of whose branches go to the same screen.
- The settings store that `createConversation` reads is not part of this model. Its fields
  are the `Settings` parameter.
