# Story Friend session controller, in Dafny

Story Friend is a one-screen voice app. The user presses start. The app connects to a hosted
voice agent, streams the microphone to it and plays back the agent's speech. The agent may call one
tool, `setAtmosphere`, to change the screen's theme. A conversation lasts 60 seconds.

This project models the part of `App.tsx` that decides what happens: the session controller.
It covers:

- the lifecycle states (`IDLE`, `CONNECTING`, `ACTIVE`, `ERROR`, `FINISHED`);
- the tool-call handler and its responses;
- gapless scheduling of the agent's audio frames against the playback cursor;
- the set of playing sources and the "agent is speaking" flag;
- interruption, stopping, and the one-second countdown with its `m:ss` display.

Modules:

- `Types`: the enumerations of `types.ts` and the 60-second session length.
- `Tools`: `applyAtmosphere` and the tool-call loop of `onmessage`. Lemmas state which calls get
  responses and which theme wins.
- `Playback`: the placement rule `max(cursor, clock)`. Lemmas cover any run of frames with no
  interruption between them: no overlap, a cursor that never goes back, and the cursor against the
  summed durations.
- `Countdown`: the timer's updater step, and the header display `floor(t/60)` + `:` + seconds
  padded to two digits. A parser for that display is proved to read every time back, so the display
  is unambiguous.
- `Session`: the controller as a pure state record with one transition function per callback. It
  also holds the invariant every reachable state keeps, the user actions the screen allows, and the
  countdown lemmas.
- `App`: class `Controller`. Its fields are the component's state and refs. Each callback is a
  method that updates them in place, and each method is proved to reach the state the matching
  `Session` function gives. Stopping every source (`StopAllSources`) uses a loop over the active set, as the source's
  `forEach` does. The tool calls are handled in a `for` loop.

Modelling choices:

- Times are exact `real` seconds. A frame's decoded duration and the output clock's current time are
  inputs to `OnMessage`.
- The set of playing sources is a map from source-node number to the slot it was started in.
- `nextSource` numbers the nodes created so far.
- `stopped` records the nodes on which `stop()` was called.
- `outbox` lists the tool responses sent, in order.
- The session object is a flag (`hasSession`).
- An audio payload is `None` when the message has none, and also when the payload is the empty
  string, which JavaScript treats as false.
- A tool call's `theme` is `None` when it is missing or is not a string.
- An API key that is undefined or empty fails the key check, and so does the placeholder key.

Helper predicates of `Session` without rows of their own:

- `Init` is the state at mount (App.tsx:13-25).
- `KeyConfigured` is the key check of App.tsx:73.
- `CanStart` and `CanStop` say which button is rendered (App.tsx:268-289).
- `TickEnabled` is the condition under which the interval timer runs (App.tsx:54).

Where the intended design of the app and its code differ, the model follows the code:

- The stop button shows in `ACTIVE` and `ERROR`, not while connecting (App.tsx:268-289).
- A missing key goes straight to `ERROR` without passing through `CONNECTING`.
- `onclose` and `onerror` change only the status (and, for `onerror`, the message). They leave the
  session, the playing sources and the cursor as they were.
- The cursor is at least the clock only when a frame is placed. It is not kept that way at other
  times.

## Model

| member | source | states |
|---|---|---|
| `Tools.ThemeOf` | App.tsx:29-30 | a name selects a theme exactly when it is one of `sunny`, `night`, `party`, `underwater`; the theme selected is never `default` and carries that name |
| `Tools.ApplyAtmosphere` | App.tsx:28-35 | for a valid theme name the atmosphere becomes that theme and the result is "The atmosphere has been changed to <theme>!"; for anything else (including `default`, a missing or non-string argument) the atmosphere is unchanged and the result is "Theme not found." |
| `Tools.ResultIgnoresCurrent` | App.tsx:28-35 | the result text depends only on the argument, not on the theme in force |
| `Tools.HandleToolCalls` | App.tsx:157-165 | the loop sends at most one response per call, and every response is named `setAtmosphere` |
| `Tools.SetAtmosphereCalls` | App.tsx:158-159 | the calls the loop answers: only calls named `setAtmosphere`, and every one of them, whatever its argument |
| `Tools.SetAtmosphereCallsAppend` | App.tsx:158-159 | the filter keeps message order: for a message split in two, it is the filter of the first part followed by the filter of the second |
| `Tools.SetAtmosphereCallsSingle` | App.tsx:159 | a single call is kept exactly when it is named `setAtmosphere` |
| `Tools.EachCallAnsweredOnce` | App.tsx:157-165 | the responses correspond one to one, in order, to the `setAtmosphere` calls; each carries its call's `id` and `name` and that call's result text |
| `Tools.OtherCallsIgnored` | App.tsx:159 | a message whose calls all have other names changes no theme and sends no response |
| `Tools.NoValidCallKeepsTheme` | App.tsx:157-165 | if no call names `setAtmosphere` with a valid theme, the theme is unchanged |
| `Tools.LastValidCallWins` | App.tsx:157-165 | after the loop the theme is the one named by the last call that selects a valid theme; later invalid or foreign calls do not undo it |
| `Playback.StartAt` | App.tsx:173 | the start time is at least the cursor and at least the clock, and is one of the two |
| `Playback.Place` | App.tsx:173-186 | a frame starts at the later of the cursor and the clock: no earlier than either and equal to one of them, exactly at the cursor when the cursor is ahead; it lasts its decoded duration |
| `Playback.ScheduleAll` | App.tsx:170-188 | over frames scheduled back to back, one slot per frame, the cursor never ends below where it began, and it ends at the end of the last frame |
| `Playback.SlotsFollowFrames` | App.tsx:173-186 | every frame starts no earlier than its clock and the initial cursor, lasts its own duration, and ends by the final cursor |
| `Playback.SlotStartsAtLaterOfEndAndClock` | App.tsx:173-186 | the first frame starts at the later of the initial cursor and its clock; each later frame starts exactly at the later of the previous frame's end and its clock, so no silence is added |
| `Playback.NoOverlap` | App.tsx:173-186 | two frames scheduled without an interruption between them never overlap: the earlier ends before the later starts |
| `Playback.CursorNeverDecreases` | App.tsx:173-186 | the cursor after more frames is never below the cursor after fewer |
| `Playback.CursorCoversDurations` | App.tsx:185-186 | the final cursor is at least the first frame's start plus all durations, and exactly that when every frame arrives before the previous one has finished |
| `Countdown.Decimal` | App.tsx:235 | `String(n)` of a non-negative integer is a non-empty string of digits, one digit exactly when n < 10 |
| `Countdown.DecimalNoLeadingZero` | App.tsx:235 | `String(n)` starts with the digit zero only when n is zero |
| `Countdown.DecimalRoundTrip` | App.tsx:235 | reading back the digits written for n gives n |
| `Countdown.PadStart` | App.tsx:235 | `padStart` gives the wider of the string and the width, ends with the string, and fills the front with the pad character |
| `Countdown.PaddedSecondsValue` | App.tsx:235 | seconds below 60 padded to two characters are two digits that read back as those seconds |
| `Countdown.TimerStep` | App.tsx:56-62 | the updater stops the conversation exactly when the previous value is at most 1, and then gives 0; otherwise it gives one less, which is at least 1 |
| `Countdown.FormatClock` | App.tsx:235 | the display is digits, a colon, and exactly two digits; it is four characters long below ten minutes, which covers the whole session |
| `Countdown.JoinedRoundTrip` | App.tsx:235 | whole minutes and seconds below 60, written as the display writes them, parse back as minutes * 60 + seconds |
| `Countdown.FormatClockRoundTrip` | App.tsx:235 | the display is unambiguous: parsing it gives back the time left it shows |
| `Session.StartConversation` | App.tsx:70-81 | with a configured key the status becomes CONNECTING, the error is cleared and the time left reset to 60; a missing, empty or placeholder key gives ERROR with the key message and leaves the time left, never entering CONNECTING; nothing else changes; the invariant is kept |
| `Session.SessionReady` | App.tsx:208 | once the connection resolves a session is held; nothing else changes |
| `Session.SetupFailed` | App.tsx:209-213 | a setup failure gives ERROR with the microphone message; nothing else changes |
| `Session.OnOpen` | App.tsx:127-128 | opening the connection makes the status ACTIVE; nothing else changes |
| `Session.OnError` | App.tsx:197-201 | a transport error gives ERROR with the connection message; every other field (session, time left, theme, sent responses, playback) stays as it was |
| `Session.OnClose` | App.tsx:202-204 | the remote close makes the status FINISHED; nothing else changes |
| `Session.StopSources` | App.tsx:49-50 | every active source is stopped and the set is emptied |
| `Session.StopConversation` | App.tsx:37-51 | stopping always gives FINISHED, no session, no active source, speaking off, and every previously active source stopped; the cursor, atmosphere, time left, error and sent responses are untouched; the invariant is kept |
| `Session.StopIdempotent` | App.tsx:37-51 | stopping twice gives the same state as stopping once |
| `Session.Tick` | App.tsx:54-62 | with more than one second left a tick counts down by exactly one; otherwise it performs the stop and sets the time left to 0; the invariant is kept |
| `Session.Schedule` | App.tsx:170-188 | a frame gets a new source node that starts at the later of the cursor and the clock (no earlier than either and equal to one of them), after every active source has ended; the cursor moves to its end, speaking is on, the other sources are unchanged; every other field (stopped nodes, theme, sent responses, lifecycle, time left) stays as it was, and the invariant is kept |
| `Session.Interrupt` | App.tsx:190-195 | an interruption stops every active source, empties the set, turns speaking off and resets the cursor to 0; every other field stays as it was |
| `Session.AnswerToolCalls` | App.tsx:157-166 | the tool-call branch changes only the theme and the responses sent, and keeps the invariant |
| `Session.MessageEffects` | App.tsx:155-195 | a message applies its tool calls and sends their responses, leaving the lifecycle alone; with the interruption flag it ends with no active source, speaking off and cursor 0, even when it also carried audio, whose node is stopped too; audio without interruption schedules a new frame at the later of the cursor and the clock; a message with neither leaves playback alone; the invariant is kept |
| `Session.OnMessage` | App.tsx:155-195 | a message leaves the status, error, time left and session alone, creates one source node exactly when it carries audio, and keeps the invariant |
| `Session.RunAudioMessages` | App.tsx:155-195 | a run of messages carrying only an audio frame does what scheduling those frames one after another (`Session.PlaceFrames`) does |
| `Session.PlaceFramesFollowsScheduleAll` | App.tsx:170-188 | scheduling frames one after another puts the node numbered `nextSource + k` in the k-th slot of `Playback.ScheduleAll`, and leaves the cursor where `ScheduleAll` does |
| `Session.AudioMessagesFollowScheduleAll` | App.tsx:170-188 | a run of audio messages with no tool call and no interruption places its frames exactly as `Playback.ScheduleAll` does: the node numbered `nextSource + k` plays in the k-th slot, there is one new node per frame, and the cursor ends where `ScheduleAll` leaves it |
| `Session.OnEnded` | App.tsx:180-183 | a finished source leaves the set; ending a source no longer in the set changes nothing; the invariant is kept |
| `Session.UserActionsFollowControls` | App.tsx:268-289 | the start and stop buttons are never both offered; while connecting neither is; start is possible exactly in IDLE and FINISHED |
| `Session.StepKeepsInv` | App.tsx:37-212 | every callback and every user action the screen offers keeps the invariant |
| `Session.ReachableStatesKeepInv` | App.tsx:13-212 | in every state reached from mount, speaking is on exactly when a source is active, the time left is between 0 and 60, no active source has been stopped, and active sources end by the cursor and never overlap one another |
| `Session.TicksCountDown` | App.tsx:54-62 | while more than k seconds remain, k ticks only lower the time left by k |
| `Session.CountdownFinishes` | App.tsx:53-62 | a running session with t seconds left is still ACTIVE with one second after t - 1 ticks; after t ticks it is FINISHED as the stop leaves it, with 0 seconds, and no further tick is possible |
| `Session.FullSessionLastsSixtyTicks` | App.tsx:10-62 | from a full minute, 59 ticks leave the session ACTIVE and the 60th finishes it with 0 seconds left |
| `App.Controller.constructor` | App.tsx:13-25 | the initial state: IDLE, default theme, 60 seconds, nothing playing, no error, no session, cursor 0 |
| `App.Controller.StartConversation` | App.tsx:70-81 | available only when the start button shows (IDLE or FINISHED); reaches `Session.StartConversation` of the old state |
| `App.Controller.SessionReady` | App.tsx:208 | reaches `Session.SessionReady` of the old state |
| `App.Controller.SetupFailed` | App.tsx:209-213 | reaches `Session.SetupFailed` of the old state |
| `App.Controller.OnOpen` | App.tsx:127-128 | reaches `Session.OnOpen` of the old state |
| `App.Controller.OnError` | App.tsx:197-201 | reaches `Session.OnError` of the old state |
| `App.Controller.OnClose` | App.tsx:202-204 | reaches `Session.OnClose` of the old state |
| `App.Controller.StopAllSources` | App.tsx:49-50 | the loop calls `stop()` on every active source, then the set is cleared |
| `App.Controller.StopConversation` | App.tsx:37-51 | reaches `Session.StopConversation` of the old state and keeps the invariant |
| `App.Controller.PressStop` | App.tsx:281-289 | available only when the stop button shows (ACTIVE or ERROR); reaches `Session.StopConversation` of the old state |
| `App.Controller.Tick` | App.tsx:55-62 | available only while ACTIVE with time left; reaches `Session.Tick` of the old state |
| `App.Controller.AnswerToolCalls` | App.tsx:157-166 | the loop applies and answers each `setAtmosphere` call in order, reaching `Session.AnswerToolCalls` |
| `App.Controller.ScheduleFrame` | App.tsx:170-188 | moves the cursor to `max(cursor, clock)`, starts a new node there, advances the cursor by the duration and adds the node, reaching `Session.Schedule` |
| `App.Controller.Interrupt` | App.tsx:190-195 | reaches `Session.Interrupt` of the old state |
| `App.Controller.OnMessage` | App.tsx:155-196 | tool calls, then audio, then interruption, reaching `Session.OnMessage` and keeping the invariant |
| `App.Controller.OnEnded` | App.tsx:180-183 | reaches `Session.OnEnded` of the old state and keeps the invariant |

## Left out

- The microphone capture loop (App.tsx:131-153) is not modelled. It is float numerics and Web Audio
  plumbing: each float sample goes into an `Int16Array`, which truncates and wraps rather than
  clamps, and the bytes are then encoded and sent.
- `audioUtils` (`encode`, `decode`, `decodeAudioData`) is not part of this model. No codec round trip
  is claimed, and a frame's decoded duration is an input. The path where decoding throws is not
  modelled. In that path, lines 171 and 173 have already run by the time the error happens.
- The `@google/genai` client, the model id, the voice, the system instruction and the tool schema
  (App.tsx:83, 95-125) are left out. They are an external SDK and fixed configuration. The session
  is a flag. When `stopConversation` calls `close()`, the SDK's later `onclose` is the separate
  `OnClose` event.
- Concurrency is not modelled. Each callback runs as one atomic step. The `await` between reading the
  cursor (App.tsx:173) and using it (App.tsx:185) is not interleaved with other callbacks. Sends
  made through `sessionPromise.then` count as sent at once, in order.
- `setInterval`/`clearInterval` and the effect's re-registration (App.tsx:53-68) are represented only
  by `Tick`, which is possible exactly while ACTIVE with time left.
- Creating the AudioContexts and calling `getUserMedia` (App.tsx:86-93) are left out. A rejection
  there is the `SetupFailed` event.
- Callback order is not constrained. The SDK's callbacks may arrive in any order, in any state.
  Only the two buttons and the timer are gated.
- JavaScript numbers are doubles. The model uses exact reals, so rounding in the cursor arithmetic
  is not captured.
- `console.error` logging, the JSX rendering, the theme class tables and decorations
  (App.tsx:216-335), and `components/Visualizer.tsx` are left out. They are presentation.
- `Session.OnMessage`: the model does not capture a message that throws partway. `Tools.FunctionCall`
  always has an argument object, the call list is always present, and the audio payload is present
  or absent. In the source, `fc.args.theme` (App.tsx:160) throws when a call has no `args`. The
  `for...of` loop (App.tsx:158) throws when `toolCall.functionCalls` is absent, and `.parts[0]`
  (App.tsx:169) throws when `modelTurn` has no `parts`. Each of these throws would leave the
  remaining calls unanswered and skip the audio and interruption branches.
- The unused `Message` interface (types.ts:4-7) is left out.
