# Speech-session controller, modelled in Dafny

This project models the voice-input controller of a journaling web app
(`src/utils/speech.ts`). The controller owns one browser speech-recognition
session at a time and a process-wide network-retry counter bounded by three.
It reacts to the engine's `start`, `result`, `error` and `end` events.
It reports to its caller through three callbacks: `onResult(text)`,
`onError(error)` and `onDebug(message)`.

The browser is an injected value, not a real environment:

- `Environment.Env` holds what the code reads from `window`: whether a window
  exists, the two vendor constructors, `hostname`, `isSecureContext` and `protocol`.
- A recognition session is a number. Every call the controller makes into the
  engine (construct, `start`, `stop`, `abort`) is appended to a log, `calls`.
- What the engine throws is an input: a plain error or a `DOMException` with a
  name, for the constructor and `start()`. Boolean flags say whether `stop`
  and `abort` throw.
- A result event is a sequence of `(firstAlternativeTranscript, isFinal)` slots.
- Every callback invocation is appended to an output trace of `Result(text)`,
  `Error(message)` and `Debug` entries. The optional callbacks are booleans
  saying whether the caller supplied them.
- The one-second wait before a network retry is split into two steps.
  `ErrorStep` handles the error and queues the waiting handler. `RetryStep`
  is the timer firing. Pending timers fire oldest first.

Files:

- `environment.dfy`, module `Environment`: the environment record and the
  three classifiers.
- `transcript.dfy`, module `Transcript`: JavaScript `trim`, with the
  ECMAScript whitespace and line-terminator set, and the aggregation of
  final slots.
- `speech.dfy`, module `Speech`:
  - the state record `State` (`recognition`, `retryCount`, every constructed
    session with its `hasReceivedResult` flag, pending retries, trace, engine log);
  - one pure step function per operation and handler;
  - `Step` and `Run` over event sequences;
  - class `SpeechController`, whose fields are that state. Each method updates
    them in place and is proved equal to its step function.
- `speech_properties.dfy`, module `SpeechProperties`: what `onError` and
  `onResult` receive at each step and over multi-event scenarios.

Behaviours of the code a reader might not expect, each stated by a lemma or contract of the model:

- The retry counter goes up before it is compared with 3. Three consecutive
  network errors therefore give two restarts and then the fatal error
  (`ThreeNetworkErrors`).
- The restart after the wait checks only that some session exists, not that the
  failing one is still active (`RetryRestartsNewerSession`).
- `retryTimeout` is never assigned a timer. So `onstart` cancels nothing, and
  the `onend` test reads the counter, not a pending timer.
- The "not supported" and "requires HTTPS" failures are plain errors, so
  `onError` receives the generic "Failed to start speech recognition"
  (`UnsupportedOnLocalhost`).
- `stop` resets the counter only when a session exists. After a start whose
  constructor throws, the counter can be non-zero with no session, and it
  stays so after `stop` (`StopWithoutSessionKeepsCounter`).
- `onresult` has no session guard. `onerror` checks only that some session is
  active. Handlers of a superseded session therefore still run.
- If `start()` throws, the new session has already been made the active one,
  and it stays active.
- No error branch clears `recognition`: not the fatal network branch
  (lines 176-179), and not the audio-capture, not-allowed or other-code branches
  (`ErrorStep` keeps `recognition`). So when several network errors arrive
  before their timers fire, the restarts queued by the earlier ones still abort
  and start the live session after the fatal message.
- A constructor that throws has still been called. Its attempt is logged as
  `Construct` under an identity that no session ever gets.

## Model

| member | source | states |
|---|---|---|
| Environment.BrowserSupportsSpeech | src/utils/speech.ts:43-46 | false without a window; true exactly when a window exposes either vendor constructor |
| Environment.IsLocalhost | src/utils/speech.ts:48-52 | true iff a window exists and the hostname is exactly `localhost` or `127.0.0.1` |
| Environment.IsSecureContext | src/utils/speech.ts:54-61 | true on loopback hosts; otherwise iff a window exists and either the secure-context flag is set or the protocol is `https:`; never true without a window |
| Transcript.TrimStart | src/utils/speech.ts:137 | result is the longest suffix not starting with whitespace; everything dropped is whitespace |
| Transcript.TrimEnd | src/utils/speech.ts:137 | result is the longest prefix not ending with whitespace; everything dropped is whitespace |
| Transcript.IsJsWhitespace | src/utils/speech.ts:137 | the characters `trim` removes: the ECMAScript WhiteSpace and LineTerminator code points |
| Transcript.Trim | src/utils/speech.ts:137 | empty iff the input is all whitespace; otherwise begins and ends with non-whitespace |
| Transcript.TrimKeepsInterior | src/utils/speech.ts:137 | the result is a contiguous part of the input with only whitespace before and after it, so nothing inside is removed |
| Transcript.TrimIdempotent | src/utils/speech.ts:137 | trimming twice equals trimming once |
| Transcript.TrimIgnoresTrailingSpace | src/utils/speech.ts:133-137 | the `' '` appended after a transcript vanishes under trim |
| Transcript.Piece | src/utils/speech.ts:132-134 | what one slot adds: its transcript and a space when final, nothing otherwise |
| Transcript.Joined | src/utils/speech.ts:128-135 | the untrimmed text the loop builds, the reference definition for AggregateFinal |
| Transcript.FinalSlots | src/utils/speech.ts:130-135 | a slot is in the result iff it is in the input and final; all final, no more than the input |
| Transcript.FinalSlotsAppend | src/utils/speech.ts:130-135 | filtering keeps the order: the final slots of two runs are those of the first, then those of the second |
| Transcript.JoinedAppend | src/utils/speech.ts:128-135 | the aggregated text of two slot runs is the concatenation of their texts |
| Transcript.JoinedIgnoresInterim | src/utils/speech.ts:130-135 | aggregating all slots equals aggregating only the final ones |
| Transcript.InterimTextIrrelevant | src/utils/speech.ts:130-135 | changing the transcript of a non-final slot never changes the text |
| Transcript.JoinedWhitespaceIff | src/utils/speech.ts:128-137 | the aggregated text is blank iff every final slot's transcript is blank |
| Transcript.TranscriptEmptyIff | src/utils/speech.ts:137-142 | nothing is forwarded iff every final slot is blank, so in particular when no slot is final |
| Transcript.SingleFinalSlot | src/utils/speech.ts:130-137 | one final slot forwards exactly its trimmed transcript |
| Speech.DecimalString | src/utils/speech.ts:173 | the attempt number as the template literal renders it: non-empty, digits only, a leading zero exactly for 0 |
| Speech.DecimalStringValue | src/utils/speech.ts:173 | the rendering reads back as the number: DigitsValue(DecimalString(n)) == n |
| Speech.RetryFailedMessage | src/utils/speech.ts:173 | the attempt message, embedding the counter and MAX_RETRIES in decimal |
| Speech.OtherErrorMessage | src/utils/speech.ts:189 | the message for an unknown error code, embedding the code |
| Speech.DebugIf | src/utils/speech.ts:151 | `onDebug?.(…)`: one debug entry exactly when onDebug was supplied |
| Speech.Notify | src/utils/speech.ts:155 | `onError?.(…)`: one error entry exactly when onError was supplied |
| Speech.StartFailureMessage | src/utils/speech.ts:205-221 | always one of the four fixed messages; plain errors give the generic one; each specific message exactly for its DOMException name |
| Speech.StartException | src/utils/speech.ts:69-201 | no exception iff the engine is supported, the context secure, and neither the constructor nor start() throws; the two checks throw plain errors; the constructor's exception comes before start() |
| Speech.NewSession | src/utils/speech.ts:100-110 | `en-US`, one alternative, the caller's callbacks, flag clear; continuous and interim results exactly when not on loopback |
| Speech.TeardownCalls | src/utils/speech.ts:79-87 | nothing without a session; otherwise stop first, and abort too unless stop threw |
| Speech.TornDown | src/utils/speech.ts:79-87 | the previous session stopped (and aborted) and the reference cleared |
| Speech.ConstructFailed | src/utils/speech.ts:95 | the throwing constructor is logged under a fresh identity and no session is made |
| Speech.Created | src/utils/speech.ts:89-201 | the new session constructed, configured, made active and started |
| Speech.Abandon | src/utils/speech.ts:205-222 | the catch block: one debug entry, then onError with the mapped message |
| Speech.StartStep | src/utils/speech.ts:63-224 | returns true iff no exception is thrown. The counter and pending retries are untouched. Unsupported or insecure: the generic message, nothing else changes. Otherwise the old session is stopped and, unless stop threw, aborted. A throwing constructor is logged once and leaves no session. Once constructed, the new session is the only active one with `en-US`, one alternative and continuous/interim = not loopback. A failure appends one debug entry and one mapped error. Keeps the invariant |
| Speech.StopStep | src/utils/speech.ts:226-237 | no session: nothing changes; with a session: engine stop, session cleared, counter 0, whether or not stop throws |
| Speech.StartedStep | src/utils/speech.ts:115-122 | clears only that session's result flag and logs |
| Speech.ResultStep | src/utils/speech.ts:124-146 | sets the flag on every event; forwards Trim(Joined(slots)) once iff non-empty; counter reset to 0 exactly then; session state untouched |
| Speech.ErrorStep | src/utils/speech.ts:148-191 | no session: nothing. Network on loopback: the HTTPS message, counter unchanged, no retry. Network elsewhere: the counter becomes (old+1) mod 3; below 3 a retry is queued, otherwise the fatal message. no-speech/aborted: debug only. audio-capture, not-allowed and other codes: one fixed or code-embedding message. Keeps the invariant |
| Speech.RetryStep | src/utils/speech.ts:164-175 | pops the oldest timer; with no session nothing else happens; otherwise abort, then start unless abort threw, on whichever session is active; the attempt message only when one of them throws; counter unchanged |
| Speech.EndedStep | src/utils/speech.ts:193-198 | only debug entries are appended; no other state changes |
| Speech.Step | src/utils/speech.ts:38-40 | an event that cannot occur changes nothing; every event keeps the invariant (counter below 3, active session known) and only extends trace and engine log |
| Speech.EngineStep | src/utils/speech.ts:115-198 | a session handler event keeps the invariant and only extends trace and engine log; an event from an unknown session changes nothing |
| Speech.Run | src/utils/speech.ts:38-40 | along any event sequence the invariant holds and trace and engine log only grow |
| Speech.AggregateFinal | src/utils/speech.ts:128-135 | the loop over the slots builds exactly Joined(slots): each final transcript followed by a space, in order |
| Speech.SpeechController.constructor | src/utils/speech.ts:38-39 | initial state: no session, counter 0 |
| Speech.SpeechController.Start | src/utils/speech.ts:63-224 | in-place update equal to StartStep, with the same return value |
| Speech.SpeechController.StopPrevious | src/utils/speech.ts:78-87 | in-place teardown: stop, abort unless stop threw, reference cleared |
| Speech.SpeechController.FailConstruction | src/utils/speech.ts:95 | in-place: the constructor call is logged under a fresh identity, equal to ConstructFailed |
| Speech.SpeechController.CreateSession | src/utils/speech.ts:89-201 | in-place construction and configuration of the new active session (lines 89-110) and the engine start of line 201, equal to Created |
| Speech.SpeechController.ReportStartFailure | src/utils/speech.ts:205-222 | in-place catch block: debug entry, then onError with the mapped message |
| Speech.SpeechController.Stop | src/utils/speech.ts:226-237 | in-place update equal to StopStep, for both outcomes of the engine's stop |
| Speech.SpeechController.HandleStart | src/utils/speech.ts:115-122 | in-place update equal to StartedStep |
| Speech.SpeechController.HandleResult | src/utils/speech.ts:124-146 | in-place update equal to ResultStep: flag set, then the looped text trimmed and forwarded when non-empty |
| Speech.SpeechController.Forward | src/utils/speech.ts:138-142 | in-place: debug entry, onResult with the text, counter reset to 0 |
| Speech.SpeechController.HandleError | src/utils/speech.ts:148-191 | in-place update equal to ErrorStep |
| Speech.SpeechController.RetryFire | src/utils/speech.ts:164-175 | in-place update equal to RetryStep |
| Speech.SpeechController.HandleEnd | src/utils/speech.ts:193-198 | in-place update equal to EndedStep |
| Speech.SpeechController.EmitDebug | src/utils/speech.ts:151 | in-place: one debug entry exactly when onDebug was supplied, nothing else changes |
| Speech.SpeechController.EmitError | src/utils/speech.ts:155 | in-place: onError with the message exactly when it was supplied, nothing else changes |
| SpeechProperties.ErrorReport | src/utils/speech.ts:148-191 | at most one message per error event, none for no-speech and aborted |
| SpeechProperties.ErrorStepReports | src/utils/speech.ts:148-191 | what onError receives from an error event is exactly ErrorReport; onResult is never called |
| SpeechProperties.NetworkErrorReports | src/utils/speech.ts:153-179 | a network error reports the HTTPS message on loopback, nothing while retries remain, the fatal message on the third |
| SpeechProperties.OtherErrorReports | src/utils/speech.ts:180-190 | no-speech and aborted report nothing; audio-capture, not-allowed and every other code report exactly their one message |
| SpeechProperties.StartStepReports | src/utils/speech.ts:205-222 | a failed start calls onError once (if supplied) with the mapped message, always one of the four; a successful start reports nothing; onResult never |
| SpeechProperties.ResultStepReports | src/utils/speech.ts:127-142 | onResult receives the trimmed final text once or not at all; onError never |
| SpeechProperties.RetryStepReports | src/utils/speech.ts:166-175 | onError gets the attempt message only if a session exists and its abort or start throws |
| SpeechProperties.StopIdempotent | src/utils/speech.ts:226-237 | a second stop changes nothing |
| SpeechProperties.RetriedRound | src/utils/speech.ts:159-170 | a retried network error and its timer: counter one higher, nothing pending, one abort and start of the active session, nothing reported |
| SpeechProperties.TwoRetriedRounds | src/utils/speech.ts:159-170 | two such rounds from 0: counter 2, two abort/start pairs, nothing reported |
| SpeechProperties.FatalRound | src/utils/speech.ts:176-179 | the error that exhausts the retries: fatal message only, no engine call, counter 0 |
| SpeechProperties.ThreeNetworkErrors | src/utils/speech.ts:153-179 | three network errors with timers in between: exactly two abort/start restarts, one fatal message, counter 0, no results |
| SpeechProperties.InterimThenFinal | src/utils/speech.ts:128-142 | an interim-only event forwards nothing; the same text final forwards its trim and resets the counter |
| SpeechProperties.UnsupportedOnLocalhost | src/utils/speech.ts:69-76 | loopback host without an engine: false, no session, engine untouched, one generic error |
| SpeechProperties.RetryRestartsNewerSession | src/utils/speech.ts:164-169 | a timer queued by one session aborts and restarts a newer session started within the wait |
| SpeechProperties.StopWithoutSessionKeepsCounter | src/utils/speech.ts:226-237 | a reachable state with no session and counter 1 keeps counter 1 after stop |

## Left out

- Real time: `setTimeout` and the 1000 ms `RETRY_DELAY` are not modelled. The wait is a separate `RetryTimerFired` event, and timers fire oldest first because they all have the same delay.
- Promises: `startVoiceRecording` contains no `await`, so it is modelled as one synchronous step.
- Debug wording: the text of debug messages is not kept. Only the presence and position of each `Debug` entry is.
- Callbacks: the callbacks of different `startVoiceRecording` calls all write to one trace. Callbacks are assumed to return normally.
- The Web Speech engine itself is not modelled: which events it emits and when (an `aborted` error after `abort`, say). Events are free inputs. Only events from constructed sessions, and timer firings while one is pending, are applied.
- Vendor constructor choice: `window.webkitSpeechRecognition || window.SpeechRecognition` (line 90) is not modelled, because the choice is not observable. The guards at lines 91-93 and 96-98 cannot fire after the support check and are not modelled.
- `onresult` exceptions: the `try/catch` (lines 143-145) is not modelled, because slots are always well-formed here.
- `retryTimeout` (lines 113, 118-121) is never set to a timer in the source, so it is not a field of the model.
- An exception from `abort` during teardown (line 82) has no observable effect, so it is not an input. An exception from the teardown `stop` is, because it skips `abort`.
- Speech.EndedStep: states only that debug entries are appended. Both entries are debug-only.
- The other files are not part of this model. They are the React components (`VoiceInput.tsx`, `JournalEntryForm.tsx`, the journal page), layouts, the entries API route and the database test. They are UI, routing and I/O glue around this controller.
