/** The speech-session controller of src/utils/speech.ts.

    The module-level state (`recognition`, `globalRetryCount`), the per-session closure
    flag `hasReceivedResult` and the timers waiting to retry after a network error are
    one `State` record. Each operation and each engine event handler is a pure step
    function on that record, and `SpeechController` is the same state as an object
    whose methods update their fields in place and are proved equal to the steps.

    The browser engine is abstract: a session is a number, the engine calls the
    controller makes are logged in `calls`, and what the engine throws is an input.
    Every callback invocation (onResult, onError, onDebug) is appended to `trace`. */
module Speech {
  import opened Environment
  import opened Transcript

  datatype Option<T> = None | Some(value: T)

  const Lang: string := "en-US"
  const MaxAlternatives: nat := 1
  const MaxRetries: nat := 3

  // Messages passed to onError when starting fails (the catch block of startVoiceRecording)
  const StartFailedMessage: string := "Failed to start speech recognition"
  const MicDeniedStartMessage: string := "Microphone access was denied. Please allow microphone access in your browser settings"
  const MicNotFoundStartMessage: string := "No microphone found. Please check your microphone connection"
  const MicBusyStartMessage: string := "Cannot access your microphone. Please check if another app is using it"
  const StartFailureMessages: set<string> :=
    {StartFailedMessage, MicDeniedStartMessage, MicNotFoundStartMessage, MicBusyStartMessage}

  // Messages passed to onError by the error handler
  const NetworkLocalMessage: string := "Network error: Please use HTTPS or run Chrome with web security disabled for local development."
  const NetworkFatalMessage: string := "Network error: Please check your internet connection and try again"
  const AudioCaptureMessage: string := "No microphone was found or microphone is not working"
  const NotAllowedMessage: string := "Microphone permission was denied"

  function OtherErrorMessage(code: string): string {
    "Speech recognition error: " + code
  }

  predicate IsDigit(c: char) {
    '0' <= c <= '9'
  }

  function Digit(d: nat): (c: char)
    requires d < 10
    ensures IsDigit(c) && c as int - '0' as int == d
  {
    ('0' as int + d) as char
  }

  /** A natural number in decimal, as a JavaScript template literal renders it: digits
      only, and no leading zero except for 0 itself. */
  function DecimalString(n: nat): (s: string)
    ensures |s| > 0
    ensures forall k :: 0 <= k < |s| ==> IsDigit(s[k])
    ensures s[0] == '0' <==> n == 0
    ensures n == 0 ==> s == "0"
  {
    if n < 10 then [Digit(n)] else DecimalString(n / 10) + [Digit(n % 10)]
  }

  /** The number a string of decimal digits denotes, read left to right. */
  function DigitsValue(s: string): nat
    requires forall k :: 0 <= k < |s| ==> IsDigit(s[k])
  {
    if s == [] then 0
    else
      assert IsDigit(s[|s| - 1]);
      DigitsValue(s[..|s| - 1]) * 10 + (s[|s| - 1] as int - '0' as int)
  }

  /** The decimal rendering can be read back: it denotes exactly `n`. */
  lemma {:induction false} DecimalStringValue(n: nat)
    ensures DigitsValue(DecimalString(n)) == n
    decreases n
  {
    if n >= 10 {
      var d := DecimalString(n);
      DecimalStringValue(n / 10);
      assert d[..|d| - 1] == DecimalString(n / 10);
      assert d[|d| - 1] == Digit(n % 10);
    }
  }

  function RetryFailedMessage(attempt: nat): string {
    "Network error in speech recognition (attempt " + DecimalString(attempt) + "/" + DecimalString(MaxRetries) + ")"
  }

  /** Which optional callbacks the caller of startVoiceRecording supplied (onResult is mandatory). */
  datatype Callbacks = Callbacks(onError: bool, onDebug: bool)

  /** One callback invocation. Debug texts never affect control flow and are not kept. */
  datatype Output = Result(text: string) | Error(message: string) | Debug

  /** One call the controller makes into the speech engine. */
  datatype EngineCall = Construct(id: nat) | EngineStart(id: nat) | EngineStop(id: nat) | EngineAbort(id: nat)

  /** What can reach the catch block of startVoiceRecording. */
  datatype Thrown = PlainError | DomException(name: string)

  datatype Outcome = Completes | Throws(error: Thrown)

  /** What the engine does when startVoiceRecording calls it: whether stopping the previous
      session throws (which skips its abort), and how the constructor and start() end. */
  datatype StartFaults = StartFaults(teardownStopThrows: bool, construct: Outcome, start: Outcome)

  /** One recognition session: its configuration, the callbacks its handlers were
      registered with, and its closure flag `hasReceivedResult`. */
  datatype Session = Session(
    lang: string,
    continuous: bool,
    interimResults: bool,
    maxAlternatives: nat,
    callbacks: Callbacks,
    hasReceivedResult: bool)

  /** The controller's whole state. `sessions` keeps every session ever constructed,
      because a superseded session's handlers stay attached; `recognition` is the one
      active session; `pending` holds, oldest first, the callbacks of every network-error
      handler still waiting on its one-second retry timer. */
  datatype State = State(
    recognition: Option<nat>,
    retryCount: nat,
    sessions: map<nat, Session>,
    nextId: nat,
    pending: seq<Callbacks>,
    trace: seq<Output>,
    calls: seq<EngineCall>)
  {
    /** The retry counter is in {0, 1, 2}, the active session is a known one, and
        fresh identities are unused. */
    predicate Valid() {
      retryCount < MaxRetries
      && (recognition.Some? ==> recognition.value in sessions)
      && (forall id :: id in sessions ==> id < nextId)
    }
  }

  const Initial: State := State(None, 0, map[], 0, [], [], [])

  function DebugIf(enabled: bool): seq<Output> {
    if enabled then [Debug] else []
  }

  /** `onError?.(new Error(message))`. */
  function Notify(cb: Callbacks, message: string): seq<Output> {
    if cb.onError then [Error(message)] else []
  }

  /** The message the catch block of startVoiceRecording reports: a specific one for three
      DOMException names, the generic one for every other exception, plain errors included. */
  function StartFailureMessage(e: Thrown): (m: string)
    ensures m in StartFailureMessages
    ensures e.PlainError? ==> m == StartFailedMessage
    ensures m == MicDeniedStartMessage <==> e == DomException("NotAllowedError")
    ensures m == MicNotFoundStartMessage <==> e == DomException("NotFoundError")
    ensures m == MicBusyStartMessage <==> e == DomException("NotReadableError")
  {
    match e
    case PlainError => StartFailedMessage
    case DomException(name) =>
      if name == "NotAllowedError" then MicDeniedStartMessage
      else if name == "NotFoundError" then MicNotFoundStartMessage
      else if name == "NotReadableError" then MicBusyStartMessage
      else StartFailedMessage
  }

  /** The exception that ends startVoiceRecording early, if any: the two capability checks
      throw plain errors before anything else happens, then the constructor, then start(). */
  function StartException(env: Env, f: StartFaults): (r: Option<Thrown>)
    ensures r.None? <==> BrowserSupportsSpeech(env) && IsSecureContext(env) && f.construct.Completes? && f.start.Completes?
    ensures !BrowserSupportsSpeech(env) || !IsSecureContext(env) ==> r == Some(PlainError)
    // the constructor's exception ends the start before start() is ever called
    ensures BrowserSupportsSpeech(env) && IsSecureContext(env) && f.construct.Throws? ==> r == Some(f.construct.error)
    ensures BrowserSupportsSpeech(env) && IsSecureContext(env) && f.construct.Completes? && f.start.Throws? ==> r == Some(f.start.error)
  {
    if !BrowserSupportsSpeech(env) || !IsSecureContext(env) then Some(PlainError)
    else if f.construct.Throws? then Some(f.construct.error)
    else if f.start.Throws? then Some(f.start.error)
    else None
  }

  /** The configuration of a new session: single-shot on loopback hosts, continuous with
      interim results elsewhere. */
  function NewSession(env: Env, cb: Callbacks): (r: Session)
    ensures r.lang == "en-US" && r.maxAlternatives == 1 && r.callbacks == cb && !r.hasReceivedResult
    ensures r.continuous <==> !IsLocalhost(env)
    ensures r.interimResults <==> !IsLocalhost(env)
  {
    var local := IsLocalhost(env);
    Session(Lang, !local, !local, MaxAlternatives, cb, false)
  }

  /** Tearing down the previous session: stop, then abort unless stop threw. */
  function TeardownCalls(recognition: Option<nat>, stopThrows: bool): (r: seq<EngineCall>)
    ensures recognition.None? <==> r == []
    ensures recognition.Some? ==> r[0] == EngineStop(recognition.value) && |r| == (if stopThrows then 1 else 2)
    ensures recognition.Some? && !stopThrows ==> r[1] == EngineAbort(recognition.value)
  {
    match recognition
    case None => []
    case Some(prev) => [EngineStop(prev)] + (if stopThrows then [] else [EngineAbort(prev)])
  }

  /** The previous session, if any, is stopped and aborted and the reference cleared (speech.ts:79-87). */
  function TornDown(st: State, stopThrows: bool): State {
    st.(recognition := None, calls := st.calls + TeardownCalls(st.recognition, stopThrows))
  }

  /** `new SpeechRecognition()` is called and throws: the attempt is logged under a fresh
      identity, which no session ever gets (speech.ts:90, 95). */
  function ConstructFailed(st: State): State {
    st.(nextId := st.nextId + 1, calls := st.calls + [Construct(st.nextId)])
  }

  /** A new session is constructed, configured, made the active one and started (speech.ts:90-201). */
  function Created(st: State, env: Env, cb: Callbacks): State {
    var id := st.nextId;
    st.(recognition := Some(id), sessions := st.sessions[id := NewSession(env, cb)], nextId := id + 1,
        calls := st.calls + [Construct(id), EngineStart(id)])
  }

  /** The catch block: one debug entry, then onError with the mapped message; returns false. */
  function Abandon(st: State, cb: Callbacks, e: Thrown): State {
    st.(trace := st.trace + DebugIf(cb.onDebug) + Notify(cb, StartFailureMessage(e)))
  }

  /** startVoiceRecording (speech.ts:63-224). Returns the new state and the returned flag. */
  function StartStep(st: State, env: Env, cb: Callbacks, f: StartFaults): (r: (State, bool))
    ensures st.trace <= r.0.trace && st.calls <= r.0.calls
    // starting never touches the retry counter or pending retries
    ensures r.0.retryCount == st.retryCount && r.0.pending == st.pending
    ensures st.Valid() ==> r.0.Valid()
    ensures r.1 <==> StartException(env, f).None?
    // a failed start reports exactly one of the four fixed messages, after one debug entry
    ensures !r.1 ==> r.0.trace == st.trace + DebugIf(cb.onDebug) + Notify(cb, StartFailureMessage(StartException(env, f).value))
    // unsupported or insecure: the generic message, and nothing else changes
    ensures !BrowserSupportsSpeech(env) || !IsSecureContext(env) ==>
              !r.1 && r.0 == st.(trace := st.trace + DebugIf(cb.onDebug) + Notify(cb, StartFailedMessage))
    // otherwise the previous session is torn down first, whatever happens next
    ensures BrowserSupportsSpeech(env) && IsSecureContext(env) ==>
              st.calls + TeardownCalls(st.recognition, f.teardownStopThrows) <= r.0.calls
    // a throwing constructor is called once and leaves no session
    ensures BrowserSupportsSpeech(env) && IsSecureContext(env) && f.construct.Throws? ==>
              r.0.recognition == None && r.0.sessions == st.sessions && r.0.nextId == st.nextId + 1
              && r.0.calls == st.calls + TeardownCalls(st.recognition, f.teardownStopThrows) + [Construct(st.nextId)]
    // once constructed, the new session is the single active one, even if start() throws
    ensures BrowserSupportsSpeech(env) && IsSecureContext(env) && f.construct.Completes? ==>
              r.0.recognition == Some(st.nextId) && r.0.nextId == st.nextId + 1
              && r.0.sessions == st.sessions[st.nextId := NewSession(env, cb)]
              && r.0.calls == st.calls + TeardownCalls(st.recognition, f.teardownStopThrows)
                              + [Construct(st.nextId), EngineStart(st.nextId)]
    ensures r.1 ==> r.0.trace == st.trace + DebugIf(cb.onDebug)
    ensures r.1 ==> var s := r.0.sessions[st.nextId];
              s.lang == "en-US" && s.maxAlternatives == 1 && s.callbacks == cb && !s.hasReceivedResult
              && s.continuous == s.interimResults == !IsLocalhost(env)
    ensures st.Valid() && r.1 ==> st.nextId !in st.sessions
  {
    if !BrowserSupportsSpeech(env) || !IsSecureContext(env) then
      (Abandon(st, cb, PlainError), false)
    else
      var torn := TornDown(st, f.teardownStopThrows);
      if f.construct.Throws? then
        (Abandon(ConstructFailed(torn), cb, f.construct.error), false)
      else
        var created := Created(torn, env, cb);
        if f.start.Throws? then (Abandon(created, cb, f.start.error), false)
        else (created.(trace := created.trace + DebugIf(cb.onDebug)), true)
  }

  /** stopVoiceRecording (speech.ts:226-237). Whether the engine's stop throws only changes
      the wording of the debug entry, so it is not a parameter here. */
  function StopStep(st: State, hasDebug: bool): (r: State)
    ensures st.recognition.None? ==> r == st
    ensures st.recognition.Some? ==>
              r == st.(recognition := None, retryCount := 0,
                       calls := st.calls + [EngineStop(st.recognition.value)],
                       trace := st.trace + DebugIf(hasDebug))
    ensures r.recognition.None? && (st.recognition.Some? ==> r.retryCount == 0)
    ensures st.Valid() ==> r.Valid()
  {
    match st.recognition
    case None => st
    case Some(id) =>
      st.(recognition := None, retryCount := 0, calls := st.calls + [EngineStop(id)], trace := st.trace + DebugIf(hasDebug))
  }

  /** The onstart handler of session `s` (speech.ts:115-122): clears its result flag.
      The retry timer it would clear is never stored by the source, so nothing else changes. */
  function StartedStep(st: State, s: nat): (r: State)
    requires s in st.sessions
    ensures r == st.(sessions := st.sessions[s := st.sessions[s].(hasReceivedResult := false)],
                     trace := st.trace + DebugIf(st.sessions[s].callbacks.onDebug))
    ensures st.Valid() ==> r.Valid()
  {
    var sess := st.sessions[s];
    st.(sessions := st.sessions[s := sess.(hasReceivedResult := false)], trace := st.trace + DebugIf(sess.callbacks.onDebug))
  }

  /** The onresult handler of session `s` (speech.ts:124-146). Runs whether or not `s` is
      still the active session. */
  function ResultStep(st: State, s: nat, slots: seq<Slot>): (r: State)
    requires s in st.sessions
    // the flag is set on every result event, even one with nothing final
    ensures r.sessions == st.sessions[s := st.sessions[s].(hasReceivedResult := true)]
    ensures r.recognition == st.recognition && r.pending == st.pending && r.nextId == st.nextId && r.calls == st.calls
    // onResult gets the trimmed final text, and only when it is non-empty
    ensures Trim(Joined(slots)) == "" ==> r.trace == st.trace
    ensures Trim(Joined(slots)) != "" ==>
              r.trace == st.trace + DebugIf(st.sessions[s].callbacks.onDebug) + [Result(Trim(Joined(slots)))]
    // the counter is reset exactly when onResult is called
    ensures r.retryCount == if Trim(Joined(slots)) == "" then st.retryCount else 0
    ensures st.Valid() ==> r.Valid()
  {
    var sess := st.sessions[s];
    var marked := st.(sessions := st.sessions[s := sess.(hasReceivedResult := true)]);
    var text := Trim(Joined(slots));
    if text == "" then marked
    else marked.(trace := marked.trace + DebugIf(sess.callbacks.onDebug) + [Result(text)], retryCount := 0)
  }

  /** The onerror handler of session `s` (speech.ts:148-191), up to the retry timer.
      A retry-eligible network error leaves the callbacks of `s` queued in `pending`;
      `RetryStep` is what runs when that timer fires. */
  function ErrorStep(st: State, env: Env, s: nat, code: string): (r: State)
    requires s in st.sessions
    // only the counter, the pending retries and the trace can change
    ensures r.recognition == st.recognition && r.sessions == st.sessions && r.nextId == st.nextId && r.calls == st.calls
    ensures st.trace <= r.trace
    // with no active session the handler returns at once
    ensures st.recognition.None? ==> r == st
    // the counter and the pending retries change only on a network error away from loopback
    ensures !(st.recognition.Some? && code == "network" && !IsLocalhost(env)) ==>
              r.retryCount == st.retryCount && r.pending == st.pending
    ensures st.recognition.Some? && code == "network" && !IsLocalhost(env) ==>
              r.retryCount == (if st.retryCount + 1 < MaxRetries then st.retryCount + 1 else 0)
              && r.pending == st.pending + (if st.retryCount + 1 < MaxRetries then [st.sessions[s].callbacks] else [])
    // what the callbacks receive, one debug entry first
    ensures st.recognition.Some? && code == "network" && IsLocalhost(env) ==>
              r.trace == st.trace + DebugIf(st.sessions[s].callbacks.onDebug) + Notify(st.sessions[s].callbacks, NetworkLocalMessage)
    ensures st.recognition.Some? && code == "network" && !IsLocalhost(env) && st.retryCount + 1 < MaxRetries ==>
              r.trace == st.trace + DebugIf(st.sessions[s].callbacks.onDebug)
                         + (DebugIf(st.sessions[s].callbacks.onDebug) + DebugIf(st.sessions[s].callbacks.onDebug))
    ensures st.recognition.Some? && code == "network" && !IsLocalhost(env) && st.retryCount + 1 >= MaxRetries ==>
              r.trace == st.trace + DebugIf(st.sessions[s].callbacks.onDebug)
                         + (DebugIf(st.sessions[s].callbacks.onDebug) + Notify(st.sessions[s].callbacks, NetworkFatalMessage))
    ensures st.recognition.Some? && (code == "no-speech" || code == "aborted") ==>
              r.trace == st.trace + DebugIf(st.sessions[s].callbacks.onDebug) + DebugIf(st.sessions[s].callbacks.onDebug)
    ensures st.recognition.Some? && code == "audio-capture" ==>
              r.trace == st.trace + DebugIf(st.sessions[s].callbacks.onDebug) + Notify(st.sessions[s].callbacks, AudioCaptureMessage)
    ensures st.recognition.Some? && code == "not-allowed" ==>
              r.trace == st.trace + DebugIf(st.sessions[s].callbacks.onDebug) + Notify(st.sessions[s].callbacks, NotAllowedMessage)
    ensures st.recognition.Some? && code != "network" && code != "no-speech" && code != "audio-capture"
            && code != "not-allowed" && code != "aborted" ==>
              r.trace == st.trace + DebugIf(st.sessions[s].callbacks.onDebug) + Notify(st.sessions[s].callbacks, OtherErrorMessage(code))
    // the counter steps through 0, 1, 2 and back to 0 on the third network error
    ensures st.Valid() && st.recognition.Some? && code == "network" && !IsLocalhost(env) ==>
              r.retryCount == (st.retryCount + 1) % MaxRetries
    ensures st.Valid() ==> r.Valid()
  {
    if st.recognition.None? then st
    else
      var cb := st.sessions[s].callbacks;
      var logged := st.trace + DebugIf(cb.onDebug);
      if code == "network" then
        if IsLocalhost(env) then st.(trace := logged + Notify(cb, NetworkLocalMessage))
        else
          var count := st.retryCount + 1;
          if count < MaxRetries then
            st.(retryCount := count, pending := st.pending + [cb], trace := logged + (DebugIf(cb.onDebug) + DebugIf(cb.onDebug)))
          else
            st.(retryCount := 0, trace := logged + (DebugIf(cb.onDebug) + Notify(cb, NetworkFatalMessage)))
      else if code == "no-speech" then st.(trace := logged + DebugIf(cb.onDebug))
      else if code == "audio-capture" then st.(trace := logged + Notify(cb, AudioCaptureMessage))
      else if code == "not-allowed" then st.(trace := logged + Notify(cb, NotAllowedMessage))
      else if code == "aborted" then st.(trace := logged + DebugIf(cb.onDebug))
      else st.(trace := logged + Notify(cb, OtherErrorMessage(code)))
  }

  /** The oldest pending retry timer fires (speech.ts:166-175): if some session is active
      (not necessarily the one that failed) it is aborted and started again. */
  function RetryStep(st: State, abortThrows: bool, startThrows: bool): (r: State)
    requires |st.pending| > 0
    ensures r.pending == st.pending[1..]
    ensures r.recognition == st.recognition && r.sessions == st.sessions && r.nextId == st.nextId
    ensures r.retryCount == st.retryCount
    // nothing happens unless a session still exists
    ensures st.recognition.None? ==> r.trace == st.trace && r.calls == st.calls
    ensures st.recognition.Some? ==>
              r.calls == st.calls + [EngineAbort(st.recognition.value)]
                         + (if abortThrows then [] else [EngineStart(st.recognition.value)])
    ensures st.recognition.Some? ==>
              r.trace == st.trace + DebugIf(st.pending[0].onDebug)
                         + (if abortThrows || startThrows then Notify(st.pending[0], RetryFailedMessage(st.retryCount)) else [])
    ensures st.Valid() ==> r.Valid()
  {
    var cb := st.pending[0];
    var popped := st.(pending := st.pending[1..]);
    match st.recognition
    case None => popped
    case Some(id) =>
      if abortThrows then
        popped.(calls := st.calls + [EngineAbort(id)], trace := st.trace + DebugIf(cb.onDebug) + Notify(cb, RetryFailedMessage(st.retryCount)))
      else if startThrows then
        popped.(calls := st.calls + [EngineAbort(id), EngineStart(id)], trace := st.trace + DebugIf(cb.onDebug) + Notify(cb, RetryFailedMessage(st.retryCount)))
      else
        popped.(calls := st.calls + [EngineAbort(id), EngineStart(id)], trace := st.trace + DebugIf(cb.onDebug))
  }

  /** The onend handler of session `s` (speech.ts:193-198): debug entries only. */
  function EndedStep(st: State, s: nat): (r: State)
    requires s in st.sessions
    ensures r == st.(trace := r.trace)
    ensures st.trace <= r.trace
    ensures var added := r.trace[|st.trace|..];
              forall k :: 0 <= k < |added| ==> added[k] == Debug
  {
    var cb := st.sessions[s].callbacks;
    var quiet := !st.sessions[s].hasReceivedResult && st.retryCount == 0;
    st.(trace := st.trace + DebugIf(cb.onDebug) + DebugIf(cb.onDebug && quiet))
  }

  /** Everything that can happen to the controller. */
  datatype Event =
    | StartRequested(env: Env, cb: Callbacks, faults: StartFaults)
    | StopRequested(hasDebug: bool)
    | EngineStarted(session: nat)
    | EngineResult(session: nat, slots: seq<Slot>)
    | EngineError(session: nat, env: Env, code: string)
    | EngineEnded(session: nat)
    | RetryTimerFired(abortThrows: bool, startThrows: bool)

  /** An engine event can only come from a constructed session, and a timer can only fire
      while one is pending. */
  predicate Enabled(st: State, ev: Event) {
    match ev
    case StartRequested(_, _, _) => true
    case StopRequested(_) => true
    case EngineStarted(s) => s in st.sessions
    case EngineResult(s, _) => s in st.sessions
    case EngineError(s, _, _) => s in st.sessions
    case EngineEnded(s) => s in st.sessions
    case RetryTimerFired(_, _) => |st.pending| > 0
  }

  /** One event; an event that cannot occur in `st` leaves it unchanged. */
  function Step(st: State, ev: Event): (r: State)
    ensures !Enabled(st, ev) ==> r == st
    ensures st.Valid() ==> r.Valid()
    ensures st.trace <= r.trace && st.calls <= r.calls
  {
    match ev
    case StartRequested(env, cb, f) => StartStep(st, env, cb, f).0
    case StopRequested(d) => StopStep(st, d)
    case RetryTimerFired(a, b) => if |st.pending| > 0 then RetryStep(st, a, b) else st
    case _ => EngineStep(st, ev)
  }

  /** An event from a recognition session's handlers; other events leave `st` unchanged. */
  function EngineStep(st: State, ev: Event): (r: State)
    ensures !Enabled(st, ev) ==> r == st
    ensures st.Valid() ==> r.Valid()
    ensures st.trace <= r.trace && st.calls <= r.calls
  {
    match ev
    case EngineStarted(s) => if s in st.sessions then StartedStep(st, s) else st
    case EngineResult(s, slots) => if s in st.sessions then ResultStep(st, s, slots) else st
    case EngineError(s, env, code) => if s in st.sessions then ErrorStep(st, env, s, code) else st
    case EngineEnded(s) => if s in st.sessions then EndedStep(st, s) else st
    case _ => st
  }

  /** A sequence of events, in delivery order. Along any run the invariant holds (so the
      retry counter stays below three between events) and the trace and engine-call log
      only grow. */
  function Run(st: State, events: seq<Event>): (r: State)
    ensures st.Valid() ==> r.Valid()
    ensures st.trace <= r.trace && st.calls <= r.calls
    decreases |events|
  {
    if events == [] then st else Run(Step(st, events[0]), events[1..])
  }

  /** The loop of the result handler (speech.ts:128-135): `transcript + ' '` for the first
      alternative of every final slot, in order. */
  method AggregateFinal(slots: seq<Slot>) returns (finalTranscript: string)
    ensures finalTranscript == Joined(slots)
  {
    finalTranscript := "";
    var i := 0;
    while i < |slots|
      invariant 0 <= i <= |slots|
      invariant finalTranscript == Joined(slots[..i])
    {
      assert slots[..i + 1][..i] == slots[..i];
      if slots[i].isFinal {
        finalTranscript := finalTranscript + slots[i].transcript + " ";
      }
      i := i + 1;
    }
    assert slots[..|slots|] == slots;
  }

  /** The controller as an object: the module state of speech.ts as fields, one method per
      exported function and per engine event handler. */
  class SpeechController {
    var recognition: Option<nat>
    var retryCount: nat
    var sessions: map<nat, Session>
    var nextId: nat
    var pending: seq<Callbacks>
    var trace: seq<Output>
    var calls: seq<EngineCall>

    function Value(): State
      reads this
    {
      State(recognition, retryCount, sessions, nextId, pending, trace, calls)
    }

    /** Module load: no session, counter 0 (speech.ts:38-39). */
    constructor ()
      ensures Value() == Initial && Value().Valid()
    {
      recognition := None;
      retryCount := 0;
      sessions := map[];
      nextId := 0;
      pending := [];
      trace := [];
      calls := [];
    }

    /** The catch block of startVoiceRecording (speech.ts:205-222). */
    method ReportStartFailure(cb: Callbacks, e: Thrown)
      modifies this
      ensures Value() == Abandon(old(Value()), cb, e)
    {
      EmitDebug(cb.onDebug);
      var message := StartFailedMessage;
      if e.DomException? {
        if e.name == "NotAllowedError" {
          message := MicDeniedStartMessage;
        } else if e.name == "NotFoundError" {
          message := MicNotFoundStartMessage;
        } else if e.name == "NotReadableError" {
          message := MicBusyStartMessage;
        }
      }
      EmitError(cb, message);
    }

    method Start(env: Env, cb: Callbacks, f: StartFaults) returns (ok: bool)
      modifies this
      ensures (Value(), ok) == StartStep(old(Value()), env, cb, f)
    {
      if !BrowserSupportsSpeech(env) {
        ReportStartFailure(cb, PlainError);
        return false;
      }
      if !IsSecureContext(env) {
        ReportStartFailure(cb, PlainError);
        return false;
      }
      StopPrevious(f.teardownStopThrows);
      if f.construct.Throws? {
        FailConstruction();
        ReportStartFailure(cb, f.construct.error);
        return false;
      }
      CreateSession(env, cb);
      if f.start.Throws? {
        ReportStartFailure(cb, f.start.error);
        return false;
      }
      EmitDebug(cb.onDebug);
      ok := true;
    }

    /** Teardown of the previous session; an exception from its stop skips its abort and is ignored. */
    method StopPrevious(stopThrows: bool)
      modifies this
      ensures Value() == TornDown(old(Value()), stopThrows)
    {
      if recognition.Some? {
        var prev := recognition.value;
        calls := calls + [EngineStop(prev)];
        if !stopThrows {
          calls := calls + [EngineAbort(prev)];
        }
        recognition := None;
      }
      assert calls == old(calls) + TeardownCalls(old(recognition), stopThrows);
    }

    /** The engine's constructor is called and throws before anything is assigned. */
    method FailConstruction()
      modifies this
      ensures Value() == ConstructFailed(old(Value()))
    {
      calls := calls + [Construct(nextId)];
      nextId := nextId + 1;
    }

    method CreateSession(env: Env, cb: Callbacks)
      modifies this
      ensures Value() == Created(old(Value()), env, cb)
    {
      var id := nextId;
      nextId := nextId + 1;
      calls := calls + [Construct(id)];
      recognition := Some(id);
      var local := IsLocalhost(env);
      sessions := sessions[id := Session(Lang, !local, !local, MaxAlternatives, cb, false)];
      calls := calls + [EngineStart(id)];
      assert calls == old(calls) + [Construct(id), EngineStart(id)];
    }

    /** stopVoiceRecording: the session is cleared and the counter reset even when the
        engine's stop throws. */
    method Stop(hasDebug: bool, stopThrows: bool)
      modifies this
      ensures Value() == StopStep(old(Value()), hasDebug)
    {
      if recognition.Some? {
        calls := calls + [EngineStop(recognition.value)];
        if stopThrows {
          EmitDebug(hasDebug);   // "Error stopping recognition"
        } else {
          EmitDebug(hasDebug);   // "Stopped speech recognition"
        }
        recognition := None;
        retryCount := 0;
      }
    }

    method HandleStart(s: nat)
      requires s in sessions
      modifies this
      ensures Value() == StartedStep(old(Value()), s)
    {
      EmitDebug(sessions[s].callbacks.onDebug);
      sessions := sessions[s := sessions[s].(hasReceivedResult := false)];
    }

    method HandleResult(s: nat, slots: seq<Slot>)
      requires s in sessions
      modifies this
      ensures Value() == ResultStep(old(Value()), s, slots)
    {
      var cb := sessions[s].callbacks;
      sessions := sessions[s := sessions[s].(hasReceivedResult := true)];
      ghost var marked := Value();
      var finalTranscript := AggregateFinal(slots);
      finalTranscript := Trim(finalTranscript);
      assert finalTranscript == Trim(Joined(slots));
      if finalTranscript != "" {
        Forward(cb, finalTranscript);
        assert Value() == marked.(trace := marked.trace + DebugIf(cb.onDebug) + [Result(finalTranscript)], retryCount := 0);
      }
    }

    /** onResult with the final text, after its debug entry; the counter is reset. */
    method Forward(cb: Callbacks, text: string)
      modifies this
      ensures Value() == old(Value()).(trace := old(trace) + DebugIf(cb.onDebug) + [Result(text)], retryCount := 0)
    {
      EmitDebug(cb.onDebug);
      trace := trace + [Result(text)];
      retryCount := 0;
    }

    method HandleError(s: nat, env: Env, code: string)
      requires s in sessions
      modifies this
      ensures Value() == ErrorStep(old(Value()), env, s, code)
    {
      if recognition.None? { return; }
      var cb := sessions[s].callbacks;
      EmitDebug(cb.onDebug);
      if code == "network" {
        if IsLocalhost(env) {
          EmitError(cb, NetworkLocalMessage);
          return;
        }
        retryCount := retryCount + 1;
        ghost var counted := Value();
        if retryCount < MaxRetries {
          EmitDebug(cb.onDebug);
          EmitDebug(cb.onDebug);
          pending := pending + [cb];
          assert trace == counted.trace + (DebugIf(cb.onDebug) + DebugIf(cb.onDebug));
        } else {
          EmitDebug(cb.onDebug);
          EmitError(cb, NetworkFatalMessage);
          retryCount := 0;
          assert trace == counted.trace + (DebugIf(cb.onDebug) + Notify(cb, NetworkFatalMessage));
        }
      } else if code == "no-speech" {
        EmitDebug(cb.onDebug);
      } else if code == "audio-capture" {
        EmitError(cb, AudioCaptureMessage);
      } else if code == "not-allowed" {
        EmitError(cb, NotAllowedMessage);
      } else if code == "aborted" {
        EmitDebug(cb.onDebug);
      } else {
        EmitError(cb, OtherErrorMessage(code));
      }
    }

    /** onDebug, when the caller supplied it. */
    method EmitDebug(onDebug: bool)
      modifies this
      ensures Value() == old(Value()).(trace := old(trace) + DebugIf(onDebug))
    {
      if onDebug { trace := trace + [Debug]; }
    }

    /** onError with `message`, when the caller supplied it. */
    method EmitError(cb: Callbacks, message: string)
      modifies this
      ensures Value() == old(Value()).(trace := old(trace) + Notify(cb, message))
    {
      if cb.onError { trace := trace + [Error(message)]; }
    }

    method RetryFire(abortThrows: bool, startThrows: bool)
      requires |pending| > 0
      modifies this
      ensures Value() == RetryStep(old(Value()), abortThrows, startThrows)
    {
      var cb := pending[0];
      pending := pending[1..];
      if recognition.Some? {
        var id := recognition.value;
        calls := calls + [EngineAbort(id)];
        var failed := abortThrows;
        if !abortThrows {
          calls := calls + [EngineStart(id)];
          failed := startThrows;
        }
        EmitDebug(cb.onDebug);
        if failed {
          EmitError(cb, RetryFailedMessage(retryCount));
        }
      }
    }

    method HandleEnd(s: nat)
      requires s in sessions
      modifies this
      ensures Value() == EndedStep(old(Value()), s)
    {
      var cb := sessions[s].callbacks;
      EmitDebug(cb.onDebug);
      if !sessions[s].hasReceivedResult && retryCount == 0 {
        EmitDebug(cb.onDebug);
      }
    }
  }
}
