/** What the callers of the speech controller observe: the messages onError receives and
    the texts onResult receives, step by step and over runs of several events. */
module SpeechProperties {
  import opened Environment
  import opened Transcript
  import opened Speech

  /** The messages passed to onError, in order. */
  function ErrorMessages(t: seq<Output>): seq<string> {
    if t == [] then [] else (if t[0].Error? then [t[0].message] else []) + ErrorMessages(t[1..])
  }

  /** The texts passed to onResult, in order. */
  function ResultTexts(t: seq<Output>): seq<string> {
    if t == [] then [] else (if t[0].Result? then [t[0].text] else []) + ResultTexts(t[1..])
  }

  /** The callback invocations appended between two points of a run. */
  function Since(before: seq<Output>, after: seq<Output>): seq<Output>
    requires before <= after
  {
    after[|before|..]
  }

  lemma {:induction false} ErrorMessagesAppend(a: seq<Output>, b: seq<Output>)
    ensures ErrorMessages(a + b) == ErrorMessages(a) + ErrorMessages(b)
    decreases |a|
  {
    if a == [] {
      assert a + b == b;
    } else {
      assert (a + b)[0] == a[0];
      assert (a + b)[1..] == a[1..] + b;
      ErrorMessagesAppend(a[1..], b);
    }
  }

  lemma {:induction false} ResultTextsAppend(a: seq<Output>, b: seq<Output>)
    ensures ResultTexts(a + b) == ResultTexts(a) + ResultTexts(b)
    decreases |a|
  {
    if a == [] {
      assert a + b == b;
    } else {
      assert (a + b)[0] == a[0];
      assert (a + b)[1..] == a[1..] + b;
      ResultTextsAppend(a[1..], b);
    }
  }

  /** What was reported over a run splits at any intermediate point. */
  lemma SinceSplit(a: seq<Output>, b: seq<Output>, c: seq<Output>)
    requires a <= b <= c
    ensures ErrorMessages(Since(a, c)) == ErrorMessages(Since(a, b)) + ErrorMessages(Since(b, c))
    ensures ResultTexts(Since(a, c)) == ResultTexts(Since(a, b)) + ResultTexts(Since(b, c))
  {
    assert Since(a, c) == Since(a, b) + Since(b, c);
    ErrorMessagesAppend(Since(a, b), Since(b, c));
    ResultTextsAppend(Since(a, b), Since(b, c));
  }

  lemma ReportsOfAppended(before: seq<Output>, d: seq<Output>, tail: seq<Output>)
    ensures ErrorMessages(Since(before, before + d + tail)) == ErrorMessages(d) + ErrorMessages(tail)
    ensures ResultTexts(Since(before, before + d + tail)) == ResultTexts(d) + ResultTexts(tail)
  {
    assert Since(before, before + d + tail) == d + tail;
    ErrorMessagesAppend(d, tail);
    ResultTextsAppend(d, tail);
  }

  lemma DebugReportsNothing(b: bool)
    ensures ErrorMessages(DebugIf(b)) == [] && ResultTexts(DebugIf(b)) == []
  {
  }

  lemma NotifyReports(cb: Callbacks, m: string)
    ensures ErrorMessages(Notify(cb, m)) == (if cb.onError then [m] else [])
    ensures ResultTexts(Notify(cb, m)) == []
  {
  }

  /** What onError receives when session `s` reports `code` (speech.ts:148-191): nothing with
      no active session or for the silent codes, nothing for a network error that will be
      retried, and otherwise exactly one fixed or code-embedding message. */
  function ErrorReport(st: State, env: Env, s: nat, code: string): (r: seq<string>)
    requires s in st.sessions
    ensures |r| <= 1
    ensures code == "no-speech" || code == "aborted" ==> r == []
  {
    var cb := st.sessions[s].callbacks;
    if st.recognition.None? || !cb.onError then []
    else if code == "network" then
      if IsLocalhost(env) then [NetworkLocalMessage]
      else if st.retryCount + 1 < MaxRetries then []
      else [NetworkFatalMessage]
    else if code == "no-speech" || code == "aborted" then []
    else if code == "audio-capture" then [AudioCaptureMessage]
    else if code == "not-allowed" then [NotAllowedMessage]
    else [OtherErrorMessage(code)]
  }

  lemma ErrorStepReports(st: State, env: Env, s: nat, code: string)
    requires s in st.sessions
    ensures var r := ErrorStep(st, env, s, code);
              ErrorMessages(Since(st.trace, r.trace)) == ErrorReport(st, env, s, code)
              && ResultTexts(Since(st.trace, r.trace)) == []
  {
    var r := ErrorStep(st, env, s, code);
    if st.recognition.None? {
      assert Since(st.trace, r.trace) == [];
    } else if code == "network" {
      NetworkErrorReports(st, env, s);
    } else {
      OtherErrorReports(st, env, s, code);
    }
  }

  lemma NetworkErrorReports(st: State, env: Env, s: nat)
    requires s in st.sessions && st.recognition.Some?
    ensures var r := ErrorStep(st, env, s, "network");
              ErrorMessages(Since(st.trace, r.trace)) == ErrorReport(st, env, s, "network")
              && ResultTexts(Since(st.trace, r.trace)) == []
  {
    var r := ErrorStep(st, env, s, "network");
    var cb := st.sessions[s].callbacks;
    var d := DebugIf(cb.onDebug);
    DebugReportsNothing(cb.onDebug);
    if IsLocalhost(env) {
      NotifyReports(cb, NetworkLocalMessage);
      ReportsOfAppended(st.trace, d, Notify(cb, NetworkLocalMessage));
    } else if st.retryCount + 1 < MaxRetries {
      ErrorMessagesAppend(d, d);
      ResultTextsAppend(d, d);
      ReportsOfAppended(st.trace, d, d + d);
    } else {
      NotifyReports(cb, NetworkFatalMessage);
      ErrorMessagesAppend(d, Notify(cb, NetworkFatalMessage));
      ResultTextsAppend(d, Notify(cb, NetworkFatalMessage));
      ReportsOfAppended(st.trace, d, d + Notify(cb, NetworkFatalMessage));
    }
  }

  lemma OtherErrorReports(st: State, env: Env, s: nat, code: string)
    requires s in st.sessions && st.recognition.Some? && code != "network"
    ensures var r := ErrorStep(st, env, s, code);
              ErrorMessages(Since(st.trace, r.trace)) == ErrorReport(st, env, s, code)
              && ResultTexts(Since(st.trace, r.trace)) == []
  {
    var r := ErrorStep(st, env, s, code);
    var cb := st.sessions[s].callbacks;
    var d := DebugIf(cb.onDebug);
    DebugReportsNothing(cb.onDebug);
    if code == "no-speech" || code == "aborted" {
      assert r.trace == st.trace + d + d;
      ReportsOfAppended(st.trace, d, d);
    } else {
      var m := if code == "audio-capture" then AudioCaptureMessage
               else if code == "not-allowed" then NotAllowedMessage
               else OtherErrorMessage(code);
      assert r.trace == st.trace + d + Notify(cb, m);
      assert ErrorReport(st, env, s, code) == if cb.onError then [m] else [];
      NotifyReports(cb, m);
      ReportsOfAppended(st.trace, d, Notify(cb, m));
    }
  }

  /** A failed start calls onError exactly once (when supplied) with one of the four fixed
      messages and never calls onResult; a successful start reports nothing. */
  lemma StartStepReports(st: State, env: Env, cb: Callbacks, f: StartFaults)
    ensures var (r, ok) := StartStep(st, env, cb, f);
              ResultTexts(Since(st.trace, r.trace)) == []
              && (ok ==> ErrorMessages(Since(st.trace, r.trace)) == [])
              && (!ok ==> ErrorMessages(Since(st.trace, r.trace))
                          == (if cb.onError then [StartFailureMessage(StartException(env, f).value)] else []))
              && (forall m :: m in ErrorMessages(Since(st.trace, r.trace)) ==> m in StartFailureMessages)
  {
    var (r, ok) := StartStep(st, env, cb, f);
    var d := DebugIf(cb.onDebug);
    DebugReportsNothing(cb.onDebug);
    if ok {
      assert Since(st.trace, r.trace) == d;
    } else {
      var m := StartFailureMessage(StartException(env, f).value);
      assert Since(st.trace, r.trace) == d + Notify(cb, m);
      NotifyReports(cb, m);
      ErrorMessagesAppend(d, Notify(cb, m));
      ResultTextsAppend(d, Notify(cb, m));
    }
  }

  /** A result event forwards the trimmed final text once, or nothing, and reports no error. */
  lemma ResultStepReports(st: State, s: nat, slots: seq<Slot>)
    requires s in st.sessions
    ensures var r := ResultStep(st, s, slots);
              ResultTexts(Since(st.trace, r.trace)) == (if Trim(Joined(slots)) == "" then [] else [Trim(Joined(slots))])
              && ErrorMessages(Since(st.trace, r.trace)) == []
  {
    var r := ResultStep(st, s, slots);
    var text := Trim(Joined(slots));
    if text == "" {
      assert r.trace == st.trace;
      assert Since(st.trace, r.trace) == [];
    } else {
      var d := DebugIf(st.sessions[s].callbacks.onDebug);
      DebugReportsNothing(st.sessions[s].callbacks.onDebug);
      ResultReports(text);
      assert r.trace == st.trace + d + [Result(text)];
      ReportsOfAppended(st.trace, d, [Result(text)]);
    }
  }

  lemma ResultReports(text: string)
    ensures ErrorMessages([Result(text)]) == [] && ResultTexts([Result(text)]) == [text]
  {
  }

  /** A retry timer firing reports an error only when the abort or the start of the active
      session throws, with the attempt number the counter holds at that moment. */
  lemma RetryStepReports(st: State, abortThrows: bool, startThrows: bool)
    requires |st.pending| > 0
    ensures var r := RetryStep(st, abortThrows, startThrows);
              ResultTexts(Since(st.trace, r.trace)) == []
              && ErrorMessages(Since(st.trace, r.trace))
                 == (if st.recognition.Some? && (abortThrows || startThrows) && st.pending[0].onError
                     then [RetryFailedMessage(st.retryCount)] else [])
  {
    var r := RetryStep(st, abortThrows, startThrows);
    var cb := st.pending[0];
    if st.recognition.Some? {
      var d := DebugIf(cb.onDebug);
      DebugReportsNothing(cb.onDebug);
      if abortThrows || startThrows {
        var n := Notify(cb, RetryFailedMessage(st.retryCount));
        NotifyReports(cb, RetryFailedMessage(st.retryCount));
        assert r.trace == st.trace + d + n;
        ReportsOfAppended(st.trace, d, n);
      } else {
        assert r.trace == st.trace + d + [];
        ReportsOfAppended(st.trace, d, []);
      }
    } else {
      assert Since(st.trace, r.trace) == [];
    }
  }

  /** Stop is idempotent: a second stop, with or without a debug callback, changes nothing. */
  lemma StopIdempotent(st: State, d1: bool, d2: bool)
    ensures StopStep(StopStep(st, d1), d2) == StopStep(st, d1)
  {
  }

  lemma RunOne(st: State, a: Event)
    ensures Run(st, [a]) == Step(st, a)
  {
    assert Run(st, [a]) == Run(Step(st, a), []);
  }

  lemma RunTwo(st: State, a: Event, b: Event)
    ensures Run(st, [a, b]) == Step(Step(st, a), b)
  {
    assert [a, b][1..] == [b];
    RunOne(Step(st, a), b);
  }

  lemma RunThree(st: State, a: Event, b: Event, c: Event)
    ensures Run(st, [a, b, c]) == Step(Step(Step(st, a), b), c)
  {
    assert [a, b, c][1..] == [b, c];
    RunTwo(Step(st, a), b, c);
  }

  lemma RunFour(st: State, a: Event, b: Event, c: Event, d: Event)
    ensures Run(st, [a, b, c, d]) == Step(Step(Step(Step(st, a), b), c), d)
  {
    assert [a, b, c, d][1..] == [b, c, d];
    RunThree(Step(st, a), b, c, d);
  }

  lemma RunFive(st: State, a: Event, b: Event, c: Event, d: Event, e: Event)
    ensures Run(st, [a, b, c, d, e]) == Step(Step(Step(Step(Step(st, a), b), c), d), e)
  {
    assert [a, b, c, d, e][1..] == [b, c, d, e];
    RunFour(Step(st, a), b, c, d, e);
  }

  lemma StepError(st: State, env: Env, s: nat, code: string)
    requires s in st.sessions
    ensures Step(st, EngineError(s, env, code)) == ErrorStep(st, env, s, code)
  {
    assert Enabled(st, EngineError(s, env, code));
  }

  lemma StepRetry(st: State, abortThrows: bool, startThrows: bool)
    requires |st.pending| > 0
    ensures Step(st, RetryTimerFired(abortThrows, startThrows)) == RetryStep(st, abortThrows, startThrows)
  {
    assert Enabled(st, RetryTimerFired(abortThrows, startThrows));
  }

  /** One network error that is retried, followed by its timer firing: the counter goes up
      by one and the active session is aborted and started again, with nothing reported. */
  lemma RetriedRound(st: State, env: Env, s: nat)
    requires st.Valid() && st.recognition.Some? && s in st.sessions
    requires st.retryCount + 1 < MaxRetries && st.pending == [] && !IsLocalhost(env)
    ensures var r := Step(Step(st, EngineError(s, env, "network")), RetryTimerFired(false, false));
            r.Valid() && r.retryCount == st.retryCount + 1 && r.pending == []
            && r.recognition == st.recognition && r.sessions == st.sessions
            && r.calls == st.calls + [EngineAbort(st.recognition.value), EngineStart(st.recognition.value)]
            && st.trace <= r.trace
            && ErrorMessages(Since(st.trace, r.trace)) == [] && ResultTexts(Since(st.trace, r.trace)) == []
  {
    var e := ErrorStep(st, env, s, "network");
    StepError(st, env, s, "network");
    StepRetry(e, false, false);
    var f := RetryStep(e, false, false);
    ErrorStepReports(st, env, s, "network");
    RetryStepReports(e, false, false);
    SinceSplit(st.trace, e.trace, f.trace);
  }

  /** The network error that exhausts the retries: the fatal message, no restart, counter 0. */
  lemma FatalRound(st: State, env: Env, s: nat)
    requires st.Valid() && st.recognition.Some? && s in st.sessions
    requires st.retryCount + 1 == MaxRetries && !IsLocalhost(env)
    ensures var r := Step(st, EngineError(s, env, "network"));
            r.retryCount == 0 && r.pending == st.pending && r.recognition == st.recognition
            && r.calls == st.calls && st.trace <= r.trace
            && ErrorMessages(Since(st.trace, r.trace))
               == (if st.sessions[s].callbacks.onError then [NetworkFatalMessage] else [])
            && ResultTexts(Since(st.trace, r.trace)) == []
  {
    StepError(st, env, s, "network");
    ErrorStepReports(st, env, s, "network");
  }

  /** The first two network errors from a zero counter, each followed by its timer. */
  lemma TwoRetriedRounds(st: State, env: Env, s: nat)
    requires st.Valid() && st.recognition.Some? && s in st.sessions
    requires st.retryCount == 0 && st.pending == [] && !IsLocalhost(env)
    ensures var id := st.recognition.value;
            var err := EngineError(s, env, "network");
            var fire := RetryTimerFired(false, false);
            var r := Step(Step(Step(Step(st, err), fire), err), fire);
            r.Valid() && r.retryCount == 2 && r.pending == []
            && r.recognition == st.recognition && r.sessions == st.sessions
            && r.calls == st.calls + [EngineAbort(id), EngineStart(id), EngineAbort(id), EngineStart(id)]
            && st.trace <= r.trace
            && ErrorMessages(Since(st.trace, r.trace)) == [] && ResultTexts(Since(st.trace, r.trace)) == []
  {
    var id := st.recognition.value;
    var err := EngineError(s, env, "network");
    var fire := RetryTimerFired(false, false);
    var f1 := Step(Step(st, err), fire);
    RetriedRound(st, env, s);
    var f2 := Step(Step(f1, err), fire);
    RetriedRound(f1, env, s);
    SinceSplit(st.trace, f1.trace, f2.trace);
    assert f2.calls == st.calls + [EngineAbort(id), EngineStart(id)] + [EngineAbort(id), EngineStart(id)];
  }

  /** Three consecutive network errors on a non-loopback host, each retry timer firing in
      between and no result arriving: two restarts of the active session, then one fatal
      "check your internet connection" error, with the counter back at 0. */
  lemma ThreeNetworkErrors(st: State, env: Env, s: nat)
    requires st.Valid() && st.recognition.Some? && s in st.sessions
    requires st.retryCount == 0 && st.pending == [] && !IsLocalhost(env)
    ensures var id := st.recognition.value;
            var r := Run(st, [EngineError(s, env, "network"), RetryTimerFired(false, false),
                              EngineError(s, env, "network"), RetryTimerFired(false, false),
                              EngineError(s, env, "network")]);
            r.calls == st.calls + [EngineAbort(id), EngineStart(id), EngineAbort(id), EngineStart(id)]
            && ErrorMessages(Since(st.trace, r.trace))
               == (if st.sessions[s].callbacks.onError then [NetworkFatalMessage] else [])
            && ResultTexts(Since(st.trace, r.trace)) == []
            && r.retryCount == 0 && r.pending == [] && r.recognition == st.recognition
  {
    var err := EngineError(s, env, "network");
    var fire := RetryTimerFired(false, false);
    RunFive(st, err, fire, err, fire, err);
    var f2 := Step(Step(Step(Step(st, err), fire), err), fire);
    TwoRetriedRounds(st, env, s);
    FatalRound(f2, env, s);
    SinceSplit(st.trace, f2.trace, Step(f2, err).trace);
  }

  lemma StepResult(st: State, s: nat, slots: seq<Slot>)
    requires s in st.sessions
    ensures Step(st, EngineResult(s, slots)) == ResultStep(st, s, slots)
  {
    assert Enabled(st, EngineResult(s, slots));
  }

  /** A result event whose only slot is interim forwards nothing; the same text arriving
      final forwards it, trimmed, and resets the retry counter. */
  lemma InterimThenFinal(st: State, s: nat, t: string)
    requires s in st.sessions && Trim(t) != ""
    ensures var r1 := Run(st, [EngineResult(s, [Slot(t, false)])]);
            ResultTexts(Since(st.trace, r1.trace)) == [] && r1.retryCount == st.retryCount
    ensures var r2 := Run(st, [EngineResult(s, [Slot(t, false)]), EngineResult(s, [Slot(t, true)])]);
            ResultTexts(Since(st.trace, r2.trace)) == [Trim(t)] && r2.retryCount == 0
  {
    var interim := EngineResult(s, [Slot(t, false)]);
    var final := EngineResult(s, [Slot(t, true)]);
    assert [Slot(t, false)][..0] == [];
    assert Joined([Slot(t, false)]) == "" + "";
    assert Trim(Joined([Slot(t, false)])) == "";
    SingleFinalSlot(t);
    var r1 := ResultStep(st, s, [Slot(t, false)]);
    var r2 := ResultStep(r1, s, [Slot(t, true)]);
    StepResult(st, s, [Slot(t, false)]);
    StepResult(r1, s, [Slot(t, true)]);
    RunOne(st, interim);
    RunTwo(st, interim, final);
    ResultStepReports(st, s, [Slot(t, false)]);
    ResultStepReports(r1, s, [Slot(t, true)]);
    SinceSplit(st.trace, r1.trace, r2.trace);
  }

  /** On a loopback host without a speech engine, starting returns false, creates no session
      and reports the generic message, not the "not supported" text it threw. */
  lemma UnsupportedOnLocalhost(st: State, env: Env, cb: Callbacks, f: StartFaults)
    requires env.hasWindow && env.hostname == "localhost"
    requires !env.hasSpeechRecognition && !env.hasWebkitSpeechRecognition
    ensures var (r, ok) := StartStep(st, env, cb, f);
            !ok && r.recognition == st.recognition && r.sessions == st.sessions && r.calls == st.calls
            && ErrorMessages(Since(st.trace, r.trace)) == (if cb.onError then [StartFailedMessage] else [])
  {
    StartStepReports(st, env, cb, f);
  }

  /** The restart after a network error targets whichever session is active when the timer
      fires: if the user stops and starts again within the second, the new session is
      aborted and restarted by the old session's timer. */
  lemma RetryRestartsNewerSession(env: Env, cb: Callbacks)
    requires BrowserSupportsSpeech(env) && IsSecureContext(env) && !IsLocalhost(env)
    ensures var ok := StartFaults(false, Completes, Completes);
            var r := Run(Initial, [StartRequested(env, cb, ok), EngineError(0, env, "network"),
                                   StopRequested(false), StartRequested(env, cb, ok),
                                   RetryTimerFired(false, false)]);
            r.recognition == Some(1) && r.calls[|r.calls| - 2..] == [EngineAbort(1), EngineStart(1)]
  {
    var ok := StartFaults(false, Completes, Completes);
    var s1 := StartStep(Initial, env, cb, ok).0;
    var s2 := ErrorStep(s1, env, 0, "network");
    var s3 := StopStep(s2, false);
    var s4 := StartStep(s3, env, cb, ok).0;
    var s5 := RetryStep(s4, false, false);
    RunFive(Initial, StartRequested(env, cb, ok), EngineError(0, env, "network"),
            StopRequested(false), StartRequested(env, cb, ok), RetryTimerFired(false, false));
  }

  /** Stop resets the counter only when a session exists. After a network error and a
      restart whose constructor throws, no session is active, the counter still holds 1,
      and stopping leaves it there. */
  lemma StopWithoutSessionKeepsCounter(env: Env, cb: Callbacks)
    requires BrowserSupportsSpeech(env) && IsSecureContext(env) && !IsLocalhost(env)
    ensures var ok := StartFaults(false, Completes, Completes);
            var broken := StartFaults(false, Throws(PlainError), Completes);
            var r := Run(Initial, [StartRequested(env, cb, ok), EngineError(0, env, "network"),
                                   StartRequested(env, cb, broken), StopRequested(false)]);
            r.recognition == None && r.retryCount == 1
  {
    var ok := StartFaults(false, Completes, Completes);
    var broken := StartFaults(false, Throws(PlainError), Completes);
    var s1 := StartStep(Initial, env, cb, ok).0;
    var s2 := ErrorStep(s1, env, 0, "network");
    var s3 := StartStep(s2, env, cb, broken).0;
    var s4 := StopStep(s3, false);
    RunFour(Initial, StartRequested(env, cb, ok), EngineError(0, env, "network"),
            StartRequested(env, cb, broken), StopRequested(false));
  }
}
