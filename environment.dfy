/** The browser as seen by the speech controller: an injected record instead of
    the global `window`, and the three classifiers computed from it. */
module Environment {

  /** What the controller reads from the page's global environment.
      `hasWindow` is false outside a browser (server-side rendering). */
  datatype Env = Env(
    hasWindow: bool,
    hasSpeechRecognition: bool,        // window.SpeechRecognition
    hasWebkitSpeechRecognition: bool,  // window.webkitSpeechRecognition
    hostname: string,                  // window.location.hostname
    isSecureContextFlag: bool,         // window.isSecureContext
    protocol: string)                  // window.location.protocol

  /** Hostnames treated as local development. */
  const LoopbackHostnames: set<string> := {"localhost", "127.0.0.1"}

  /** A speech engine is available: a window exists and exposes either vendor entry point.
      Outside a browser it is false (and, being total, it never fails). */
  function BrowserSupportsSpeech(env: Env): (r: bool)
    ensures !env.hasWindow ==> !r
    ensures r ==> env.hasSpeechRecognition || env.hasWebkitSpeechRecognition
    ensures env.hasWindow && env.hasWebkitSpeechRecognition ==> r
    ensures env.hasWindow && env.hasSpeechRecognition ==> r
  {
    env.hasWindow && (env.hasSpeechRecognition || env.hasWebkitSpeechRecognition)
  }

  /** The page is served from a loopback host. */
  function IsLocalhost(env: Env): (r: bool)
    ensures r <==> env.hasWindow && env.hostname in LoopbackHostnames
  {
    env.hasWindow && (env.hostname == "localhost" || env.hostname == "127.0.0.1")
  }

  /** The page may use the microphone: loopback hosts are exempt, otherwise the
      browser's secure-context flag or an `https:` protocol is needed. */
  function IsSecureContext(env: Env): (r: bool)
    ensures IsLocalhost(env) ==> r
    ensures !IsLocalhost(env) ==> (r <==> env.hasWindow && (env.isSecureContextFlag || env.protocol == "https:"))
    ensures r ==> env.hasWindow
  {
    if IsLocalhost(env) then true
    else env.hasWindow && (env.isSecureContextFlag || env.protocol == "https:")
  }
}
