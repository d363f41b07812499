/**
 * `_checkStaticSignals` of the real-time detector: an ordered list of
 * environment checks, the first that matches marks the session as a
 * static bot. The host objects it reads (navigator, screen, window.chrome)
 * are replaced by an `Environment` record of what the checks observe.
 */
module StaticSignals {
  import opened Wrappers

  /** Shape of `window.chrome.runtime`: absent or falsy, or present with or without `onConnect`. */
  datatype ChromeRuntime = NoRuntime | Runtime(onConnectDefined: bool)

  datatype Environment = Environment(
    webdriver: bool,            // truthiness of navigator.webdriver
    userAgent: string,          // navigator.userAgent
    screenWidth: real,          // window.screen.width
    screenHeight: real,         // window.screen.height
    webdriverScriptFn: bool,    // truthiness of navigator.__webdriver_script_fn
    driverEvaluate: bool,       // truthiness of navigator.__driver_evaluate
    webdriverEvaluate: bool,    // truthiness of navigator.__webdriver_evaluate
    chromeRuntime: ChromeRuntime,
    hasPlugins: bool)           // truthiness of navigator.plugins

  /** The six checks, in the order they are tried. */
  datatype Signal =
    | WebDriverFlag
    | BotUserAgent
    | ZeroScreen
    | AutomationProperties
    | SuspiciousChromeRuntime
    | ChromeWithoutPlugins

  const BotKeywords: seq<string> := ["bot", "crawler", "spider", "headless", "gptbot"]

  /** ASCII lower-casing of one character. */
  function LowerChar(c: char): (r: char)
    ensures 'A' <= c <= 'Z' ==> 'a' <= r <= 'z'
    ensures !('A' <= c <= 'Z') ==> r == c
  {
    if 'A' <= c <= 'Z' then (c as int - 'A' as int + 'a' as int) as char else c
  }

  function ToLower(s: string): (r: string)
    ensures |r| == |s|
    ensures forall i :: 0 <= i < |s| ==> r[i] == LowerChar(s[i])
  {
    seq(|s|, i requires 0 <= i < |s| => LowerChar(s[i]))
  }

  predicate StartsWith(s: string, p: string)
  {
    |p| <= |s| && s[..|p|] == p
  }

  /** `s.includes(sub)` */
  predicate Contains(s: string, sub: string)
    decreases |s|
  {
    StartsWith(s, sub) || (|s| > 0 && Contains(s[1..], sub))
  }

  /** `sub` occurs in `s` at offset `i`. */
  predicate OccursAt(s: string, sub: string, i: int)
  {
    0 <= i <= |s| - |sub| && s[i..i + |sub|] == sub
  }

  /** A slice of the tail is the slice of the string one position further on. */
  lemma TailSlice(s: string, i: nat, n: nat)
    requires 1 <= i && i + n <= |s|
    ensures s[1..][i - 1..i - 1 + n] == s[i..i + n]
  {
    var t := s[1..];
    assert forall k :: i <= k < i + n ==> s[k] == t[k - 1];
  }

  /** Past a non-matching start, every occurrence is an occurrence in the tail. */
  lemma OccursInTail(s: string, sub: string, i: int)
    requires !StartsWith(s, sub) && OccursAt(s, sub, i)
    ensures i > 0 && OccursAt(s[1..], sub, i - 1)
  {
    assert |sub| <= |s| ==> s[..|sub|] == s[0..|sub|];
    TailSlice(s, i, |sub|);
  }

  /** `Contains` holds exactly when `sub` occurs at some offset of `s`. */
  lemma {:induction false} ContainsIff(s: string, sub: string)
    ensures Contains(s, sub) <==> exists i :: OccursAt(s, sub, i)
  {
    if StartsWith(s, sub) {
      assert OccursAt(s, sub, 0);
    } else if |s| > 0 {
      ContainsIff(s[1..], sub);
      forall j | OccursAt(s[1..], sub, j)
        ensures OccursAt(s, sub, j + 1)
      {
        TailSlice(s, j + 1, |sub|);
      }
      forall i | OccursAt(s, sub, i)
        ensures OccursAt(s[1..], sub, i - 1)
      {
        OccursInTail(s, sub, i);
      }
    } else {
      assert forall i :: !OccursAt(s, sub, i);
    }
  }

  /** The "gptbot" keyword never decides: any agent string that contains it contains "bot". */
  lemma GptBotKeywordIsRedundant(s: string)
    requires Contains(s, "gptbot")
    ensures Contains(s, "bot")
  {
    ContainsIff(s, "gptbot");
    var i :| OccursAt(s, "gptbot", i);
    assert s[i + 3..i + 6] == s[i..i + 6][3..];
    assert OccursAt(s, "bot", i + 3);
    ContainsIff(s, "bot");
  }

  /** `botKeywords.some(keyword => ua.toLowerCase().includes(keyword))` */
  predicate HasBotKeyword(userAgent: string)
  {
    exists k :: 0 <= k < |BotKeywords| && Contains(ToLower(userAgent), BotKeywords[k])
  }

  /** Whether one check matches the environment. */
  predicate Matches(env: Environment, sig: Signal)
  {
    match sig
    case WebDriverFlag => env.webdriver
    case BotUserAgent => HasBotKeyword(env.userAgent)
    case ZeroScreen => env.screenWidth == 0.0 || env.screenHeight == 0.0
    case AutomationProperties => env.webdriverScriptFn || env.driverEvaluate || env.webdriverEvaluate
    case SuspiciousChromeRuntime => env.chromeRuntime.Runtime? && !env.chromeRuntime.onConnectDefined
    case ChromeWithoutPlugins => Contains(env.userAgent, "Chrome") && !env.hasPlugins
  }

  /** Position of a check in the order of evaluation. */
  function Rank(sig: Signal): nat
  {
    match sig
    case WebDriverFlag => 0
    case BotUserAgent => 1
    case ZeroScreen => 2
    case AutomationProperties => 3
    case SuspiciousChromeRuntime => 4
    case ChromeWithoutPlugins => 5
  }

  /** The check that returns `true`, if any: the body of `_checkStaticSignals` with its early returns. */
  function FirstSignal(env: Environment): (r: Option<Signal>)
    ensures r.Some? ==> Matches(env, r.value)
  {
    if env.webdriver then Some(WebDriverFlag)
    else if HasBotKeyword(env.userAgent) then Some(BotUserAgent)
    else if env.screenWidth == 0.0 || env.screenHeight == 0.0 then Some(ZeroScreen)
    else if env.webdriverScriptFn || env.driverEvaluate || env.webdriverEvaluate then Some(AutomationProperties)
    else if env.chromeRuntime.Runtime? && !env.chromeRuntime.onConnectDefined then Some(SuspiciousChromeRuntime)
    else if Contains(env.userAgent, "Chrome") && !env.hasPlugins then Some(ChromeWithoutPlugins)
    else None
  }

  /** The reported check is the first matching one in the order of evaluation; no report means no check matches. */
  lemma FirstSignalIsFirstMatch(env: Environment)
    ensures FirstSignal(env).Some? ==> forall sig :: Rank(sig) < Rank(FirstSignal(env).value) ==> !Matches(env, sig)
    ensures FirstSignal(env).None? <==> forall sig :: !Matches(env, sig)
  {
    var r := FirstSignal(env);
    if r.Some? {
      forall sig | Rank(sig) < Rank(r.value)
        ensures !Matches(env, sig)
      {
        match sig {
          case WebDriverFlag =>
          case BotUserAgent =>
          case ZeroScreen =>
          case AutomationProperties =>
          case SuspiciousChromeRuntime =>
          case ChromeWithoutPlugins =>
        }
      }
      assert Matches(env, r.value);
    } else {
      forall sig
        ensures !Matches(env, sig)
      {
        match sig {
          case WebDriverFlag =>
          case BotUserAgent =>
          case ZeroScreen =>
          case AutomationProperties =>
          case SuspiciousChromeRuntime =>
          case ChromeWithoutPlugins =>
        }
      }
    }
  }

  /** `_checkStaticSignals()`: a static bot exactly when one of the six checks matches. */
  function CheckStaticSignals(env: Environment): (r: bool)
    ensures r <==> exists sig :: Matches(env, sig)
    ensures env.webdriver ==> r
  {
    FirstSignalIsFirstMatch(env);
    FirstSignal(env).Some?
  }
}
