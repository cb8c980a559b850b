// NetworkDiagnosticsService (networkDiagnostics.ts): the connection probe and
// its retry loop with exponential backoff, the ping summary, the quality
// grading, troubleshooting suggestions, the network-error test and the
// 60-second diagnostics cache. Times are integer milliseconds; the fetch
// outcomes, the clock and the jitter computation (a square root) are parameters.
module NetworkDiagnostics {
  import opened Wrappers
  import opened Strings

  // ---------------------------------------------------------------- one probe

  /** What one fetch of the health endpoint did. */
  datatype FetchOutcome =
    | Responded(latency: int)                  // any HTTP status: the server is reachable
    | Failed(name: string, message: string)    // fetch rejected with an Error
    | FailedWithValue                          // fetch rejected with something that is not an Error

  /** What testServerConnection resolves to, or that it threw. */
  datatype Attempt =
    | Returned(reachable: bool, latency: Option<int>, errorMessage: Option<string>)
    | Threw(message: string)

  /** testServerConnection: every failure is caught and reported as unreachable. */
  function TestServerConnection(o: FetchOutcome): (a: Attempt)
    ensures a.Returned?
    ensures a.reachable <==> o.Responded?
  {
    match o
    case Responded(latency) => Returned(true, Some(latency), None)
    case Failed(name, message) =>
      Returned(false, None, Some(
        if name == "AbortError" then "连接超时 (5秒)"
        else if Contains(message, "fetch") then "网络请求失败，请检查网络连接或服务器状态"
        else message))
    case FailedWithValue => Returned(false, None, Some("未知网络错误"))
  }

  // ---------------------------------------------------------------- retry with backoff

  datatype RetryConfig = RetryConfig(maxRetries: int, initialDelay: int, maxDelay: int, backoffMultiplier: int)

  const DefaultRetryConfig: RetryConfig := RetryConfig(2, 1000, 5000, 2)

  /** The connection test result, with the number of failed attempts before it. */
  datatype ServerTest = ServerTest(reachable: bool, latency: Option<int>, errorMessage: Option<string>, retryAttempts: int)

  /** The delay slept after failed attempt k: initialDelay, then multiplied and capped. */
  function Delay(c: RetryConfig, k: nat): int
  {
    if k == 0 then c.initialDelay
    else
      var prev := Delay(c, k - 1);
      if prev * c.backoffMultiplier < c.maxDelay then prev * c.backoffMultiplier else c.maxDelay
  }

  /** The sleeps after the first n failed attempts. */
  function Delays(c: RetryConfig, n: nat): (r: seq<int>)
    ensures |r| == n && forall k :: 0 <= k < n ==> r[k] == Delay(c, k)
  {
    if n == 0 then [] else Delays(c, n - 1) + [Delay(c, n - 1)]
  }

  /** How many attempts the loop makes at most: maxRetries + 1, none for a negative maxRetries. */
  function Attempts(c: RetryConfig): nat
  {
    if c.maxRetries < 0 then 0 else c.maxRetries + 1
  }

  /** The first attempt below the bound that returned instead of throwing. */
  function FirstReturned(probe: nat -> Attempt, bound: nat): (r: Option<nat>)
    ensures r.Some? ==> r.value < bound && probe(r.value).Returned? && forall k :: 0 <= k < r.value ==> probe(k).Threw?
    ensures r.None? ==> forall k :: 0 <= k < bound ==> probe(k).Threw?
  {
    if bound == 0 then None
    else
      var earlier := FirstReturned(probe, bound - 1);
      if earlier.Some? then earlier
      else if probe(bound - 1).Returned? then Some(bound - 1)
      else None
  }

  /** The outcome the retry loop promises, given the attempts' outcomes. */
  function RetryOutcome(c: RetryConfig, probe: nat -> Attempt): ServerTest
  {
    var n := Attempts(c);
    var first := FirstReturned(probe, n);
    if first.Some? then
      var a := probe(first.value);
      ServerTest(a.reachable, a.latency, a.errorMessage, first.value)
    else
      var message := if n == 0 || probe(n - 1).message == [] then "连接失败" else probe(n - 1).message;
      ServerTest(false, None, Some(message), c.maxRetries + 1)
  }

  /** The sleeps the retry loop makes: one after each failed attempt but the last. */
  function RetrySleeps(c: RetryConfig, probe: nat -> Attempt): seq<int>
  {
    var first := FirstReturned(probe, Attempts(c));
    if first.Some? then Delays(c, first.value)
    else if Attempts(c) == 0 then []
    else Delays(c, Attempts(c) - 1)
  }

  /**
   * testServerConnectionWithRetry: attempt 0..maxRetries, returning the first
   * result that did not throw; after a throw sleep (except after the last
   * attempt) and grow the delay. Also returns the sleeps it made.
   */
  method TestServerConnectionWithRetry(c: RetryConfig, probe: nat -> Attempt)
    returns (result: ServerTest, sleeps: seq<int>)
    ensures result == RetryOutcome(c, probe)
    ensures sleeps == RetrySleeps(c, probe)
  {
    var lastError: Option<string> := None;
    var delay := c.initialDelay;
    sleeps := [];
    var attempt: nat := 0;
    var attempts := Attempts(c);
    while attempt < attempts
      invariant attempt <= attempts
      invariant forall k :: 0 <= k < attempt ==> probe(k).Threw?
      invariant attempt < attempts ==> sleeps == Delays(c, attempt) && delay == Delay(c, attempt)
      invariant attempt == attempts && attempts > 0 ==> sleeps == Delays(c, attempts - 1)
      invariant attempts == 0 ==> sleeps == []
      invariant attempt == 0 ==> lastError.None?
      invariant attempt > 0 ==> lastError == Some(probe(attempt - 1).message)
    {
      var a := probe(attempt);
      if a.Returned? {
        result := ServerTest(a.reachable, a.latency, a.errorMessage, attempt);
        return;
      }
      lastError := Some(a.message);
      if attempt < c.maxRetries {
        sleeps := sleeps + [delay];
        delay := if delay * c.backoffMultiplier < c.maxDelay then delay * c.backoffMultiplier else c.maxDelay;
      }
      attempt := attempt + 1;
    }
    var message := if lastError.None? || lastError.value == [] then "连接失败" else lastError.value;
    result := ServerTest(false, None, Some(message), c.maxRetries + 1);
  }

  /** The probe that testServerConnection makes of a sequence of fetch outcomes. */
  function Probe(outcomes: nat -> FetchOutcome): nat -> Attempt
  {
    (k: nat) => TestServerConnection(outcomes(k))
  }

  /**
   * Because testServerConnection never throws, the retry loop stops after the
   * first attempt, reporting zero retries and no sleep even for an unreachable server.
   */
  lemma RetryStopsAtFirstAttempt(c: RetryConfig, outcomes: nat -> FetchOutcome)
    requires c.maxRetries >= 0
    ensures var t := RetryOutcome(c, Probe(outcomes));
      t.retryAttempts == 0 && (t.reachable <==> outcomes(0).Responded?) && RetrySleeps(c, Probe(outcomes)) == []
  {
    var probe := Probe(outcomes);
    assert probe(0) == TestServerConnection(outcomes(0));
    assert FirstReturned(probe, Attempts(c)) == Some(0);
  }

  /** If every attempt throws, there are maxRetries + 1 attempts, maxRetries sleeps, and the last error is reported. */
  lemma ExhaustedRetries(c: RetryConfig, probe: nat -> Attempt)
    requires c.maxRetries >= 0 && forall k :: 0 <= k <= c.maxRetries ==> probe(k).Threw?
    ensures var t := RetryOutcome(c, probe);
      !t.reachable && t.retryAttempts == c.maxRetries + 1
      && t.errorMessage == Some(if probe(c.maxRetries).message == [] then "连接失败" else probe(c.maxRetries).message)
    ensures |RetrySleeps(c, probe)| == c.maxRetries
  {
    var first := FirstReturned(probe, Attempts(c));
    assert first.None?;
  }

  lemma MulAtLeast(x: int, m: int)
    requires x >= 0 && m >= 1
    ensures x * m >= x
  {
  }

  /** With 0 <= initialDelay <= maxDelay and a multiplier of at least 1, the delays grow but never pass the cap. */
  lemma {:induction false} DelayRule(c: RetryConfig, k: nat)
    requires 0 <= c.initialDelay <= c.maxDelay && c.backoffMultiplier >= 1
    ensures 0 <= Delay(c, k) <= Delay(c, k + 1) <= c.maxDelay
  {
    if k > 0 {
      DelayRule(c, k - 1);
    }
    MulAtLeast(Delay(c, k), c.backoffMultiplier);
  }

  /** The default configuration sleeps 1000 ms then 2000 ms; the cap 5000 is reached at the fourth delay. */
  lemma DefaultDelays()
    ensures Delays(DefaultRetryConfig, 2) == [1000, 2000]
    ensures Delay(DefaultRetryConfig, 3) == 5000
  {
  }

  // ---------------------------------------------------------------- ping summary

  datatype PingResults = PingResults(averageLatency: int, jitter: int, packetLoss: int, latencies: seq<int>)

  const PingCount: nat := 3

  /** Math.round of n / d for n >= 0 and d > 0. */
  function RoundDiv(n: nat, d: nat): nat
    requires d > 0
  {
    (2 * n + d) / (2 * d)
  }

  /**
   * Math.round(n / d) for any integer n and d > 0: the integer r with
   * r - 1/2 <= n / d < r + 1/2 (a half rounds up, towards +infinity).
   */
  function MathRound(n: int, d: nat): (r: int)
    requires d > 0
    ensures 2 * d * r <= 2 * n + d < 2 * d * (r + 1)
  {
    var q := (2 * n + d) / (2 * d);
    assert 2 * n + d == 2 * d * q + (2 * n + d) % (2 * d);
    q
  }

  function Sum(xs: seq<int>): int
  {
    if |xs| == 0 then 0 else Sum(xs[..|xs| - 1]) + xs[|xs| - 1]
  }

  /** A ping counts when the server answered with a truthy (non-zero) latency. */
  predicate Counts(o: FetchOutcome)
  {
    var a := TestServerConnection(o);
    a.reachable && a.latency.Some? && a.latency.value != 0
  }

  /** The latencies the ping loop pushes, in order. */
  function Latencies(outcomes: seq<FetchOutcome>): (r: seq<int>)
    ensures |r| <= |outcomes|
    ensures forall k :: 0 <= k < |r| ==> r[k] != 0
  {
    if |outcomes| == 0 then []
    else
      var last := outcomes[|outcomes| - 1];
      Latencies(outcomes[..|outcomes| - 1]) + (if Counts(last) then [last.latency] else [])
  }

  /** The summary of three pings; the jitter (a standard deviation) is a parameter. */
  function PingSummary(latencies: seq<int>, jitterOf: seq<int> -> int): PingResults
    requires |latencies| <= PingCount
  {
    if |latencies| == 0 then PingResults(0, 0, 100, [])
    else
      var s := Sum(latencies);
      var average := MathRound(s, |latencies|);
      PingResults(average, jitterOf(latencies), RoundDiv((PingCount - |latencies|) * 100, PingCount), latencies)
  }

  /** performSimplifiedPingTests: three probes, collecting the latencies of those that count. */
  method PerformSimplifiedPingTests(outcomes: seq<FetchOutcome>, jitterOf: seq<int> -> int) returns (r: PingResults)
    requires |outcomes| == PingCount
    ensures r == PingSummary(Latencies(outcomes), jitterOf)
  {
    var latencies: seq<int> := [];
    var i := 0;
    while i < PingCount
      invariant 0 <= i <= PingCount
      invariant latencies == Latencies(outcomes[..i])
    {
      var result := TestServerConnection(outcomes[i]);
      if result.reachable && result.latency.Some? && result.latency.value != 0 {
        latencies := latencies + [result.latency.value];
      }
      assert outcomes[..i + 1][..i] == outcomes[..i];
      i := i + 1;
    }
    assert outcomes[..i] == outcomes;
    r := PingSummary(latencies, jitterOf);
  }

  /** No successful ping gives full loss and zero latency and jitter; one success in three gives 67 percent. */
  lemma PingFallback(jitterOf: seq<int> -> int, x: int)
    ensures PingSummary([], jitterOf) == PingResults(0, 0, 100, [])
    ensures x > 0 ==> PingSummary([x], jitterOf).packetLoss == 67 && PingSummary([x], jitterOf).averageLatency == x
  {
    assert Sum([x]) == Sum([]) + x;
    assert RoundDiv(200, 3) == 67;
    if x > 0 {
      assert RoundDiv(x, 1) == (2 * x + 1) / 2;
    }
  }

  /**
   * The average rounds halves up, also below zero: a latency measured across a
   * backward step of the wall clock is negative, and [-1, -2] averages to
   * Math.round(-1.5) = -1.
   */
  lemma NegativeAverageRoundsUp(jitterOf: seq<int> -> int)
    ensures PingSummary([-1, -2], jitterOf).averageLatency == -1
    ensures PingSummary([-1, 1, -1], jitterOf).averageLatency == 0
  {
    assert Sum([-1, -2]) == Sum([-1]) - 2 && Sum([-1]) == Sum([]) - 1;
    assert Sum([-1, 1, -1]) == Sum([-1, 1]) - 1 && Sum([-1, 1]) == Sum([-1]) + 1;
  }

  // ---------------------------------------------------------------- quality

  datatype Quality = Excellent | Good | Fair | Poor | Unknown

  /** evaluateConnectionQuality. */
  function EvaluateConnectionQuality(averageLatency: int, jitter: int, packetLoss: int): Quality
  {
    if packetLoss > 10 then Poor
    else if packetLoss > 5 then Fair
    else if averageLatency <= 50 && jitter <= 10 then Excellent
    else if averageLatency <= 100 && jitter <= 20 then Good
    else if averageLatency <= 200 && jitter <= 50 then Fair
    else Poor
  }

  function Rank(q: Quality): int
  {
    match q
    case Excellent => 3
    case Good => 2
    case Fair => 1
    case Poor => 0
    case Unknown => -1
  }

  /**
   * Never 'unknown'; heavy loss is poor; and at a fixed loss, more latency or
   * jitter never grades better.
   */
  lemma QualityRule(a1: int, j1: int, a2: int, j2: int, loss: int)
    ensures EvaluateConnectionQuality(a1, j1, loss) != Unknown
    ensures loss > 10 ==> EvaluateConnectionQuality(a1, j1, loss) == Poor
    ensures 5 < loss <= 10 ==> EvaluateConnectionQuality(a1, j1, loss) == Fair
    ensures a1 <= a2 && j1 <= j2 ==>
      Rank(EvaluateConnectionQuality(a2, j2, loss)) <= Rank(EvaluateConnectionQuality(a1, j1, loss))
  {
  }

  /** Loss between 5 and 10 grades 'fair' even where a loss-free connection of the same latency is 'poor'. */
  lemma ModerateLossOutranksSlowLossFree()
    ensures EvaluateConnectionQuality(600, 0, 0) == Poor && EvaluateConnectionQuality(600, 0, 6) == Fair
    ensures forall latency, jitter :: EvaluateConnectionQuality(latency, jitter, 33) == Poor
  {
  }

  // ---------------------------------------------------------------- diagnostics and advice

  datatype Diagnostics = Diagnostics(
    serverReachable: bool,
    latency: Option<int>,
    errorMessage: Option<string>,
    networkType: Option<string>,
    connectionQuality: Quality,
    retryAttempts: int,
    averageLatency: Option<int>,
    jitter: Option<int>,
    packetLoss: Option<int>,
    lastSuccessfulConnection: Option<int>)

  /** getDefaultDiagnostics. */
  const DefaultDiagnostics: Diagnostics :=
    Diagnostics(false, None, Some("网络诊断服务不可用"), None, Unknown, 0, None, None, None, None)

  const NetworkSuggestions: seq<string> := ["检查设备的网络连接是否正常", "确认WiFi或移动数据已开启", "尝试连接到其他网络"]
  const GenericSuggestions: seq<string> :=
    ["检查应用服务器是否正在运行", "确认服务器地址配置正确", "检查防火墙或安全软件设置", "稍后重试，服务器可能临时不可用"]

  /** getNetworkTroubleshootingSuggestions. */
  function Suggestions(d: Diagnostics): seq<string>
  {
    if d.serverReachable then []
    else if d.errorMessage.Some? && Contains(d.errorMessage.value, "Network request failed") then NetworkSuggestions + GenericSuggestions
    else GenericSuggestions
  }

  /** Nothing to suggest when reachable; else the four generic items, after three network items for a failed request. */
  lemma SuggestionsRule(d: Diagnostics)
    ensures d.serverReachable <==> Suggestions(d) == []
    ensures !d.serverReachable ==> |Suggestions(d)| in {4, 7} && Suggestions(d)[|Suggestions(d)| - 4..] == GenericSuggestions
    ensures !d.serverReachable ==>
      (|Suggestions(d)| == 7 <==> d.errorMessage.Some? && Contains(d.errorMessage.value, "Network request failed"))
  {
  }

  const NetworkErrorKeywords: seq<string> := ["Network request failed", "fetch", "timeout", "connection", "ECONNREFUSED", "ENOTFOUND"]

  /** isNetworkError: some keyword occurs in the message, ignoring case. */
  predicate IsNetworkError(message: string)
  {
    exists k :: k in NetworkErrorKeywords && Contains(ToLower(message), ToLower(k))
  }

  lemma {:induction false} ToLowerIdempotent(s: string)
    ensures ToLower(ToLower(s)) == ToLower(s)
  {
    assert |ToLower(ToLower(s))| == |ToLower(s)|;
    forall i | 0 <= i < |s|
      ensures ToLower(ToLower(s))[i] == ToLower(s)[i]
    {
    }
  }

  lemma ToLowerSlice(s: string, i: nat, j: nat)
    requires i <= j <= |s|
    ensures ToLower(s)[i..j] == ToLower(s[i..j])
  {
    var a, b, t := ToLower(s)[i..j], ToLower(s[i..j]), s[i..j];
    assert |a| == |b| == j - i;
    forall k | 0 <= k < j - i
      ensures a[k] == b[k]
    {
      assert a[k] == ToLower(s)[i + k] == LowerChar(s[i + k]);
      assert t[k] == s[i + k];
    }
    assert a == b;
  }

  /** Case does not matter. */
  lemma IsNetworkErrorIgnoresCase(message: string)
    ensures IsNetworkError(message) <==> IsNetworkError(ToLower(message))
  {
    ToLowerIdempotent(message);
  }

  /** Any keyword occurring verbatim makes the message a network error. */
  lemma KeywordIsNetworkError(message: string, k: string)
    requires k in NetworkErrorKeywords && Contains(message, k)
    ensures IsNetworkError(message)
  {
    ContainsLowered(message, k);
  }

  /** An occurrence survives lower-casing both texts. */
  lemma ContainsLowered(message: string, k: string)
    requires Contains(message, k)
    ensures Contains(ToLower(message), ToLower(k))
  {
    var i :| 0 <= i <= |message| && OccursAt(message, k, i);
    ToLowerSlice(message, i, i + |k|);
    assert OccursAt(ToLower(message), ToLower(k), i);
  }

  // ---------------------------------------------------------------- the cached run

  const CacheDuration: int := 60000

  /** A fresh diagnostics run from the probe outcomes. */
  function FreshDiagnostics(c: RetryConfig, networkType: string, outcomes: nat -> FetchOutcome,
                            pings: seq<FetchOutcome>, jitterOf: seq<int> -> int, connectedAt: int): Diagnostics
    requires |pings| == PingCount
  {
    var t := RetryOutcome(c, Probe(outcomes));
    var base := Diagnostics(t.reachable, t.latency, t.errorMessage, Some(networkType), Unknown, t.retryAttempts,
                            None, None, None, None);
    if !t.reachable then base
    else
      var p := PingSummary(Latencies(pings), jitterOf);
      base.(lastSuccessfulConnection := Some(connectedAt), averageLatency := Some(p.averageLatency), jitter := Some(p.jitter),
            packetLoss := Some(p.packetLoss),
            connectionQuality := EvaluateConnectionQuality(p.averageLatency, p.jitter, p.packetLoss))
  }

  /** The service's static cache. */
  class DiagnosticsCache {
    var cached: Option<Diagnostics>
    var lastCheck: Option<int>
    var diagnosing: bool

    constructor ()
      ensures cached.None? && lastCheck.None? && !diagnosing
    {
      cached := None;
      lastCheck := None;
      diagnosing := false;
    }

    /** The cached result is used while it is younger than 60 seconds. */
    predicate Fresh(now: int)
      reads this
    {
      cached.Some? && lastCheck.Some? && now - lastCheck.value < CacheDuration
    }

    /**
     * runDiagnostics: while a run is in progress return the cached or the
     * default result; return a fresh-enough cached result without probing;
     * otherwise run the probes and cache the outcome with the time. The
     * clock is read three times: `now` for the freshness test, `connectedAt`
     * once the server answered, and `checkedAt` when the result is cached.
     */
    method RunDiagnostics(c: RetryConfig, networkType: string, outcomes: nat -> FetchOutcome,
                          pings: seq<FetchOutcome>, jitterOf: seq<int> -> int, now: int, connectedAt: int,
                          checkedAt: int)
      returns (d: Diagnostics)
      requires |pings| == PingCount
      modifies this
      ensures old(diagnosing) ==> d == old(cached).GetOr(DefaultDiagnostics) && unchanged(this)
      ensures !old(diagnosing) && old(Fresh(now)) ==> d == old(cached).value && unchanged(this)
      ensures !old(diagnosing) && !old(Fresh(now)) ==>
        d == FreshDiagnostics(c, networkType, outcomes, pings, jitterOf, connectedAt)
        && cached == Some(d) && lastCheck == Some(checkedAt) && !diagnosing
    {
      if diagnosing {
        return cached.GetOr(DefaultDiagnostics);
      }
      if cached.Some? && lastCheck.Some? && now - lastCheck.value < CacheDuration {
        return cached.value;
      }
      diagnosing := true;
      var t, _ := TestServerConnectionWithRetry(c, Probe(outcomes));
      d := Diagnostics(t.reachable, t.latency, t.errorMessage, Some(networkType), Unknown, t.retryAttempts,
                       None, None, None, None);
      if t.reachable {
        var p := PerformSimplifiedPingTests(pings, jitterOf);
        d := d.(lastSuccessfulConnection := Some(connectedAt), averageLatency := Some(p.averageLatency), jitter := Some(p.jitter),
                packetLoss := Some(p.packetLoss),
                connectionQuality := EvaluateConnectionQuality(p.averageLatency, p.jitter, p.packetLoss));
      }
      cached := Some(d);
      lastCheck := Some(checkedAt);
      diagnosing := false;
    }

    /** clearCache. */
    method ClearCache()
      modifies this
      ensures cached.None? && lastCheck.None? && diagnosing == old(diagnosing)
    {
      cached := None;
      lastCheck := None;
    }
  }

  /** A fresh run of an unreachable server grades 'unknown'; a reachable one never does. */
  lemma FreshQualityRule(c: RetryConfig, networkType: string, outcomes: nat -> FetchOutcome,
                         pings: seq<FetchOutcome>, jitterOf: seq<int> -> int, connectedAt: int)
    requires |pings| == PingCount
    ensures var d := FreshDiagnostics(c, networkType, outcomes, pings, jitterOf, connectedAt);
      (d.connectionQuality == Unknown <==> !d.serverReachable)
      && (d.serverReachable ==> d.lastSuccessfulConnection == Some(connectedAt))
  {
    var t := RetryOutcome(c, Probe(outcomes));
    if t.reachable {
      var p := PingSummary(Latencies(pings), jitterOf);
      QualityRule(p.averageLatency, p.jitter, p.averageLatency, p.jitter, p.packetLoss);
    }
  }
}
