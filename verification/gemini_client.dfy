/**
 * The Gemini client: the two prompts, the log of per-call metrics, the rule
 * that picks the JSON object out of a reply, and the totals over the log.
 * The model's reply, the clock readings around a call and the JSON parser
 * are inputs.
 */
module Gemini {
  import opened Wrappers
  import opened Text

  const DefaultModelName := "gemini-2.0-flash-exp"

  datatype TriageResult = TriageResult(severity: string, hypothesis: string, confidence: real, needsDeeper: bool)

  /**
   * A parsed deep analysis. `patch` stands for a `patch` entry the reply may
   * carry besides the three documented ones.
   */
  datatype DeepAnalysisResult = DeepAnalysisResult(
    rootCause: string,
    patchDiff: string,
    affectedFiles: seq<string>,
    patch: Option<string>)

  datatype Metrics = Metrics(latency: int, tokens: int, timestamp: int)

  /** The model's answer: its text and the token count its usage data reports, if any. */
  datatype ModelReply = ModelReply(text: string, totalTokenCount: Option<int>)

  /**
   * One call as the outside world played it: the reply (`None` when the call
   * threw), the clock when the call began, when the reply arrived, and when
   * the metrics record was stamped.
   */
  datatype Exchange = Exchange(reply: Option<ModelReply>, startTime: int, endTime: int, stampTime: int)

  datatype CallError = RequestFailed | Unparseable

  datatype TotalStats = TotalStats(
    totalCalls: nat,
    avgLatency: real,
    totalLatency: int,
    totalTokens: int,
    avgTokens: real)

  // Prompts

  const TriageHead := "Analyze this log batch and classify the incident. Output ONLY valid JSON with no markdown formatting.\n\nLog Summary:\n"
  const TriageTail := "\n\nRespond with JSON in this exact format:\n{\n  \"severity\": \"low|medium|high|critical\",\n  \"hypothesis\": \"brief explanation of the issue\",\n  \"confidence\": 0.0-1.0,\n  \"needs_deeper\": true|false\n}"
  const DeepHead := "Perform deep root cause analysis on this incident. Output ONLY valid JSON with no markdown formatting.\n\nLog Summary:\n"
  const DeepTail := "\n\nRespond with JSON in this exact format:\n{\n  \"root_cause\": \"detailed explanation of the root cause\",\n  \"patch_diff\": \"unified diff format patch suggestion\",\n  \"affected_files\": [\"file1.js\", \"file2.js\"]\n}"
  const CodeContext := "Code Context:\n"

  /** The light-triage prompt: the summary sits between the fixed instructions. */
  function TriagePrompt(summary: string): (p: string)
    ensures OccursAt(p, summary, |TriageHead|)
    ensures StartsWith(p, TriageHead) && EndsWith(p, TriageTail)
    ensures |p| == |TriageHead| + |summary| + |TriageTail|
  {
    var p := TriageHead + summary + TriageTail;
    assert p[..|TriageHead|] == TriageHead;
    assert p[|TriageHead|..|TriageHead| + |summary|] == summary;
    p
  }

  /** The code-context section: present only for non-empty snippets. */
  function ContextSection(snippets: Option<string>): (c: string)
    ensures Truthy(snippets) ==> c == CodeContext + snippets.value
    ensures !Truthy(snippets) ==> c == ""
  {
    if Truthy(snippets) then CodeContext + snippets.value else ""
  }

  /**
   * The deep-analysis prompt: the summary is always embedded, and the
   * snippets follow it under `Code Context:` exactly when they are non-empty.
   */
  function DeepPrompt(summary: string, snippets: Option<string>): (p: string)
    ensures OccursAt(p, summary, |DeepHead|)
    ensures Truthy(snippets) ==> OccursAt(p, CodeContext + snippets.value, |DeepHead| + |summary| + 2)
    ensures |p| == |DeepHead| + |summary| + 2 + (if Truthy(snippets) then |CodeContext| + |snippets.value| else 0) + |DeepTail|
    ensures StartsWith(p, DeepHead) && EndsWith(p, DeepTail)
  {
    var c := ContextSection(snippets);
    var p := DeepHead + summary + "\n\n" + c + DeepTail;
    assert p[..|DeepHead|] == DeepHead;
    assert p[|DeepHead|..|DeepHead| + |summary|] == summary;
    assert p[|DeepHead| + |summary| + 2..|DeepHead| + |summary| + 2 + |c|] == c;
    p
  }

  // The JSON span of a reply

  function FirstIndexOf(t: string, c: char): (r: Option<nat>)
    ensures r.Some? ==> r.value < |t| && t[r.value] == c && forall k :: 0 <= k < r.value ==> t[k] != c
    ensures r.None? ==> forall k :: 0 <= k < |t| ==> t[k] != c
  {
    if t == [] then None
    else if t[0] == c then Some(0)
    else match FirstIndexOf(t[1..], c)
      case None => None
      case Some(i) => Some(i + 1)
  }

  function LastIndexOf(t: string, c: char): (r: Option<nat>)
    ensures r.Some? ==> r.value < |t| && t[r.value] == c && forall k :: r.value < k < |t| ==> t[k] != c
    ensures r.None? ==> forall k :: 0 <= k < |t| ==> t[k] != c
  {
    if t == [] then None
    else if t[|t| - 1] == c then Some(|t| - 1)
    else LastIndexOf(t[..|t| - 1], c)
  }

  /**
   * Where `/\{[\s\S]*\}/` matches: from the first `{` to the last `}`, when
   * some `}` follows some `{`; no match otherwise.
   */
  function JsonSpanBounds(t: string): (b: Option<(nat, nat)>)
    ensures b.Some? ==>
      b.value.0 < b.value.1 < |t| && t[b.value.0] == '{' && t[b.value.1] == '}'
      && (forall k :: 0 <= k < b.value.0 ==> t[k] != '{')
      && (forall k :: b.value.1 < k < |t| ==> t[k] != '}')
    ensures b.None? ==> forall i, j :: 0 <= i < j < |t| && t[i] == '{' ==> t[j] != '}'
  {
    var open, close := FirstIndexOf(t, '{'), LastIndexOf(t, '}');
    if open.Some? && close.Some? && open.value < close.value then Some((open.value, close.value)) else None
  }

  /** The text handed to the JSON parser: the matched span, or the whole reply when nothing matches. */
  function JsonSpan(t: string): (r: string)
    ensures JsonSpanBounds(t).None? ==> r == t
    ensures JsonSpanBounds(t).Some? ==>
      |r| >= 2 && r[0] == '{' && r[|r| - 1] == '}' && r == t[JsonSpanBounds(t).value.0..JsonSpanBounds(t).value.1 + 1]
  {
    match JsonSpanBounds(t)
    case None => t
    case Some((a, b)) => t[a..b + 1]
  }

  /** Extracting the span of a span changes nothing. */
  lemma JsonSpanIdempotent(t: string)
    ensures JsonSpan(JsonSpan(t)) == JsonSpan(t)
  {
    var r := JsonSpan(t);
    if JsonSpanBounds(t).Some? {
      var b := JsonSpanBounds(r);
      assert r[0] == '{' && r[|r| - 1] == '}';
      assert b.Some?;
      assert b.value.0 == 0;
      assert b.value.1 == |r| - 1;
      assert JsonSpan(r) == r[0..|r|] == r;
    }
  }

  /**
   * Prose around the object is dropped: with no `{` before the object and no
   * `}` after it, the span is exactly the object, whatever it holds.
   */
  lemma JsonSpanStripsProse(before: string, body: string, after: string)
    requires forall k :: 0 <= k < |before| ==> before[k] != '{'
    requires forall k :: 0 <= k < |after| ==> after[k] != '}'
    ensures JsonSpan(before + "{" + body + "}" + after) == "{" + body + "}"
  {
    var t := before + "{" + body + "}" + after;
    var open, close := |before|, |before| + 1 + |body|;
    assert t[open] == '{' && t[close] == '}';
    assert forall k :: 0 <= k < open ==> t[k] == before[k];
    assert forall k :: close < k < |t| ==> t[k] == after[k - close - 1];
    assert FirstIndexOf(t, '{') == Some(open);
    assert LastIndexOf(t, '}') == Some(close);
    assert t[open..close + 1] == "{" + body + "}";
  }

  // Metrics

  /** `usageMetadata?.totalTokenCount || 0`. */
  function TokensOf(reply: ModelReply): (n: int)
    ensures n == 0 || reply.totalTokenCount == Some(n)
    ensures reply.totalTokenCount.Some? && reply.totalTokenCount.value != 0 ==> n == reply.totalTokenCount.value
  {
    if reply.totalTokenCount.Some? && reply.totalTokenCount.value != 0 then reply.totalTokenCount.value else 0
  }

  /** The record a call appends: one when a reply arrived, none when the call threw. */
  function Recorded(call: Exchange): (m: seq<Metrics>)
    ensures |m| == (if call.reply.Some? then 1 else 0)
    ensures call.reply.Some? ==>
      m[0].latency == call.endTime - call.startTime && m[0].tokens == TokensOf(call.reply.value)
      && m[0].timestamp == call.stampTime
  {
    match call.reply
    case None => []
    case Some(reply) => [Metrics(call.endTime - call.startTime, TokensOf(reply), call.stampTime)]
  }

  /** What a call returns: the parsed span of the reply with its metrics, or why there is none. */
  function CallResult<T>(call: Exchange, parse: string -> Option<T>): (r: Result<(T, Metrics), CallError>)
    ensures call.reply.None? ==> r == Failure(RequestFailed)
    ensures call.reply.Some? ==> (r.Success? <==> parse(JsonSpan(call.reply.value.text)).Some?)
    ensures r.Failure? && call.reply.Some? ==> r.error == Unparseable
    ensures r.Success? ==> r.value.0 == parse(JsonSpan(call.reply.value.text)).value && [r.value.1] == Recorded(call)
  {
    match call.reply
    case None => Failure(RequestFailed)
    case Some(reply) =>
      match parse(JsonSpan(reply.text))
      case None => Failure(Unparseable)
      case Some(v) => Success((v, Metrics(call.endTime - call.startTime, TokensOf(reply), call.stampTime)))
  }

  /** `reduce((sum, m) => sum + m.latency, 0)`. */
  function TotalLatency(ms: seq<Metrics>): int {
    if ms == [] then 0 else TotalLatency(ms[..|ms| - 1]) + ms[|ms| - 1].latency
  }

  function TotalTokens(ms: seq<Metrics>): int {
    if ms == [] then 0 else TotalTokens(ms[..|ms| - 1]) + ms[|ms| - 1].tokens
  }

  /** `getTotalStats` over a log; the averages are exact quotients. */
  function StatsOf(ms: seq<Metrics>): (s: TotalStats)
    ensures s.totalCalls == |ms| && s.totalLatency == TotalLatency(ms) && s.totalTokens == TotalTokens(ms)
    ensures |ms| == 0 ==> s.avgLatency == 0.0 && s.avgTokens == 0.0
    ensures |ms| > 0 ==>
      s.avgLatency * (|ms| as real) == TotalLatency(ms) as real && s.avgTokens * (|ms| as real) == TotalTokens(ms) as real
  {
    var n := |ms|;
    if n > 0 then
      TotalStats(n, TotalLatency(ms) as real / n as real, TotalLatency(ms), TotalTokens(ms), TotalTokens(ms) as real / n as real)
    else
      TotalStats(0, 0.0, TotalLatency(ms), TotalTokens(ms), 0.0)
  }

  /** The total latency lies between `n` times the smallest and `n` times the largest latency. */
  lemma {:induction false} TotalLatencyBounds(ms: seq<Metrics>, lo: int, hi: int)
    requires forall k :: 0 <= k < |ms| ==> lo <= ms[k].latency <= hi
    ensures |ms| * lo <= TotalLatency(ms) <= |ms| * hi
  {
    if ms != [] {
      TotalLatencyBounds(ms[..|ms| - 1], lo, hi);
    }
  }

  /** The average latency lies between the smallest and the largest latency logged. */
  lemma AverageLatencyWithinRange(ms: seq<Metrics>, lo: int, hi: int)
    requires |ms| > 0
    requires forall k :: 0 <= k < |ms| ==> lo <= ms[k].latency <= hi
    ensures lo as real <= StatsOf(ms).avgLatency <= hi as real
  {
    TotalLatencyBounds(ms, lo, hi);
    QuotientBetween(TotalLatency(ms), |ms|, StatsOf(ms).avgLatency, lo, hi);
  }

  /** A real `avg` with `avg * n == total` lies between `lo` and `hi` when `n * lo <= total <= n * hi`. */
  lemma QuotientBetween(total: int, n: nat, avg: real, lo: int, hi: int)
    requires n > 0 && avg * (n as real) == total as real
    requires n * lo <= total <= n * hi
    ensures lo as real <= avg <= hi as real
  {
    var m := n as real;
    assert (n * lo) as real == m * (lo as real);
    assert (n * hi) as real == m * (hi as real);
    assert (avg - lo as real) * m >= 0.0;
    assert (hi as real - avg) * m >= 0.0;
  }

  /** One more record adds one call and its latency and tokens to the totals. */
  lemma StatsAfterRecord(ms: seq<Metrics>, m: Metrics)
    ensures StatsOf(ms + [m]).totalCalls == StatsOf(ms).totalCalls + 1
    ensures StatsOf(ms + [m]).totalLatency == StatsOf(ms).totalLatency + m.latency
    ensures StatsOf(ms + [m]).totalTokens == StatsOf(ms).totalTokens + m.tokens
  {
    assert (ms + [m])[..|ms|] == ms;
  }

  class GeminiClient {
    const apiKey: string
    const modelName: string
    /** One record per call that got a reply, in call order. */
    var metrics: seq<Metrics>

    /** The model defaults only when none is given; an empty name is kept. */
    constructor(apiKey: string, modelName: Option<string>)
      ensures this.apiKey == apiKey && this.modelName == modelName.GetOr(DefaultModelName) && metrics == []
    {
      this.apiKey := apiKey;
      this.modelName := modelName.GetOr(DefaultModelName);
      metrics := [];
    }

    /**
     * `lightTriage`: sends the triage prompt; a reply is logged before it is
     * parsed, so an unparseable reply still counts as a call.
     */
    method LightTriage(logSummary: string, call: Exchange, parse: string -> Option<TriageResult>)
      returns (prompt: string, r: Result<(TriageResult, Metrics), CallError>)
      modifies this
      ensures prompt == TriagePrompt(logSummary)
      ensures metrics == old(metrics) + Recorded(call)
      ensures r == CallResult(call, parse)
    {
      prompt := TriagePrompt(logSummary);
      metrics := metrics + Recorded(call);
      r := CallResult(call, parse);
    }

    /** `deepAnalysis`: as `LightTriage`, with the deep prompt and optional code snippets. */
    method DeepAnalysis(logSummary: string, snippets: Option<string>, call: Exchange, parse: string -> Option<DeepAnalysisResult>)
      returns (prompt: string, r: Result<(DeepAnalysisResult, Metrics), CallError>)
      modifies this
      ensures prompt == DeepPrompt(logSummary, snippets)
      ensures metrics == old(metrics) + Recorded(call)
      ensures r == CallResult(call, parse)
    {
      prompt := DeepPrompt(logSummary, snippets);
      metrics := metrics + Recorded(call);
      r := CallResult(call, parse);
    }

    function GetMetrics(): (log: seq<Metrics>)
      reads this
      ensures log == metrics
    {
      metrics
    }

    function GetTotalStats(): (s: TotalStats)
      reads this
      ensures s == StatsOf(metrics)
    {
      StatsOf(metrics)
    }
  }
}
