/**
 * The `watch` command on standard input: how voice alerts are switched on,
 * what one batch does (drain the buffer, summarise, triage, maybe escalate to
 * a deep analysis, record and announce), and when a batch is flushed. The
 * model's replies and the JSON parsers are inputs; batches run one at a time.
 */
module Watch {
  import opened Wrappers
  import opened Text
  import LogProcessing
  import SessionStatistics
  import VoiceAlerts
  import Gemini
  import Configuration

  /** Below this confidence a triage is escalated even when the model does not ask for it. */
  const EscalationConfidence: real := 0.65
  const BatchErrorText := "API error occurred"
  const MissingKeyMessage := "API key not configured. Run \"edgecli init\" to set up."

  /** The JSON parsers applied to the two kinds of reply; `None` is a parse failure. */
  datatype Parsers = Parsers(
    triage: string -> Option<Gemini.TriageResult>,
    deep: string -> Option<Gemini.DeepAnalysisResult>)

  /** How the model answers the two calls a batch may make. */
  datatype BatchReplies = BatchReplies(triage: Gemini.Exchange, deep: Gemini.Exchange)

  /** Where a batch ends. */
  datatype BatchOutcome =
    | TriageFailed
    | Triaged(triage: Gemini.TriageResult)
    | DeepFailed(triage: Gemini.TriageResult)
    | Analysed(triage: Gemini.TriageResult, deep: Gemini.DeepAnalysisResult)

  // Voice switch

  /** Stored switch, then `options.voice`, then `options.noVoice`, which has the last word. */
  function VoiceSwitch(record: Configuration.VoiceRecord, voiceFlag: bool, noVoiceFlag: bool): (on: bool)
    ensures on <==> !noVoiceFlag && (voiceFlag || record.enabled == Some(true))
  {
    var on := record.enabled.GetOr(false);
    var on := if voiceFlag then true else on;
    if noVoiceFlag then false else on
  }

  /** The voice manager's configuration: the stored record, its key or `""`, and the switch gated on the key. */
  function ManagerConfigFor(record: Configuration.VoiceRecord, voiceFlag: bool, noVoiceFlag: bool): (c: VoiceAlerts.ManagerConfig)
    ensures c.enabled <==> VoiceSwitch(record, voiceFlag, noVoiceFlag) && Truthy(record.apiKey)
    ensures c.apiKey == OrElse(record.apiKey, "")
    ensures c.model == record.model && c.voiceId == record.voiceId
    ensures c.severityThreshold == record.severityThreshold && c.streaming == record.streaming
    ensures c.stability.None? && c.similarityBoost.None? && c.style.None? && c.useSpeakerBoost.None?
  {
    VoiceAlerts.ManagerConfig(
      OrElse(record.apiKey, ""),
      record.model,
      record.voiceId,
      None, None, None, None,
      VoiceSwitch(record, voiceFlag, noVoiceFlag) && Truthy(record.apiKey),
      record.severityThreshold,
      record.streaming)
  }

  /** A set `options.noVoice` always silences; without a stored key nothing can switch alerts on. */
  lemma VoiceNeedsKeyAndNoVeto(record: Configuration.VoiceRecord, voiceFlag: bool, noVoiceFlag: bool)
    ensures noVoiceFlag ==> !ManagerConfigFor(record, voiceFlag, noVoiceFlag).enabled
    ensures !Truthy(record.apiKey) ==> !ManagerConfigFor(record, voiceFlag, noVoiceFlag).enabled
    ensures Truthy(record.apiKey) && voiceFlag && !noVoiceFlag ==> ManagerConfigFor(record, voiceFlag, noVoiceFlag).enabled
  {
  }

  /** Everything a watch session works with. */
  datatype Session = Session(
    gemini: Gemini.GeminiClient,
    processor: LogProcessing.LogProcessor,
    stats: SessionStatistics.SessionStats,
    voice: VoiceAlerts.VoiceManager)

  /**
   * The start of `watchCommand`: refuses without a Gemini key, then builds the
   * client on the configured model, an empty processor, the shared statistics
   * and the voice manager. The voice key is read from the stored record only.
   */
  method StartWatch(config: Configuration.ConfigManager, env: Configuration.Environment,
                    registry: SessionStatistics.StatsRegistry, voiceFlag: bool, noVoiceFlag: bool, now: int)
    returns (r: Result<Session, string>)
    requires registry.Valid()
    modifies registry
    ensures registry.Valid()
    ensures r.Failure? <==> !Truthy(config.GetApiKey(env))
    ensures r.Failure? ==> r.error == MissingKeyMessage && registry.instance == old(registry.instance)
    ensures r.Success? ==>
      var s := r.value;
      s.gemini.apiKey == config.GetApiKey(env).value && s.gemini.modelName == config.GetModel() && s.gemini.metrics == []
      && s.processor.buffer == [] && s.processor.lastBatchTime == now
      && s.stats == registry.instance && s.stats.Valid()
      && (old(registry.instance) != null ==> s.stats == old(registry.instance))
      && (old(registry.instance) == null ==>
            s.stats.startTime == now && s.stats.TotalTriages() == 0 && s.stats.deepAnalysisCount == 0)
      && s.voice.Valid() && s.voice.queue == [] && !s.voice.isPlaying
      && s.voice.config == ManagerConfigFor(config.GetElevenLabsConfig(), voiceFlag, noVoiceFlag)
      && (s.voice.IsEnabled() <==> VoiceSwitch(config.GetElevenLabsConfig(), voiceFlag, noVoiceFlag) && Truthy(config.GetElevenLabsConfig().apiKey))
  {
    var key := config.GetApiKey(env);
    if !Truthy(key) {
      return Failure(MissingKeyMessage);
    }
    var gemini := new Gemini.GeminiClient(key.value, Some(config.GetModel()));
    var processor := new LogProcessing.LogProcessor(now);
    var stats := registry.GetInstance(now);
    var voice := new VoiceAlerts.VoiceManager(ManagerConfigFor(config.GetElevenLabsConfig(), voiceFlag, noVoiceFlag));
    r := Success(Session(gemini, processor, stats, voice));
  }

  // One batch

  /**
   * The escalation rule: the model asks for a deep analysis, or its confidence
   * is below 0.65. Measured by the percentage the triage alert speaks, a
   * triage escalates below 65 percent and, unless asked, not above it.
   */
  predicate Escalates(t: Gemini.TriageResult)
    ensures t.needsDeeper ==> Escalates(t)
    ensures VoiceAlerts.RoundPercent(t.confidence) < 65 ==> Escalates(t)
    ensures !t.needsDeeper && VoiceAlerts.RoundPercent(t.confidence) > 65 ==> !Escalates(t)
  {
    t.needsDeeper || t.confidence < EscalationConfidence
  }

  /** At a spoken 65 percent the rule can go either way, because it compares the unrounded confidence. */
  lemma EscalationAtSixtyFivePercent(severity: string, hypothesis: string)
    ensures var low, high := Gemini.TriageResult(severity, hypothesis, 0.645, false), Gemini.TriageResult(severity, hypothesis, 0.65, false);
      VoiceAlerts.RoundPercent(low.confidence) == 65 && Escalates(low)
      && VoiceAlerts.RoundPercent(high.confidence) == 65 && !Escalates(high)
  {
  }

  /** The flag the deep-analysis alert receives: whether the reply carries a non-empty `patch` entry. */
  predicate HasPatch(d: Gemini.DeepAnalysisResult) {
    Truthy(d.patch)
  }

  /** Where a batch ends, given the model's replies. */
  function OutcomeOf(replies: BatchReplies, parsers: Parsers): (o: BatchOutcome)
    ensures o.TriageFailed? <==> Gemini.CallResult(replies.triage, parsers.triage).Failure?
    ensures !o.TriageFailed? ==> o.triage == Gemini.CallResult(replies.triage, parsers.triage).value.0
    ensures o.Triaged? <==> !o.TriageFailed? && !Escalates(o.triage)
    ensures o.Analysed? ==>
      Escalates(o.triage) && Gemini.CallResult(replies.deep, parsers.deep).Success?
      && Gemini.CallResult(replies.deep, parsers.deep).value.0 == o.deep
    ensures o.DeepFailed? <==> !o.TriageFailed? && Escalates(o.triage) && Gemini.CallResult(replies.deep, parsers.deep).Failure?
  {
    var t := Gemini.CallResult(replies.triage, parsers.triage);
    if t.Failure? then TriageFailed
    else if !Escalates(t.value.0) then Triaged(t.value.0)
    else
      var d := Gemini.CallResult(replies.deep, parsers.deep);
      if d.Failure? then DeepFailed(t.value.0) else Analysed(t.value.0, d.value.0)
  }

  /** The metrics records a batch adds: the triage call's, then the deep call's when one is made. */
  function BatchRecords(replies: BatchReplies, parsers: Parsers): (m: seq<Gemini.Metrics>)
    ensures |m| <= 2
    ensures OutcomeOf(replies, parsers).Analysed? ==> |m| == 2
    ensures replies.triage.reply.None? ==> m == []
  {
    Gemini.Recorded(replies.triage) + DeepRecords(replies, parsers)
  }

  /** The deep call's record, present only when the triage escalated and the call got a reply. */
  function DeepRecords(replies: BatchReplies, parsers: Parsers): (m: seq<Gemini.Metrics>)
    ensures |m| <= 1
    ensures OutcomeOf(replies, parsers).Analysed? ==> |m| == 1
    ensures OutcomeOf(replies, parsers).TriageFailed? || OutcomeOf(replies, parsers).Triaged? ==> m == []
  {
    var o := OutcomeOf(replies, parsers);
    if o.TriageFailed? || o.Triaged? then [] else Gemini.Recorded(replies.deep)
  }

  /** The alerts a batch hands to the voice manager, given whether its triage passes the severity gate. */
  function BatchAlerts(o: BatchOutcome, triageAlert: seq<VoiceAlerts.Alert>): (a: seq<VoiceAlerts.Alert>)
    ensures o.TriageFailed? ==> a == [ErrorAlert()]
    ensures o.Triaged? ==> a == triageAlert
    ensures o.DeepFailed? ==> a == triageAlert + [ErrorAlert()]
    ensures o.Analysed? ==> a == triageAlert + [DeepAlert(o.deep)]
  {
    match o
    case TriageFailed => [ErrorAlert()]
    case Triaged(_) => triageAlert
    case DeepFailed(_) => triageAlert + [ErrorAlert()]
    case Analysed(_, d) => triageAlert + [DeepAlert(d)]
  }

  /** The alert announcing a completed deep analysis. */
  function DeepAlert(d: Gemini.DeepAnalysisResult): VoiceAlerts.Alert {
    VoiceAlerts.Alert(VoiceAlerts.DeepAnalysisMessage(d.rootCause, HasPatch(d)), false)
  }

  /** The priority alert that ends a failed batch. */
  function ErrorAlert(): VoiceAlerts.Alert {
    VoiceAlerts.Alert(VoiceAlerts.ErrorIntro + BatchErrorText, true)
  }

  /**
   * `processBatch`. The buffer is drained first, so a failed batch is lost;
   * a triage is recorded once it parses, the deep analysis once it parses, and
   * any failure ends the batch with a priority error alert, without a retry.
   */
  method ProcessBatch(gemini: Gemini.GeminiClient, processor: LogProcessing.LogProcessor,
                      stats: SessionStatistics.SessionStats, voice: VoiceAlerts.VoiceManager,
                      now: int, replies: BatchReplies, parsers: Parsers)
    returns (summary: string)
    requires stats.Valid() && voice.Valid()
    modifies gemini, processor, stats, voice
    ensures voice.config == old(voice.config) && voice.client == old(voice.client)
    ensures !old(voice.IsEnabled()) ==> voice.Player() == old(voice.Player())
    ensures stats.Valid() && voice.Valid()
    ensures processor.buffer == [] && processor.lastBatchTime == now
    ensures summary == LogProcessing.SummaryOf(Join(old(processor.buffer)))
    ensures gemini.metrics == old(gemini.metrics) + BatchRecords(replies, parsers)
    ensures Recorded(OutcomeOf(replies, parsers), old(stats.TotalTriages()), old(stats.triageCounts), old(stats.deepAnalysisCount),
        stats.TotalTriages(), stats.triageCounts, stats.deepAnalysisCount)
    ensures var o := OutcomeOf(replies, parsers);
      voice.alerts == old(voice.alerts) + BatchAlerts(o, if o.TriageFailed? then [] else
        old(voice.TriageAlert(o.triage.severity, o.triage.hypothesis, o.triage.confidence, Escalates(o.triage))))
  {
    var batch := processor.GetBatch(now);
    summary := processor.Summarize(batch);
    Triage(gemini, stats, voice, summary, replies, parsers);
  }

  /** What a batch leaves in the statistics: one triage unless it failed, one deep analysis if it completed. */
  predicate Recorded(o: BatchOutcome, total0: nat, counts0: map<string, nat>, deep0: nat, total: nat, counts: map<string, nat>, deep: nat) {
    && (o.TriageFailed? ==> counts == counts0 && total == total0)
    && (!o.TriageFailed? ==>
          total == total0 + 1
          && counts == SessionStatistics.Incremented(counts0, o.triage.severity))
    && deep == deep0 + (if o.Analysed? then 1 else 0)
  }

  /** The part of `processBatch` after the summary is made. */
  method Triage(gemini: Gemini.GeminiClient, stats: SessionStatistics.SessionStats, voice: VoiceAlerts.VoiceManager,
                summary: string, replies: BatchReplies, parsers: Parsers)
    requires stats.Valid() && voice.Valid()
    modifies gemini, stats, voice
    ensures voice.config == old(voice.config) && voice.client == old(voice.client)
    ensures !old(voice.IsEnabled()) ==> voice.Player() == old(voice.Player())
    ensures stats.Valid() && voice.Valid()
    ensures gemini.metrics == old(gemini.metrics) + BatchRecords(replies, parsers)
    ensures Recorded(OutcomeOf(replies, parsers), old(stats.TotalTriages()), old(stats.triageCounts), old(stats.deepAnalysisCount),
        stats.TotalTriages(), stats.triageCounts, stats.deepAnalysisCount)
    ensures var o := OutcomeOf(replies, parsers);
      voice.alerts == old(voice.alerts) + BatchAlerts(o, if o.TriageFailed? then [] else
        old(voice.TriageAlert(o.triage.severity, o.triage.hypothesis, o.triage.confidence, Escalates(o.triage))))
  {
    var triage := RequestTriage(gemini, summary, replies.triage, parsers.triage);
    ghost var o := OutcomeOf(replies, parsers);
    if triage.Failure? {
      TriageFailedStage(voice, replies, parsers);
    } else {
      assert !o.TriageFailed? && o.triage == triage.value.0;
      AfterTriage(gemini, stats, voice, summary, triage.value.0, replies, parsers);
    }
  }

  /** The light-triage request of a batch; the watch loop uses only its result. */
  method RequestTriage(gemini: Gemini.GeminiClient, summary: string, call: Gemini.Exchange, parse: string -> Option<Gemini.TriageResult>)
    returns (r: Result<(Gemini.TriageResult, Gemini.Metrics), Gemini.CallError>)
    modifies gemini
    ensures gemini.metrics == old(gemini.metrics) + Gemini.Recorded(call)
    ensures r == Gemini.CallResult(call, parse)
  {
    var _, result := gemini.LightTriage(summary, call, parse);
    r := result;
  }

  /** The deep-analysis request of an escalated batch, sent without code snippets. */
  method RequestDeepAnalysis(gemini: Gemini.GeminiClient, summary: string, call: Gemini.Exchange,
                             parse: string -> Option<Gemini.DeepAnalysisResult>)
    returns (r: Result<(Gemini.DeepAnalysisResult, Gemini.Metrics), Gemini.CallError>)
    modifies gemini
    ensures gemini.metrics == old(gemini.metrics) + Gemini.Recorded(call)
    ensures r == Gemini.CallResult(call, parse)
  {
    var _, result := gemini.DeepAnalysis(summary, None, call, parse);
    r := result;
  }

  /** A triage that failed or did not parse: a priority error alert and nothing else. */
  method TriageFailedStage(voice: VoiceAlerts.VoiceManager, replies: BatchReplies, parsers: Parsers)
    requires voice.Valid()
    requires Gemini.CallResult(replies.triage, parsers.triage).Failure?
    modifies voice
    ensures voice.config == old(voice.config) && voice.client == old(voice.client)
    ensures !old(voice.IsEnabled()) ==> voice.Player() == old(voice.Player())
    ensures voice.Valid()
    ensures OutcomeOf(replies, parsers) == TriageFailed && DeepRecords(replies, parsers) == []
    ensures voice.alerts == old(voice.alerts) + BatchAlerts(TriageFailed, [])
  {
    voice.SpeakError(BatchErrorText);
  }

  /** A parsed triage: counted, announced, and followed by the deep analysis when it escalates. */
  method AfterTriage(gemini: Gemini.GeminiClient, stats: SessionStatistics.SessionStats, voice: VoiceAlerts.VoiceManager,
                     summary: string, t: Gemini.TriageResult, replies: BatchReplies, parsers: Parsers)
    requires stats.Valid() && voice.Valid()
    requires Gemini.CallResult(replies.triage, parsers.triage).Success?
    requires t == Gemini.CallResult(replies.triage, parsers.triage).value.0
    modifies gemini, stats, voice
    ensures voice.config == old(voice.config) && voice.client == old(voice.client)
    ensures !old(voice.IsEnabled()) ==> voice.Player() == old(voice.Player())
    ensures stats.Valid() && voice.Valid()
    ensures gemini.metrics == old(gemini.metrics) + DeepRecords(replies, parsers)
    ensures Recorded(OutcomeOf(replies, parsers), old(stats.TotalTriages()), old(stats.triageCounts), old(stats.deepAnalysisCount),
        stats.TotalTriages(), stats.triageCounts, stats.deepAnalysisCount)
    ensures voice.alerts == old(voice.alerts)
      + BatchAlerts(OutcomeOf(replies, parsers), old(voice.TriageAlert(t.severity, t.hypothesis, t.confidence, Escalates(t))))
  {
    var escalate := t.needsDeeper || t.confidence < EscalationConfidence;
    if escalate {
      EscalatedTriage(gemini, stats, voice, summary, t, replies, parsers);
    } else {
      Announce(stats, voice, t, false);
      assert OutcomeOf(replies, parsers) == Triaged(t);
    }
  }

  /** An escalated triage: counted and announced, then the deep analysis. */
  method EscalatedTriage(gemini: Gemini.GeminiClient, stats: SessionStatistics.SessionStats, voice: VoiceAlerts.VoiceManager,
                         summary: string, t: Gemini.TriageResult, replies: BatchReplies, parsers: Parsers)
    requires stats.Valid() && voice.Valid()
    requires Gemini.CallResult(replies.triage, parsers.triage).Success?
    requires t == Gemini.CallResult(replies.triage, parsers.triage).value.0
    requires Escalates(t)
    modifies gemini, stats, voice
    ensures voice.config == old(voice.config) && voice.client == old(voice.client)
    ensures !old(voice.IsEnabled()) ==> voice.Player() == old(voice.Player())
    ensures stats.Valid() && voice.Valid()
    ensures gemini.metrics == old(gemini.metrics) + DeepRecords(replies, parsers)
    ensures Recorded(OutcomeOf(replies, parsers), old(stats.TotalTriages()), old(stats.triageCounts), old(stats.deepAnalysisCount),
        stats.TotalTriages(), stats.triageCounts, stats.deepAnalysisCount)
    ensures voice.alerts == old(voice.alerts)
      + BatchAlerts(OutcomeOf(replies, parsers), old(voice.TriageAlert(t.severity, t.hypothesis, t.confidence, Escalates(t))))
  {
    Announce(stats, voice, t, true);
    ghost var d := Gemini.CallResult(replies.deep, parsers.deep);
    assert OutcomeOf(replies, parsers) == if d.Success? then Analysed(t, d.value.0) else DeepFailed(t);
    DeepStage(gemini, stats, voice, summary, replies.deep, parsers.deep);
  }

  /** Counts a parsed triage and hands its alert to the voice manager. */
  method Announce(stats: SessionStatistics.SessionStats, voice: VoiceAlerts.VoiceManager, t: Gemini.TriageResult, escalate: bool)
    requires stats.Valid() && voice.Valid()
    modifies stats, voice
    ensures voice.config == old(voice.config) && voice.client == old(voice.client)
    ensures !old(voice.IsEnabled()) ==> voice.Player() == old(voice.Player())
    ensures stats.Valid() && voice.Valid()
    ensures stats.TotalTriages() == old(stats.TotalTriages()) + 1
    ensures stats.triageCounts == SessionStatistics.Incremented(old(stats.triageCounts), t.severity)
    ensures stats.deepAnalysisCount == old(stats.deepAnalysisCount)
    ensures voice.alerts == old(voice.alerts) + old(voice.TriageAlert(t.severity, t.hypothesis, t.confidence, escalate))
  {
    stats.RecordTriage(t.severity);
    voice.SpeakTriage(t.severity, t.hypothesis, t.confidence, escalate);
  }

  /** The deep analysis of an escalated batch: recorded and announced when it parses, an error alert otherwise. */
  method DeepStage(gemini: Gemini.GeminiClient, stats: SessionStatistics.SessionStats, voice: VoiceAlerts.VoiceManager,
                   summary: string, call: Gemini.Exchange, parse: string -> Option<Gemini.DeepAnalysisResult>)
    requires stats.Valid() && voice.Valid()
    modifies gemini, stats, voice
    ensures voice.config == old(voice.config) && voice.client == old(voice.client)
    ensures !old(voice.IsEnabled()) ==> voice.Player() == old(voice.Player())
    ensures stats.Valid() && voice.Valid()
    ensures gemini.metrics == old(gemini.metrics) + Gemini.Recorded(call)
    ensures stats.triageCounts == old(stats.triageCounts) && stats.TotalTriages() == old(stats.TotalTriages())
    ensures var d := Gemini.CallResult(call, parse);
      && stats.deepAnalysisCount == old(stats.deepAnalysisCount) + (if d.Success? then 1 else 0)
      && voice.alerts == old(voice.alerts) + (if d.Success? then [DeepAlert(d.value.0)] else [ErrorAlert()])
  {
    var deep := RequestDeepAnalysis(gemini, summary, call, parse);
    if deep.Failure? {
      voice.SpeakError(BatchErrorText);
      return;
    }
    stats.RecordDeepAnalysis();
    voice.SpeakDeepAnalysis(deep.value.0.rootCause, Truthy(deep.value.0.patch));
  }

  // Flush triggers on standard input

  /** A line arrives: it is buffered, and the batch is flushed when one is due. */
  method OnLine(gemini: Gemini.GeminiClient, processor: LogProcessing.LogProcessor,
                stats: SessionStatistics.SessionStats, voice: VoiceAlerts.VoiceManager,
                line: string, now: int, replies: BatchReplies, parsers: Parsers)
    returns (flushed: bool)
    requires stats.Valid() && voice.Valid()
    modifies gemini, processor, stats, voice
    ensures voice.config == old(voice.config) && voice.client == old(voice.client)
    ensures !old(voice.IsEnabled()) ==> voice.Player() == old(voice.Player())
    ensures stats.Valid() && voice.Valid()
    ensures flushed <==>
      (|old(processor.buffer)| + 1 >= LogProcessing.BatchSize || now - old(processor.lastBatchTime) >= LogProcessing.BatchTimeMs)
    ensures !flushed ==>
      (processor.buffer == old(processor.buffer) + [line] && processor.lastBatchTime == old(processor.lastBatchTime)
       && gemini.metrics == old(gemini.metrics))
    ensures flushed ==>
      (processor.buffer == [] && processor.lastBatchTime == now
       && gemini.metrics == old(gemini.metrics) + BatchRecords(replies, parsers))
    ensures flushed ==>
      Recorded(OutcomeOf(replies, parsers), old(stats.TotalTriages()), old(stats.triageCounts), old(stats.deepAnalysisCount),
        stats.TotalTriages(), stats.triageCounts, stats.deepAnalysisCount)
    ensures flushed ==> var o := OutcomeOf(replies, parsers);
      voice.alerts == old(voice.alerts) + BatchAlerts(o, if o.TriageFailed? then [] else
        old(voice.TriageAlert(o.triage.severity, o.triage.hypothesis, o.triage.confidence, Escalates(o.triage))))
    ensures !flushed ==> unchanged(stats, voice)
  {
    processor.AddLine(line);
    flushed := processor.ShouldBatch(now);
    if flushed {
      var _ := ProcessBatch(gemini, processor, stats, voice, now, replies, parsers);
    }
  }

  /** The one-second timer: flushes only a batch that is due and holds at least one line. */
  method OnTick(gemini: Gemini.GeminiClient, processor: LogProcessing.LogProcessor,
                stats: SessionStatistics.SessionStats, voice: VoiceAlerts.VoiceManager,
                now: int, replies: BatchReplies, parsers: Parsers)
    returns (flushed: bool)
    requires stats.Valid() && voice.Valid()
    modifies gemini, processor, stats, voice
    ensures voice.config == old(voice.config) && voice.client == old(voice.client)
    ensures !old(voice.IsEnabled()) ==> voice.Player() == old(voice.Player())
    ensures stats.Valid() && voice.Valid()
    ensures flushed <==>
      (old(processor.buffer) != []
       && (|old(processor.buffer)| >= LogProcessing.BatchSize || now - old(processor.lastBatchTime) >= LogProcessing.BatchTimeMs))
    ensures !flushed ==>
      (processor.buffer == old(processor.buffer) && processor.lastBatchTime == old(processor.lastBatchTime)
       && gemini.metrics == old(gemini.metrics))
    ensures flushed ==>
      (processor.buffer == [] && processor.lastBatchTime == now
       && gemini.metrics == old(gemini.metrics) + BatchRecords(replies, parsers))
    ensures flushed ==>
      Recorded(OutcomeOf(replies, parsers), old(stats.TotalTriages()), old(stats.triageCounts), old(stats.deepAnalysisCount),
        stats.TotalTriages(), stats.triageCounts, stats.deepAnalysisCount)
    ensures flushed ==> var o := OutcomeOf(replies, parsers);
      voice.alerts == old(voice.alerts) + BatchAlerts(o, if o.TriageFailed? then [] else
        old(voice.TriageAlert(o.triage.severity, o.triage.hypothesis, o.triage.confidence, Escalates(o.triage))))
    ensures !flushed ==> unchanged(stats, voice)
  {
    flushed := processor.ShouldBatch(now) && processor.HasData();
    if flushed {
      var _ := ProcessBatch(gemini, processor, stats, voice, now, replies, parsers);
    }
  }

  /** The input closes: whatever is buffered is flushed, then the session summary is produced. */
  method OnClose(gemini: Gemini.GeminiClient, processor: LogProcessing.LogProcessor,
                 stats: SessionStatistics.SessionStats, voice: VoiceAlerts.VoiceManager,
                 now: int, replies: BatchReplies, parsers: Parsers)
    returns (flushed: bool, report: SessionStatistics.StatsSummary)
    requires stats.Valid() && voice.Valid()
    modifies gemini, processor, stats, voice
    ensures voice.config == old(voice.config) && voice.client == old(voice.client)
    ensures !old(voice.IsEnabled()) ==> voice.Player() == old(voice.Player())
    ensures stats.Valid() && voice.Valid()
    ensures flushed <==> old(processor.buffer) != []
    ensures processor.buffer == []
    ensures !flushed ==> gemini.metrics == old(gemini.metrics)
    ensures flushed ==> gemini.metrics == old(gemini.metrics) + BatchRecords(replies, parsers)
    ensures report == stats.Summary(now)
    ensures flushed ==>
      Recorded(OutcomeOf(replies, parsers), old(stats.TotalTriages()), old(stats.triageCounts), old(stats.deepAnalysisCount),
        stats.TotalTriages(), stats.triageCounts, stats.deepAnalysisCount)
    ensures flushed ==> var o := OutcomeOf(replies, parsers);
      voice.alerts == old(voice.alerts) + BatchAlerts(o, if o.TriageFailed? then [] else
        old(voice.TriageAlert(o.triage.severity, o.triage.hypothesis, o.triage.confidence, Escalates(o.triage))))
    ensures !flushed ==> unchanged(stats, voice)
  {
    flushed := processor.HasData();
    if flushed {
      var _ := ProcessBatch(gemini, processor, stats, voice, now, replies, parsers);
    }
    report := stats.Summary(now);
  }
}
