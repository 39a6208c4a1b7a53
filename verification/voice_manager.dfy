/**
 * Spoken alerts: which severities are loud enough to announce, the sentences
 * that are spoken, and the manager that plays them one at a time from a FIFO
 * queue. A priority alert empties the queue and is played at once; its
 * playback is awaited, so it is complete when the call returns. A queued
 * alert is started by the queue drain and finishes later, in the
 * `PlaybackFinished` step. Whether a playback succeeded is never visible to
 * the caller, so it is not a parameter.
 */
module VoiceAlerts {
  import opened Wrappers
  import opened Text
  import ElevenLabs

  /** The threshold levels, quietest first. */
  const ThresholdLevels: seq<string> := ["info", "warning", "error", "critical"]
  const DefaultThreshold := "info"
  const EscalationNote := " Escalating to deep analysis."
  const PatchNote := " Patch generated and ready for review."
  const RootCauseIntro := "Root cause identified: "
  const ErrorIntro := "Error: "

  /** A voice manager's configuration: the client's settings plus the alert switches. */
  datatype ManagerConfig = ManagerConfig(
    apiKey: string,
    model: Option<string>,
    voiceId: Option<string>,
    stability: Option<real>,
    similarityBoost: Option<real>,
    style: Option<real>,
    useSpeakerBoost: Option<bool>,
    enabled: bool,
    severityThreshold: Option<string>,
    streaming: Option<bool>)

  /** An `updateConfig` argument: the entries present replace the configured ones. */
  datatype ManagerPatch = ManagerPatch(
    apiKey: Option<string>,
    model: Option<string>,
    voiceId: Option<string>,
    stability: Option<real>,
    similarityBoost: Option<real>,
    style: Option<real>,
    useSpeakerBoost: Option<bool>,
    enabled: Option<bool>,
    severityThreshold: Option<Option<string>>,
    streaming: Option<Option<bool>>)

  /** An alert handed to `speak`: its sentence and whether it jumps the queue. */
  datatype Alert = Alert(text: string, priority: bool)

  /** The part of the configuration the ElevenLabs client reads. */
  function ClientConfig(c: ManagerConfig): (v: ElevenLabs.VoiceConfig)
    ensures v.apiKey == c.apiKey && v.model == c.model && v.voiceId == c.voiceId
    ensures v.stability == c.stability && v.similarityBoost == c.similarityBoost
    ensures v.style == c.style && v.useSpeakerBoost == c.useSpeakerBoost
  {
    ElevenLabs.VoiceConfig(c.apiKey, c.model, c.voiceId, c.stability, c.similarityBoost, c.style, c.useSpeakerBoost)
  }

  /** `{ ...config, ...patch }`. */
  function MergeConfig(c: ManagerConfig, p: ManagerPatch): (r: ManagerConfig)
    ensures r.apiKey == p.apiKey.GetOr(c.apiKey) && r.enabled == p.enabled.GetOr(c.enabled)
    ensures p.model.Some? ==> r.model == p.model
    ensures p.voiceId.Some? ==> r.voiceId == p.voiceId
    ensures p.model.None? ==> r.model == c.model
    ensures p.voiceId.None? ==> r.voiceId == c.voiceId
    ensures p.stability.Some? ==> r.stability == p.stability
    ensures p.stability.None? ==> r.stability == c.stability
    ensures p.similarityBoost.Some? ==> r.similarityBoost == p.similarityBoost
    ensures p.similarityBoost.None? ==> r.similarityBoost == c.similarityBoost
    ensures p.style.Some? ==> r.style == p.style
    ensures p.style.None? ==> r.style == c.style
    ensures p.useSpeakerBoost.Some? ==> r.useSpeakerBoost == p.useSpeakerBoost
    ensures p.useSpeakerBoost.None? ==> r.useSpeakerBoost == c.useSpeakerBoost
    ensures r.severityThreshold == p.severityThreshold.GetOr(c.severityThreshold)
    ensures r.streaming == p.streaming.GetOr(c.streaming)
  {
    ManagerConfig(
      p.apiKey.GetOr(c.apiKey),
      if p.model.Some? then p.model else c.model,
      if p.voiceId.Some? then p.voiceId else c.voiceId,
      if p.stability.Some? then p.stability else c.stability,
      if p.similarityBoost.Some? then p.similarityBoost else c.similarityBoost,
      if p.style.Some? then p.style else c.style,
      if p.useSpeakerBoost.Some? then p.useSpeakerBoost else c.useSpeakerBoost,
      p.enabled.GetOr(c.enabled),
      p.severityThreshold.GetOr(c.severityThreshold),
      p.streaming.GetOr(c.streaming))
  }

  // Severity gate

  /** `thresholdLevels.indexOf(level)`. */
  function Rank(level: string): (r: int)
    ensures -1 <= r < |ThresholdLevels|
    ensures 0 <= r ==> ThresholdLevels[r] == level
    ensures r == -1 <==> level !in ThresholdLevels
  {
    if level == "info" then 0
    else if level == "warning" then 1
    else if level == "error" then 2
    else if level == "critical" then 3
    else -1
  }

  /** The threshold word a lower-cased severity maps to; other words are kept as they are. */
  function MapSeverity(lower: string): (level: string)
    ensures lower == "low" ==> level == "info"
    ensures lower == "medium" ==> level == "warning"
    ensures lower == "high" ==> level == "error"
    ensures lower in ThresholdLevels ==> level == lower
    ensures lower !in ThresholdLevels && lower !in ["low", "medium", "high"] ==> level == lower
  {
    if lower == "low" || lower == "info" then "info"
    else if lower == "medium" || lower == "warning" then "warning"
    else if lower == "high" || lower == "error" then "error"
    else if lower == "critical" then "critical"
    else lower
  }

  /** Where a severity sits among the threshold levels; -1 for an unrecognised word. */
  function SeverityLevel(severity: string): (level: int)
    ensures -1 <= level < |ThresholdLevels|
  {
    Rank(MapSeverity(LowerAscii(severity)))
  }

  /** The configured threshold, `info` when unset or empty. */
  function Threshold(configured: Option<string>): string {
    OrElse(configured, DefaultThreshold)
  }

  /** `shouldSpeak` once the manager is known to be enabled. */
  predicate Gate(configured: Option<string>, severity: string) {
    SeverityLevel(severity) >= Rank(Threshold(configured))
  }

  /**
   * The severities the classifier reports and the threshold words themselves,
   * in any letter case, map to the four levels in order.
   */
  lemma SeverityLevels(severity: string)
    ensures LowerAscii(severity) in ["low", "info"] ==> SeverityLevel(severity) == 0
    ensures LowerAscii(severity) in ["medium", "warning"] ==> SeverityLevel(severity) == 1
    ensures LowerAscii(severity) in ["high", "error"] ==> SeverityLevel(severity) == 2
    ensures LowerAscii(severity) == "critical" ==> SeverityLevel(severity) == 3
  {
  }

  /** A louder severity passes wherever a quieter one does. */
  lemma GateMonotoneInSeverity(configured: Option<string>, quiet: string, loud: string)
    requires SeverityLevel(quiet) <= SeverityLevel(loud)
    ensures Gate(configured, quiet) ==> Gate(configured, loud)
  {
  }

  /** A lower threshold lets through whatever a higher one does. */
  lemma GateAntitoneInThreshold(low: Option<string>, high: Option<string>, severity: string)
    requires Rank(Threshold(low)) <= Rank(Threshold(high))
    ensures Gate(high, severity) ==> Gate(low, severity)
  {
  }

  /** Under a recognised threshold an unrecognised severity is never spoken. */
  lemma UnknownSeverityIsMuted(configured: Option<string>, severity: string)
    requires Threshold(configured) in ThresholdLevels
    requires LowerAscii(severity) !in ThresholdLevels + ["low", "medium", "high"]
    ensures !Gate(configured, severity)
  {
    assert MapSeverity(LowerAscii(severity)) == LowerAscii(severity);
  }

  /** An unrecognised threshold (for instance a capitalised `Warning`) lets every severity through. */
  lemma UnknownThresholdSpeaksAll(configured: Option<string>, severity: string)
    requires Threshold(configured) !in ThresholdLevels
    ensures Gate(configured, severity)
  {
  }

  /** The top level is reached by `critical`, in any letter case, and by nothing else. */
  lemma CriticalIsTopLevel(severity: string)
    ensures SeverityLevel(severity) == 3 <==> LowerAscii(severity) == "critical"
  {
  }

  // Alert sentences

  /** `Math.round(confidence * 100)`: the nearest integer, halves rounded up. */
  function RoundPercent(confidence: real): (p: int)
    ensures p as real - 0.5 <= confidence * 100.0 < p as real + 0.5
  {
    (confidence * 100.0 + 0.5).Floor
  }

  const PercentWord := " percent."

  /**
   * The spoken triage sentence: the upper-cased severity, the hypothesis and
   * the rounded confidence, then " percent.", then the escalation note when
   * the batch is escalated, and nothing else.
   */
  function TriageMessage(severity: string, hypothesis: string, percent: int, escalate: bool): (m: string)
    ensures var head := UpperAscii(severity) + " alert. " + hypothesis + ". Confidence: " + IntToString(percent);
      StartsWith(m, head) && OccursAt(m, PercentWord, |head|)
      && |m| == |head| + |PercentWord| + (if escalate then |EscalationNote| else 0)
    ensures escalate ==> EndsWith(m, EscalationNote)
  {
    var base := UpperAscii(severity) + " alert. " + hypothesis + ". Confidence: " + IntToString(percent) + PercentWord;
    if escalate then base + EscalationNote else base
  }

  /** The escalation note is spoken exactly when the batch is escalated. */
  lemma TriageMessageEscalates(severity: string, hypothesis: string, percent: int, escalate: bool)
    ensures escalate <==> EndsWith(TriageMessage(severity, hypothesis, percent, escalate), EscalationNote)
  {
    if !escalate {
      var m := TriageMessage(severity, hypothesis, percent, false);
      var head := UpperAscii(severity) + " alert. " + hypothesis + ". Confidence: " + IntToString(percent);
      assert m == head + " percent.";
      assert m[|m| - 2] == 't';
    }
  }

  function DeepAnalysisMessage(rootCause: string, hasPatch: bool): (m: string)
    ensures StartsWith(m, RootCauseIntro + rootCause + ".")
    ensures |m| == |RootCauseIntro| + |rootCause| + 1 + (if hasPatch then |PatchNote| else 0)
    ensures hasPatch ==> EndsWith(m, PatchNote)
  {
    var base := RootCauseIntro + rootCause + ".";
    if hasPatch then base + PatchNote else base
  }

  /** Whether the severity word, lower-cased, is `critical`: such triage alerts jump the queue. */
  predicate IsCritical(severity: string) {
    LowerAscii(severity) == "critical"
  }

  class VoiceManager {
    var config: ManagerConfig
    var client: ElevenLabs.ElevenLabsClient?
    var isPlaying: bool
    /** Messages waiting to be spoken, oldest first. */
    var queue: seq<string>
    /** The queued message whose playback is in flight. */
    var current: Option<string>
    /** Every alert handed to `speak`, spoken or not. */
    ghost var alerts: seq<Alert>
    /** The request of every playback started, in order. */
    ghost var played: seq<ElevenLabs.SpeechRequest>

    ghost predicate Valid()
      reads this
    {
      (isPlaying <==> current.Some?) && (isPlaying ==> client != null)
    }

    /** The player's state: the waiting messages, the playing flag, the message in flight and every request sent. */
    ghost function Player(): (seq<string>, bool, Option<string>, seq<ElevenLabs.SpeechRequest>)
      reads this
    {
      (queue, isPlaying, current, played)
    }

    constructor(c: ManagerConfig)
      ensures Valid()
      ensures config == c && !isPlaying && queue == [] && alerts == [] && played == []
      ensures IsEnabled() <==> c.enabled && c.apiKey != ""
      ensures client != null <==> c.enabled && c.apiKey != ""
      ensures client != null ==> fresh(client) && client.apiKey == c.apiKey && client.settings == ElevenLabs.Resolve(ClientConfig(c))
    {
      config := c;
      isPlaying := false;
      queue := [];
      current := None;
      alerts := [];
      played := [];
      if c.enabled && c.apiKey != "" {
        client := new ElevenLabs.ElevenLabsClient(ClientConfig(c));
      } else {
        client := null;
      }
    }

    /** Voice is on only while the configuration enables it, and then a client is there to play with. */
    predicate IsEnabled()
      reads this`config, this`client
      ensures IsEnabled() ==> client != null
      ensures !config.enabled ==> !IsEnabled()
    {
      config.enabled && client != null
    }

    function Streaming(): bool
      reads this`config
    {
      config.streaming.GetOr(false)
    }

    /** The request a playback of `text` sends: streaming or not, as configured. */
    function PlaybackRequest(text: string): (r: ElevenLabs.SpeechRequest)
      reads this, client
      requires client != null
      ensures r.text == text && r.apiKeyHeader == client.apiKey
      ensures Streaming() <==> EndsWith(r.url, ElevenLabs.StreamSuffix) && |r.url| == |ElevenLabs.SpeechEndpoint| + |client.settings.voiceId| + |ElevenLabs.StreamSuffix|
    {
      ElevenLabs.BuildRequest(client.apiKey, client.settings, ElevenLabs.SpeechOptions(text, None, None), Streaming())
    }

    /** The state the queue drain leaves when it starts from an idle player holding `q0`. */
    ghost predicate Drained(q0: seq<string>, played0: seq<ElevenLabs.SpeechRequest>)
      reads this, client
    {
      if q0 == [] then queue == [] && !isPlaying && current == None && played == played0
      else if q0[0] == "" || client == null then queue == q0[1..] && !isPlaying && current == None && played == played0
      else queue == q0[1..] && isPlaying && current == Some(q0[0]) && played == played0 + [PlaybackRequest(q0[0])]
    }

    /** The state `speak` leaves on an enabled manager, given the player's state before the call. */
    ghost predicate Spoke(q0: seq<string>, playing0: bool, current0: Option<string>,
                          played0: seq<ElevenLabs.SpeechRequest>, text: string, priority: bool)
      reads this, client
    {
      if priority then
        queue == [] && isPlaying == playing0 && current == current0
        && played == played0 + (if playing0 || client == null then [] else [PlaybackRequest(text)])
      else if playing0 then
        queue == q0 + [text] && isPlaying && current == current0 && played == played0
      else
        Drained(q0 + [text], played0)
    }

    /** `processQueue`: while idle, removes exactly the head and starts playing it unless it is empty. */
    method ProcessQueue()
      requires Valid() && client != null
      modifies this
      ensures Valid()
      ensures config == old(config) && client == old(client) && alerts == old(alerts)
      ensures old(isPlaying) || old(queue) == [] ==>
        queue == old(queue) && isPlaying == old(isPlaying) && current == old(current) && played == old(played)
      ensures !old(isPlaying) && old(queue) != [] ==> Drained(old(queue), old(played))
    {
      if isPlaying || |queue| == 0 {
        return;
      }
      var text := queue[0];
      queue := queue[1..];
      if text != "" {
        isPlaying := true;
        current := Some(text);
        played := played + [PlaybackRequest(text)];
      }
    }

    /** `speak`: nothing when disabled; a priority alert empties the queue and is played unless a playback is in flight. */
    method Speak(text: string, priority: bool)
      requires Valid()
      modifies this
      ensures Valid()
      ensures config == old(config) && client == old(client)
      ensures alerts == old(alerts) + [Alert(text, priority)]
      ensures !old(IsEnabled()) ==>
        queue == old(queue) && isPlaying == old(isPlaying) && current == old(current) && played == old(played)
      ensures old(IsEnabled()) ==> Spoke(old(queue), old(isPlaying), old(current), old(played), text, priority)
    {
      alerts := alerts + [Alert(text, priority)];
      if !IsEnabled() {
        return;
      }
      if priority {
        queue := [];
        if !isPlaying {
          // The playback is awaited: it starts and ends within this call.
          played := played + [PlaybackRequest(text)];
        }
      } else {
        queue := queue + [text];
        ProcessQueue();
      }
    }

    /** The in-flight queued playback ends (well or badly); draining goes on while messages wait. */
    method PlaybackFinished()
      requires Valid() && isPlaying
      modifies this
      ensures Valid()
      ensures config == old(config) && client == old(client) && alerts == old(alerts)
      ensures Drained(old(queue), old(played))
    {
      isPlaying := false;
      current := None;
      if |queue| > 0 {
        ProcessQueue();
      }
    }

    /**
     * `shouldSpeak`: nothing is spoken while voice is off. Once on, a critical
     * severity is always spoken, the default threshold lets through exactly the
     * recognised severities, and an unrecognised threshold lets through all.
     */
    predicate ShouldSpeak(severity: string)
      reads this`config, this`client
      ensures ShouldSpeak(severity) ==> IsEnabled()
      ensures IsEnabled() && IsCritical(severity) ==> ShouldSpeak(severity)
      ensures IsEnabled() && Threshold(config.severityThreshold) == DefaultThreshold ==>
        (ShouldSpeak(severity) <==> SeverityLevel(severity) >= 0)
      ensures IsEnabled() && Threshold(config.severityThreshold) !in ThresholdLevels ==> ShouldSpeak(severity)
    {
      IsEnabled() && Gate(config.severityThreshold, severity)
    }

    /** The alert `speakTriage` hands to `speak`, if the severity passes the gate. */
    function TriageAlert(severity: string, hypothesis: string, confidence: real, escalate: bool): (a: seq<Alert>)
      reads this`config, this`client
      ensures |a| <= 1
      ensures |a| == 1 <==> ShouldSpeak(severity)
      ensures |a| == 1 ==>
        (a[0].priority == IsCritical(severity) && a[0].text == TriageMessage(severity, hypothesis, RoundPercent(confidence), escalate))
    {
      if ShouldSpeak(severity) then [Alert(TriageMessage(severity, hypothesis, RoundPercent(confidence), escalate), IsCritical(severity))]
      else []
    }

    method SpeakTriage(severity: string, hypothesis: string, confidence: real, escalate: bool)
      requires Valid()
      modifies this
      ensures Valid()
      ensures config == old(config) && client == old(client)
      ensures !old(IsEnabled()) ==> Player() == old(Player())
      ensures alerts == old(alerts) + old(TriageAlert(severity, hypothesis, confidence, escalate))
      ensures !old(ShouldSpeak(severity)) ==>
        queue == old(queue) && isPlaying == old(isPlaying) && current == old(current) && played == old(played)
      ensures old(ShouldSpeak(severity)) ==>
        Spoke(old(queue), old(isPlaying), old(current), old(played),
              TriageMessage(severity, hypothesis, RoundPercent(confidence), escalate), IsCritical(severity))
    {
      if !ShouldSpeak(severity) {
        return;
      }
      var message := TriageMessage(severity, hypothesis, RoundPercent(confidence), escalate);
      Speak(message, LowerAscii(severity) == "critical");
    }

    method SpeakDeepAnalysis(rootCause: string, hasPatch: bool)
      requires Valid()
      modifies this
      ensures Valid()
      ensures config == old(config) && client == old(client)
      ensures !old(IsEnabled()) ==> Player() == old(Player())
      ensures alerts == old(alerts) + [Alert(DeepAnalysisMessage(rootCause, hasPatch), false)]
      ensures !old(IsEnabled()) ==>
        queue == old(queue) && isPlaying == old(isPlaying) && current == old(current) && played == old(played)
      ensures old(IsEnabled()) ==>
        Spoke(old(queue), old(isPlaying), old(current), old(played), DeepAnalysisMessage(rootCause, hasPatch), false)
    {
      Speak(DeepAnalysisMessage(rootCause, hasPatch), false);
    }

    method SpeakError(error: string)
      requires Valid()
      modifies this
      ensures Valid()
      ensures config == old(config) && client == old(client)
      ensures !old(IsEnabled()) ==> Player() == old(Player())
      ensures alerts == old(alerts) + [Alert(ErrorIntro + error, true)]
      ensures old(IsEnabled()) ==> queue == [] && isPlaying == old(isPlaying)
      ensures !old(IsEnabled()) ==>
        queue == old(queue) && isPlaying == old(isPlaying) && current == old(current) && played == old(played)
      ensures old(IsEnabled()) ==>
        Spoke(old(queue), old(isPlaying), old(current), old(played), ErrorIntro + error, true)
    {
      Speak(ErrorIntro + error, true);
    }

    method SpeakSuccess(message: string)
      requires Valid()
      modifies this
      ensures Valid()
      ensures config == old(config) && client == old(client)
      ensures alerts == old(alerts) + [Alert(message, false)]
      ensures !old(IsEnabled()) ==>
        queue == old(queue) && isPlaying == old(isPlaying) && current == old(current) && played == old(played)
      ensures old(IsEnabled()) ==> Spoke(old(queue), old(isPlaying), old(current), old(played), message, false)
    {
      Speak(message, false);
    }

    method ClearQueue()
      modifies this
      ensures queue == []
      ensures config == old(config) && client == old(client) && isPlaying == old(isPlaying) && current == old(current)
      ensures alerts == old(alerts) && played == old(played)
    {
      queue := [];
    }

    /**
     * `updateConfig`: merges the patch; a patch naming a non-empty key, model
     * or voice also replaces the client with one built from the merged key,
     * model and voice only, so the other voice settings return to their defaults.
     */
    method UpdateConfig(patch: ManagerPatch)
      requires Valid()
      modifies this
      ensures Valid()
      ensures config == MergeConfig(old(config), patch)
      ensures queue == old(queue) && isPlaying == old(isPlaying) && current == old(current)
      ensures alerts == old(alerts) && played == old(played)
      ensures !(Truthy(patch.apiKey) || Truthy(patch.model) || Truthy(patch.voiceId)) ==> client == old(client)
      ensures old(client) == null && !(Truthy(patch.apiKey) || Truthy(patch.model) || Truthy(patch.voiceId)) ==> !IsEnabled()
      ensures Truthy(patch.apiKey) || Truthy(patch.model) || Truthy(patch.voiceId) ==>
        client != null && fresh(client) && client.apiKey == config.apiKey
        && client.settings == ElevenLabs.Resolve(ElevenLabs.VoiceConfig(config.apiKey, config.model, config.voiceId, None, None, None, None))
    {
      config := MergeConfig(config, patch);
      if Truthy(patch.apiKey) || Truthy(patch.model) || Truthy(patch.voiceId) {
        client := new ElevenLabs.ElevenLabsClient(
          ElevenLabs.VoiceConfig(config.apiKey, config.model, config.voiceId, None, None, None, None));
      }
    }
  }
}
