# edgecli log triage, modelled in Dafny

edgecli watches a log stream and buffers its lines. It flushes them in batches, either every 100 lines or 3000 ms after the last batch. Each batch is summarised:

- line, error and warning counts;
- at most ten deduplicated error lines, then the warnings;
- e-mail addresses, long keys and bearer tokens masked.

The summary is sent to a Gemini model for a light triage. A triage whose model asks for it, or whose confidence is below 0.65, is escalated to a deep analysis. Every triage and deep analysis is counted in the session statistics. Alerts are spoken through ElevenLabs text-to-speech, gated by a severity threshold and queued unless they are urgent. The settings live in a persistent configuration store that environment variables can override.

This project models that core:

- the log processor (`log_processor.dfy`, `masking.dfy`);
- the session statistics (`session_stats.dfy`);
- the Gemini client (`gemini_client.dfy`);
- the configuration store (`config.dfy`);
- the ElevenLabs client (`elevenlabs_client.dfy`);
- the voice manager (`voice_manager.dfy`);
- the `watch --stdin` command (`watch.dfy`);
- shared text and option helpers (`text.dfy`, `wrappers.dfy`).

Objects whose fields the program updates are classes: `LogProcessor`, `SessionStats` with its `StatsRegistry`, `GeminiClient`, `ConfigManager`, `ElevenLabsClient` and `VoiceManager`. The string rules, the summary, the prompts, the severity gate and the request building are functions, with lemmas about them.

The outside world becomes parameters:

- the clock is an explicit `now` in milliseconds;
- environment variables are a map;
- each model reply is an `Exchange` (no reply means the request threw), with the JSON parser applied to it as a function parameter;
- each HTTP reply is a `FetchOutcome`.

A playback that the voice manager awaits runs inside the call that starts it. A queued playback starts inside `ProcessQueue`, and `PlaybackFinished` is the event of it ending. The voice manager records every alert it is handed (`alerts`) and every speech request it sends (`played`) as ghost history.

## Model

| member | source | states |
|---|---|---|
| LogProcessing.LogProcessor.constructor | src/log-processor.ts:1-5 | A new processor has an empty buffer and starts its batch clock at `now`. |
| LogProcessing.LogProcessor.AddLine | src/log-processor.ts:7-9 | The line is appended at the end of the buffer; the batch clock is unchanged. |
| LogProcessing.LogProcessor.ShouldBatch | src/log-processor.ts:11-15 | A batch is due exactly when 3000 ms have passed since the last one or 100 lines are buffered. |
| LogProcessing.LogProcessor.HasData | src/log-processor.ts:69-71 | True exactly when the buffer is not empty. |
| LogProcessing.LogProcessor.GetBatch | src/log-processor.ts:17-22 | Returns the buffered lines joined by line feeds, empties the buffer and restarts the clock. For lines without line feeds or blanks, splitting the batch again gives back exactly the buffered lines. |
| LogProcessing.LogProcessor.DeduplicateErrors | src/log-processor.ts:45-60 | The loop with its `seen` map returns exactly `Dedup(errors)`: the first error line of each normalised key, in input order, cut to ten. |
| LogProcessing.LogProcessor.Summarize | src/log-processor.ts:24-43 | Returns exactly `SummaryOf(logs)`: the three counts, then the masked key issues. |
| LogProcessing.WarningIsWarn | src/log-processor.ts:29 | The warning pattern matches exactly the lines that contain "warn" in any ASCII case. |
| LogProcessing.Filter | src/log-processor.ts:25-29 | The result keeps exactly the elements that pass the test, and is no longer than the input. |
| LogProcessing.FilterKeepsAll | src/log-processor.ts:25-29 | Filtering a sequence whose elements all pass the test returns it unchanged. |
| LogProcessing.FilterAppend | src/log-processor.ts:25-29 | Filtering two sequences joined end to end gives the two filtered sequences, in the same order. |
| LogProcessing.FilterCounts | src/log-processor.ts:25-29 | Every value that passes the test is kept as many times as it occurs; every other value is dropped. |
| LogProcessing.FilterCountsPositions | src/log-processor.ts:25-29 | The filtered length is the number of input positions whose element passes the test. |
| LogProcessing.NonBlankLines | src/log-processor.ts:25 | A piece of the split text is kept, as many times as it occurs, exactly when it is not blank. No kept line holds a line feed. |
| LogProcessing.NonBlankLinesOfJoin | src/log-processor.ts:18-25 | Joining non-blank, line-feed-free lines and splitting them again loses nothing and adds nothing. |
| Text.JoinSplit | src/log-processor.ts:18-25 | Joining the pieces of any split gives back the original text. |
| Text.SplitJoin | src/log-processor.ts:18-25 | Splitting the join of one or more line-feed-free lines gives back the lines. |
| LogProcessing.CollapseDigits | src/log-processor.ts:50 | Replacing each digit run by one 'N' never lengthens the text. |
| LogProcessing.CollapsedHasNoDigit | src/log-processor.ts:50 | No digit survives the replacement. |
| LogProcessing.NormalizeKey | src/log-processor.ts:50 | The key is at most 100 characters long and holds no digit. |
| LogProcessing.CollapseDigitsAppend | src/log-processor.ts:50 | Collapsing distributes over a concatenation that does not split a digit run. |
| LogProcessing.NumbersDoNotSplitKeys | src/log-processor.ts:50-56 | Two error lines that differ only in the value of one whole number have the same key. |
| LogProcessing.FirstOfEachKey | src/log-processor.ts:49-57 | The kept lines are drawn from the input and are no more numerous than it. |
| LogProcessing.FirstOfEachKeyInOrder | src/log-processor.ts:49-57 | The kept lines are the input's lines at the positions where a key first appears, in increasing position order, and every such position is used. |
| LogProcessing.FirstOfEachKeyCovers | src/log-processor.ts:49-57 | The kept lines have pairwise different keys, and every key of the input is among theirs. |
| LogProcessing.FirstOccurrenceKept | src/log-processor.ts:53-55 | An error line whose key has not appeared earlier is kept. |
| LogProcessing.DedupSize | src/log-processor.ts:59 | There are as many deduplicated lines as distinct keys, capped at ten. |
| LogProcessing.RepeatedErrorListedOnce | src/log-processor.ts:45-60 | Error lines that all share one key are listed once, as their first occurrence. |
| LogProcessing.KeyIssuesRedacted | src/log-processor.ts:35 | The key-issue text holds no e-mail shape, no word-bounded run of 32 or more alphanumerics, and nothing the bearer rule would still change. |
| LogProcessing.SummaryCounts | src/log-processor.ts:24-43 | The summary starts with the header. Its total counts the non-blank lines. Its error and warning counts count the error and warning lines among them by position, repeats included. |
| LogProcessing.ErrorCountBeforeDedup | src/log-processor.ts:37-39 | The listed errors are error lines of the batch. There are at most ten of them, never more than the header's error count, which counts before deduplication. |
| LogProcessing.CountsOverlap | src/log-processor.ts:28-29 | The error count plus the warning count equals the number of lines that are either, plus the number that are both. |
| LogProcessing.EmptyBatchSummary | src/log-processor.ts:24-43 | An empty batch gives zero counts and an empty key-issue section. |
| LogMasking.RunLength | src/log-processor.ts:64-66 | A greedy `+`/`*` run takes every character of its class and stops at the first one outside it. |
| LogMasking.LastTldDot | src/log-processor.ts:64 | Finds the last dot of the domain after which two or more letters follow; when there is none, no such dot exists. |
| LogMasking.MaskEmailsLeavesNoEmail | src/log-processor.ts:64 | After the e-mail rule, no e-mail shape is left anywhere in the text. |
| LogMasking.MaskEmailsWithoutEmail | src/log-processor.ts:64 | The e-mail rule leaves a text without e-mail shapes unchanged. |
| LogMasking.MaskApiKeysLeavesNoKey | src/log-processor.ts:65 | After the key rule, no word-bounded run of 32 or more alphanumerics is left. |
| LogMasking.MaskApiKeysWithoutKey | src/log-processor.ts:65 | The key rule leaves a text without such runs unchanged. |
| LogMasking.MaskApiKeysKeepsNoEmail | src/log-processor.ts:64-65 | The key rule never creates an e-mail shape. |
| LogMasking.MaskBearerKeepsNoEmail | src/log-processor.ts:64-66 | The bearer rule never creates an e-mail shape. |
| LogMasking.MaskBearerKeepsNoKey | src/log-processor.ts:65-66 | The bearer rule never creates a word-bounded key. |
| LogMasking.MaskBearerIdempotent | src/log-processor.ts:66 | Applying the bearer rule twice is the same as applying it once. |
| LogMasking.MaskSensitiveData | src/log-processor.ts:62-67 | A text with no e-mail shape, no word-bounded key and nothing for the bearer rule passes through unchanged. |
| LogMasking.MaskSensitiveDataLeavesNothing | src/log-processor.ts:62-67 | The masked text holds no e-mail shape and no word-bounded key, and the bearer rule leaves it unchanged. |
| LogMasking.MaskSensitiveDataIdempotent | src/log-processor.ts:62-67 | Masking an already masked text changes nothing. |
| SessionStatistics.SessionStats.constructor | src/session-stats.ts:4-11 | A new session starts at `now`, with low, medium, high and critical at zero in that order and no deep analyses. |
| SessionStatistics.StatsRegistry.GetInstance | src/session-stats.ts:13-18 | The first call creates the instance with its clock at `now`, the four standard severities at zero and no deep analyses; every later call returns that same instance. |
| SessionStatistics.SessionStats.RecordTriage | src/session-stats.ts:20-22 | The severity's count goes up by one; a severity never seen before is added at the end with count one. The total goes up by exactly one. |
| SessionStatistics.SessionStats.RecordDeepAnalysis | src/session-stats.ts:24-26 | The deep-analysis count goes up by one; the triage counts and their total do not change. |
| SessionStatistics.SessionStats.Summary | src/session-stats.ts:28-40 | The duration is the elapsed time in whole seconds, rounded down. The total is the sum of all counts. The time saved is 45 s per triage in whole minutes, rounded down. |
| SessionStatistics.SummaryAt | src/session-stats.ts:28-40 | The figures handed to the display: every recorded severity with its count, in the order the severities were first recorded. The total is their sum and the duration is whole seconds. The time saved is 45 s per triage in whole minutes, rounded down. |
| SessionStatistics.SumIncrement | src/session-stats.ts:20-30 | Raising one listed severity's count by one raises the total by one. |
| SessionStatistics.SumAppendNew | src/session-stats.ts:20-30 | A new severity with count one raises the total by one. |
| SessionStatistics.TimeSavedRoundsDown | src/session-stats.ts:31 | Every four triages save exactly three minutes. The remaining one, two or three save 0, 1 or 2 minutes. |
| Gemini.GeminiClient.constructor | src/gemini-client.ts:28-32 | The client keeps its key, uses the given model or the default, and starts with no metrics. |
| Gemini.TriagePrompt | src/gemini-client.ts:37-48 | The prompt is the fixed head, the summary at the head's end, then the fixed tail, and nothing else. |
| Gemini.ContextSection | src/gemini-client.ts:75 | A truthy snippet text gives the "Code Context" section; an absent or empty one gives nothing. |
| Gemini.DeepPrompt | src/gemini-client.ts:70-82 | The prompt is the fixed head, the summary, the context section only when snippets are given, then the fixed tail. |
| Gemini.JsonSpan | src/gemini-client.ts:61-62 | The span runs from the first '{' to the last '}' after it; with no such pair, the whole reply is parsed. |
| Gemini.JsonSpanIdempotent | src/gemini-client.ts:61-62 | Extracting the span of an extracted span changes nothing. |
| Gemini.JsonSpanStripsProse | src/gemini-client.ts:61-62 | When no '{' comes before the object and no '}' after it, the span is exactly the object, whatever it contains. |
| Gemini.TokensOf | src/gemini-client.ts:55 | The token count is the reported total when it is present and non-zero, else 0. |
| Gemini.Recorded | src/gemini-client.ts:54-58 | A reply that arrives records exactly one metrics entry, with its latency and tokens, even when it does not parse; a failed request records none. |
| Gemini.CallResult | src/gemini-client.ts:50-64 | A failed request is an error. Otherwise the call succeeds exactly when the JSON span parses, and then returns the parsed value with the recorded metrics. |
| Gemini.GeminiClient.LightTriage | src/gemini-client.ts:34-65 | Sends the triage prompt, appends the call's metrics to the log, and returns the call's result. |
| Gemini.GeminiClient.DeepAnalysis | src/gemini-client.ts:67-98 | Sends the deep prompt, appends the call's metrics to the log, and returns the call's result. |
| Gemini.GeminiClient.GetMetrics | src/gemini-client.ts:100-102 | Returns the whole metrics log. |
| Gemini.GeminiClient.GetTotalStats | src/gemini-client.ts:104-116 | Returns exactly `StatsOf(metrics)`. |
| Gemini.StatsOf | src/gemini-client.ts:104-116 | The call count, latency sum and token sum over the log. The averages are the sums divided by the count, or 0 for an empty log. |
| Gemini.AverageLatencyWithinRange | src/gemini-client.ts:111 | The average latency lies between the smallest and largest latency bounds of the log. |
| Gemini.StatsAfterRecord | src/gemini-client.ts:104-116 | Recording one call adds one to the count and its latency and tokens to the sums. |
| Configuration.ConfigManager.constructor | src/config.ts:50-57 | The store opens with the persisted entries; a missing model is filled with the default. |
| Configuration.ConfigManager.GetApiKey | src/config.ts:59-62 | A set, non-empty `GEMINI_API_KEY` wins; otherwise the stored key. |
| Configuration.ConfigManager.SetApiKey | src/config.ts:64-66 | Stores the key; without the environment variable it is then what `GetApiKey` returns. |
| Configuration.ConfigManager.GetModel | src/config.ts:68-70 | The stored model unless it is missing or empty, then the default; never empty. |
| Configuration.ConfigManager.SetModel | src/config.ts:72-74 | Stores the model; a non-empty one is then what `GetModel` returns. |
| Configuration.ConfigManager.GetElevenLabsApiKey | src/config.ts:77-79 | A set, non-empty `ELEVENLABS_API_KEY` wins; otherwise the stored record's key. |
| Configuration.ConfigManager.SetElevenLabsApiKey | src/config.ts:81-83 | Sets only the record's key. With no record stored, it creates one holding only the key, so the default entries are lost. |
| Configuration.ConfigManager.GetElevenLabsConfig | src/config.ts:85-93 | The stored record, or the fixed default (disabled, threshold "warning") when none is stored. |
| Configuration.ConfigManager.SetElevenLabsConfig | src/config.ts:95-97 | Stores the record, which `GetElevenLabsConfig` then returns. |
| Configuration.ConfigManager.UpdateElevenLabsConfig | src/config.ts:99-102 | Stores the current record, or the default, overlaid by the entries present in the patch. |
| Configuration.ConfigManager.GetAll | src/config.ts:104-110 | Reports the effective key, the model and the voice record, as the three getters give them. |
| Configuration.ConfigManager.Clear | src/config.ts:112-114 | Empties the store, which leaves only its default model and makes the voice record the default again. |
| Configuration.OverlayRecord | src/config.ts:101 | Each entry present in the patch replaces the current one; absent entries keep theirs. |
| Configuration.OverlayRecordLaws | src/config.ts:99-102 | An empty patch changes nothing; applying a patch twice acts once; a patch over an empty record is the patch. |
| Configuration.EnableOverDefaults | src/config.ts:85-102 | Enabling voice alerts when no record is stored keeps every other default entry. |
| ElevenLabs.ElevenLabsClient.constructor | src/voice/elevenlabs-client.ts:24-34 | The client keeps the key, and its settings are the configuration resolved against the defaults. |
| ElevenLabs.Resolve | src/voice/elevenlabs-client.ts:26-33 | An empty or absent model or voice falls back to the default (`\|\|`). A given stability, similarity, style or speaker boost is kept even when it is 0 or false (`??`). |
| ElevenLabs.ZeroAndFalseAreKept | src/voice/elevenlabs-client.ts:27-32 | An empty model string is replaced, while zero numbers and a false flag are kept. |
| ElevenLabs.BuildRequest | src/voice/elevenlabs-client.ts:36-59 | The URL names the option's voice or the configured one. The headers carry the key. The body carries the text, the model and the four voice settings. |
| ElevenLabs.SpeechUrl | src/voice/elevenlabs-client.ts:40-74 | The URL is the text-to-speech endpoint, then the voice id, then "/stream" for a streamed request. |
| ElevenLabs.SpeechUrlInjective | src/voice/elevenlabs-client.ts:40-74 | Different voices give different URLs. |
| ElevenLabs.StreamRequestDiffersOnlyInUrl | src/voice/elevenlabs-client.ts:70-93 | A streamed request differs from a plain one only by the "/stream" suffix of its URL. |
| ElevenLabs.ApiErrorMessage | src/voice/elevenlabs-client.ts:61-64 | The error text starts with the API-error prefix and ends with the response body. |
| ElevenLabs.ApiErrorMessageInjective | src/voice/elevenlabs-client.ts:61-64 | The error text determines the status and the body. |
| ElevenLabs.SpeechResult | src/voice/elevenlabs-client.ts:61-102 | Audio exactly when the response is ok (and, when streaming, has a body). A thrown fetch, a non-ok status and a missing stream body are each their own error. |
| ElevenLabs.NullBodyIsNotApiError | src/voice/elevenlabs-client.ts:95-102 | The missing-body error is never confused with an API error. |
| ElevenLabs.ElevenLabsClient.TextToSpeech | src/voice/elevenlabs-client.ts:36-68 | Sends the plain request built from the client's settings and returns the plain result. |
| ElevenLabs.ElevenLabsClient.TextToSpeechStream | src/voice/elevenlabs-client.ts:70-122 | Sends the streamed request and returns the streamed result. |
| ElevenLabs.ElevenLabsClient.ValidateApiKey | src/voice/elevenlabs-client.ts:124-135 | The request goes to the user endpoint with the client's key in `xi-api-key`. The key is valid exactly when that endpoint answers with an ok status; a thrown fetch is invalid. |
| ElevenLabs.ElevenLabsClient.UpdateConfig | src/voice/elevenlabs-client.ts:137-142 | The settings are overlaid by the entries present in the patch. |
| ElevenLabs.Overlay | src/voice/elevenlabs-client.ts:138-141 | Each setting present in the patch replaces the current one; absent ones are kept. |
| ElevenLabs.OverlayLaws | src/voice/elevenlabs-client.ts:137-142 | An empty patch changes nothing; a patch applied twice acts once; two patches in turn act as their merge. |
| VoiceAlerts.VoiceManager.constructor | src/voice/voice-manager.ts:17-22 | The manager keeps the configuration and starts idle with an empty queue. It has a client exactly when the configuration is enabled and has a non-empty key, and is enabled exactly then. |
| VoiceAlerts.VoiceManager.IsEnabled | src/voice/voice-manager.ts:24-26 | Voice is on only while the configuration enables it, and only with a client to play through. |
| VoiceAlerts.VoiceManager.Speak | src/voice/voice-manager.ts:28-42 | A disabled manager changes nothing. A priority alert empties the queue and is played unless a playback is in flight. Any other alert is queued and the drain is started. |
| VoiceAlerts.VoiceManager.ProcessQueue | src/voice/voice-manager.ts:66-79 | While busy or empty it changes nothing. Otherwise it removes exactly the head and starts playing it, unless the head is empty. |
| VoiceAlerts.VoiceManager.PlaybackFinished | src/voice/voice-manager.ts:44-79 | The in-flight queued playback ends, successfully or not, and the drain moves to the next queued message. |
| VoiceAlerts.VoiceManager.PlaybackRequest | src/voice/voice-manager.ts:52-58 | A playback sends the text with the client's key, to the streaming URL exactly when streaming is configured. |
| VoiceAlerts.Rank | src/voice/voice-manager.ts:88-106 | The position of a level among info, warning, error and critical; -1 exactly when the word is not one of them. |
| VoiceAlerts.MapSeverity | src/voice/voice-manager.ts:91-103 | low maps to info, medium to warning and high to error. The threshold words are kept, and so is any other word. |
| VoiceAlerts.SeverityLevels | src/voice/voice-manager.ts:91-106 | In any ASCII case, low or info is level 0, medium or warning level 1, high or error level 2, and critical level 3. |
| VoiceAlerts.GateMonotoneInSeverity | src/voice/voice-manager.ts:81-109 | If an alert passes the threshold, any louder one passes too. |
| VoiceAlerts.GateAntitoneInThreshold | src/voice/voice-manager.ts:81-109 | Lowering the threshold never silences an alert. |
| VoiceAlerts.UnknownSeverityIsMuted | src/voice/voice-manager.ts:105-108 | Under a recognised threshold, an unrecognised severity is never spoken. |
| VoiceAlerts.UnknownThresholdSpeaksAll | src/voice/voice-manager.ts:105-108 | Under an unrecognised threshold, every severity is spoken. |
| VoiceAlerts.CriticalIsTopLevel | src/voice/voice-manager.ts:101-103 | Only "critical", in any ASCII case, reaches the top level. |
| VoiceAlerts.RoundPercent | src/voice/voice-manager.ts:123 | The percentage is within one half of the confidence times 100. |
| VoiceAlerts.TriageMessage | src/voice/voice-manager.ts:122-129 | The message is the upper-cased severity, the hypothesis and the percentage, then " percent.", then the escalation note when escalating, and nothing more. |
| VoiceAlerts.TriageMessageEscalates | src/voice/voice-manager.ts:127-129 | The message ends with the escalation note exactly when the triage escalates. |
| VoiceAlerts.DeepAnalysisMessage | src/voice/voice-manager.ts:139-143 | The message starts by naming the root cause. When a patch exists it ends with the patch note, and it is longer by exactly that note only then. |
| VoiceAlerts.VoiceManager.ShouldSpeak | src/voice/voice-manager.ts:81-109 | Nothing passes while voice is off. Once on, a critical severity always passes, the default threshold passes exactly the recognised severities, and an unrecognised threshold passes every severity. |
| VoiceAlerts.VoiceManager.TriageAlert | src/voice/voice-manager.ts:111-133 | A triage gives one alert exactly when its severity passes the gate; it is urgent exactly when the severity is "critical". |
| VoiceAlerts.VoiceManager.SpeakTriage | src/voice/voice-manager.ts:111-133 | A gated-out triage changes nothing, and neither does any triage while voice is off; otherwise its message is spoken, urgently when critical. |
| VoiceAlerts.VoiceManager.SpeakDeepAnalysis | src/voice/voice-manager.ts:135-147 | The deep-analysis message is spoken through the queue; while voice is off the player is left as it was. |
| VoiceAlerts.VoiceManager.SpeakError | src/voice/voice-manager.ts:149-151 | "Error: " and the text are spoken as a priority alert, which empties the queue; while voice is off the player is left as it was. |
| VoiceAlerts.VoiceManager.SpeakSuccess | src/voice/voice-manager.ts:153-155 | The message is spoken through the queue. |
| VoiceAlerts.VoiceManager.ClearQueue | src/voice/voice-manager.ts:157-159 | Empties the queue and changes nothing else. |
| VoiceAlerts.VoiceManager.UpdateConfig | src/voice/voice-manager.ts:161-171 | The configuration is overlaid by the patch. A new client is built only when the patch has a truthy key, model or voice, with the voice settings reset to the defaults. A manager without a client stays disabled unless the patch builds one. |
| VoiceAlerts.MergeConfig | src/voice/voice-manager.ts:162 | Each of the ten entries the patch holds replaces the configured one; every entry the patch leaves out is kept. |
| Watch.VoiceSwitch | src/commands/watch.ts:33-37 | The stored switch, then `options.voice`, then `options.noVoice`, which has the last word. |
| Watch.ManagerConfigFor | src/commands/watch.ts:25-43 | The manager is enabled exactly when the switch is on and a voice key is stored. The stored record's other entries are passed on. |
| Watch.VoiceNeedsKeyAndNoVeto | src/commands/watch.ts:33-43 | A set `options.noVoice` or a missing key always disables voice; a key with `options.voice` set and `options.noVoice` unset always enables it. |
| Watch.StartWatch | src/commands/watch.ts:11-43 | Fails with the set-up message exactly when no Gemini key is configured. Otherwise it builds the client on the configured model, an empty processor, the shared statistics, which start empty at `now` in a new session, and a voice manager from the switch. |
| Watch.OutcomeOf | src/commands/watch.ts:134-180 | Where a batch ends: the triage failed, a triage that did not escalate, an escalated triage whose deep analysis failed, or a completed analysis. |
| Watch.BatchRecords | src/commands/watch.ts:135-159 | A batch records at most two metrics entries, two for a completed analysis, none when the triage request fails. |
| Watch.BatchAlerts | src/commands/watch.ts:147-179 | A failed triage gives one error alert. Otherwise the triage alert comes first, then the deep-analysis alert or an error alert. |
| Watch.Escalates | src/commands/watch.ts:152-155 | A triage escalates when the model asks for it or its confidence is below 0.65. A spoken percentage below 65 always escalates, and one above 65 never does without the model asking. |
| Watch.EscalationAtSixtyFivePercent | src/commands/watch.ts:152-155 | Two triages both spoken as 65 percent can differ in escalation, because the rule compares the unrounded confidence. |
| Watch.ProcessBatch | src/commands/watch.ts:127-181 | Drains the buffer and summarises it. It leaves exactly the outcome's metrics, triage counts, deep-analysis count and alerts. The voice configuration and client are kept, and with voice off the player is untouched. |
| Watch.Triage | src/commands/watch.ts:134-180 | Leaves exactly the metrics, triage counts, deep-analysis count and alerts of the outcome of its two replies. The voice configuration and client are kept, and with voice off the player is untouched. |
| Watch.AfterTriage | src/commands/watch.ts:138-175 | A parsed triage is counted once and announced, and escalated when the model asks or the confidence is below 0.65. The deep call's metrics, the counts and the alerts are those of the batch outcome. The voice configuration and client are kept, and with voice off the player is untouched. |
| Watch.EscalatedTriage | src/commands/watch.ts:148-175 | An escalated triage is counted and announced as escalating, then the deep analysis follows. The metrics, counts and alerts are those of the batch outcome. |
| Watch.DeepStage | src/commands/watch.ts:159-175 | A parsed deep analysis is counted and announced; a failed one gives an error alert. The triage counts stay as they were, and the deep call's metrics are recorded. |
| Watch.OnLine | src/commands/watch.ts:89-95 | The line is buffered; the batch is flushed exactly when it is due. A flush leaves the batch outcome's counts and alerts; otherwise the statistics and the voice manager are unchanged. |
| Watch.OnTick | src/commands/watch.ts:107-111 | The timer flushes exactly when a batch is due and the buffer is not empty. A flush leaves the batch outcome's counts and alerts; otherwise the statistics and the voice manager are unchanged. |
| Watch.OnClose | src/commands/watch.ts:97-104 | A non-empty buffer is flushed, leaving the batch outcome's counts and alerts, and the session summary is produced from the updated statistics. |

## Behaviour kept from the code

- A priority alert that arrives while a queued playback is in flight is not played later: the queue is emptied and the alert is dropped (src/voice/voice-manager.ts:33-36, 45-47).
- When the queue drain takes an empty message, it plays nothing and does not go on to the next one (src/voice/voice-manager.ts:71-78).
- A failed batch shows "Retrying in 5s", but nothing is retried. The lines were already drained from the buffer and are lost (src/commands/watch.ts:128, 176-180).
- The patch flag of the deep-analysis alert reads a `patch` field, while the analysis result names its field `patch_diff`. The model reads `patch` as the code does (src/commands/watch.ts:173).
- The watch command takes the voice key from the stored record only; `ELEVENLABS_API_KEY` is not consulted there (src/commands/watch.ts:41-42).
- An unrecognised severity threshold has index -1, so every severity is spoken (src/voice/voice-manager.ts:105-108).
- `setElevenLabsApiKey` on an empty store creates a record with only the key, so the default entries are dropped (src/config.ts:81-83).
- Escalation compares the unrounded confidence with 0.65, so a triage spoken as "65 percent" may or may not be escalated (src/commands/watch.ts:152-155).
- `VoiceManager.updateConfig` builds a new client only when the patch has a truthy key, model or voice, and that client gets the default voice settings (src/voice/voice-manager.ts:164-170).

## Left out

- Console output, spinners, colours and the statistics display are not modelled; `Summary` returns the figures that would be displayed.
- Floating point is modelled with `real`: latencies, averages, confidence and the rounding of `Math.round` to within one half. IEEE rounding is not modelled.
- Concurrency is not modelled. Batches run one at a time, and an awaited priority playback completes within the call that starts it. Overlapping `processBatch` calls from the line handler and the timer are not modelled.
- `JSON.parse` is a parser function given as a parameter. The shape of the parsed object is not checked.
- The conversion of the web stream into a Node `Readable` is not modelled; a streamed result is the whole audio.
- Text lengths count code points rather than UTF-16 units. Case folding is ASCII only: `toUpperCase` and `toLowerCase` of non-ASCII letters are not modelled.
- An explicitly `undefined` entry in a spread patch is modelled only for the voice manager's `severityThreshold` and `streaming`, where it clears the value. For every other entry, an `undefined` one is treated like an absent one and leaves the current value.
- `getConfigPath` and the file location of the store are not modelled.
- `watchFile` only logs file changes; it is not modelled.
- `SIGINT` handling and `process.exit` are not modelled. The close handler's summary is the last thing the model produces.
- `GetMetrics` returns the log as a value, so aliasing of the returned array is not modelled.
- Gemini.DeepPrompt: states where the summary and the context section occur and the total length, not an if-and-only-if description of the whole text.
- Watch.RequestTriage: the prompt the client builds is not passed on, because the watch command never looks at it.
- Watch.RequestDeepAnalysis: the watch command passes no file snippets, so the deep prompt here never has a context section.
- Watch.ProcessBatch: with voice enabled, the queue, the playing flag and the requests played afterwards are given only through the alerts handed to the voice manager, whose own contracts say how each alert is played.
- Watch.Triage: with voice enabled, the queue, the playing flag and the requests played afterwards are given only through the alerts handed to the voice manager, whose own contracts say how each alert is played.
- Watch.AfterTriage: with voice enabled, the queue, the playing flag and the requests played afterwards are given only through the alerts handed to the voice manager, whose own contracts say how each alert is played.
- Watch.EscalatedTriage: with voice enabled, the queue, the playing flag and the requests played afterwards are given only through the alerts handed to the voice manager, whose own contracts say how each alert is played.
- Watch.DeepStage: with voice enabled, the queue, the playing flag and the requests played afterwards are given only through the alerts handed to the voice manager, whose own contracts say how each alert is played.
- Watch.OnLine: with voice enabled, the queue, the playing flag and the requests played afterwards are given only through the alerts handed to the voice manager, whose own contracts say how each alert is played.
- Watch.OnTick: with voice enabled, the queue, the playing flag and the requests played afterwards are given only through the alerts handed to the voice manager, whose own contracts say how each alert is played.
- Watch.OnClose: with voice enabled, the queue, the playing flag and the requests played afterwards are given only through the alerts handed to the voice manager, whose own contracts say how each alert is played.
- Command-line option parsing is not modelled. The command declares both `--voice` and `--no-voice` (src/index.ts:82-83), and its option parser stores `--no-voice` as `voice: false`. The watch command reads `options.noVoice` (src/commands/watch.ts:37), so `--no-voice` does not switch off voice that the stored record enables. The model takes `options.voice` and `options.noVoice` as given.
- Session statistics keys that collide with object prototype names are not modelled.
- SessionStatistics.SummaryAt: keeps the severities in the order they were first recorded. JavaScript lists integer-like keys first, and that ordering is not modelled. The display shows only low, medium, high and critical, and is not modelled either.
