/**
 * The persisted configuration: the Gemini key and model, and the voice-alert
 * record. The backing store holds three optional entries; the environment
 * variables that take precedence over it are passed in as a map.
 */
module Configuration {
  import opened Wrappers

  const DefaultModel := "gemini-2.5-flash"
  const GeminiKeyVariable := "GEMINI_API_KEY"
  const ElevenLabsKeyVariable := "ELEVENLABS_API_KEY"

  type Environment = map<string, string>

  /** The stored voice-alert record; every entry may be absent. */
  datatype VoiceRecord = VoiceRecord(
    apiKey: Option<string>,
    enabled: Option<bool>,
    model: Option<string>,
    voiceId: Option<string>,
    severityThreshold: Option<string>,
    streaming: Option<bool>)

  const EmptyVoiceRecord := VoiceRecord(None, None, None, None, None, None)

  /** The record reported when none is stored. */
  const DefaultVoiceRecord :=
    VoiceRecord(None, Some(false), Some("eleven_multilingual_v2"), Some("JBFqnCBsd6RMkjVDRZzb"), Some("warning"), Some(true))

  /** What `getAll` reports. */
  datatype AllSettings = AllSettings(apiKey: Option<string>, model: string, elevenlabs: VoiceRecord)

  /** `process.env[name] || stored`: a set, non-empty variable wins over the stored value. */
  function EnvironmentFirst(env: Environment, name: string, stored: Option<string>): (r: Option<string>)
    ensures name in env && env[name] != "" ==> r == Some(env[name])
    ensures !(name in env && env[name] != "") ==> r == stored
  {
    if name in env && env[name] != "" then Some(env[name]) else stored
  }

  /** `{ ...current, ...patch }`: the entries present in `patch` replace those of `current`. */
  function OverlayRecord(current: VoiceRecord, patch: VoiceRecord): (r: VoiceRecord)
    ensures patch.apiKey.Some? ==> r.apiKey == patch.apiKey
    ensures patch.enabled.Some? ==> r.enabled == patch.enabled
    ensures patch.model.Some? ==> r.model == patch.model
    ensures patch.voiceId.Some? ==> r.voiceId == patch.voiceId
    ensures patch.severityThreshold.Some? ==> r.severityThreshold == patch.severityThreshold
    ensures patch.streaming.Some? ==> r.streaming == patch.streaming
    ensures patch.apiKey.None? ==> r.apiKey == current.apiKey
    ensures patch.enabled.None? ==> r.enabled == current.enabled
    ensures patch.model.None? ==> r.model == current.model
    ensures patch.voiceId.None? ==> r.voiceId == current.voiceId
    ensures patch.severityThreshold.None? ==> r.severityThreshold == current.severityThreshold
    ensures patch.streaming.None? ==> r.streaming == current.streaming
  {
    VoiceRecord(
      if patch.apiKey.Some? then patch.apiKey else current.apiKey,
      if patch.enabled.Some? then patch.enabled else current.enabled,
      if patch.model.Some? then patch.model else current.model,
      if patch.voiceId.Some? then patch.voiceId else current.voiceId,
      if patch.severityThreshold.Some? then patch.severityThreshold else current.severityThreshold,
      if patch.streaming.Some? then patch.streaming else current.streaming)
  }

  /** Overlaying nothing changes nothing, and overlaying the same patch twice acts once. */
  lemma OverlayRecordLaws(current: VoiceRecord, patch: VoiceRecord)
    ensures OverlayRecord(current, EmptyVoiceRecord) == current
    ensures OverlayRecord(OverlayRecord(current, patch), patch) == OverlayRecord(current, patch)
    ensures OverlayRecord(EmptyVoiceRecord, patch) == patch
  {
  }

  class ConfigManager {
    /** The three entries of the backing store. */
    var apiKey: Option<string>
    var model: Option<string>
    var elevenlabs: Option<VoiceRecord>

    /** Opens the store holding `persisted...`; a missing model is filled from the store's defaults. */
    constructor(persistedApiKey: Option<string>, persistedModel: Option<string>, persistedVoice: Option<VoiceRecord>)
      ensures apiKey == persistedApiKey && elevenlabs == persistedVoice
      ensures model == (if persistedModel.Some? then persistedModel else Some(DefaultModel))
    {
      apiKey := persistedApiKey;
      model := if persistedModel.Some? then persistedModel else Some(DefaultModel);
      elevenlabs := persistedVoice;
    }

    function GetApiKey(env: Environment): (key: Option<string>)
      reads this
      ensures GeminiKeyVariable in env && env[GeminiKeyVariable] != "" ==> key == Some(env[GeminiKeyVariable])
      ensures !(GeminiKeyVariable in env && env[GeminiKeyVariable] != "") ==> key == apiKey
    {
      EnvironmentFirst(env, GeminiKeyVariable, apiKey)
    }

    method SetApiKey(key: string)
      modifies this
      ensures apiKey == Some(key) && model == old(model) && elevenlabs == old(elevenlabs)
      ensures forall env :: !(GeminiKeyVariable in env && env[GeminiKeyVariable] != "") ==> GetApiKey(env) == Some(key)
    {
      apiKey := Some(key);
    }

    /** The stored model unless it is missing or empty, then the default; never empty. */
    function GetModel(): (m: string)
      reads this
      ensures m != ""
      ensures model.Some? && model.value != "" ==> m == model.value
      ensures model.None? || model.value == "" ==> m == DefaultModel
    {
      if model.Some? && model.value != "" then model.value else DefaultModel
    }

    method SetModel(m: string)
      modifies this
      ensures model == Some(m) && apiKey == old(apiKey) && elevenlabs == old(elevenlabs)
      ensures m != "" ==> GetModel() == m
    {
      model := Some(m);
    }

    /** The voice key: the environment variable when set and non-empty, else the stored record's key. */
    function GetElevenLabsApiKey(env: Environment): (key: Option<string>)
      reads this
      ensures ElevenLabsKeyVariable in env && env[ElevenLabsKeyVariable] != "" ==> key == Some(env[ElevenLabsKeyVariable])
      ensures !(ElevenLabsKeyVariable in env && env[ElevenLabsKeyVariable] != "") ==>
        key == (if elevenlabs.Some? then elevenlabs.value.apiKey else None)
    {
      EnvironmentFirst(env, ElevenLabsKeyVariable, if elevenlabs.Some? then elevenlabs.value.apiKey else None)
    }

    /** Writing the nested key creates the record when there is none, without the default entries. */
    method SetElevenLabsApiKey(key: string)
      modifies this
      ensures elevenlabs == Some((if old(elevenlabs).Some? then old(elevenlabs).value else EmptyVoiceRecord).(apiKey := Some(key)))
      ensures apiKey == old(apiKey) && model == old(model)
      ensures old(elevenlabs).None? ==> GetElevenLabsConfig().enabled.None? && GetElevenLabsConfig().model.None?
    {
      var current := if elevenlabs.Some? then elevenlabs.value else EmptyVoiceRecord;
      elevenlabs := Some(current.(apiKey := Some(key)));
    }

    /** The stored record, or the fixed default when none is stored. */
    function GetElevenLabsConfig(): (r: VoiceRecord)
      reads this
      ensures elevenlabs.Some? ==> r == elevenlabs.value
      ensures elevenlabs.None? ==> r == DefaultVoiceRecord && r.enabled == Some(false) && r.severityThreshold == Some("warning")
    {
      if elevenlabs.Some? then elevenlabs.value else DefaultVoiceRecord
    }

    method SetElevenLabsConfig(r: VoiceRecord)
      modifies this
      ensures elevenlabs == Some(r) && apiKey == old(apiKey) && model == old(model)
      ensures GetElevenLabsConfig() == r
    {
      elevenlabs := Some(r);
    }

    /** Stores the current record (or the default) overlaid by `patch`. */
    method UpdateElevenLabsConfig(patch: VoiceRecord)
      modifies this
      ensures elevenlabs == Some(OverlayRecord(old(GetElevenLabsConfig()), patch))
      ensures apiKey == old(apiKey) && model == old(model)
    {
      elevenlabs := Some(OverlayRecord(GetElevenLabsConfig(), patch));
    }

    function GetAll(env: Environment): (all: AllSettings)
      reads this
      ensures all.apiKey == GetApiKey(env) && all.model == GetModel() && all.elevenlabs == GetElevenLabsConfig()
    {
      AllSettings(GetApiKey(env), GetModel(), GetElevenLabsConfig())
    }

    /** Empties the store, which leaves only its default model. */
    method Clear()
      modifies this
      ensures apiKey == None && model == Some(DefaultModel) && elevenlabs == None
      ensures GetModel() == DefaultModel && GetElevenLabsConfig() == DefaultVoiceRecord
    {
      apiKey := None;
      model := Some(DefaultModel);
      elevenlabs := None;
    }
  }

  /** Turning voice alerts on when nothing is stored keeps every other default entry. */
  lemma EnableOverDefaults()
    ensures OverlayRecord(DefaultVoiceRecord, EmptyVoiceRecord.(enabled := Some(true)))
         == DefaultVoiceRecord.(enabled := Some(true))
  {
  }
}
