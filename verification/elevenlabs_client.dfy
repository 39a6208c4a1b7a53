/**
 * The ElevenLabs text-to-speech client: how the voice settings are resolved
 * from a partial configuration, which request is sent for a piece of text,
 * and how the service's answer becomes audio or an error. The HTTP exchange
 * itself is an input (`FetchOutcome`).
 */
module ElevenLabs {
  import opened Wrappers
  import opened Text

  const DefaultModel := "eleven_multilingual_v2"
  const DefaultVoiceId := "JBFqnCBsd6RMkjVDRZzb"
  const DefaultStability: real := 0.5
  const DefaultSimilarityBoost: real := 0.75
  const DefaultStyle: real := 0.0
  const DefaultUseSpeakerBoost := true

  const SpeechEndpoint := "https://api.elevenlabs.io/v1/text-to-speech/"
  const StreamSuffix := "/stream"
  const UserEndpoint := "https://api.elevenlabs.io/v1/user"
  const ApiErrorPrefix := "ElevenLabs API error: "
  const NullBodyMessage := "Response body is null"

  /** The configuration handed to the constructor; every setting but the key may be missing. */
  datatype VoiceConfig = VoiceConfig(
    apiKey: string,
    model: Option<string>,
    voiceId: Option<string>,
    stability: Option<real>,
    similarityBoost: Option<real>,
    style: Option<real>,
    useSpeakerBoost: Option<bool>)

  /** The resolved settings a client keeps. */
  datatype Settings = Settings(
    model: string,
    voiceId: string,
    stability: real,
    similarityBoost: real,
    style: real,
    useSpeakerBoost: bool)

  /** An `updateConfig` argument: the settings it names replace the current ones. */
  datatype SettingsPatch = SettingsPatch(
    model: Option<string>,
    voiceId: Option<string>,
    stability: Option<real>,
    similarityBoost: Option<real>,
    style: Option<real>,
    useSpeakerBoost: Option<bool>)

  datatype SpeechOptions = SpeechOptions(text: string, voiceId: Option<string>, model: Option<string>)

  datatype VoiceSettingsBody = VoiceSettingsBody(
    stability: real,
    similarityBoost: real,
    style: real,
    useSpeakerBoost: bool)

  /** A POST to the speech endpoint: its URL, headers and JSON body fields. */
  datatype SpeechRequest = SpeechRequest(
    url: string,
    accept: string,
    contentType: string,
    apiKeyHeader: string,
    text: string,
    modelId: string,
    voiceSettings: VoiceSettingsBody)

  datatype HttpResponse = HttpResponse(ok: bool, status: nat, bodyText: string, hasBody: bool, audio: seq<bv8>)

  /** What `fetch` did: answered with a response, or threw before any response. */
  datatype FetchOutcome = Responded(response: HttpResponse) | Threw

  /** An error raised to the caller: one of the client's own messages, or the failure `fetch` threw. */
  datatype ClientError = Raised(message: string) | FetchFailed

  /** The constructor's resolution: `||` for the model and voice, `??` for the rest. */
  function Resolve(c: VoiceConfig): (s: Settings)
    ensures s.model != "" && s.voiceId != ""
    ensures s.model == DefaultModel || Some(s.model) == c.model
    ensures s.voiceId == DefaultVoiceId || Some(s.voiceId) == c.voiceId
    ensures c.model.Some? && c.model.value != "" ==> s.model == c.model.value
    ensures c.voiceId.Some? && c.voiceId.value != "" ==> s.voiceId == c.voiceId.value
    ensures c.stability.Some? ==> s.stability == c.stability.value
    ensures c.similarityBoost.Some? ==> s.similarityBoost == c.similarityBoost.value
    ensures c.style.Some? ==> s.style == c.style.value
    ensures c.useSpeakerBoost.Some? ==> s.useSpeakerBoost == c.useSpeakerBoost.value
    ensures c.stability.None? && c.similarityBoost.None? && c.style.None? && c.useSpeakerBoost.None? ==>
      s.stability == DefaultStability && s.similarityBoost == DefaultSimilarityBoost
      && s.style == DefaultStyle && s.useSpeakerBoost == DefaultUseSpeakerBoost
  {
    Settings(
      OrElse(c.model, DefaultModel),
      OrElse(c.voiceId, DefaultVoiceId),
      c.stability.GetOr(DefaultStability),
      c.similarityBoost.GetOr(DefaultSimilarityBoost),
      c.style.GetOr(DefaultStyle),
      c.useSpeakerBoost.GetOr(DefaultUseSpeakerBoost))
  }

  /**
   * An empty model or voice falls back to the default, while every number and
   * flag that is given is kept, zero and `false` included.
   */
  lemma ZeroAndFalseAreKept(key: string, stability: real, similarityBoost: real, style: real, speakerBoost: bool)
    ensures Resolve(VoiceConfig(key, Some(""), Some(""), Some(stability), Some(similarityBoost), Some(style), Some(speakerBoost)))
         == Settings(DefaultModel, DefaultVoiceId, stability, similarityBoost, style, speakerBoost)
  {
  }

  /** `{ ...settings, ...patch }`: the settings the patch names take its values, the others stay. */
  function Overlay(s: Settings, p: SettingsPatch): (r: Settings)
    ensures r.model == (if p.model.Some? then p.model.value else s.model)
    ensures r.voiceId == (if p.voiceId.Some? then p.voiceId.value else s.voiceId)
    ensures r.stability == (if p.stability.Some? then p.stability.value else s.stability)
    ensures r.similarityBoost == (if p.similarityBoost.Some? then p.similarityBoost.value else s.similarityBoost)
    ensures r.style == (if p.style.Some? then p.style.value else s.style)
    ensures r.useSpeakerBoost == (if p.useSpeakerBoost.Some? then p.useSpeakerBoost.value else s.useSpeakerBoost)
  {
    Settings(
      p.model.GetOr(s.model),
      p.voiceId.GetOr(s.voiceId),
      p.stability.GetOr(s.stability),
      p.similarityBoost.GetOr(s.similarityBoost),
      p.style.GetOr(s.style),
      p.useSpeakerBoost.GetOr(s.useSpeakerBoost))
  }

  /** Spreading `p` and then `q` is spreading the two merged, with `q` winning. */
  function MergePatches(p: SettingsPatch, q: SettingsPatch): SettingsPatch {
    SettingsPatch(
      if q.model.Some? then q.model else p.model,
      if q.voiceId.Some? then q.voiceId else p.voiceId,
      if q.stability.Some? then q.stability else p.stability,
      if q.similarityBoost.Some? then q.similarityBoost else p.similarityBoost,
      if q.style.Some? then q.style else p.style,
      if q.useSpeakerBoost.Some? then q.useSpeakerBoost else p.useSpeakerBoost)
  }

  /** An empty patch changes nothing, a patch applied twice acts once, and two patches compose. */
  lemma OverlayLaws(s: Settings, p: SettingsPatch, q: SettingsPatch)
    ensures Overlay(s, SettingsPatch(None, None, None, None, None, None)) == s
    ensures Overlay(Overlay(s, p), p) == Overlay(s, p)
    ensures Overlay(Overlay(s, p), q) == Overlay(s, MergePatches(p, q))
  {
  }

  /** The speech endpoint for a voice, with `/stream` appended for the streaming variant. */
  function SpeechUrl(voiceId: string, stream: bool): (url: string)
    ensures StartsWith(url, SpeechEndpoint)
    ensures stream ==> EndsWith(url, StreamSuffix)
    ensures |url| == |SpeechEndpoint| + |voiceId| + (if stream then |StreamSuffix| else 0)
  {
    SpeechEndpoint + voiceId + (if stream then StreamSuffix else "")
  }

  /** The voice can be read back from the URL, so different voices get different URLs. */
  lemma SpeechUrlNamesVoice(voiceId: string, stream: bool)
    ensures var url := SpeechUrl(voiceId, stream);
      url[|SpeechEndpoint|..|SpeechEndpoint| + |voiceId|] == voiceId
  {
    var url := SpeechUrl(voiceId, stream);
    var tail := if stream then StreamSuffix else "";
    assert url == SpeechEndpoint + voiceId + tail;
    assert url[|SpeechEndpoint|..|SpeechEndpoint| + |voiceId|] == (SpeechEndpoint + voiceId + tail)[|SpeechEndpoint|..|SpeechEndpoint| + |voiceId|];
  }

  lemma SpeechUrlInjective(v1: string, v2: string, stream: bool)
    requires SpeechUrl(v1, stream) == SpeechUrl(v2, stream)
    ensures v1 == v2
  {
    SpeechUrlNamesVoice(v1, stream);
    SpeechUrlNamesVoice(v2, stream);
  }

  /** The request `textToSpeech` (or, with `stream`, `textToSpeechStream`) sends. */
  function BuildRequest(apiKey: string, s: Settings, o: SpeechOptions, stream: bool): (r: SpeechRequest)
    ensures r.url == SpeechUrl(OrElse(o.voiceId, s.voiceId), stream)
    ensures r.accept == "audio/mpeg" && r.contentType == "application/json"
    ensures r.apiKeyHeader == apiKey && r.text == o.text
    ensures r.modelId == OrElse(o.model, s.model)
    ensures r.voiceSettings == VoiceSettingsBody(s.stability, s.similarityBoost, s.style, s.useSpeakerBoost)
  {
    SpeechRequest(
      SpeechUrl(OrElse(o.voiceId, s.voiceId), stream),
      "audio/mpeg",
      "application/json",
      apiKey,
      o.text,
      OrElse(o.model, s.model),
      VoiceSettingsBody(s.stability, s.similarityBoost, s.style, s.useSpeakerBoost))
  }

  /** The streaming request differs from the plain one only in its URL, which gains `/stream`. */
  lemma StreamRequestDiffersOnlyInUrl(apiKey: string, s: Settings, o: SpeechOptions)
    ensures BuildRequest(apiKey, s, o, true) == BuildRequest(apiKey, s, o, false).(url := BuildRequest(apiKey, s, o, false).url + StreamSuffix)
  {
  }

  /** The message raised for a non-ok response: `ElevenLabs API error: <status> - <body>`. */
  function ApiErrorMessage(status: nat, body: string): (m: string)
    ensures StartsWith(m, ApiErrorPrefix) && EndsWith(m, body)
  {
    ApiErrorPrefix + NatToString(status) + " - " + body
  }

  lemma {:induction false} NatToStringShort(n: nat)
    ensures n < 10 <==> |NatToString(n)| == 1
  {
    if n >= 10 {
      assert |NatToString(n)| == |NatToString(n / 10)| + 1;
    }
  }

  lemma {:induction false} NatToStringInjective(a: nat, b: nat)
    requires NatToString(a) == NatToString(b)
    ensures a == b
  {
    NatToStringShort(a);
    NatToStringShort(b);
    if a >= 10 {
      var sa, sb := NatToString(a), NatToString(b);
      assert sa == NatToString(a / 10) + [DigitChar(a % 10)];
      assert sb == NatToString(b / 10) + [DigitChar(b % 10)];
      assert sa[..|sa| - 1] == NatToString(a / 10);
      assert sb[..|sb| - 1] == NatToString(b / 10);
      NatToStringInjective(a / 10, b / 10);
      assert DigitChar(a % 10) == sa[|sa| - 1] == DigitChar(b % 10);
    }
  }

  /** A digit string followed by `" - "` cannot be a proper prefix of a longer digit string. */
  lemma DigitsThenSeparator(d1: string, d2: string, b1: string, b2: string)
    requires forall i :: 0 <= i < |d1| ==> IsDigit(d1[i])
    requires forall i :: 0 <= i < |d2| ==> IsDigit(d2[i])
    requires d1 + " - " + b1 == d2 + " - " + b2
    ensures d1 == d2 && b1 == b2
  {
    var m := d1 + " - " + b1;
    if |d1| < |d2| {
      SeparatorAt(d1, b1);
      assert false;
    } else if |d2| < |d1| {
      SeparatorAt(d2, b2);
      assert false;
    } else {
      assert d1 == m[..|d1|] == d2;
      assert b1 == m[|d1| + 3..] == b2;
    }
  }

  lemma SeparatorAt(d: string, b: string)
    ensures (d + " - " + b)[|d|] == ' '
  {
  }

  /** The error message determines both the status and the body it was made from. */
  lemma ApiErrorMessageInjective(s1: nat, b1: string, s2: nat, b2: string)
    requires ApiErrorMessage(s1, b1) == ApiErrorMessage(s2, b2)
    ensures s1 == s2 && b1 == b2
  {
    var m := ApiErrorMessage(s1, b1);
    var n := |ApiErrorPrefix|;
    assert m[n..] == NatToString(s1) + " - " + b1;
    assert ApiErrorMessage(s2, b2)[n..] == NatToString(s2) + " - " + b2;
    DigitsThenSeparator(NatToString(s1), NatToString(s2), b1, b2);
    NatToStringInjective(s1, s2);
  }

  /** How a response becomes the audio, or the error the method throws. */
  function SpeechResult(reply: FetchOutcome, stream: bool): (r: Result<seq<bv8>, ClientError>)
    ensures r.Success? <==> reply.Responded? && reply.response.ok && (stream ==> reply.response.hasBody)
    ensures r.Success? ==> r.value == reply.response.audio
    ensures reply.Threw? ==> r == Failure(FetchFailed)
    ensures reply.Responded? && !reply.response.ok ==>
      r == Failure(Raised(ApiErrorMessage(reply.response.status, reply.response.bodyText)))
    ensures reply.Responded? && reply.response.ok && stream && !reply.response.hasBody ==>
      r == Failure(Raised(NullBodyMessage))
  {
    match reply
    case Threw => Failure(FetchFailed)
    case Responded(resp) =>
      if !resp.ok then Failure(Raised(ApiErrorMessage(resp.status, resp.bodyText)))
      else if stream && !resp.hasBody then Failure(Raised(NullBodyMessage))
      else Success(resp.audio)
  }

  /** A missing stream body is never reported as an API error. */
  lemma NullBodyIsNotApiError(status: nat, body: string)
    ensures ApiErrorMessage(status, body) != NullBodyMessage
  {
    var m := ApiErrorMessage(status, body);
    assert m[0] == 'E';
    assert NullBodyMessage[0] == 'R';
  }

  /** A request together with the outcome it led to. */
  datatype SpeechCall = SpeechCall(request: SpeechRequest, result: Result<seq<bv8>, ClientError>)

  /** The GET `validateApiKey` sends (its URL and `xi-api-key` header) and its verdict. */
  datatype KeyCheck = KeyCheck(url: string, apiKeyHeader: string, valid: bool)

  class ElevenLabsClient {
    const apiKey: string
    var settings: Settings

    constructor(config: VoiceConfig)
      ensures apiKey == config.apiKey && settings == Resolve(config)
    {
      apiKey := config.apiKey;
      settings := Resolve(config);
    }

    /** `textToSpeech`: the request it sends, and the audio or error that `reply` leads to. */
    function TextToSpeech(options: SpeechOptions, reply: FetchOutcome): (c: SpeechCall)
      reads this
      ensures c.request == BuildRequest(apiKey, settings, options, false)
      ensures c.result == SpeechResult(reply, false)
    {
      SpeechCall(BuildRequest(apiKey, settings, options, false), SpeechResult(reply, false))
    }

    /** `textToSpeechStream`: the same request on the `/stream` URL; a response without a body is an error. */
    function TextToSpeechStream(options: SpeechOptions, reply: FetchOutcome): (c: SpeechCall)
      reads this
      ensures c.request == BuildRequest(apiKey, settings, options, true)
      ensures c.result == SpeechResult(reply, true)
    {
      SpeechCall(BuildRequest(apiKey, settings, options, true), SpeechResult(reply, true))
    }

    /**
     * `validateApiKey`: asks the user endpoint with the client's key, and is
     * true exactly when it answered with an ok status.
     */
    function ValidateApiKey(reply: FetchOutcome): (c: KeyCheck)
      ensures c.url == UserEndpoint && c.apiKeyHeader == apiKey
      ensures c.valid <==> reply.Responded? && reply.response.ok
    {
      var valid := match reply
        case Threw => false
        case Responded(resp) => resp.ok;
      KeyCheck(UserEndpoint, apiKey, valid)
    }

    /** `updateConfig`: the named settings are replaced; the key stays as constructed. */
    method UpdateConfig(patch: SettingsPatch)
      modifies this
      ensures settings == Overlay(old(settings), patch)
    {
      settings := Overlay(settings, patch);
    }
  }
}
