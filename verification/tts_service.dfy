/** The text-to-speech wrapper (services/tts_service.py).

    The HTTP POST to the synthesis provider is an oracle from the request
    (URL, JSON payload, headers) to what came back. What is modelled is how
    the wrapper builds the request and how it judges the answer. */
module TtsService {
  import opened Schemas

  const MurfEndpoint := "https://api.murf.ai/v1/speech/generate"
  const DefaultVoice := "en-US-natalie"

  datatype Service = Service(apiKey: string, baseUrl: string, defaultVoice: string)

  /** `TTSService(api_key)`. */
  function NewService(apiKey: string): (s: Service)
    ensures s.apiKey == apiKey && s.baseUrl == MurfEndpoint && s.defaultVoice == DefaultVoice
  {
    Service(apiKey, MurfEndpoint, DefaultVoice)
  }

  datatype Headers = Headers(contentType: string, apiKey: string)

  datatype Payload = Payload(text: string, voiceId: string, format: string, volume: string)

  /** The body of the provider's answer: unreadable as JSON, or a JSON object
      whose `audioFile` member may be missing. */
  datatype ResponseBody = NotJson | JsonObject(audioFile: Option<string>)

  datatype HttpOutcome = ConnectionFailed(reason: string) | HttpResponse(status: int, body: ResponseBody)

  datatype TtsError =
    | RequestFailed(reason: string)
    | HttpError(status: int)
    | InvalidJson
    | NoAudioUrl

  /** The statuses for which `raise_for_status` raises. */
  predicate IsHttpError(status: int) {
    400 <= status < 600
  }

  /** The request headers carry the stored key and announce JSON. */
  function RequestHeaders(s: Service): (h: Headers)
    ensures h.apiKey == s.apiKey && h.contentType == "application/json"
  {
    Headers("application/json", s.apiKey)
  }

  /** The request payload: the text as given, the caller's voice unless it is
      absent or empty, the service's default voice otherwise, MP3 at full volume. */
  function RequestPayload(s: Service, text: string, voiceId: Option<string>): (p: Payload)
    ensures p.text == text
    ensures Truthy(voiceId) ==> p.voiceId == voiceId.value
    ensures !Truthy(voiceId) ==> p.voiceId == s.defaultVoice
    ensures s.defaultVoice != "" ==> p.voiceId != ""
    ensures p.format == "MP3" && p.volume == "100%"
  {
    Payload(text, if Truthy(voiceId) then voiceId.value else s.defaultVoice, "MP3", "100%")
  }

  /** What the provider answered to one request for `text`. */
  function Answer(s: Service, text: string, voiceId: Option<string>, post: (string, Payload, Headers) -> HttpOutcome): HttpOutcome {
    post(s.baseUrl, RequestPayload(s, text, voiceId), RequestHeaders(s))
  }

  /** `text_to_speech`: post once, with no retry; a transport failure, an
      error status or an unreadable body propagates, and an answer without a
      non-empty `audioFile` is rejected. Otherwise the URL is returned as is,
      flagged successful. */
  function TextToSpeech(s: Service, text: string, voiceId: Option<string>, post: (string, Payload, Headers) -> HttpOutcome): (r: Result<TtsResponse, TtsError>)
    ensures var a := Answer(s, text, voiceId, post);
      r.Success? <==> a.HttpResponse? && !IsHttpError(a.status) && a.body.JsonObject? && Truthy(a.body.audioFile)
    ensures var a := Answer(s, text, voiceId, post);
      r.Success? ==> r.value.audioUrl == a.body.audioFile.value && r.value.audioUrl != "" && r.value.success
    ensures var a := Answer(s, text, voiceId, post);
      a.ConnectionFailed? ==> r == Failure(RequestFailed(a.reason))
    ensures var a := Answer(s, text, voiceId, post);
      a.HttpResponse? && IsHttpError(a.status) ==> r == Failure(HttpError(a.status))
    ensures var a := Answer(s, text, voiceId, post);
      a.HttpResponse? && !IsHttpError(a.status) && a.body.NotJson? ==> r == Failure(InvalidJson)
    ensures var a := Answer(s, text, voiceId, post);
      a.HttpResponse? && !IsHttpError(a.status) && a.body.JsonObject? && !Truthy(a.body.audioFile) ==> r == Failure(NoAudioUrl)
  {
    match Answer(s, text, voiceId, post)
    case ConnectionFailed(reason) => Failure(RequestFailed(reason))
    case HttpResponse(status, body) =>
      if IsHttpError(status) then
        Failure(HttpError(status))
      else if body.NotJson? then
        Failure(InvalidJson)
      else if !Truthy(body.audioFile) then
        Failure(NoAudioUrl)
      else
        Success(TtsResponse(body.audioFile.value))
  }
}
