/** The speech-to-text wrapper (services/stt_service.py).

    The transcription library is an oracle: given the audio it either hands
    back a transcript or raises. What is modelled is how the wrapper judges
    that answer: an errored transcript fails, a transcript without text fails
    as "no speech detected", and anything the library raises propagates. */
module SttService {
  import opened Schemas

  /** The service object; the key is handed to the library at construction. */
  datatype Service = Service(apiKey: string)

  datatype TranscriptStatus = Queued | Processing | Completed | Error

  /** The fields of a transcript the wrapper looks at. */
  datatype Transcript = Transcript(status: TranscriptStatus, text: Option<string>, error: Option<string>, confidence: Option<Confidence>)

  /** What one call of the library's `transcribe` produces. */
  datatype Transcribed = Delivered(transcript: Transcript) | Raised(reason: string)

  datatype SttError =
    | TranscriptionFailed(detail: Option<string>)
    | NoSpeechDetected
    | ClientError(reason: string)

  /** `transcribe_audio`: ask the library once, then accept the transcript
      only when it is not errored and carries non-empty text. The status is
      judged before the text, so an errored transcript fails as such whatever
      its text; the confidence is passed through when present. */
  function TranscribeAudio(audio: Audio, transcriber: Audio -> Transcribed): (r: Result<TranscriptionResult, SttError>)
    ensures var heard := transcriber(audio);
      r.Success? <==> heard.Delivered? && heard.transcript.status != Error && Truthy(heard.transcript.text)
    ensures var heard := transcriber(audio);
      heard.Raised? ==> r == Failure(ClientError(heard.reason))
    ensures var heard := transcriber(audio);
      heard.Delivered? && heard.transcript.status == Error ==> r == Failure(TranscriptionFailed(heard.transcript.error))
    ensures var heard := transcriber(audio);
      heard.Delivered? && heard.transcript.status != Error && !Truthy(heard.transcript.text) ==> r == Failure(NoSpeechDetected)
    ensures var heard := transcriber(audio);
      r.Success? ==> && r.value.text == heard.transcript.text.value
                     && r.value.text != ""
                     && r.value.confidence == heard.transcript.confidence
                     && r.value.success
  {
    match transcriber(audio)
    case Raised(reason) => Failure(ClientError(reason))
    case Delivered(transcript) =>
      if transcript.status == Error then
        Failure(TranscriptionFailed(transcript.error))
      else if !Truthy(transcript.text) then
        Failure(NoSpeechDetected)
      else
        Success(TranscriptionResult(transcript.text.value, confidence := transcript.confidence))
  }
}
