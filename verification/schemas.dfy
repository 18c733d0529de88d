/** Record shapes exchanged between the backend's components (models/schemas.py),
    with the defaults the declarations give (`success = True`, `confidence = None`). */
module Schemas {

  datatype Option<T> = None | Some(value: T)

  datatype Result<T, E> = Success(value: T) | Failure(error: E)

  /** Python truthiness of an optional string: present and not empty. */
  predicate Truthy(s: Option<string>) {
    s.Some? && s.value != ""
  }

  /** The uploaded recording, as raw bytes. */
  type Audio = seq<bv8>

  /** A reading of the wall clock. Only its order matters to the model. */
  type Timestamp = nat

  /** The provider's confidence score: carried along, never computed with. */
  type Confidence = real

  /** One entry of the conversation log kept by the language-model provider;
      the backend threads it through without looking inside. */
  datatype Message = Message(role: string, parts: seq<string>)

  type History = seq<Message>

  datatype TranscriptionResult = TranscriptionResult(text: string, confidence: Option<Confidence> := None, success: bool := true)

  datatype LlmResponse = LlmResponse(text: string, success: bool := true)

  datatype TtsResponse = TtsResponse(audioUrl: string, success: bool := true)

  datatype ChatResponse = ChatResponse(audioUrl: string, success: bool := true, message: Option<string> := None)

  datatype SessionData = SessionData(sessionId: string, history: History := [], createdAt: Timestamp, lastAccessed: Timestamp)
}
