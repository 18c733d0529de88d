# Voice-assistant backend: session table, chat turn and service wrappers

This project models the core of a small voice-assistant backend. The backend
takes one recorded utterance for a conversation session, transcribes it,
asks a language model for a reply given the session's history, stores the
model's updated history, synthesizes the reply to speech, and returns the
URL of the audio. On any failure it returns a fixed fallback recording marked
with the `X-Error: true` header.

The model has five modules, one per source file:

- `Schemas` (`schemas.dfy`): the record shapes of `models/schemas.py`, with their defaults (`success = True`, `confidence = None`, `history = []`). It also holds `Option`/`Result` and Python string truthiness (`Truthy`).
- `Sessions` (`session_manager.dfy`): the in-memory session table of `utils/session_manager.py`.
  - The two updates are pure functions on the map: `AfterGetOrCreate` and `AfterUpdate`.
  - The class `SessionManager` holds the map in a field and updates it in place. Its methods are proved against those two functions.
  - Lemmas follow the table through any sequence of calls (`Replay`).
- `SttService` (`stt_service.dfy`): how `transcribe_audio` judges the transcription library's answer.
- `TtsService` (`tts_service.dfy`): how `text_to_speech` builds its request and judges the provider's answer.
- `App` (`main.dfy`): the rest of `main.py`.
  - Start-up: missing-key detection, `initialize_services`, and the module-level fallback that clears all four handles.
  - `health_check`.
  - `agent_chat`: a pure specification `ChatTurn` and the in-place method `AgentChat` proved against it.

The three remote services are oracles, bundled in a `Providers` record:

- transcription: audio to a transcript, or an exception;
- the language model: text and history to a reply and a new history, or an exception;
- the Murf HTTP POST: request to HTTP outcome.

A turn also returns the list of remote calls it made, with their arguments. This is how the model states which services are called under each failure pattern. Wall-clock readings are natural numbers passed in by the caller. Their order is the only thing the model uses.

Two details of the code shape what is proved:

- A new session's two timestamps come from two separate clock readings (utils/session_manager.py:19-20), so only `createdAt <= lastAccessed` is proved, and only under a clock that never runs backwards (`Sessions.ReplayKeepsClockOrder`).
- Only the `error` status is rejected (services/stt_service.py:21); a `queued` or `processing` transcript with text is accepted, and `SttService.TranscribeAudio` models exactly that.

## Model

| member | source | states |
|---|---|---|
| `Sessions.AfterGetOrCreate` | utils/session_manager.py:12-25 | an unseen id gets a record with that id, empty history and the two clock readings, and the count grows by exactly one; a known id keeps id, history and creation time, gets `lastAccessed` set, and the count is unchanged; the returned history is the stored one (or empty); every other entry is untouched; keys stay filed under their own ids |
| `Sessions.AfterUpdate` | utils/session_manager.py:27-32 | a known id gets exactly the new history and a fresh `lastAccessed`, keeping id and creation time; an unknown id leaves the map unchanged (no session created); no other entry changes and the key set is the same |
| `Sessions.SessionManager.constructor` | utils/session_manager.py:9-10 | the table starts empty |
| `Sessions.SessionManager.GetOrCreateSession` | utils/session_manager.py:12-25 | in place, the new map is `AfterGetOrCreate` of the old one; afterwards the id is a key and the returned record is the one stored under it |
| `Sessions.SessionManager.UpdateSessionHistory` | utils/session_manager.py:27-32 | in place, the new map is `AfterUpdate` of the old one |
| `Sessions.SessionManager.SessionCount` | utils/session_manager.py:34-36 | the count is the number of keys |
| `Sessions.ReplayKeepsSessions` | utils/session_manager.py:10-36 | over any sequence of calls, no key is removed, so the count never decreases; it grows by at most one per call; records stay filed under their ids; creation times are never reset; ids no call names keep their records unchanged |
| `Sessions.ReplayKeepsClockOrder` | utils/session_manager.py:16-31 | with a clock that never runs backwards, last-access times never decrease and every record keeps `createdAt <= lastAccessed` |
| `Sessions.UpdateThenFetch` | utils/session_manager.py:22-31 | after an update of a known session, the next fetch returns exactly the written history |
| `SttService.TranscribeAudio` | services/stt_service.py:15-35 | success iff the transcript is delivered, not errored, and has non-empty text; an errored transcript fails as a transcription failure whatever its text (status checked first); otherwise empty or absent text fails as "no speech detected"; a library exception propagates; on success the text is the transcript's (non-empty), the confidence is passed through, and `success` is true |
| `TtsService.NewService` | services/tts_service.py:8-11 | the service keeps the key, the Murf endpoint and the default voice `en-US-natalie` |
| `TtsService.RequestHeaders` | services/tts_service.py:18-21 | the headers carry the stored API key and a JSON content type |
| `TtsService.RequestPayload` | services/tts_service.py:23-28 | the payload text is the input; `voiceId` is the caller's voice when it is present and non-empty, else the default; format `MP3`, volume `100%` |
| `TtsService.TextToSpeech` | services/tts_service.py:13-44 | one POST, no retry; success iff the answer is an HTTP response with no error status, a JSON object body and a non-empty `audioFile`; the URL returned is exactly `audioFile` and `success` is true; transport failures, error statuses and unreadable bodies propagate; a missing or empty `audioFile` is rejected |
| `App.MissingNames` | main.py:54-59 | the list is empty iff all three keys are present and non-empty; only the three key names can appear, each listed iff that key is absent or empty; names appear in the fixed order ASSEMBLYAI, GEMINI, MURF |
| `App.CollectMissing` | main.py:55-58 | appending name by name builds exactly `MissingNames` |
| `App.InitializeServices` | main.py:46-72 | fails iff some key is absent or empty, with the message listing the missing names joined by ", "; otherwise each wrapper gets its own key and the session table is new and empty |
| `App.Startup` | main.py:74-79 | all four handles are set iff all keys are given, each wrapper built from its own key (so Murf requests carry `MURF_API_KEY`) and the table new and empty; on failure all four are cleared |
| `App.HealthCheck` | main.py:142-156 | status is "healthy" iff all four handles are set and "unhealthy" otherwise; one flag per handle; `active_sessions` is the table's count, or 0 without a table |
| `App.ChatTurn` | main.py:87-140 | missing handle: fallback, no call, table unchanged; failed transcription: fallback, only the transcription call, table unchanged; otherwise the model is called with exactly the transcript text and the session's history as fetched; failed model call: fallback, session fetched or created with unchanged history, no synthesis call; model answered: the session's history is the model's new history, kept even when synthesis then fails; JSON reply iff every step succeeds, carrying the synthesized URL with `success` true; other sessions untouched |
| `App.AgentChat` | main.py:87-140 | in place on the shared table, the reply, the calls made and the new table are exactly those of `ChatTurn` |
| `App.ServeAllKeepsSessions` | main.py:104-140 | across any sequence of turns, whatever fails: no session is lost, the count grows by at most one per turn, records stay filed under their ids, sessions no request names are unchanged; with a handle missing the table is never touched |
| `App.OnlyGeminiMissing` | main.py:54-59 | with only the Gemini key missing, the start-up error names exactly `GEMINI_API_KEY` |
| `App.AssemblyAiAndMurfMissing` | main.py:54-59 | an empty AssemblyAI key and an absent Murf key are both reported, comma-joined, in the fixed order |
| `App.SynthesisFailureKeepsSecondTurn` | main.py:113-140 | two turns on session "abc": the first succeeds with the synthesized URL and leaves two history entries; in the second, synthesis returns no audio location, so the reply is the fallback, yet the history holds four entries |

## Left out

- `services/llm_service.py` is not part of this model. The language model is an oracle that returns a reply and a new history, or raises.
- The remote calls themselves: `requests.post`, the AssemblyAI transcriber and the Gemini chat. They are oracle inputs.
- HTTP routing, the home page template, static files, and reading the fallback file. Only the fallback's path, media type and `X-Error` header are modelled. Also left out: `load_dotenv`, the logging setup and log directory, log messages and their truncated text, and `uvicorn`. All of this is I/O.
- `static/script.js`: browser-side recording and playback.
- Concurrency: handlers are `async` and there is no locking. The model is a single sequential caller.
- Wall-clock time: ISO timestamp strings are modelled as natural-number readings. The ordering hypothesis is stated only in the lemmas that need it.
- Object identity of session records. Python returns the stored record object and updates its fields in place. The model returns a copy of the record value. The turn reads the history before it writes the new one, so no behaviour of the core depends on the difference.
- The float `confidence`: carried as an opaque optional value, with no arithmetic on it.
- TTS response bodies: `audioFile` is modelled as an optional string. A JSON value that is not an object fails either way and is folded into `NotJson`. A non-string truthy `audioFile` is not modelled.
- Exception texts from the libraries are opaque reason strings. An HTTP error status is kept only as its code.
- `ErrorResponse` and the `message` field of `ChatResponse` are declared but never set by the core. They have no behaviour to model.
