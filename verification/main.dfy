/** The application module (main.py): service start-up from the three API
    keys, the health report, and the chat turn that threads one recording
    through transcription, the session table, the language model and speech
    synthesis.

    The language-model wrapper (services/llm_service.py) is not part of this
    model; it stands here as an oracle `model` that either answers with reply
    text and the provider's updated history, or raises. The other two remote
    calls are oracles too (see SttService and TtsService). */
module App {
  import opened Schemas
  import opened Sessions
  import Stt = SttService
  import Tts = TtsService

  /** `LLMService(api_key)`; the chat model defaults to gemini-1.5-flash. */
  datatype LlmService = LlmService(apiKey: string, modelName: string := "gemini-1.5-flash")

  /** What one `get_response(user_input, history)` produces. */
  datatype LlmOutcome = Replied(response: LlmResponse, history: History) | LlmRaised(reason: string)

  // ---------------------------------------------------------------------------
  // Start-up
  // ---------------------------------------------------------------------------

  /** The three keys as read from the process environment (absent or set). */
  datatype Environment = Environment(assemblyAiKey: Option<string>, geminiKey: Option<string>, murfKey: Option<string>)

  const AssemblyAiKeyName := "ASSEMBLYAI_API_KEY"
  const GeminiKeyName := "GEMINI_API_KEY"
  const MurfKeyName := "MURF_API_KEY"
  const MissingPrefix := "Missing required environment variables: "

  predicate AllKeysGiven(env: Environment) {
    Truthy(env.assemblyAiKey) && Truthy(env.geminiKey) && Truthy(env.murfKey)
  }

  /** The position of a key name in the fixed reporting order. */
  function Rank(name: string): nat {
    if name == AssemblyAiKeyName then 0 else if name == GeminiKeyName then 1 else 2
  }

  /** The names of the absent or empty keys, in the fixed order
      ASSEMBLYAI, GEMINI, MURF. */
  function MissingNames(env: Environment): (names: seq<string>)
    ensures names == [] <==> AllKeysGiven(env)
    ensures AssemblyAiKeyName in names <==> !Truthy(env.assemblyAiKey)
    ensures GeminiKeyName in names <==> !Truthy(env.geminiKey)
    ensures MurfKeyName in names <==> !Truthy(env.murfKey)
    ensures forall n :: n in names ==> n == AssemblyAiKeyName || n == GeminiKeyName || n == MurfKeyName
    ensures forall i, j :: 0 <= i < j < |names| ==> Rank(names[i]) < Rank(names[j])
  {
    (if Truthy(env.assemblyAiKey) then [] else [AssemblyAiKeyName])
    + (if Truthy(env.geminiKey) then [] else [GeminiKeyName])
    + (if Truthy(env.murfKey) then [] else [MurfKeyName])
  }

  /** Builds the list of missing names by appending, as the start-up code does. */
  method CollectMissing(env: Environment) returns (missing: seq<string>)
    ensures missing == MissingNames(env)
  {
    missing := [];
    if !Truthy(env.assemblyAiKey) { missing := missing + [AssemblyAiKeyName]; }
    if !Truthy(env.geminiKey) { missing := missing + [GeminiKeyName]; }
    if !Truthy(env.murfKey) { missing := missing + [MurfKeyName]; }
  }

  /** `sep.join(parts)`. */
  function Join(sep: string, parts: seq<string>): string
    decreases |parts|
  {
    if |parts| == 0 then ""
    else if |parts| == 1 then parts[0]
    else parts[0] + sep + Join(sep, parts[1..])
  }

  datatype Services = Services(stt: Stt.Service, llm: LlmService, tts: Tts.Service, manager: SessionManager)

  /** `initialize_services`: fails, naming every missing key, unless all
      three keys are given; otherwise builds the three wrappers from their
      keys and an empty session table. */
  method InitializeServices(env: Environment) returns (r: Result<Services, string>)
    ensures r.Failure? <==> !AllKeysGiven(env)
    ensures r.Failure? ==> r.error == MissingPrefix + Join(", ", MissingNames(env))
    ensures r.Success? ==> && r.value.stt == Stt.Service(env.assemblyAiKey.value)
                           && r.value.llm == LlmService(env.geminiKey.value)
                           && r.value.tts == Tts.NewService(env.murfKey.value)
                           && fresh(r.value.manager) && r.value.manager.Valid()
                           && r.value.manager.sessions == map[]
  {
    if !AllKeysGiven(env) {
      var missing := CollectMissing(env);
      return Failure(MissingPrefix + Join(", ", missing));
    }
    var manager := new SessionManager();
    r := Success(Services(Stt.Service(env.assemblyAiKey.value), LlmService(env.geminiKey.value),
                          Tts.NewService(env.murfKey.value), manager));
  }

  /** The four module-level service handles; `None`/`null` when start-up failed. */
  datatype Globals = Globals(stt: Option<Stt.Service>, llm: Option<LlmService>, tts: Option<Tts.Service>, manager: SessionManager?)

  /** Every handle is set. */
  predicate Ready(g: Globals) {
    g.stt.Some? && g.llm.Some? && g.tts.Some? && g.manager != null
  }

  /** The module-level start-up: on any failure all four handles are cleared. */
  method Startup(env: Environment) returns (g: Globals)
    ensures Ready(g) <==> AllKeysGiven(env)
    ensures !Ready(g) ==> g == Globals(None, None, None, null)
    ensures Ready(g) ==> && g.stt == Some(Stt.Service(env.assemblyAiKey.value))
                         && g.llm == Some(LlmService(env.geminiKey.value))
                         && g.tts == Some(Tts.NewService(env.murfKey.value))
    ensures Ready(g) ==> fresh(g.manager) && g.manager.Valid() && g.manager.sessions == map[]
  {
    var r := InitializeServices(env);
    if r.Failure? {
      g := Globals(None, None, None, null);
    } else {
      g := Globals(Some(r.value.stt), Some(r.value.llm), Some(r.value.tts), r.value.manager);
    }
  }

  // ---------------------------------------------------------------------------
  // Health report
  // ---------------------------------------------------------------------------

  datatype ServiceStatus = ServiceStatus(stt: bool, llm: bool, tts: bool, sessionManager: bool)

  datatype Health = Health(status: string, services: ServiceStatus, activeSessions: nat)

  /** `health_check`: healthy exactly when every handle is set; the session
      count comes from the table, or is 0 when there is no table. */
  function HealthCheck(g: Globals): (h: Health)
    reads g.manager
    ensures h.status == "healthy" <==> Ready(g)
    ensures h.status == "unhealthy" <==> !Ready(g)
    ensures h.services == ServiceStatus(g.stt.Some?, g.llm.Some?, g.tts.Some?, g.manager != null)
    ensures g.manager == null ==> h.activeSessions == 0
    ensures g.manager != null ==> h.activeSessions == |g.manager.sessions.Keys|
  {
    var services := ServiceStatus(g.stt.Some?, g.llm.Some?, g.tts.Some?, g.manager != null);
    var healthy := services.stt && services.llm && services.tts && services.sessionManager;
    Health(if healthy then "healthy" else "unhealthy", services,
           if g.manager != null then g.manager.SessionCount() else 0)
  }

  // ---------------------------------------------------------------------------
  // The chat turn
  // ---------------------------------------------------------------------------

  /** The remote services a turn consults. */
  datatype Providers = Providers(
    transcriber: Audio -> Stt.Transcribed,
    model: (string, History) -> LlmOutcome,
    murf: (string, Tts.Payload, Tts.Headers) -> Tts.HttpOutcome)

  /** The clock readings a turn takes: two while fetching the session (the
      second used only when it is created) and one when the history is written. */
  datatype Readings = Readings(fetch: Timestamp, create: Timestamp, update: Timestamp)

  /** A call a turn makes on a remote service, with its arguments. */
  datatype Call = Transcribe(audio: Audio) | Generate(text: string, history: History) | Synthesize(text: string)

  /** The HTTP answer: a JSON chat response, or the fallback recording with
      the `X-Error` header. */
  datatype Reply = Json(body: ChatResponse) | FallbackAudio(path: string, mediaType: string, xError: string)

  const Fallback := FallbackAudio("static/fallback.mp3", "audio/mpeg", "true")

  /** The reply, the session table afterwards, and the remote calls made, in order. */
  datatype TurnOutcome = TurnOutcome(reply: Reply, sessions: Table, calls: seq<Call>)

  /** One turn of `agent_chat` for session `id` against table `t`. Any failure
      ends the turn with the fallback reply. The table is touched only after
      a successful transcription: the session is fetched (created if new),
      and the model's history is written back as soon as the model answers,
      before speech synthesis, and is kept even when synthesis then fails. */
  function ChatTurn(g: Globals, t: Table, id: string, audio: Audio, p: Providers, clock: Readings): (r: TurnOutcome)
    ensures r.reply.FallbackAudio? ==> r.reply == Fallback
    ensures !Ready(g) ==> r == TurnOutcome(Fallback, t, [])
    ensures var heard := Stt.TranscribeAudio(audio, p.transcriber);
      Ready(g) && heard.Failure? ==> r == TurnOutcome(Fallback, t, [Transcribe(audio)])
    ensures var heard := Stt.TranscribeAudio(audio, p.transcriber);
      Ready(g) && heard.Success? ==>
        var fetched := AfterGetOrCreate(t, id, clock.fetch, clock.create);
        var answer := p.model(heard.value.text, PriorHistory(t, id));
        && |r.calls| >= 2
        && r.calls[..2] == [Transcribe(audio), Generate(heard.value.text, PriorHistory(t, id))]
        && (answer.LlmRaised? ==> r == TurnOutcome(Fallback, fetched, r.calls) && |r.calls| == 2)
        && (answer.Replied? ==> && r.sessions == AfterUpdate(fetched, id, answer.history, clock.update)
                                && r.sessions[id].history == answer.history
                                && r.calls == r.calls[..2] + [Synthesize(answer.response.text)])
    ensures r.reply.Json? <==>
      var heard := Stt.TranscribeAudio(audio, p.transcriber);
      && Ready(g) && heard.Success?
      && var answer := p.model(heard.value.text, PriorHistory(t, id));
      && answer.Replied?
      && Tts.TextToSpeech(g.tts.value, answer.response.text, None, p.murf).Success?
    ensures r.reply.Json? ==>
      var heard := Stt.TranscribeAudio(audio, p.transcriber);
      var answer := p.model(heard.value.text, PriorHistory(t, id));
      r.reply.body == ChatResponse(Tts.TextToSpeech(g.tts.value, answer.response.text, None, p.murf).value.audioUrl, true)
    ensures t.Keys <= r.sessions.Keys <= t.Keys + {id}
    ensures forall k :: k in t && k != id ==> r.sessions[k] == t[k]
    ensures WellKeyed(t) ==> WellKeyed(r.sessions)
  {
    if !Ready(g) then
      TurnOutcome(Fallback, t, [])
    else
      var heard := Stt.TranscribeAudio(audio, p.transcriber);
      if heard.Failure? then
        TurnOutcome(Fallback, t, [Transcribe(audio)])
      else
        var text := heard.value.text;
        var fetched := AfterGetOrCreate(t, id, clock.fetch, clock.create);
        var prior := fetched[id].history;
        var answer := p.model(text, prior);
        var asked := [Transcribe(audio), Generate(text, prior)];
        if answer.LlmRaised? then
          TurnOutcome(Fallback, fetched, asked)
        else
          var written := AfterUpdate(fetched, id, answer.history, clock.update);
          var spoken := Tts.TextToSpeech(g.tts.value, answer.response.text, None, p.murf);
          var calls := asked + [Synthesize(answer.response.text)];
          if spoken.Failure? then
            TurnOutcome(Fallback, written, calls)
          else
            TurnOutcome(Json(ChatResponse(spoken.value.audioUrl, true)), written, calls)
  }

  /** `agent_chat`: performs the turn on the shared session table in place
      and reports the reply and the remote calls it made. */
  method AgentChat(g: Globals, id: string, audio: Audio, p: Providers, clock: Readings) returns (reply: Reply, calls: seq<Call>)
    requires g.manager != null ==> g.manager.Valid()
    modifies g.manager
    ensures g.manager != null ==> g.manager.Valid()
    ensures var before := if g.manager == null then map[] else old(g.manager.sessions);
      var turn := ChatTurn(g, before, id, audio, p, clock);
      && reply == turn.reply && calls == turn.calls
      && (g.manager != null ==> g.manager.sessions == turn.sessions)
  {
    calls := [];
    if !(g.stt.Some? && g.llm.Some? && g.tts.Some? && g.manager != null) {
      return Fallback, calls;
    }
    var manager := g.manager;
    ghost var before := manager.sessions;
    ghost var turn := ChatTurn(g, before, id, audio, p, clock);

    calls := calls + [Transcribe(audio)];
    var transcription := Stt.TranscribeAudio(audio, p.transcriber);
    if transcription.Failure? {
      assert turn == TurnOutcome(Fallback, before, calls);
      return Fallback, calls;
    }
    var userInput := transcription.value.text;

    var session := manager.GetOrCreateSession(id, clock.fetch, clock.create);

    calls := calls + [Generate(userInput, session.history)];
    var answer := p.model(userInput, session.history);
    if answer.LlmRaised? {
      assert turn == TurnOutcome(Fallback, manager.sessions, calls);
      return Fallback, calls;
    }

    manager.UpdateSessionHistory(id, answer.history, clock.update);

    calls := calls + [Synthesize(answer.response.text)];
    var spoken := Tts.TextToSpeech(g.tts.value, answer.response.text, None, p.murf);
    if spoken.Failure? {
      assert turn == TurnOutcome(Fallback, manager.sessions, calls);
      return Fallback, calls;
    }
    reply := Json(ChatResponse(spoken.value.audioUrl, true));
    assert turn == TurnOutcome(reply, manager.sessions, calls);
  }

  // ---------------------------------------------------------------------------
  // Sequences of turns
  // ---------------------------------------------------------------------------

  /** One inbound chat request with the world it meets. */
  datatype Request = Request(id: string, audio: Audio, providers: Providers, clock: Readings)

  /** The session table after serving `reqs` one after another. */
  function ServeAll(g: Globals, t: Table, reqs: seq<Request>): Table
    decreases |reqs|
  {
    if reqs == [] then t
    else
      var q := reqs[0];
      ServeAll(g, ChatTurn(g, t, q.id, q.audio, q.providers, q.clock).sessions, reqs[1..])
  }

  /** The ids a sequence of requests names. */
  function RequestIds(reqs: seq<Request>): set<string>
    decreases |reqs|
  {
    if reqs == [] then {} else {reqs[0].id} + RequestIds(reqs[1..])
  }

  /** Across any sequence of turns, whatever their failures, no session is
      lost, the count grows by at most one per turn, records stay filed under
      their own ids, and sessions no request names are left as they were;
      with a handle missing, the table is never touched. */
  lemma {:induction false} ServeAllKeepsSessions(g: Globals, t: Table, reqs: seq<Request>)
    ensures t.Keys <= ServeAll(g, t, reqs).Keys
    ensures |t| <= |ServeAll(g, t, reqs)| <= |t| + |reqs|
    ensures WellKeyed(t) ==> WellKeyed(ServeAll(g, t, reqs))
    ensures forall k :: k in t && k !in RequestIds(reqs) ==> ServeAll(g, t, reqs)[k] == t[k]
    ensures ServeAll(g, t, reqs).Keys <= t.Keys + RequestIds(reqs)
    ensures !Ready(g) ==> ServeAll(g, t, reqs) == t
    decreases |reqs|
  {
    if reqs != [] {
      var q := reqs[0];
      var next := ChatTurn(g, t, q.id, q.audio, q.providers, q.clock).sessions;
      assert |next| <= |t| + 1 by {
        assert next.Keys <= t.Keys + {q.id};
        CardinalityOfSubset(next.Keys, t.Keys + {q.id});
      }
      ServeAllKeepsSessions(g, next, reqs[1..]);
      CardinalityOfSubset(t.Keys, next.Keys);
      assert RequestIds(reqs) == {q.id} + RequestIds(reqs[1..]);
    }
  }

  // ---------------------------------------------------------------------------
  // Worked scenarios
  // ---------------------------------------------------------------------------

  /** A start-up where only the Gemini key is missing reports exactly that key. */
  lemma OnlyGeminiMissing(assemblyAiKey: string, murfKey: string)
    requires assemblyAiKey != "" && murfKey != ""
    ensures var env := Environment(Some(assemblyAiKey), None, Some(murfKey));
      MissingPrefix + Join(", ", MissingNames(env)) == "Missing required environment variables: GEMINI_API_KEY"
  {
  }

  /** Two missing keys are joined with a comma, in the fixed order; a key set
      to the empty string counts as missing. */
  lemma AssemblyAiAndMurfMissing(geminiKey: string)
    requires geminiKey != ""
    ensures var env := Environment(Some(""), Some(geminiKey), None);
      Join(", ", MissingNames(env)) == AssemblyAiKeyName + ", " + MurfKeyName
  {
    var env := Environment(Some(""), Some(geminiKey), None);
    assert MissingNames(env) == [AssemblyAiKeyName, MurfKeyName];
    JoinPair(", ", AssemblyAiKeyName, MurfKeyName);
  }

  lemma JoinPair(sep: string, a: string, b: string)
    ensures Join(sep, [a, b]) == a + sep + b
  {
    assert [a, b][1..] == [b];
  }

  /** The model provider of the scenario: it answers `reply` and appends the
      user's turn and its own to the history it was given. */
  function EchoModel(reply: string): (string, History) -> LlmOutcome {
    (text: string, h: History) => Replied(LlmResponse(reply), h + [Message("user", [text]), Message("model", [reply])])
  }

  function HearsAlways(text: string): Audio -> Stt.Transcribed {
    (a: Audio) => Stt.Delivered(Stt.Transcript(Stt.Completed, Some(text), None, None))
  }

  function MurfAnswers(audioFile: Option<string>): (string, Tts.Payload, Tts.Headers) -> Tts.HttpOutcome {
    (url: string, body: Tts.Payload, h: Tts.Headers) => Tts.HttpResponse(200, Tts.JsonObject(audioFile))
  }

  /** Two turns on session "abc": the first succeeds and leaves two history
      entries; in the second, synthesis answers without an audio location, so
      the fallback is returned, yet the history already holds four entries. */
  lemma SynthesisFailureKeepsSecondTurn(g: Globals, audio: Audio)
    requires Ready(g)
    ensures var first := ChatTurn(g, map[], "abc", audio,
                                  Providers(HearsAlways("hello"), EchoModel("hi there"), MurfAnswers(Some("https://audio/1.mp3"))),
                                  Readings(1, 1, 2));
      && first.reply == Json(ChatResponse("https://audio/1.mp3", true))
      && |first.sessions["abc"].history| == 2
      && var second := ChatTurn(g, first.sessions, "abc", audio,
                                Providers(HearsAlways("and now?"), EchoModel("still here"), MurfAnswers(None)),
                                Readings(3, 3, 4));
      && second.reply == Fallback
      && |second.sessions["abc"].history| == 4
  {
    var first := ChatTurn(g, map[], "abc", audio,
                          Providers(HearsAlways("hello"), EchoModel("hi there"), MurfAnswers(Some("https://audio/1.mp3"))),
                          Readings(1, 1, 2));
    assert Stt.TranscribeAudio(audio, HearsAlways("hello")).Success?;
    assert |first.sessions["abc"].history| == 2;
    var second := ChatTurn(g, first.sessions, "abc", audio,
                           Providers(HearsAlways("and now?"), EchoModel("still here"), MurfAnswers(None)),
                           Readings(3, 3, 4));
    assert Stt.TranscribeAudio(audio, HearsAlways("and now?")).Success?;
    assert |second.sessions["abc"].history| == 4;
  }

  lemma CardinalityOfSubset<T>(a: set<T>, b: set<T>)
    requires a <= b
    ensures |a| <= |b|
  {
    assert b == a + (b - a);
  }
}
