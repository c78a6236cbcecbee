/** The session table of app.py and its three handlers: start a session, generate a reply
    inside a session, end a session; plus the constant health check.

    Each handler is given twice: as a pure step function from the old table to the new table
    and the handler's reply (the specification, about which the properties are proved), and as
    a method of `SessionTable` that updates the table in place as app.py does and is proved to
    agree with the step function. */
module Sessions {

  import opened Wrappers
  import opened Conversation

  /** A session id as the table keys it (the string form of a uuid4). */
  type SessionId = string

  /** The process-wide table `conversation_histories`: session id to its turns. */
  type Table = map<SessionId, seq<Turn>>

  /** The JSON body of a request: None stands for a body that Python reads as false (JSON
      `null`, an empty object and the like), otherwise the body's fields by key. */
  type Request = Option<map<string, string>>

  const PromptKey: string := "prompt"
  const SessionIdKey: string := "session_id"

  /** The content of the synthetic first turn of every session. */
  const SetupContent: string := "Setup initial context for healthcare assistant"

  /** The error of a failed request: the fixed texts of the handlers' own checks, or the
      message of the gateway's exception. */
  datatype Error =
    | MissingPromptOrSession
    | InvalidOrExpiredSession
    | MissingSessionId
    | InvalidSessionId
    | GatewayError(message: string)
  {
    /** The `error` field of the failure body: one fixed text per check of the handlers, and
        the gateway exception's own message otherwise. */
    function Text(): (text: string)
      ensures GatewayError? ==> text == message
      ensures !GatewayError? ==> |text| > 0
    {
      match this
      case MissingPromptOrSession => "Missing prompt or session_id"
      case InvalidOrExpiredSession => "Invalid or expired session"
      case MissingSessionId => "Missing session_id"
      case InvalidSessionId => "Invalid session_id"
      case GatewayError(message) => message
    }
  }

  /** What a handler answers: the success payload of each route, or a failure with its HTTP
      status and error. */
  datatype Reply =
    | SessionStarted(sessionId: SessionId)
    | Generated(response: string, sessionId: SessionId)
    | SessionEnded
    | Healthy
    | Failure(code: nat, error: Error)
  {
    /** The HTTP status the route returns with this reply. */
    function Status(): (status: nat)
      ensures status == 200 <==> !Failure? || code == 200
      ensures Failure? ==> status == code
    {
      if Failure? then code else 200
    }

    /** The `message` field of the success bodies that carry one. */
    function Message(): (message: string)
      requires SessionStarted? || SessionEnded? || Healthy?
      ensures |message| > 0
    {
      match this
      case SessionStarted(_) => "Hello, I'm your professional healthcare assistant"
      case SessionEnded => "Session ended and conversation history cleared"
      case Healthy => "Healthcare Assistant API is up and running"
    }
  }

  /** What the model gateway does with one message: reply with a text, or raise with a message. */
  datatype Outcome = Ok(text: string) | Err(message: string)

  /** The model gateway: given the chat history it is primed with and the new prompt, its outcome. */
  type Gateway = (seq<ChatEntry>, string) -> Outcome

  /** One call of the model gateway: the history it was primed with and the prompt it was sent. */
  datatype GatewayCall = GatewayCall(history: seq<ChatEntry>, prompt: string)

  datatype Started = Started(table: Table, reply: Reply)
  datatype Generation = Generation(table: Table, reply: Reply, call: Option<GatewayCall>)
  datatype Ended = Ended(table: Table, reply: Reply)

  /** The four fixed error texts are pairwise different, so a client can tell the checks that
      failed apart. */
  lemma FixedErrorTextsDistinct()
    ensures MissingPromptOrSession.Text() != InvalidOrExpiredSession.Text()
    ensures MissingPromptOrSession.Text() != MissingSessionId.Text()
    ensures MissingPromptOrSession.Text() != InvalidSessionId.Text()
    ensures InvalidOrExpiredSession.Text() != MissingSessionId.Text()
    ensures InvalidOrExpiredSession.Text() != InvalidSessionId.Text()
    ensures MissingSessionId.Text() != InvalidSessionId.Text()
  {
  }

  /** The two turns every session starts with: a user setup turn, then the system prompt as a
      model turn. */
  function SetupHistory(systemPrompt: string): (h: seq<Turn>)
    ensures |h| == 2 && h[0] == Turn(User, SetupContent) && h[1].role == Model && h[1].content == systemPrompt
  {
    [Turn(User, SetupContent), Turn(Model, systemPrompt)]
  }

  /** The invariant of every stored history: it starts with the setup turns and then holds
      whole exchanges, user turns at even positions and model turns at odd ones. */
  predicate WellFormedHistory(h: seq<Turn>, systemPrompt: string) {
    |h| >= 2 && |h| % 2 == 0 && h[..2] == SetupHistory(systemPrompt) &&
    forall i :: 0 <= i < |h| ==> h[i].role == (if i % 2 == 0 then User else Model)
  }

  /** The invariant of the table: every stored history is well formed. */
  predicate WellFormedTable(t: Table, systemPrompt: string) {
    forall id :: id in t ==> WellFormedHistory(t[id], systemPrompt)
  }

  /** `start_session` (app.py:43-58) with `id` the uuid it draws: the id maps to the setup
      turns, every other entry stays as it was, and the reply carries the id and the greeting. */
  function StartStep(t: Table, id: SessionId, systemPrompt: string): (r: Started)
    ensures id in r.table && r.table[id] == [Turn(User, SetupContent), Turn(Model, systemPrompt)]
    ensures r.table.Keys == t.Keys + {id}
    ensures forall k :: k in t && k != id ==> r.table[k] == t[k]
    ensures r.reply == SessionStarted(id) && r.reply.Status() == 200
  {
    Started(t[id := SetupHistory(systemPrompt)], SessionStarted(id))
  }

  /** The first check of `generate_content` (app.py:67): no body, or a body without one of
      the two keys. */
  predicate LacksPromptOrSession(request: Request) {
    request.None? || PromptKey !in request.value || SessionIdKey !in request.value
  }

  /** `generate_content` (app.py:61-118): the checks in their order, the gateway call primed
      with the translated history, and the append of the exchange on success only. */
  function GenerateStep(t: Table, request: Request, gateway: Gateway): (r: Generation)
    // missing fields: 400, nothing changes, the model is not called
    ensures LacksPromptOrSession(request)
        <==> r.reply == Failure(400, MissingPromptOrSession)
    // unknown session: 400, nothing changes, the model is not called
    ensures (!LacksPromptOrSession(request) && request.value[SessionIdKey] !in t)
        <==> r.reply == Failure(400, InvalidOrExpiredSession)
    ensures r.call.None? <==> r.reply.Status() == 400
    ensures r.call.None? ==> r.table == t
    // otherwise, and only then, the model is called with the stored history, translated, and the prompt
    ensures r.call.Some? <==> !LacksPromptOrSession(request) && request.value[SessionIdKey] in t
    ensures r.call.Some? ==>
      r.call.value == GatewayCall(ChatHistory(t[request.value[SessionIdKey]]), request.value[PromptKey])
    // the gateway fails: 500 with its message, nothing changes
    ensures r.call.Some? && gateway(r.call.value.history, r.call.value.prompt).Err? ==>
      && r.reply == Failure(500, GatewayError(gateway(r.call.value.history, r.call.value.prompt).message))
      && r.table == t
    // the gateway replies: exactly the exchange is appended to that session, nothing else changes
    ensures r.call.Some? && gateway(r.call.value.history, r.call.value.prompt).Ok? ==>
      var id, prompt := request.value[SessionIdKey], request.value[PromptKey];
      var text := gateway(r.call.value.history, prompt).text;
      && r.reply == Generated(text, id)
      && r.table == t[id := t[id] + [Turn(User, prompt), Turn(Model, text)]]
  {
    if LacksPromptOrSession(request) then
      Generation(t, Failure(400, MissingPromptOrSession), None)
    else
      var prompt, id := request.value[PromptKey], request.value[SessionIdKey];
      if id !in t then
        Generation(t, Failure(400, InvalidOrExpiredSession), None)
      else
        var chat := ChatHistory(t[id]);
        var call := Some(GatewayCall(chat, prompt));
        match gateway(chat, prompt)
        case Err(message) => Generation(t, Failure(500, GatewayError(message)), call)
        case Ok(text) =>
          Generation(t[id := t[id] + [Turn(User, prompt), Turn(Model, text)]], Generated(text, id), call)
  }

  /** `end_session` (app.py:128-154): a missing key or an unknown id is a 400 that changes
      nothing; a known id is removed, and only it. */
  function EndStep(t: Table, request: Request): (r: Ended)
    ensures (request.None? || SessionIdKey !in request.value)
        <==> r.reply == Failure(400, MissingSessionId)
    ensures (request.Some? && SessionIdKey in request.value && request.value[SessionIdKey] !in t)
        <==> r.reply == Failure(400, InvalidSessionId)
    ensures r.reply.Status() == 400 ==> r.table == t
    ensures r.reply.Status() == 200 <==> request.Some? && SessionIdKey in request.value && request.value[SessionIdKey] in t
    ensures r.reply.Status() == 200 ==>
      && r.reply == SessionEnded
      && r.table == t - {request.value[SessionIdKey]}
  {
    if request.None? || SessionIdKey !in request.value then
      Ended(t, Failure(400, MissingSessionId))
    else
      var id := request.value[SessionIdKey];
      if id in t then
        Ended(t - {id}, SessionEnded)
      else
        Ended(t, Failure(400, InvalidSessionId))
  }

  /** `health_check` (app.py:164-169): always 200 and healthy, whatever the table holds. */
  function HealthCheck(): (r: Reply)
    ensures r.Healthy? && r.Status() == 200
  {
    Healthy
  }

  /** `start_session` keeps the table well formed. */
  lemma StartKeepsWellFormed(t: Table, id: SessionId, systemPrompt: string)
    requires WellFormedTable(t, systemPrompt)
    ensures WellFormedTable(StartStep(t, id, systemPrompt).table, systemPrompt)
  {
  }

  /** Appending one exchange keeps a history well formed. */
  lemma ExchangeKeepsWellFormed(h: seq<Turn>, systemPrompt: string, prompt: string, text: string)
    requires WellFormedHistory(h, systemPrompt)
    ensures WellFormedHistory(h + [Turn(User, prompt), Turn(Model, text)], systemPrompt)
  {
  }

  /** `generate_content` keeps the table well formed. */
  lemma GenerateKeepsWellFormed(t: Table, request: Request, gateway: Gateway, systemPrompt: string)
    requires WellFormedTable(t, systemPrompt)
    ensures WellFormedTable(GenerateStep(t, request, gateway).table, systemPrompt)
  {
  }

  /** `end_session` keeps the table well formed. */
  lemma EndKeepsWellFormed(t: Table, request: Request, systemPrompt: string)
    requires WellFormedTable(t, systemPrompt)
    ensures WellFormedTable(EndStep(t, request).table, systemPrompt)
  {
  }

  /** Every gateway call in a well-formed table is primed with the setup turns: the history
      sent starts with the translated user setup turn and the system prompt as a model entry. */
  lemma GatewayPrimedWithSystemPrompt(t: Table, request: Request, gateway: Gateway, systemPrompt: string)
    requires WellFormedTable(t, systemPrompt)
    ensures var g := GenerateStep(t, request, gateway);
      g.call.Some? ==>
        && |g.call.value.history| >= 2
        && g.call.value.history[..2] == ChatHistory(SetupHistory(systemPrompt))
  {
    var g := GenerateStep(t, request, gateway);
    if g.call.Some? {
      var h := t[request.value[SessionIdKey]];
      assert h == h[..2] + h[2..];
      ChatHistoryAppend(h[..2], h[2..]);
    }
  }

  /** Every stored history of a well-formed table is recovered from the chat history the
      gateway is primed with. */
  lemma StoredHistoryRoundTrips(t: Table, systemPrompt: string, id: SessionId)
    requires WellFormedTable(t, systemPrompt) && id in t
    ensures TurnsOf(ChatHistory(t[id])) == Some(t[id])
  {
    ChatHistoryRoundTrip(t[id]);
  }

  /** The table `conversation_histories` with its three handlers, updating it in place. */
  class SessionTable {
    /** The stored histories by session id. */
    var histories: Table
    /** The fixed instruction text (`SYSTEM_PROMPT`), pinned as the second turn of every session. */
    const systemPrompt: string

    ghost predicate Valid()
      reads this
    {
      WellFormedTable(histories, systemPrompt)
    }

    /** The table at process start: empty. */
    constructor (systemPrompt: string)
      ensures Valid()
      ensures this.systemPrompt == systemPrompt && histories == map[]
    {
      this.systemPrompt := systemPrompt;
      histories := map[];
    }

    /** `start_session`: `freshId` stands for the uuid4 drawn at app.py:45. */
    method StartSession(freshId: SessionId) returns (reply: Reply)
      requires Valid()
      modifies this
      ensures Valid()
      ensures Started(histories, reply) == StartStep(old(histories), freshId, systemPrompt)
    {
      StartKeepsWellFormed(histories, freshId, systemPrompt);
      histories := histories[freshId := [Turn(User, SetupContent), Turn(Model, systemPrompt)]];
      reply := SessionStarted(freshId);
    }

    /** `generate_content`: also returns the call it made to the gateway, None when the
        gateway was not called. */
    method Generate(request: Request, gateway: Gateway) returns (reply: Reply, call: Option<GatewayCall>)
      requires Valid()
      modifies this
      ensures Valid()
      ensures Generation(histories, reply, call) == GenerateStep(old(histories), request, gateway)
      ensures call.Some? ==>
        && |call.value.history| >= 2
        && call.value.history[..2] == ChatHistory(SetupHistory(systemPrompt))
    {
      GenerateKeepsWellFormed(histories, request, gateway, systemPrompt);
      GatewayPrimedWithSystemPrompt(histories, request, gateway, systemPrompt);
      if request.None? || PromptKey !in request.value || SessionIdKey !in request.value {
        return Failure(400, MissingPromptOrSession), None;
      }
      var prompt := request.value[PromptKey];
      var id := request.value[SessionIdKey];
      if id !in histories {
        return Failure(400, InvalidOrExpiredSession), None;
      }
      var chat := TranslateHistory(histories[id]);
      call := Some(GatewayCall(chat, prompt));
      var outcome := gateway(chat, prompt);
      if outcome.Err? {
        return Failure(500, GatewayError(outcome.message)), call;
      }
      histories := histories[id := histories[id] + [Turn(User, prompt), Turn(Model, outcome.text)]];
      reply := Generated(outcome.text, id);
    }

    /** `end_session`. */
    method EndSession(request: Request) returns (reply: Reply)
      requires Valid()
      modifies this
      ensures Valid()
      ensures Ended(histories, reply) == EndStep(old(histories), request)
    {
      EndKeepsWellFormed(histories, request, systemPrompt);
      if request.None? || SessionIdKey !in request.value {
        return Failure(400, MissingSessionId);
      }
      var id := request.value[SessionIdKey];
      if id in histories {
        histories := histories - {id};
        reply := SessionEnded;
      } else {
        reply := Failure(400, InvalidSessionId);
      }
    }
  }
}
