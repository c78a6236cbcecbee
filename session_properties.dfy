/** Properties of the session table over several requests: how a history grows over a
    conversation, what a failed gateway call leaves behind, that an ended session stays gone,
    and that the stored history replays the context of the last gateway call. */
module SessionProperties {

  import opened Wrappers
  import opened Conversation
  import opened Sessions

  /** The body of a `/generate` request carrying both keys. */
  function GenerateRequest(id: SessionId, prompt: string): (request: Request)
    ensures !LacksPromptOrSession(request)
    ensures request.value[SessionIdKey] == id && request.value[PromptKey] == prompt
  {
    Some(map[PromptKey := prompt, SessionIdKey := id])
  }

  /** The body of an `/end_session` request carrying the key. */
  function EndRequest(id: SessionId): (request: Request)
    ensures request.Some? && SessionIdKey in request.value && request.value[SessionIdKey] == id
  {
    Some(map[SessionIdKey := id])
  }

  /** One request of a run: the prompt sent, and how the gateway behaves at the moment of that
      request (a later request may meet a gateway that behaves differently, as on a retry). */
  datatype Send = Send(prompt: string, gateway: Gateway)

  /** The table after a run of requests and the replies, in order. */
  datatype Run = Run(table: Table, replies: seq<Reply>)

  /** Sends the prompts of `sends` to `generate_content`, one after another, in session `id`. */
  function Converse(t: Table, id: SessionId, sends: seq<Send>): (r: Run)
    ensures |r.replies| == |sends|
    decreases |sends|
  {
    if sends == [] then Run(t, [])
    else
      var step := GenerateStep(t, GenerateRequest(id, sends[0].prompt), sends[0].gateway);
      var rest := Converse(step.table, id, sends[1..]);
      Run(rest.table, [step.reply] + rest.replies)
  }

  /** The turns that the successful exchanges of a run add: for each reply that is a
      generated text, the prompt as a user turn and the text as a model turn, in order. */
  function Exchanges(sends: seq<Send>, replies: seq<Reply>): seq<Turn>
    requires |sends| == |replies|
  {
    if sends == [] then [] else Added(sends[0].prompt, replies[0]) + Exchanges(sends[1..], replies[1..])
  }

  /** The turns one request adds to its session: the prompt and the reply's text when the reply
      is a generated text, nothing otherwise. */
  function Added(prompt: string, reply: Reply): seq<Turn> {
    if reply.Generated? then [Turn(User, prompt), Turn(Model, reply.response)] else []
  }

  /** The number of replies that are generated texts. */
  function Successes(replies: seq<Reply>): (n: nat)
    ensures n <= |replies|
  {
    if replies == [] then 0 else (if replies[0].Generated? then 1 else 0) + Successes(replies[1..])
  }

  /** Each successful exchange adds two turns, and only those do. */
  lemma {:induction false} ExchangesLength(sends: seq<Send>, replies: seq<Reply>)
    requires |sends| == |replies|
    ensures |Exchanges(sends, replies)| == 2 * Successes(replies)
  {
    if sends != [] {
      ExchangesLength(sends[1..], replies[1..]);
    }
  }

  /** One request in a live session changes that session only, by the turns it adds; its reply
      is a generated text for that session or a gateway failure. */
  lemma GenerateInLiveSession(t: Table, id: SessionId, prompt: string, gateway: Gateway)
    requires id in t
    ensures var step := GenerateStep(t, GenerateRequest(id, prompt), gateway);
      && step.table == t[id := t[id] + Added(prompt, step.reply)]
      && LiveSessionReply(step.reply, id)
  {
    var step := GenerateStep(t, GenerateRequest(id, prompt), gateway);
    if !step.reply.Generated? {
      UpdateWithSame(t, id, Added(prompt, step.reply));
    }
  }

  /** Writing back a session's own history, extended by nothing, leaves the table as it was. */
  lemma UpdateWithSame(t: Table, id: SessionId, none: seq<Turn>)
    requires id in t && none == []
    ensures t[id := t[id] + none] == t
  {
    assert t[id] + none == t[id];
  }

  /** A conversation in a live session changes that session only, and its history becomes the
      old history followed by exactly the successful exchanges, in the order they were sent. */
  lemma {:induction false} ConverseHistory(t: Table, id: SessionId, sends: seq<Send>)
    requires id in t
    ensures var r := Converse(t, id, sends);
      r.table == t[id := t[id] + Exchanges(sends, r.replies)]
    decreases |sends|
  {
    if sends == [] {
      UpdateWithSame(t, id, Exchanges(sends, []));
    } else {
      var step := GenerateStep(t, GenerateRequest(id, sends[0].prompt), sends[0].gateway);
      GenerateInLiveSession(t, id, sends[0].prompt, sends[0].gateway);
      ConverseHistory(step.table, id, sends[1..]);
      var rest := Converse(step.table, id, sends[1..]);
      var r := Converse(t, id, sends);
      assert r.replies[0] == step.reply && r.replies[1..] == rest.replies && r.table == rest.table;
      var added := Added(sends[0].prompt, step.reply);
      assert Exchanges(sends, r.replies) == added + Exchanges(sends[1..], rest.replies);
      ExtendTwice(t, id, added, Exchanges(sends[1..], rest.replies));
    }
  }

  /** Extending a session's history twice extends it by both extensions, in order. */
  lemma ExtendTwice(t: Table, id: SessionId, a: seq<Turn>, b: seq<Turn>)
    requires id in t
    ensures var t' := t[id := t[id] + a];
      t'[id := t'[id] + b] == t[id := t[id] + (a + b)]
  {
    assert t[id] + a + b == t[id] + (a + b);
  }

  /** A reply that a request in a live session can get: a generated text for that session or a
      gateway failure. */
  predicate LiveSessionReply(reply: Reply, id: SessionId) {
    (reply.Generated? && reply.sessionId == id) || (reply.Failure? && reply.code == 500)
  }

  /** Every reply of a conversation in a live session is a generated text for that session or
      a gateway failure. */
  lemma {:induction false} ConverseReplies(t: Table, id: SessionId, sends: seq<Send>)
    requires id in t
    ensures forall i :: 0 <= i < |sends| ==> LiveSessionReply(Converse(t, id, sends).replies[i], id)
    decreases |sends|
  {
    if sends != [] {
      var step := GenerateStep(t, GenerateRequest(id, sends[0].prompt), sends[0].gateway);
      GenerateInLiveSession(t, id, sends[0].prompt, sends[0].gateway);
      ConverseReplies(step.table, id, sends[1..]);
      var rest := Converse(step.table, id, sends[1..]);
      var r := Converse(t, id, sends);
      assert r.replies == [step.reply] + rest.replies;
      forall i | 0 <= i < |sends| ensures LiveSessionReply(r.replies[i], id) {
        if i > 0 {
          assert r.replies[i] == rest.replies[i - 1];
        }
      }
    }
  }

  /** After N requests in a live session, the history has grown by two turns per successful
      reply, and a failed reply leaves it as it was. */
  lemma {:induction false} ConverseLength(t: Table, id: SessionId, sends: seq<Send>)
    requires id in t
    ensures var r := Converse(t, id, sends);
      id in r.table && |r.table[id]| == |t[id]| + 2 * Successes(r.replies)
  {
    ConverseHistory(t, id, sends);
    ExchangesLength(sends, Converse(t, id, sends).replies);
  }

  /** A failed request followed by a retry that the gateway answers: the first reply is the
      500, the second the answer, and the session gains exactly the one answered exchange. */
  lemma RetryAfterFailure(t: Table, id: SessionId, prompt: string, failing: Gateway, answering: Gateway, message: string, text: string)
    requires id in t
    requires failing(ChatHistory(t[id]), prompt) == Err(message)
    requires answering(ChatHistory(t[id]), prompt) == Ok(text)
    ensures var r := Converse(t, id, [Send(prompt, failing), Send(prompt, answering)]);
      && r.replies == [Failure(500, GatewayError(message)), Generated(text, id)]
      && r.table == t[id := t[id] + [Turn(User, prompt), Turn(Model, text)]]
  {
    var sends := [Send(prompt, failing), Send(prompt, answering)];
    var first := GenerateStep(t, GenerateRequest(id, prompt), failing);
    assert first.call == Some(GatewayCall(ChatHistory(t[id]), prompt));
    assert first.table == t && first.reply == Failure(500, GatewayError(message));
    var second := GenerateStep(t, GenerateRequest(id, prompt), answering);
    assert second.call == Some(GatewayCall(ChatHistory(t[id]), prompt));
    assert second.reply == Generated(text, id);
    assert sends[1..] == [Send(prompt, answering)] && sends[1..][1..] == [];
    assert Converse(t, id, sends[1..]) == Run(second.table, [second.reply]);
  }

  /** When the gateway never fails on any request of a run, every request succeeds. */
  lemma {:induction false} ReliableGatewaySucceeds(t: Table, id: SessionId, sends: seq<Send>)
    requires id in t
    requires forall i, c, p :: 0 <= i < |sends| ==> sends[i].gateway(c, p).Ok?
    ensures Successes(Converse(t, id, sends).replies) == |sends|
    decreases |sends|
  {
    if sends != [] {
      var step := GenerateStep(t, GenerateRequest(id, sends[0].prompt), sends[0].gateway);
      assert forall i, c, p :: 0 <= i < |sends[1..]| ==> sends[1..][i].gateway(c, p).Ok? by {
        forall i, c, p | 0 <= i < |sends[1..]| ensures sends[1..][i].gateway(c, p).Ok? {
          assert sends[1..][i] == sends[i + 1];
        }
      }
      assert sends[0].gateway(ChatHistory(t[id]), sends[0].prompt).Ok?;
      ReliableGatewaySucceeds(step.table, id, sends[1..]);
      var r := Converse(t, id, sends);
      assert r.replies[1..] == Converse(step.table, id, sends[1..]).replies;
    }
  }

  /** A session started and then sent N prompts through a gateway that never fails holds
      2 + 2N turns: the setup turns, then each prompt followed by its reply. */
  lemma StartThenConverse(t: Table, id: SessionId, systemPrompt: string, sends: seq<Send>)
    requires forall i, c, p :: 0 <= i < |sends| ==> sends[i].gateway(c, p).Ok?
    ensures var r := Converse(StartStep(t, id, systemPrompt).table, id, sends);
      && id in r.table
      && r.table[id] == SetupHistory(systemPrompt) + Exchanges(sends, r.replies)
      && |r.table[id]| == 2 + 2 * |sends|
  {
    var s := StartStep(t, id, systemPrompt).table;
    ConverseHistory(s, id, sends);
    ExchangesLength(sends, Converse(s, id, sends).replies);
    ReliableGatewaySucceeds(s, id, sends);
  }

  /** The first exchange of a session: after start and one prompt that the gateway answers,
      the reply carries the gateway's text and the session holds four turns, the last two being
      the prompt and that text. */
  lemma FirstExchange(t: Table, id: SessionId, systemPrompt: string, prompt: string, gateway: Gateway, text: string)
    requires gateway(ChatHistory(SetupHistory(systemPrompt)), prompt) == Ok(text)
    ensures var g := GenerateStep(StartStep(t, id, systemPrompt).table, GenerateRequest(id, prompt), gateway);
      && g.reply == Generated(text, id)
      && |g.table[id]| == 4
      && g.table[id][2] == Turn(User, prompt)
      && g.table[id][3] == Turn(Model, text)
  {
  }

  /** The stored history replays the context of the last call: after a successful request, the
      translated history is what the gateway was primed with, then the prompt and the reply. */
  lemma ReplayReconstructsContext(t: Table, request: Request, gateway: Gateway)
    requires GenerateStep(t, request, gateway).reply.Generated?
    ensures var g := GenerateStep(t, request, gateway);
      var id := request.value[SessionIdKey];
      && g.call.Some?
      && id in g.table
      && ChatHistory(g.table[id])
         == g.call.value.history + [ChatEntry(User, [g.call.value.prompt]), ChatEntry(Model, [g.reply.response])]
  {
    var g := GenerateStep(t, request, gateway);
    var id := request.value[SessionIdKey];
    ChatHistoryAppend(t[id], [Turn(User, g.call.value.prompt), Turn(Model, g.reply.response)]);
  }

  /** A request for a session not in the table never reaches the gateway and never changes the
      table, however often it is repeated: a session that was never started, or was ended,
      stays gone. */
  lemma {:induction false} UnknownSessionRejected(t: Table, id: SessionId, sends: seq<Send>)
    requires id !in t
    ensures var r := Converse(t, id, sends);
      && r.table == t
      && forall i :: 0 <= i < |sends| ==> r.replies[i] == Failure(400, InvalidOrExpiredSession)
    decreases |sends|
  {
    if sends != [] {
      UnknownSessionRejected(t, id, sends[1..]);
      var r := Converse(t, id, sends);
      forall i | 0 <= i < |sends| ensures r.replies[i] == Failure(400, InvalidOrExpiredSession) {
        if i > 0 {
          assert r.replies[i] == Converse(t, id, sends[1..]).replies[i - 1];
        }
      }
    }
  }

  /** Ending a known session removes it: a later generate request for it is rejected as an
      invalid or expired session, and a second end request as an invalid session id, neither
      changing the table. */
  lemma EndedSessionIsGone(t: Table, id: SessionId, prompt: string, gateway: Gateway)
    requires id in t
    ensures var ended := EndStep(t, EndRequest(id));
      && ended.reply == SessionEnded
      && id !in ended.table
      && GenerateStep(ended.table, GenerateRequest(id, prompt), gateway)
         == Generation(ended.table, Failure(400, InvalidOrExpiredSession), None)
      && EndStep(ended.table, EndRequest(id)) == Ended(ended.table, Failure(400, InvalidSessionId))
  {
  }

  /** A start with a freshly drawn id adds exactly one session. */
  lemma FreshStartAddsOne(t: Table, id: SessionId, systemPrompt: string)
    requires id !in t
    ensures |StartStep(t, id, systemPrompt).table| == |t| + 1
  {
  }
}
