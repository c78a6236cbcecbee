# Session table of the healthcare chat assistant API

This project models the stateful core of a small Flask service that fronts a generative-language
model for healthcare guidance (`app.py`). The core is the process-wide table
`conversation_histories`. It maps a session id to the ordered turns of that session. Three route
handlers act on it:

- `start_session` stores a new id with two setup turns. The first is a `user` turn. The second is
  a `model` turn carrying the fixed instruction text `SYSTEM_PROMPT`.
- `generate_content` runs its checks in order. It rejects a body without `prompt` or
  `session_id`, then an unknown id. It translates the stored turns into the gateway's role-tagged
  chat history and sends the prompt. Only when the model answers does it append the prompt and
  the answer to that session.
- `end_session` deletes a known id and rejects a missing or unknown one.

`health_check` is a constant reply.

The model has three modules:

- `Conversation` (`conversation.dfy`) holds stored turns, gateway chat entries and the
  translation between them. `ChatHistory` is the translation as a function.
  `TranslateHistory` is the loop of `app.py` proved equal to it. `TurnsOf` reads a chat history
  back, and is used to prove that the translation loses nothing.
- `Sessions` (`sessions.dfy`) holds requests, replies and errors. Each handler is a pure step
  function from the old table to the new table and the reply (`StartStep`, `GenerateStep`,
  `EndStep`). Their contracts state the error order, what changes and what does not. The class
  `SessionTable` updates its `histories` map in place, as the handlers do. Each method is proved
  to produce exactly the step function's table and reply, and to keep the table invariant
  `WellFormedTable`. That invariant says every history is the setup pair followed by whole
  user/model exchanges.
- `SessionProperties` (`session_properties.dfy`) proves properties over runs of several requests.
  `Converse` sends a sequence of prompts to one session. Each request carries the gateway
  behaviour of its own moment, so a failed request may succeed when retried. Over such a run,
  the history grows by exactly the successful exchanges, in order, and so reaches 2 + 2N turns
  when every request succeeds. Other sessions are
  untouched. An ended or unknown session stays rejected. The stored history replays the context
  of the last gateway call.

Replies are datatypes, not JSON. `Reply.Status()` gives the HTTP status: 200, 400 or 500.
`Error.Text()` gives the fixed `error` strings, or the gateway exception's message.
`Reply.Message()` gives the fixed `message` strings.

Facts of `app.py` that the model keeps:

- Stored and translated roles are `"user"` and `"model"` (app.py:49-50, app.py:104-105). The
  translation keeps the `'user' if role == 'user' else 'model'` choice of app.py:92 (`EntryOf`).
- The check at app.py:67 tests only that the `prompt` key is present. An empty prompt passes
  and reaches the gateway.
- If the session were deleted while the gateway call is running, the `extend` at app.py:103
  would raise inside the inner `try`, and the handler would return 500. The model is
  sequential, so this case is not represented (see "Left out").

## Model

| member | source | states |
|---|---|---|
| `Conversation.EntryOf` | app.py:91-93 | a turn translates to an entry whose role is `user` exactly when the turn's role is `user` (otherwise `model`) and whose parts are the single content |
| `Conversation.ChatHistory` | app.py:89-94 | the chat history has one entry per stored turn, and entry i is the translation of turn i, so order is kept |
| `Conversation.TranslateHistory` | app.py:89-94 | the appending loop yields exactly the chat history `ChatHistory` of the stored turns |
| `Conversation.ChatHistoryAppend` | app.py:89-94 | translation distributes over concatenation, so appending turns appends their entries |
| `Conversation.ChatHistoryKeepsRoles` | app.py:92 | on a history holding only `user`/`model` roles the translated roles equal the stored roles |
| `Conversation.ChatHistoryRoundTrip` | app.py:89-94 | on such a history, reading the chat history back gives the stored turns: the translation loses nothing |
| `Sessions.SetupHistory` | app.py:48-51 | a new session's turns are two: the `user` turn with the fixed setup text, then a `model` turn holding the system prompt |
| `Sessions.StartStep` | app.py:43-58 | the id then maps to exactly the setup turns; no other entry changes and no other key appears; the reply is a 200 carrying the id |
| `Sessions.GenerateStep` | app.py:61-118 | body lacking `prompt` or `session_id` iff 400 "Missing prompt or session_id"; otherwise unknown id iff 400 "Invalid or expired session"; on both the table is unchanged and the gateway is not called; the gateway is called exactly when the body has both keys and the id is known, and then it gets the translated stored history and the prompt; a gateway error gives 500 with its message and leaves the table as it was; a gateway answer is returned and exactly `[user prompt, model answer]` is appended to that session alone |
| `Sessions.EndStep` | app.py:128-154 | no body or no `session_id` iff 400 "Missing session_id"; an unknown id iff 400 "Invalid session_id"; neither changes the table; 200 iff the id is known, and then exactly that key is removed |
| `Sessions.HealthCheck` | app.py:164-169 | the health check always answers healthy with status 200 |
| `Sessions.Error.Text` | app.py:66-82 | the `error` text of each check ("Missing prompt or session_id", "Invalid or expired session", "Missing session_id", "Invalid session_id" at app.py:69, 80, 136, 152) is non-empty, and a gateway failure carries the exception's own message as at app.py:116 |
| `Sessions.Reply.Status` | app.py:68-71 | failures answer with their own status (400 or 500 in the handlers); every success answers 200 |
| `Sessions.Reply.Message` | app.py:53-58 | the `message` of the start, end and health replies is the non-empty fixed text of app.py:57, 148 and 168 |
| `Sessions.FixedErrorTextsDistinct` | app.py:69-152 | the four fixed error texts of the two handlers (the literals at app.py:69, 80, 136 and 152) are pairwise different |
| `Sessions.GatewayPrimedWithSystemPrompt` | app.py:85-100 | in a well-formed table every gateway call is primed with the translated setup pair, the system prompt as the second entry |
| `Sessions.StoredHistoryRoundTrips` | app.py:85-94 | every stored history of a well-formed table is recovered from the chat history the gateway receives |
| `Sessions.StartKeepsWellFormed` | app.py:48-51 | starting a session keeps every history well formed: setup pair, even length, user turns at even and model turns at odd positions |
| `Sessions.ExchangeKeepsWellFormed` | app.py:103-106 | appending one user/model exchange keeps a history well formed |
| `Sessions.GenerateKeepsWellFormed` | app.py:61-118 | a generate request, whatever its outcome, keeps the table well formed |
| `Sessions.EndKeepsWellFormed` | app.py:143-144 | deleting a session keeps the table well formed |
| `Sessions.SessionTable.constructor` | app.py:40 | the table starts empty and well formed |
| `Sessions.SessionTable.StartSession` | app.py:43-58 | inserts the setup turns in place under the drawn id and returns what `StartStep` gives; keeps the invariant |
| `Sessions.SessionTable.Generate` | app.py:61-118 | validates, translates with the loop, calls the gateway and extends the stored list in place only on success; table, reply and gateway call are exactly those of `GenerateStep`; every gateway call starts with the translated setup pair carrying the system prompt; keeps the invariant |
| `Sessions.SessionTable.EndSession` | app.py:128-154 | deletes the key in place when known; table and reply are exactly those of `EndStep`; keeps the invariant |
| `SessionProperties.GenerateInLiveSession` | app.py:78-118 | a request for a live session changes only that session, by the turns its reply adds; the reply is a generated text for that session or a 500 |
| `SessionProperties.ExchangesLength` | app.py:103-106 | each successful exchange adds two turns and failed ones add none |
| `SessionProperties.ConverseHistory` | app.py:100-106 | after a run of prompts in a live session the table differs only in that session, whose history is the old one followed by exactly the successful exchanges in the order sent |
| `SessionProperties.ConverseReplies` | app.py:97-118 | every reply in such a run is a generated text for that session or a 500 gateway failure |
| `SessionProperties.ConverseLength` | app.py:100-106 | after N requests a live session's history has grown by twice the number of successful replies |
| `SessionProperties.RetryAfterFailure` | app.py:97-118 | a request the gateway fails, then the same prompt answered on retry: replies are the 500 with the message then the answer, and the session gains exactly the one answered exchange |
| `SessionProperties.ReliableGatewaySucceeds` | app.py:97-112 | when the gateway never fails on any request of a run, every request succeeds |
| `SessionProperties.StartThenConverse` | app.py:45-106 | a started session sent N prompts through a gateway that never fails holds the setup turns followed by the N exchanges, 2 + 2N turns |
| `SessionProperties.FirstExchange` | app.py:45-112 | start then one answered prompt: the reply carries the answer, the session has four turns, and turns 2 and 3 are the prompt and the answer |
| `SessionProperties.ReplayReconstructsContext` | app.py:89-106 | after a success the stored history translates to the context the gateway was primed with, followed by the prompt and the answer |
| `SessionProperties.UnknownSessionRejected` | app.py:78-82 | any number of requests for an id not in the table all get 400 "Invalid or expired session" and leave the table unchanged |
| `SessionProperties.EndedSessionIsGone` | app.py:143-154 | ending a known session answers 200 and removes it; a later generate request gets 400 "Invalid or expired session" without calling the gateway, and a second end gets 400 "Invalid session_id" |
| `SessionProperties.FreshStartAddsOne` | app.py:45-48 | starting with an id not yet in the table adds exactly one session |

## Left out

- Flask plumbing (`app.route`, `request.json`, `jsonify`, `app.run`) is HTTP I/O. `None` stands for a JSON body that Python reads as false (`null`, `{}`, `[]`, `""`, `0`, `false`), which the `not data` tests at app.py:67 and app.py:134 reject. Whether a request with no JSON body at all gives such a value or raises inside `request.json` depends on the Flask version; recent versions raise, and the outer handler, which is not modelled, then answers 500. A request body is modelled as an optional map from key to string. A body that is JSON but not an object, and field values that are not strings, are not modelled. That includes a non-hashable `session_id`, which would reach the outer handler.
- The outer catch-all handlers (app.py:120-125, app.py:156-161) are not modelled. They only catch faults in request parsing, and their `details` text is a Python exception string.
- The Gemini client (`genai.configure`, `GenerativeModel`, `start_chat`, `send_message`) is a network library. It is replaced by a `Gateway` function parameter from the chat history and the prompt to an outcome. A failure of `response.text` at app.py:105 happens before `extend` runs and is folded into the gateway's error outcome.
- `uuid.uuid4()` is randomness. `StartSession` takes the drawn id as a parameter and, like the dictionary assignment, overwrites an existing entry under that id. `FreshStartAddsOne` covers the fresh case.
- `load_dotenv`, `os.getenv` and `os.urandom` (secret key and API key) are configuration I/O with no effect on the table.
- The text of `SYSTEM_PROMPT` is an opaque constant. It is given to the table's constructor, and every session's second turn is proved to hold it.
- Concurrent requests sharing the dictionary without locking are not modelled; the model is sequential. Two generate calls racing on one session, and a session deleted during a gateway call, are therefore not represented.
