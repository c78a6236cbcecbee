/** Conversation turns as the session table stores them, and their translation into the
    role-tagged chat history that the model gateway is primed with (app.py:89-94). */
module Conversation {

  import opened Wrappers

  /** The two role tags the table ever stores. */
  const User: string := "user"
  const Model: string := "model"

  /** One stored turn: `{'role': ..., 'content': ...}`. */
  datatype Turn = Turn(role: string, content: string)

  /** One entry of the gateway's chat history: `{'role': ..., 'parts': [...]}`. */
  datatype ChatEntry = ChatEntry(role: string, parts: seq<string>)

  /** A role the table stores. */
  predicate IsStoredRole(role: string) {
    role == User || role == Model
  }

  /** Every turn of `h` carries a stored role. */
  predicate HasStoredRoles(h: seq<Turn>) {
    forall i :: 0 <= i < |h| ==> IsStoredRole(h[i].role)
  }

  /** The per-turn translation: a `user` turn stays `user`, any other role becomes `model`,
      and the content becomes the single part. */
  function EntryOf(t: Turn): (e: ChatEntry)
    ensures e.role == User <==> t.role == User
    ensures IsStoredRole(e.role)
    ensures e.parts == [t.content]
  {
    ChatEntry(if t.role == User then User else Model, [t.content])
  }

  /** The chat history the gateway receives for a stored history: one entry per turn, in order. */
  function ChatHistory(h: seq<Turn>): (c: seq<ChatEntry>)
    ensures |c| == |h|
    ensures forall i :: 0 <= i < |h| ==> c[i] == EntryOf(h[i])
  {
    if h == [] then [] else [EntryOf(h[0])] + ChatHistory(h[1..])
  }

  /** The loop of app.py:89-94: build the chat history entry by entry. */
  method TranslateHistory(history: seq<Turn>) returns (chat: seq<ChatEntry>)
    ensures chat == ChatHistory(history)
  {
    chat := [];
    var i := 0;
    while i < |history|
      invariant 0 <= i <= |history|
      invariant |chat| == i
      invariant forall k :: 0 <= k < i ==> chat[k] == EntryOf(history[k])
    {
      var entry := history[i];
      chat := chat + [ChatEntry(if entry.role == User then User else Model, [entry.content])];
      i := i + 1;
    }
  }

  /** Reads a chat entry back as a stored turn; entries whose parts are not exactly one text
      have no stored counterpart. */
  function TurnOf(e: ChatEntry): (t: Option<Turn>)
    ensures t.Some? <==> |e.parts| == 1
    ensures t.Some? ==> t.value.role == e.role && [t.value.content] == e.parts
  {
    if |e.parts| == 1 then Some(Turn(e.role, e.parts[0])) else None
  }

  /** Reads a whole chat history back as stored turns, or None if some entry has no counterpart. */
  function TurnsOf(c: seq<ChatEntry>): (h: Option<seq<Turn>>)
    ensures h.Some? ==> |h.value| == |c|
  {
    if c == [] then Some([])
    else if TurnOf(c[0]).None? then None
    else
      var rest := TurnsOf(c[1..]);
      if rest.None? then None else Some([TurnOf(c[0]).value] + rest.value)
  }

  /** Translation distributes over concatenation: appending turns to a stored history appends
      their entries to the gateway's chat history. */
  lemma ChatHistoryAppend(a: seq<Turn>, b: seq<Turn>)
    ensures ChatHistory(a + b) == ChatHistory(a) + ChatHistory(b)
  {
  }

  /** On a history with stored roles only, translation keeps every role as it is. */
  lemma ChatHistoryKeepsRoles(h: seq<Turn>)
    requires HasStoredRoles(h)
    ensures forall i :: 0 <= i < |h| ==> ChatHistory(h)[i].role == h[i].role
  {
  }

  /** Translation loses nothing on a history with stored roles only: reading the chat history
      back gives the stored history. */
  lemma {:induction false} ChatHistoryRoundTrip(h: seq<Turn>)
    requires HasStoredRoles(h)
    ensures TurnsOf(ChatHistory(h)) == Some(h)
  {
    if h != [] {
      var tail := h[1..];
      assert HasStoredRoles(tail) by {
        forall i | 0 <= i < |tail| ensures IsStoredRole(tail[i].role) {
          assert tail[i] == h[i + 1];
        }
      }
      ChatHistoryRoundTrip(tail);
      var c := ChatHistory(h);
      assert c == [EntryOf(h[0])] + ChatHistory(tail);
      assert c[1..] == ChatHistory(tail);
      assert TurnOf(c[0]) == Some(h[0]);
      assert [h[0]] + tail == h;
    }
  }
}
