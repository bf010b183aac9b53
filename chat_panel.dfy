/** The chat assistant panel of the mobile client
    (mobile/components/ChatAssistant.tsx): the message list, the input box
    and the loading flag, and `sendMessage`, which appends the user's message
    and then the reply or an error text. The clock (`Date.now()`) and the
    outcome of the request are parameters. */
module ChatPanel {
  import opened Common
  import opened Models
  import opened Api
  import opened JsText
  import Chat

  datatype Role = UserRole | AssistantRole

  function RoleName(r: Role): string {
    if r.UserRole? then "user" else "assistant"
  }

  /** A message of the list; `timestamp` is left out. */
  datatype Message = Message(id: string, role: Role, content: Json)

  const Greeting: Message :=
    Message("1", AssistantRole, JStr("Hi! I'm your health assistant. How can I help you today?"))
  const FallbackReply: string := "I'm here to help!"
  const NoServerText: string := "Cannot connect to server. Please ensure the backend is running and your network is working."
  const TimeoutText: string := "Request timed out. Please check your internet connection."
  const ServerErrorText: string := "Server error occurred. Please try again later."
  const GenericErrorText: string := "Sorry, I encountered an error. Please try again."
  const CannotConnect: string := "Cannot connect"

  /** The body posted to "/chat/message". */
  datatype ChatRequest = ChatRequest(message: string, history: seq<map<string, Json>>)

  /** What the post gave: the response data, or an axios error with its
      code, message and response as the error interceptor left them. */
  datatype ChatOutcome =
    | Answered(data: Json)
    | Failed(code: Option<string>, message: Option<string>, response: Option<ErrorResponse>)

  /** A message reduced to role and content, as the history sends it. */
  function HistoryEntry(m: Message): (e: map<string, Json>)
    ensures e.Keys == {"role", "content"}
    ensures e["role"] == JStr(RoleName(m.role)) && e["content"] == m.content
  {
    map["role" := JStr(RoleName(m.role)), "content" := m.content]
  }

  /** `messages.slice(-10).map(...)`. */
  function SentHistory(messages: seq<Message>): (h: seq<map<string, Json>>)
    ensures |h| <= 10 && |h| == |LastN(messages, 10)|
    ensures forall i :: 0 <= i < |h| ==> h[i] == HistoryEntry(LastN(messages, 10)[i])
  {
    var recent := LastN(messages, 10);
    seq(|recent|, i requires 0 <= i < |recent| => HistoryEntry(recent[i]))
  }

  /** The error text, by the first test that holds: no connection (by code
      or by the interceptor's message), a timeout, a server error, the
      server's detail, or the generic text. */
  function ErrorText(code: Option<string>, message: Option<string>, response: Option<ErrorResponse>): (t: Json)
    ensures code == Some(NetworkCode) || (message.Some? && Contains(message.value, CannotConnect)) ==>
      t == JStr(NoServerText)
    ensures !(code == Some(NetworkCode) || (message.Some? && Contains(message.value, CannotConnect))) ==>
      if code == Some(TimeoutCode) then t == JStr(TimeoutText)
      else if response.Some? && response.value.status == 500 then t == JStr(ServerErrorText)
      else if TruthyDetail(response).Some? then t == TruthyDetail(response).value
      else t == JStr(GenericErrorText)
  {
    if code == Some(NetworkCode) || (message.Some? && Contains(message.value, CannotConnect)) then JStr(NoServerText)
    else if code == Some(TimeoutCode) then JStr(TimeoutText)
    else if response.Some? && response.value.status == 500 then JStr(ServerErrorText)
    else if TruthyDetail(response).Some? then TruthyDetail(response).value
    else JStr(GenericErrorText)
  }

  /** The assistant message's content for an outcome. Reading `.response` of
      null data throws inside the `try`, so it gets the generic error text
      (its message does not mention a connection). */
  function ReplyContent(outcome: ChatOutcome): (c: Json)
    ensures (outcome.Answered? && outcome.data.JObj? && "response" in outcome.data.fields
             && JsTruthy(outcome.data.fields["response"])) ==> c == outcome.data.fields["response"]
    ensures (outcome.Answered? && !outcome.data.JNull?
             && !(outcome.data.JObj? && "response" in outcome.data.fields && JsTruthy(outcome.data.fields["response"])))
            ==> c == JStr(FallbackReply)
    ensures outcome.Answered? && outcome.data.JNull? ==> c == JStr(GenericErrorText)
    ensures outcome.Failed? ==> c == ErrorText(outcome.code, outcome.message, outcome.response)
  {
    match outcome
    case Answered(data) =>
      if data.JNull? then JStr(GenericErrorText)
      else if data.JObj? && "response" in data.fields && JsTruthy(data.fields["response"]) then data.fields["response"]
      else JStr(FallbackReply)
    case Failed(code, message, response) => ErrorText(code, message, response)
  }

  class Panel {
    var messages: seq<Message>
    var input: string
    var loading: bool

    /** The initial panel: the greeting alone, an empty input, not loading. */
    constructor()
      ensures messages == [Greeting] && input == "" && !loading
    {
      messages := [Greeting];
      input := "";
      loading := false;
    }

    /** The text box's `onChangeText`. */
    method Type(text: string)
      modifies this
      ensures input == text && messages == old(messages) && loading == old(loading)
    {
      input := text;
    }

    /** `sendMessage`: nothing happens for blank input or while a send is in
        progress. Otherwise the trimmed input is sent with the last ten
        messages from before this send, the input is cleared, and the user's
        message and then the reply or error are appended; loading is off
        afterwards. `sentAt` and `answeredAt` are the two `Date.now()`
        readings. */
    method SendMessage(sentAt: int, answeredAt: int, outcome: ChatOutcome) returns (sent: Option<ChatRequest>)
      modifies this
      ensures Trim(old(input)) == "" || old(loading) ==>
        sent == None && messages == old(messages) && input == old(input) && loading == old(loading)
      ensures !(Trim(old(input)) == "" || old(loading)) ==>
        && sent == Some(ChatRequest(Trim(old(input)), SentHistory(old(messages))))
        && messages == old(messages) + [Message(IntToString(sentAt), UserRole, JStr(Trim(old(input)))),
                                        Message(IntToString(answeredAt + 1), AssistantRole, ReplyContent(outcome))]
        && input == "" && !loading
    {
      var text := Trim(input);
      if text == "" || loading {
        return None;
      }
      var userMessage := Message(IntToString(sentAt), UserRole, JStr(text));
      var history := SentHistory(messages);
      messages := messages + [userMessage];
      input := "";
      loading := true;
      sent := Some(ChatRequest(text, history));
      messages := messages + [Message(IntToString(answeredAt + 1), AssistantRole, ReplyContent(outcome))];
      loading := false;
    }
  }

  /** The panel's classification after the error interceptor: a network
      failure is "cannot connect" whether it shows as the code or only as
      the "Network Error" message, because the interceptor's new message
      starts with "Cannot connect". */
  lemma ErrorTextAfterInterceptor(code: Option<string>, message: string, response: Option<ErrorResponse>)
    ensures code != Some(TimeoutCode) && (code == Some(NetworkCode) || message == NetworkErrorMessage) ==>
      ErrorText(code, Some(RewrittenMessage(code, message)), response) == JStr(NoServerText)
  {
    assert NoServerMessage[..|CannotConnect|] == CannotConnect;
    assert IsPrefix(CannotConnect, NoServerMessage);
  }

  /** Every history entry the panel sends is read by the chat route as a
      line: it has both keys and a role the route knows. */
  lemma SentEntriesAreLines(messages: seq<Message>, format: Json -> string)
    ensures forall e :: e in SentHistory(messages) ==> Chat.ReadEntry(e, format).Line?
  {
    forall e | e in SentHistory(messages)
      ensures Chat.ReadEntry(e, format).Line?
    {
      var i :| 0 <= i < |SentHistory(messages)| && SentHistory(messages)[i] == e;
      var m := LastN(messages, 10)[i];
      assert e == HistoryEntry(m);
      assert "role" in e && "content" in e;
    }
  }

  /** The route accepts the whole history the panel sends. */
  lemma {:induction false} LinesAccepted(entries: seq<map<string, Json>>, format: Json -> string)
    requires forall e :: e in entries ==> Chat.ReadEntry(e, format).Line?
    ensures Chat.HistoryLines(entries, format).Ok?
    ensures |Chat.HistoryLines(entries, format).value| == |entries|
    decreases |entries|
  {
    if entries != [] {
      assert entries[0] in entries;
      assert forall e :: e in entries[1..] ==> e in entries;
      LinesAccepted(entries[1..], format);
    }
  }
}
