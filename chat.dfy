/** The chat route of the backend (backend/app/routes/chat.py): the two
    configuration guards, the prompt built from the last ten history
    entries, and the models tried in order. History entries are JSON
    objects; `f"{value}"` of a non-string value is the parameter `format`,
    and each model's answer to the prompt is the parameter `ask`. */
module Chat {
  import opened Common
  import opened Models
  import opened LlmReply

  const SdkMissing := HttpError(500, "Google GenAI SDK not available")
  const KeyMissing := HttpError(500, "GEMINI_API_KEY not configured")

  const SystemPrompt: string :=
    "You are a helpful health and fitness assistant. Provide concise, "
    + "friendly advice about nutrition, exercise, wellness, and healthy habits. "
    + "Keep responses brief and actionable. Be encouraging and supportive."

  /** How many history entries contribute: `chat.history[-10:]`. */
  const HistoryWindow: nat := 10

  /** The 500 every failure inside the route's `try` becomes. */
  function ChatFailed(message: string): (e: HttpError)
    ensures e.status == 500 && IsPrefix("Chat failed: ", e.detail)
  {
    HttpError(500, "Chat failed: " + message)
  }

  /** `str(KeyError(key))`. */
  function KeyErrorText(key: string): string {
    "'" + key + "'"
  }

  function Text(j: Json, format: Json -> string): string {
    if j.JStr? then j.s else format(j)
  }

  /** One history entry read by the loop: its line, no line for a role
      other than "user" and "assistant", or the missing key. */
  datatype EntryLine = Line(line: string) | Skip | MissingKey(key: string)

  function ReadEntry(msg: map<string, Json>, format: Json -> string): (r: EntryLine)
    ensures r.MissingKey? <==> "role" !in msg || (msg["role"] in {JStr("user"), JStr("assistant")} && "content" !in msg)
    ensures r.Skip? <==> "role" in msg && msg["role"] !in {JStr("user"), JStr("assistant")}
  {
    if "role" !in msg then MissingKey("role")
    else if msg["role"] == JStr("user") then
      if "content" in msg then Line("User: " + Text(msg["content"], format)) else MissingKey("content")
    else if msg["role"] == JStr("assistant") then
      if "content" in msg then Line("Assistant: " + Text(msg["content"], format)) else MissingKey("content")
    else Skip
  }

  /** The lines of the given entries, in order, or the key the first bad
      entry lacks. */
  function HistoryLines(entries: seq<map<string, Json>>, format: Json -> string): Result<seq<string>>
    decreases |entries|
  {
    if entries == [] then Ok([])
    else match ReadEntry(entries[0], format)
      case MissingKey(k) => Err(ChatFailed(KeyErrorText(k)))
      case Skip => HistoryLines(entries[1..], format)
      case Line(l) =>
        match HistoryLines(entries[1..], format)
        case Err(e) => Err(e)
        case Ok(ls) => Ok([l] + ls)
  }

  /** `full_prompt`: the system prompt, a blank line, the lines joined by
      newlines, and the cue for the assistant. */
  function FullPrompt(lines: seq<string>, message: string): string {
    SystemPrompt + "\n\n" + Join(lines + ["User: " + message], "\n") + "\n\nAssistant:"
  }

  /** The models that answer the prompt without raising. */
  function Replies(ask: (string, string) -> ModelOutcome, prompt: string): string -> bool {
    m => ask(m, prompt).Replied?
  }

  /** The first model's reply to the prompt, or the last model's error. */
  function ModelsReply(ask: (string, string) -> ModelOutcome, prompt: string): Result<string> {
    var k := FirstAccepted(ModelsToTry, Replies(ask, prompt));
    if k < |ModelsToTry| then Ok(ask(ModelsToTry[k], prompt).text)
    else Err(ChatFailed(ask(ModelsToTry[|ModelsToTry| - 1], prompt).message))
  }

  /** The reply `chat_message` gives, stated without its loops. */
  function ExpectedReply(message: string, history: seq<map<string, Json>>, sdkInstalled: bool,
                         apiKey: Option<string>, clientRaises: bool, setupError: string,
                         format: Json -> string, ask: (string, string) -> ModelOutcome): Result<string> {
    if !sdkInstalled then Err(SdkMissing)
    else if !TruthyStr(apiKey) then Err(KeyMissing)
    else if clientRaises then Err(ChatFailed(setupError))
    else match HistoryLines(LastN(history, HistoryWindow), format)
      case Err(e) => Err(e)
      case Ok(lines) => ModelsReply(ask, FullPrompt(lines, message))
  }

  /** The `for msg in chat.history[-10:]` loop, given the entries it walks. */
  method ConversationLines(recent: seq<map<string, Json>>, format: Json -> string)
    returns (r: Result<seq<string>>)
    ensures r == HistoryLines(recent, format)
  {
    var parts: seq<string> := [];
    var i := 0;
    assert recent[i..] == recent;
    PrependNothing(HistoryLines(recent, format));
    while i < |recent|
      invariant 0 <= i <= |recent|
      invariant HistoryLines(recent, format) == Prepend(parts, HistoryLines(recent[i..], format))
    {
      assert recent[i..][1..] == recent[i + 1..];
      match ReadEntry(recent[i], format) {
        case MissingKey(k) =>
          return Err(ChatFailed(KeyErrorText(k)));
        case Skip =>
        case Line(l) =>
          PrependAppend(parts, l, HistoryLines(recent[i + 1..], format));
          parts := parts + [l];
      }
      i := i + 1;
    }
    assert recent[i..] == [];
    assert parts + [] == parts;
    r := Ok(parts);
  }

  /** The model loop with `last_error`: the first reply is returned, and when
      every model raises the last error is raised again. */
  method AskModels(ask: (string, string) -> ModelOutcome, prompt: string) returns (r: Result<string>)
    ensures r == ModelsReply(ask, prompt)
  {
    var lastError := "";
    var j := 0;
    ghost var accept := Replies(ask, prompt);
    while j < |ModelsToTry|
      invariant 0 <= j <= |ModelsToTry|
      invariant FirstAccepted(ModelsToTry, accept) == j + FirstAccepted(ModelsToTry[j..], accept)
      invariant j > 0 ==> lastError == ask(ModelsToTry[j - 1], prompt).message
    {
      assert ModelsToTry[j..][1..] == ModelsToTry[j + 1..];
      match ask(ModelsToTry[j], prompt) {
        case Replied(text) =>
          assert accept(ModelsToTry[j]);
          FirstAcceptedAt(ModelsToTry[j..], accept, 0);
          return Ok(text);
        case Raised(e) =>
          lastError := e;
      }
      j := j + 1;
    }
    r := Err(ChatFailed(lastError));
  }

  /** `chat_message`. */
  method ChatMessage(message: string, history: seq<map<string, Json>>, sdkInstalled: bool,
                     apiKey: Option<string>, clientRaises: bool, setupError: string,
                     format: Json -> string, ask: (string, string) -> ModelOutcome)
    returns (r: Result<string>)
    ensures r == ExpectedReply(message, history, sdkInstalled, apiKey, clientRaises, setupError, format, ask)
  {
    if !sdkInstalled {
      return Err(SdkMissing);
    }
    if !TruthyStr(apiKey) {
      return Err(KeyMissing);
    }
    if clientRaises {
      return Err(ChatFailed(setupError));
    }
    var lines := ConversationLines(LastN(history, HistoryWindow), format);
    if lines.Err? {
      return Err(lines.error);
    }
    r := AskModels(ask, FullPrompt(lines.value, message));
  }

  /** Lines already produced, ahead of the rest of the history's outcome. */
  function Prepend(done: seq<string>, rest: Result<seq<string>>): Result<seq<string>> {
    match rest
    case Err(e) => Err(e)
    case Ok(ls) => Ok(done + ls)
  }

  lemma PrependNothing(rest: Result<seq<string>>)
    ensures Prepend([], rest) == rest
  {
    if rest.Ok? {
      assert [] + rest.value == rest.value;
    }
  }

  lemma PrependAppend(done: seq<string>, l: string, rest: Result<seq<string>>)
    ensures Prepend(done, Prepend([l], rest)) == Prepend(done + [l], rest)
  {
    if rest.Ok? {
      assert done + ([l] + rest.value) == (done + [l]) + rest.value;
    }
  }

  /** Entries before the last ten never matter. */
  lemma OnlyLastTenCount(older: seq<map<string, Json>>, history: seq<map<string, Json>>)
    requires |history| >= HistoryWindow
    ensures LastN(older + history, HistoryWindow) == LastN(history, HistoryWindow)
  {
    assert (older + history)[|older + history| - HistoryWindow..] == history[|history| - HistoryWindow..];
  }

  /** An entry whose role is neither "user" nor "assistant" adds no line. */
  lemma {:induction false} OtherRolesSkipped(before: seq<map<string, Json>>, msg: map<string, Json>,
                                            after: seq<map<string, Json>>, format: Json -> string)
    requires "role" in msg && msg["role"] != JStr("user") && msg["role"] != JStr("assistant")
    ensures HistoryLines(before + [msg] + after, format) == HistoryLines(before + after, format)
    decreases |before|
  {
    if before == [] {
      assert ([msg] + after)[1..] == after;
      assert ([msg] + after)[0] == msg;
      assert ReadEntry(msg, format) == Skip;
      assert before + [msg] + after == [msg] + after;
      assert before + after == after;
    } else {
      assert (before + [msg] + after)[1..] == before[1..] + [msg] + after;
      assert (before + after)[1..] == before[1..] + after;
      assert (before + [msg] + after)[0] == before[0] && (before + after)[0] == before[0];
      OtherRolesSkipped(before[1..], msg, after, format);
    }
  }

  lemma JoinLast(parts: seq<string>, last: string, sep: string)
    requires parts != []
    ensures Join(parts + [last], sep) == Join(parts, sep) + sep + last
  {
    assert (parts + [last])[..|parts|] == parts;
  }

  /** The prompt starts with the system prompt and a blank line, and its last
      line before the assistant cue is the current message. */
  lemma PromptShape(lines: seq<string>, message: string)
    ensures var p := FullPrompt(lines, message);
      IsPrefix(SystemPrompt + "\n\n", p)
    ensures lines == [] ==> FullPrompt(lines, message) == SystemPrompt + "\n\n" + "User: " + message + "\n\nAssistant:"
    ensures lines != [] ==> (FullPrompt(lines, message)
      == SystemPrompt + "\n\n" + Join(lines, "\n") + "\n" + "User: " + message + "\n\nAssistant:")
  {
    var p := FullPrompt(lines, message);
    assert p == (SystemPrompt + "\n\n") + (Join(lines + ["User: " + message], "\n") + "\n\nAssistant:");
    if lines == [] {
      assert lines + ["User: " + message] == ["User: " + message];
    } else {
      JoinLast(lines, "User: " + message, "\n");
    }
  }

  /** The SDK is checked before the key, and both before anything else. */
  lemma GuardOrder(message: string, history: seq<map<string, Json>>, apiKey: Option<string>,
                   clientRaises: bool, setupError: string, format: Json -> string,
                   ask: (string, string) -> ModelOutcome)
    ensures ExpectedReply(message, history, false, apiKey, clientRaises, setupError, format, ask) == Err(SdkMissing)
    ensures !TruthyStr(apiKey) ==>
      ExpectedReply(message, history, true, apiKey, clientRaises, setupError, format, ask) == Err(KeyMissing)
  {
  }

  /** Every failure past the guards is a 500 whose detail starts "Chat failed: ". */
  lemma FailuresAreChatFailed(message: string, history: seq<map<string, Json>>, apiKey: Option<string>,
                              clientRaises: bool, setupError: string, format: Json -> string,
                              ask: (string, string) -> ModelOutcome)
    requires TruthyStr(apiKey)
    ensures var r := ExpectedReply(message, history, true, apiKey, clientRaises, setupError, format, ask);
      r.Err? ==> r.error.status == 500 && IsPrefix("Chat failed: ", r.error.detail)
  {
    HistoryFailuresAreChatFailed(LastN(history, HistoryWindow), format);
  }

  lemma {:induction false} HistoryFailuresAreChatFailed(entries: seq<map<string, Json>>, format: Json -> string)
    ensures HistoryLines(entries, format).Err? ==>
      HistoryLines(entries, format).error.status == 500
      && IsPrefix("Chat failed: ", HistoryLines(entries, format).error.detail)
    decreases |entries|
  {
    if entries != [] {
      HistoryFailuresAreChatFailed(entries[1..], format);
    }
  }
}
