/** Processing of the text a generative model returns, shared by the plan,
    recipe and meal-analysis routes (backend/app/routes/upload.py:105-107,
    backend/app/routes/plan.py:183-185 and 352-354), and the fixed order in
    which the routes try models. The model calls themselves are foreign: each
    call is summarised by a ModelOutcome, and `json.loads` by a parse
    function that may fail. */
module LlmReply {
  import opened Common
  import opened Models

  /** The models every route tries, in this order. */
  const ModelsToTry: seq<string> := ["gemini-2.0-flash", "gemini-1.5-flash", "gemini-1.5-pro"]

  /** What one `generate_content` call does: raise, or return `response.text`. */
  datatype ModelOutcome = Raised(message: string) | Replied(text: string)

  /** Index of the first model in `ms` that `accept` holds of, or |ms| when none. */
  function FirstAccepted(ms: seq<string>, accept: string -> bool): (i: nat)
    ensures i <= |ms|
    ensures forall j :: 0 <= j < i ==> !accept(ms[j])
    ensures i < |ms| ==> accept(ms[i])
    decreases |ms|
  {
    if ms == [] then 0
    else if accept(ms[0]) then 0
    else 1 + FirstAccepted(ms[1..], accept)
  }

  /** The model at `i` is the first accepted when it is accepted and none
      before it is. */
  lemma FirstAcceptedAt(ms: seq<string>, accept: string -> bool, i: nat)
    requires i < |ms| && accept(ms[i])
    requires forall j :: 0 <= j < i ==> !accept(ms[j])
    ensures FirstAccepted(ms, accept) == i
  {
  }

  /** The `for model_name in models_to_try` loop of the routes: models are
      tried in order and the loop stops at the first one `accept` holds of. */
  method TryModels(ms: seq<string>, accept: string -> bool) returns (i: nat)
    ensures i == FirstAccepted(ms, accept)
  {
    i := 0;
    while i < |ms| && !accept(ms[i])
      invariant i <= |ms|
      invariant FirstAccepted(ms, accept) == i + FirstAccepted(ms[i..], accept)
    {
      assert ms[i..][1..] == ms[i + 1..];
      i := i + 1;
    }
  }

  /** What the routes can reach of the generative-model service: whether the
      SDK imported, the `GEMINI_API_KEY` setting, whether constructing the
      client raises, what each model returns for the route's prompt, and
      `json.loads` applied to a candidate. A candidate always starts with "{"
      and ends with "}", so a successful parse is always an object. */
  datatype Backend = Backend(
    sdkInstalled: bool,
    apiKey: Option<string>,
    clientRaises: bool,
    generate: string -> ModelOutcome,
    parse: string -> Option<map<string, Json>>)

  /** `if genai:`, `if api_key:` and a client constructed without raising. */
  predicate Reachable(b: Backend) {
    b.sdkInstalled && TruthyStr(b.apiKey) && !b.clientRaises
  }

  /** The object one model's reply yields after fence stripping, candidate
      extraction and parsing; `None` when the call raises, there is no
      candidate, or the parse raises. */
  function ParsedReply(b: Backend, model: string): (r: Option<map<string, Json>>)
    ensures r.Some? ==> b.generate(model).Replied?
    ensures r.Some? ==> ExtractCandidate(StripFences(b.generate(model).text)).Some?
    ensures r.Some? ==> b.parse(ExtractCandidate(StripFences(b.generate(model).text)).value) == r
  {
    match b.generate(model)
    case Raised(_) => None
    case Replied(text) =>
      match ExtractCandidate(StripFences(text))
      case None => None
      case Some(c) => b.parse(c)
  }

  /** The first model, in the routes' order, whose reply parses. */
  function FirstParsed(b: Backend): (i: nat)
    ensures i <= |ModelsToTry|
  {
    FirstAccepted(ModelsToTry, m => ParsedReply(b, m).Some?)
  }

  /** Python's `\s` on `str` patterns (the characters `str.isspace()` accepts). */
  predicate PyIsSpace(c: char) {
    || ('\t' <= c <= '\r') || ('\U{1C}' <= c <= ' ')
    || c == '\U{85}' || c == '\U{A0}' || c == '\U{1680}'
    || ('\U{2000}' <= c <= '\U{200A}') || c == '\U{2028}' || c == '\U{2029}'
    || c == '\U{202F}' || c == '\U{205F}' || c == '\U{3000}'
  }

  /** Length of the run of whitespace at the start of `s`. */
  function LeadingSpace(s: string): (n: nat)
    ensures n <= |s|
    ensures forall i :: 0 <= i < n ==> PyIsSpace(s[i])
    ensures n < |s| ==> !PyIsSpace(s[n])
    decreases |s|
  {
    if s != [] && PyIsSpace(s[0]) then 1 + LeadingSpace(s[1..]) else 0
  }

  /** Length of the run of whitespace at the end of `s`. */
  function TrailingSpace(s: string): (n: nat)
    ensures n <= |s|
    ensures forall i :: |s| - n <= i < |s| ==> PyIsSpace(s[i])
    ensures n < |s| ==> !PyIsSpace(s[|s| - n - 1])
    decreases |s|
  {
    if s != [] && PyIsSpace(s[|s| - 1]) then 1 + TrailingSpace(s[..|s| - 1]) else 0
  }

  const JsonFence: string := "```json"
  const Fence: string := "```"

  /** `re.sub(r'^```json\s*', '', text)`: `^` matches only at the start, and
      `\s*` takes the whole run of whitespace after the fence. */
  function StripOpeningFence(text: string): string {
    if IsPrefix(JsonFence, text) then
      var rest := text[|JsonFence|..];
      rest[LeadingSpace(rest)..]
    else text
  }

  /** Where a closing fence that `\s*```$` can match begins, and what follows
      it: `$` matches at the very end and also before a final newline, which
      the substitution keeps. */
  function ClosingFence(text: string): Option<(nat, string)> {
    if |text| >= 3 && text[|text| - 3..] == Fence then Some((|text| - 3, ""))
    else if |text| >= 4 && text[|text| - 1] == '\n' && text[|text| - 4..|text| - 1] == Fence
    then Some((|text| - 4, "\n"))
    else None
  }

  /** `re.sub(r'\s*```$', '', text)`: the leftmost match starts at the
      beginning of the whitespace run before the closing fence. */
  function StripClosingFence(text: string): string {
    match ClosingFence(text)
    case None => text
    case Some((q, keep)) =>
      text[..q - TrailingSpace(text[..q])] + keep
  }

  /** Both substitutions, in the order the routes apply them. */
  function StripFences(text: string): string {
    StripClosingFence(StripOpeningFence(text))
  }

  /** Index of the first occurrence of `c` in `s`. */
  function FirstIndexOf(s: string, c: char): (r: Option<nat>)
    ensures r.Some? ==> r.value < |s| && s[r.value] == c
    ensures r.Some? ==> forall i :: 0 <= i < r.value ==> s[i] != c
    ensures r.None? ==> forall i :: 0 <= i < |s| ==> s[i] != c
    decreases |s|
  {
    if s == [] then None
    else if s[0] == c then Some(0)
    else match FirstIndexOf(s[1..], c)
      case None => None
      case Some(i) => Some(i + 1)
  }

  /** Index of the last occurrence of `c` in `s`. */
  function LastIndexOf(s: string, c: char): (r: Option<nat>)
    ensures r.Some? ==> r.value < |s| && s[r.value] == c
    ensures r.Some? ==> forall i :: r.value < i < |s| ==> s[i] != c
    ensures r.None? ==> forall i :: 0 <= i < |s| ==> s[i] != c
    decreases |s|
  {
    if s == [] then None
    else if s[|s| - 1] == c then Some(|s| - 1)
    else LastIndexOf(s[..|s| - 1], c)
  }

  /** `re.search(r'\{[\s\S]*\}', text).group(0)`: the leftmost "{" and, by
      the greedy `[\s\S]*`, the last "}" after it. */
  function ExtractCandidate(text: string): (r: Option<string>)
    ensures r.Some? ==> |r.value| >= 2 && r.value[0] == '{' && r.value[|r.value| - 1] == '}'
  {
    match (FirstIndexOf(text, '{'), LastIndexOf(text, '}'))
    case (Some(i), Some(j)) => if i < j then Some(text[i..j + 1]) else None
    case _ => None
  }

  /** The candidate runs from the first "{" to the last "}", so it is a
      substring of the text with no "{" before it and no "}" after it. */
  lemma CandidateIsOutermostBraces(text: string) returns (i: nat, j: nat)
    requires ExtractCandidate(text).Some?
    ensures i < j < |text| && ExtractCandidate(text).value == text[i..j + 1]
    ensures forall k :: 0 <= k < i ==> text[k] != '{'
    ensures forall k :: j < k < |text| ==> text[k] != '}'
  {
    i, j := FirstIndexOf(text, '{').value, LastIndexOf(text, '}').value;
  }

  /** There is no candidate exactly when no "{" has a "}" somewhere after it. */
  lemma NoCandidateIff(text: string)
    ensures ExtractCandidate(text).None? <==>
      forall i, j :: 0 <= i < j < |text| && text[i] == '{' ==> text[j] != '}'
  {
    var fi, lj := FirstIndexOf(text, '{'), LastIndexOf(text, '}');
    if fi.Some? && lj.Some? && fi.value < lj.value {
      assert text[fi.value] == '{' && text[lj.value] == '}';
    }
  }

  predicate AllSpace(s: string) {
    forall i :: 0 <= i < |s| ==> PyIsSpace(s[i])
  }

  lemma LeadingSpaceOfSpaces(w: string, b: string)
    requires AllSpace(w)
    requires b == [] || !PyIsSpace(b[0])
    ensures LeadingSpace(w + b) == |w|
    decreases |w|
  {
    if w != [] {
      assert (w + b)[1..] == w[1..] + b;
      LeadingSpaceOfSpaces(w[1..], b);
    }
  }

  lemma TrailingSpaceOfSpaces(b: string, w: string)
    requires AllSpace(w)
    requires b == [] || !PyIsSpace(b[|b| - 1])
    ensures TrailingSpace(b + w) == |w|
    decreases |w|
  {
    if w != [] {
      assert (b + w)[..|b + w| - 1] == b + w[..|w| - 1];
      TrailingSpaceOfSpaces(b, w[..|w| - 1]);
    }
  }

  /** A reply fenced as "```json" + whitespace + body + whitespace + "```"
      comes back as the body, when the body neither starts nor ends with
      whitespace. */
  lemma {:induction false} StripFencedReply(w1: string, body: string, w2: string)
    requires AllSpace(w1) && AllSpace(w2)
    requires body == [] || (!PyIsSpace(body[0]) && !PyIsSpace(body[|body| - 1]))
    ensures StripFences(JsonFence + w1 + body + w2 + Fence) == body
  {
    var text := JsonFence + w1 + body + w2 + Fence;
    assert IsPrefix(JsonFence, text);
    var rest := text[|JsonFence|..];
    assert rest == w1 + (body + w2 + Fence);
    if body == [] {
      assert AllSpace(w1 + w2);
      assert rest == (w1 + w2) + Fence;
      LeadingSpaceOfSpaces(w1 + w2, Fence);
      assert StripOpeningFence(text) == Fence;
      assert Fence[..0] == [];
    } else {
      LeadingSpaceOfSpaces(w1, body + w2 + Fence);
      var stripped := body + w2 + Fence;
      assert StripOpeningFence(text) == stripped;
      assert stripped[|stripped| - 3..] == Fence;
      var q := |stripped| - 3;
      assert stripped[..q] == body + w2;
      TrailingSpaceOfSpaces(body, w2);
      assert (body + w2)[..|body|] == body;
    }
  }

  /** Text with neither fence passes through unchanged. */
  lemma StripUnfenced(text: string)
    requires !IsPrefix(JsonFence, text) && ClosingFence(text).None?
    ensures StripFences(text) == text
  {
  }

  /** The closing substitution only removes characters at the end, keeping a
      final newline the `$` anchor stands before. */
  lemma StripClosingIsPrefix(text: string)
    ensures var r := StripClosingFence(text);
      IsPrefix(r, text) || (ClosingFence(text).Some? && ClosingFence(text).value.1 == "\n"
        && IsPrefix(r[..|r| - 1], text) && r[|r| - 1] == '\n')
  {
  }
}
