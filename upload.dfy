/** The meal-photo upload route of the backend (backend/app/routes/upload.py):
    the photo is stored, the model service is asked for an analysis, and the
    analysis is stored beside the photo. The store, the model calls and
    `json.dumps` are parameters. */
module Upload {
  import opened Common
  import opened Models
  import opened AuthUtils
  import opened ObjectStorage
  import opened LlmReply

  const DefaultObjectName: string := "upload.bin"
  const DefaultContentType: string := "application/octet-stream"
  const SidecarSuffix: string := ".analysis.json"

  /** `file.filename or "upload.bin"`. */
  function ObjectName(filename: Option<string>): (name: string)
    ensures TruthyStr(filename) ==> name == filename.value
    ensures !TruthyStr(filename) ==> name == DefaultObjectName
    ensures name != ""
  {
    OrDefault(filename, DefaultObjectName)
  }

  /** The name the analysis is stored under. */
  function SidecarName(objectName: string): (name: string)
    ensures |name| == |objectName| + |SidecarSuffix|
    ensures name[..|objectName|] == objectName && name[|objectName|..] == SidecarSuffix
  {
    objectName + SidecarSuffix
  }

  /** Distinct uploads get distinct sidecars, and a sidecar is never the
      object it describes. */
  lemma SidecarNamesDistinct(a: string, b: string)
    ensures SidecarName(a) == SidecarName(b) ==> a == b
    ensures SidecarName(a) != a
  {
    if SidecarName(a) == SidecarName(b) {
      assert a == SidecarName(a)[..|a|];
      assert b == SidecarName(b)[..|b|];
    }
  }

  function Note(text: string): (m: map<string, Json>)
    ensures "note" in m && m != map[]
  {
    map["note" := JStr(text)]
  }

  /** `missing`: "Gemini SDK" when the SDK did not import, then "GEMINI_API_KEY"
      when the key is unset or empty. */
  function Missing(sdkInstalled: bool, apiKey: Option<string>): (m: seq<string>)
    ensures m == [] <==> sdkInstalled && TruthyStr(apiKey)
  {
    (if !sdkInstalled then ["Gemini SDK"] else []) + (if !TruthyStr(apiKey) then ["GEMINI_API_KEY"] else [])
  }

  /** The note when the SDK or the key is missing: the missing names joined
      by ", ", the SDK first. */
  lemma MissingNote(sdkInstalled: bool, apiKey: Option<string>)
    ensures !sdkInstalled && !TruthyStr(apiKey) ==>
      Join(Missing(sdkInstalled, apiKey), ", ") == "Gemini SDK, GEMINI_API_KEY"
    ensures !sdkInstalled && TruthyStr(apiKey) ==> Join(Missing(sdkInstalled, apiKey), ", ") == "Gemini SDK"
    ensures sdkInstalled && !TruthyStr(apiKey) ==> Join(Missing(sdkInstalled, apiKey), ", ") == "GEMINI_API_KEY"
  {
    if !sdkInstalled && !TruthyStr(apiKey) {
      assert Missing(sdkInstalled, apiKey) == ["Gemini SDK", "GEMINI_API_KEY"];
      assert Missing(sdkInstalled, apiKey)[..1] == ["Gemini SDK"];
    }
  }

  /** The analysis one reply gives: the parsed object, or `{"text": text}`
      with the fence-stripped text when there is no candidate or it does not
      parse. */
  function ReplyAnalysis(b: Backend, text: string): (a: map<string, Json>)
    ensures ExtractCandidate(StripFences(text)).None? ==> a == map["text" := JStr(StripFences(text))]
    ensures ExtractCandidate(StripFences(text)).Some? ==>
      var parsed := b.parse(ExtractCandidate(StripFences(text)).value);
      a == if parsed.Some? then parsed.value else map["text" := JStr(StripFences(text))]
  {
    var stripped := StripFences(text);
    match ExtractCandidate(stripped)
    case None => map["text" := JStr(stripped)]
    case Some(c) =>
      match b.parse(c)
      case None => map["text" := JStr(stripped)]
      case Some(o) => o
  }

  function Answered(b: Backend): string -> bool {
    m => b.generate(m).Replied?
  }

  /** The analysis the route returns, stated without its loop. The first
      model that returns without raising ends the loop; an analysis still
      empty afterwards, including a reply of "{}", becomes a note naming the
      last error ("None" when no model raised). `setupError` is the message
      when creating the client or uploading the image raises. */
  function ExpectedAnalysis(b: Backend, setupError: string): map<string, Json> {
    if !(b.sdkInstalled && TruthyStr(b.apiKey)) then
      Note("Missing: " + Join(Missing(b.sdkInstalled, b.apiKey), ", "))
    else if b.clientRaises then Note("AI analysis failed: " + setupError)
    else
      var k := FirstAccepted(ModelsToTry, Answered(b));
      var analysis := if k < |ModelsToTry| then ReplyAnalysis(b, b.generate(ModelsToTry[k]).text) else map[];
      var lastError := if k == 0 then "None" else b.generate(ModelsToTry[k - 1]).message;
      if analysis == map[] then Note("AI analysis failed: " + lastError) else analysis
  }

  /** The JSON response of the route. */
  datatype UploadResponse = UploadResponse(url: string, filename: string, analysis: map<string, Json>)

  /** The model loop of the route, with `analysis` and `last_error`. */
  method AnalyseMeal(b: Backend, setupError: string) returns (analysis: map<string, Json>)
    ensures analysis == ExpectedAnalysis(b, setupError)
  {
    if !(b.sdkInstalled && TruthyStr(b.apiKey)) {
      var missing: seq<string> := [];
      if !b.sdkInstalled {
        missing := missing + ["Gemini SDK"];
      }
      if !TruthyStr(b.apiKey) {
        missing := missing + ["GEMINI_API_KEY"];
      }
      assert missing == Missing(b.sdkInstalled, b.apiKey);
      return Note("Missing: " + Join(missing, ", "));
    }
    if b.clientRaises {
      return Note("AI analysis failed: " + setupError);
    }
    analysis := map[];
    var lastError: Option<string> := None;
    var i := 0;
    ghost var k := FirstAccepted(ModelsToTry, Answered(b));
    while i < |ModelsToTry|
      invariant 0 <= i <= k
      invariant FirstAccepted(ModelsToTry, Answered(b)) == i + FirstAccepted(ModelsToTry[i..], Answered(b))
      invariant analysis == map[]
      invariant lastError == if i == 0 then None else Some(b.generate(ModelsToTry[i - 1]).message)
    {
      assert ModelsToTry[i..][1..] == ModelsToTry[i + 1..];
      match b.generate(ModelsToTry[i]) {
        case Raised(message) =>
          lastError := Some(message);
        case Replied(text) =>
          analysis := ReplyAnalysis(b, text);
          break;
      }
      i := i + 1;
    }
    if analysis == map[] {
      analysis := Note("AI analysis failed: " + Format(lastError));
    }
  }

  /** `upload_image`: the photo is stored first (a failure is "Upload failed:
      " and the message); then the analysis is computed and stored as the
      sidecar, whose failure is ignored. The storage settings are complete:
      the module refuses to load otherwise. */
  method UploadImage(store: Store, cfg: StorageConfig, filename: Option<string>, contentType: Option<string>,
                     content: seq<byte>, putFails: Option<string>, b: Backend, setupError: string,
                     dumps: map<string, Json> -> seq<byte>, sidecarFails: Option<string>)
    returns (r: Result<UploadResponse>)
    requires Configured(cfg)
    modifies store
    ensures putFails.Some? ==> r == Err(HttpError(500, "Upload failed: " + putFails.value))
    ensures putFails.Some? ==> store.objects == old(store.objects)
    ensures putFails.None? ==>
      var name := ObjectName(filename);
      var analysis := ExpectedAnalysis(b, setupError);
      && r == Ok(UploadResponse(ObjectUrl(cfg, name), name, analysis))
      && store.objects == (old(store.objects)[(cfg.bucket.value, name) :=
           StoredObject(content, OrDefault(contentType, DefaultContentType))]
           + if sidecarFails.None? then
               map[(cfg.bucket.value, SidecarName(name)) := StoredObject(dumps(analysis), "application/json")]
             else map[])
  {
    var name := ObjectName(filename);
    var error := store.PutObject(cfg.bucket.value, name, content, OrDefault(contentType, DefaultContentType), putFails);
    if error.Some? {
      return Err(HttpError(500, "Upload failed: " + error.value));
    }
    var url := ObjectUrl(cfg, name);
    var analysis := AnalyseMeal(b, setupError);
    var _ := store.PutObject(cfg.bucket.value, SidecarName(name), dumps(analysis), "application/json", sidecarFails);
    r := Ok(UploadResponse(url, name, analysis));
  }

  /** The route never returns an empty analysis. */
  lemma AnalysisNeverEmpty(b: Backend, setupError: string)
    ensures ExpectedAnalysis(b, setupError) != map[]
  {
  }

  /** A reply of "{}" from the first model gives the failure note with
      "None", since no model raised before it. */
  lemma EmptyObjectReplyIsFailure(b: Backend, setupError: string)
    requires b.sdkInstalled && TruthyStr(b.apiKey) && !b.clientRaises
    requires b.generate(ModelsToTry[0]) == Replied("{}")
    requires b.parse("{}") == Some(map[])
    ensures ExpectedAnalysis(b, setupError) == Note("AI analysis failed: None")
  {
    assert StripFences("{}") == "{}";
    assert FirstIndexOf("{}", '{') == Some(0);
    assert LastIndexOf("{}", '}') == Some(1);
    assert "{}"[0..2] == "{}";
    assert ExtractCandidate("{}") == Some("{}");
    FirstAcceptedAt(ModelsToTry, Answered(b), 0);
    assert "AI analysis failed: " + "None" == "AI analysis failed: None";
  }

  /** The first model that returns without raising decides the analysis,
      whatever its reply; later models are not asked. An empty object from
      it becomes the failure note naming the error of the model before it
      ("None" when it is the first model). */
  lemma FirstAnswerWins(b: Backend, setupError: string, i: nat)
    requires b.sdkInstalled && TruthyStr(b.apiKey) && !b.clientRaises
    requires i < |ModelsToTry| && b.generate(ModelsToTry[i]).Replied?
    requires forall j :: 0 <= j < i ==> b.generate(ModelsToTry[j]).Raised?
    ensures ExpectedAnalysis(b, setupError) ==
      var a := ReplyAnalysis(b, b.generate(ModelsToTry[i]).text);
      var lastError := if i == 0 then "None" else b.generate(ModelsToTry[i - 1]).message;
      if a == map[] then Note("AI analysis failed: " + lastError) else a
  {
    assert Answered(b)(ModelsToTry[i]);
    assert forall j :: 0 <= j < i ==> !Answered(b)(ModelsToTry[j]);
    FirstAcceptedAt(ModelsToTry, Answered(b), i);
  }

  /** A reply with no braces becomes `{"text": ...}`. */
  lemma BracelessReplyIsText(b: Backend, setupError: string, i: nat)
    requires b.sdkInstalled && TruthyStr(b.apiKey) && !b.clientRaises
    requires i < |ModelsToTry| && b.generate(ModelsToTry[i]).Replied?
    requires forall j :: 0 <= j < i ==> b.generate(ModelsToTry[j]).Raised?
    requires ExtractCandidate(StripFences(b.generate(ModelsToTry[i]).text)).None?
    ensures ExpectedAnalysis(b, setupError) == map["text" := JStr(StripFences(b.generate(ModelsToTry[i]).text))]
  {
    FirstAnswerWins(b, setupError, i);
    var text := b.generate(ModelsToTry[i]).text;
    assert ReplyAnalysis(b, text) == map["text" := JStr(StripFences(text))];
    assert ReplyAnalysis(b, text) != map[] by {
      assert "text" in ReplyAnalysis(b, text);
    }
  }
}
