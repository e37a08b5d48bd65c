/** What the two entry points share on the way to the language model: the
    settings they read, the context block built from the retrieval results,
    and the exchange with Ollama's `/api/generate`. The HTTP call itself is a
    function `Generator` from the request sent to the reply received, which
    may be a transport failure. */
module Generation {
  import opened Results
  import opened PyText
  import opened Retriever

  /** The settings the entry points read from `AppConfig()`; the database
      connection settings are not part of this model. */
  datatype AppConfig = AppConfig(embeddingModel: string, llmModel: string, llmBaseUrl: string)

  /** `AppConfig()` with no environment variables set. */
  const DefaultSettings := AppConfig("BAAI/bge-m3", "deepseek-r1:latest", "http://localhost:11434")

  /** A decoded JSON value. */
  datatype Json =
    | JNull
    | JBool(b: bool)
    | JNum(n: int)
    | JStr(s: string)
    | JArr(items: seq<Json>)
    | JObj(fields: map<string, Json>)

  /** Python truthiness of the decoded value. */
  predicate Truthy(j: Json) {
    match j
    case JNull => false
    case JBool(b) => b
    case JNum(n) => n != 0
    case JStr(s) => s != ""
    case JArr(items) => items != []
    case JObj(fields) => fields != map[]
  }

  /** The body of the `POST`: `{"model": ..., "prompt": ..., "stream": false}`
      sent to `url`. */
  datatype LlmRequest = LlmRequest(url: string, model: string, prompt: string, stream: bool)

  /** What comes back: no reply at all (connection error or timeout), or a
      status with a body that is valid JSON or not. */
  datatype HttpReply = TransportFailure | Reply(status: int, body: Option<Json>)

  /** The Ollama server. */
  type Generator = LlmRequest -> HttpReply

  /** The request both entry points send for a prompt. */
  function GenerateRequest(config: AppConfig, prompt: string): (r: LlmRequest)
    ensures r.url == config.llmBaseUrl + "/api/generate"
    ensures r.model == config.llmModel && r.prompt == prompt && !r.stream
  {
    LlmRequest(config.llmBaseUrl + "/api/generate", config.llmModel, prompt, false)
  }

  /** With no environment variables set, both entry points ask
      `deepseek-r1:latest` on the local Ollama server. */
  lemma DefaultRequest(prompt: string)
    ensures GenerateRequest(DefaultSettings, prompt) ==
      LlmRequest("http://localhost:11434/api/generate", "deepseek-r1:latest", prompt, false)
  {
  }

  /** `resp.raise_for_status()` raises for the client and server error
      statuses only. */
  predicate ErrorStatus(status: int) {
    400 <= status < 600
  }

  /** `d.get(key)` on a decoded object, `None` when absent. */
  function Get(fields: map<string, Json>, key: string): (r: Json)
    ensures key in fields ==> r == fields[key]
    ensures key !in fields ==> r == JNull
  {
    if key in fields then fields[key] else JNull
  }

  /** `data.get("response") or data.get("message", {}).get("content", "")`.
      `None` is the `AttributeError` raised when `data`, or the `message` it
      holds, is not an object. */
  function Answer(data: Json): (r: Option<Json>)
    ensures !data.JObj? ==> r == None
    ensures data.JObj? && Truthy(Get(data.fields, "response")) ==> r == Some(data.fields["response"])
    ensures data.JObj? && !Truthy(Get(data.fields, "response")) ==>
      (if "message" !in data.fields then r == Some(JStr(""))
       else if !data.fields["message"].JObj? then r == None
       else if "content" in data.fields["message"].fields then r == Some(data.fields["message"].fields["content"])
       else r == Some(JStr("")))
  {
    match data
    case JObj(fields) =>
      var response := Get(fields, "response");
      if Truthy(response) then Some(response)
      else
        var message := if "message" in fields then fields["message"] else JObj(map[]);
        if message.JObj? then
          Some(if "content" in message.fields then message.fields["content"] else JStr(""))
        else None
    case _ => None
  }

  /** A truthy `response` is never passed over, and an answer that is not
      `response` comes from `message`. */
  lemma AnswerPrefersResponse(data: Json)
    requires Answer(data).Some?
    ensures data.JObj?
    ensures Truthy(Get(data.fields, "response")) <==> Answer(data).value == Get(data.fields, "response") && Truthy(Answer(data).value)
  {
  }

  /** `r[0]` of each result row, in retrieval order. */
  function Texts(hits: seq<Hit>): (r: seq<string>)
    ensures |r| == |hits|
    ensures forall i :: 0 <= i < |hits| ==> r[i] == hits[i].text
  {
    seq(|hits|, i requires 0 <= i < |hits| => hits[i].text)
  }

  /** `"\n\n".join([r[0] for r in results])`. */
  function Context(hits: seq<Hit>): string
  {
    Join(Texts(hits), "\n\n")
  }

  /** The context starts with the closest row's text and ends with the
      farthest one's, and is empty exactly when nothing was retrieved (given
      non-empty texts). */
  lemma ContextOrder(hits: seq<Hit>)
    requires forall i :: 0 <= i < |hits| ==> hits[i].text != ""
    ensures Context(hits) == "" <==> hits == []
    ensures hits != [] ==> Context(hits)[..|hits[0].text|] == hits[0].text
    ensures hits != [] ==>
      var c := Context(hits);
      var t := hits[|hits| - 1].text;
      |t| <= |c| && c[|c| - |t|..] == t
  {
    if hits != [] {
      var ts := Texts(hits);
      JoinEnds(ts, "\n\n");
      JoinPrefix(ts, "\n\n");
      JoinSuffix(ts, "\n\n");
    }
  }

  /** A join starts with its first piece. */
  lemma {:induction false} JoinPrefix(xs: seq<string>, sep: string)
    requires xs != []
    ensures |xs[0]| <= |Join(xs, sep)| && Join(xs, sep)[..|xs[0]|] == xs[0]
  {
    if |xs| > 1 {
      assert Join(xs, sep) == xs[0] + (sep + Join(xs[1..], sep));
    }
  }

  /** A join ends with its last piece. */
  lemma {:induction false} JoinSuffix(xs: seq<string>, sep: string)
    requires xs != []
    ensures var j := Join(xs, sep); var t := xs[|xs| - 1];
      |t| <= |j| && j[|j| - |t|..] == t
  {
    if |xs| > 1 {
      JoinSuffix(xs[1..], sep);
      var tail := Join(xs[1..], sep);
      assert Join(xs, sep) == (xs[0] + sep) + tail;
      assert xs[1..][|xs[1..]| - 1] == xs[|xs| - 1];
    }
  }
}
