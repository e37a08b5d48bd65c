/** The HTTP service: the `/chat` endpoint and the pure pieces it is built
    from (session-id fallback, prompt, `sources`, the allowed origins, the
    reading of Ollama's reply), and the lazily created services. An
    exception that is not turned into a status is the 500 the framework
    answers with. */
module Api {
  import opened Results
  import opened PyText
  import opened Embedding
  import opened Documents
  import opened Retriever
  import opened Schema
  import opened Memory
  import opened Generation
  import Cli

  // ---------------------------------------------------------------------
  // Lazy services

  /** The module-level `_config` and `_embedder`, created on first use.
      `settings` is what `AppConfig()` yields and `load` what loading an
      embedding model by name yields; the ghost counters record how often
      each was built. */
  class Services {
    const settings: AppConfig
    const load: string -> Encoder
    var config: Option<AppConfig>
    var embedder: Option<Embedder>
    ghost var configsBuilt: nat
    ghost var embeddersBuilt: nat

    /** Each object has been built once if it exists and never otherwise, and
        the embedder is only built after the configuration. */
    ghost predicate Valid()
      reads this
    {
      configsBuilt == (if config.Some? then 1 else 0) &&
      embeddersBuilt == (if embedder.Some? then 1 else 0) &&
      (embedder.Some? ==> config.Some?)
    }

    constructor (settings: AppConfig, load: string -> Encoder)
      ensures Valid() && config == None && embedder == None
      ensures this.settings == settings && this.load == load
    {
      this.settings := settings;
      this.load := load;
      config := None;
      embedder := None;
      configsBuilt := 0;
      embeddersBuilt := 0;
    }

    /** `get_services`: builds what is missing, at most once each; later
        calls return the same objects. */
    method GetServices() returns (c: AppConfig, e: Embedder)
      requires Valid()
      modifies this
      ensures Valid() && config == Some(c) && embedder == Some(e)
      ensures configsBuilt <= 1 && embeddersBuilt <= 1
      ensures c == Configured(old(config), settings)
      ensures old(embedder).Some? ==> e == old(embedder).value
      ensures old(embedder).None? ==> fresh(e) && e.encode == load(c.embeddingModel) && e.batches == []
    {
      if config.None? {
        config := Some(settings);
        configsBuilt := configsBuilt + 1;
      }
      c := config.value;
      if embedder.None? {
        e := new Embedder(load(c.embeddingModel));
        embedder := Some(e);
        embeddersBuilt := embeddersBuilt + 1;
      } else {
        e := embedder.value;
      }
    }
  }

  /** The configuration `get_services` returns. */
  function Configured(config: Option<AppConfig>, settings: AppConfig): (r: AppConfig)
    ensures config.Some? ==> r == config.value
    ensures config.None? ==> r == settings
  {
    if config.Some? then config.value else settings
  }

  /** The model behind the embedder `get_services` returns. */
  function EncoderOf(embedder: Option<Embedder>, config: AppConfig, load: string -> Encoder): (r: Encoder)
    ensures embedder.Some? ==> r == embedder.value.encode
    ensures embedder.None? ==> r == load(config.embeddingModel)
  {
    if embedder.Some? then embedder.value.encode else load(config.embeddingModel)
  }

  // ---------------------------------------------------------------------
  // Request, response and the pure helpers

  /** The body of `POST /chat`; `k` defaults to `DefaultK` and is not
      checked. */
  datatype ChatRequest = ChatRequest(query: string, k: int, sessionId: Option<string>)

  const DefaultK := 5

  /** How many earlier turns go into the prompt. */
  const HistoryLimit := 10

  /** One entry of `sources`: `{"text", "distance", "source", "chunk_index"}`. */
  datatype SourceEntry = SourceEntry(text: string, distance: int, source: string, chunkIndex: int)

  datatype ChatResponse = ChatResponse(answer: string, sources: seq<SourceEntry>)

  /** The status of a failed request: 502 for a failed model call, 500 for
      any other exception. */
  datatype ApiError = BadGateway | InternalError

  /** `req.session_id or uuid.uuid4().hex`: a missing or empty id is
      replaced by the fresh one. */
  function ResolveSessionId(sessionId: Option<string>, freshId: string): (r: string)
    ensures sessionId.Some? && sessionId.value != "" ==> r == sessionId.value
    ensures sessionId.None? || sessionId.value == "" ==> r == freshId
  {
    if sessionId.Some? && sessionId.value != "" then sessionId.value else freshId
  }

  /** The one part of the `/chat` prompt the command-line prompt lacks; the
      instructions, the labels and the language hint are those of `Cli`. */
  const HistoryHeader := "\n\nConversation so far (most recent last):\n"

  /** `f"{role}: {content}"`. */
  function HistoryLine(row: (string, string)): string
  {
    row.0 + ": " + row.1
  }

  /** One line per earlier turn, oldest first. */
  function HistoryLines(rows: seq<(string, string)>): (r: seq<string>)
    ensures |r| == |rows|
    ensures forall i :: 0 <= i < |rows| ==> r[i] == HistoryLine(rows[i])
  {
    seq(|rows|, i requires 0 <= i < |rows| => HistoryLine(rows[i]))
  }

  function HistoryText(rows: seq<(string, string)>): string
  {
    Join(HistoryLines(rows), "\n")
  }

  /** The prompt of `/chat`, assembled as the endpoint assembles it. */
  function ChatPrompt(hits: seq<Hit>, history: seq<(string, string)>, query: string): string
  {
    Cli.Preamble + Cli.ContextLabel + Context(hits) + HistoryHeader + HistoryText(history)
    + Cli.QuestionLabel + query + Cli.LanguageHint
  }

  /** The part before the history: instructions and retrieved context. */
  function PromptHead(hits: seq<Hit>): string
  {
    Cli.Preamble + Cli.ContextLabel + Context(hits)
  }

  /** The part after the history: the question and the language hint. */
  function PromptTail(query: string): string
  {
    Cli.QuestionLabel + query + Cli.LanguageHint
  }

  /** The prompt is the context section, then the history section, then the
      question. */
  lemma ChatPromptSections(hits: seq<Hit>, history: seq<(string, string)>, query: string)
    ensures ChatPrompt(hits, history, query) ==
      PromptHead(hits) + (HistoryHeader + HistoryText(history)) + PromptTail(query)
  {
    Regroup(Cli.Preamble, Cli.ContextLabel, Context(hits), HistoryHeader, HistoryText(history),
            Cli.QuestionLabel, query, Cli.LanguageHint);
  }

  /** With no earlier turns the history section is its header alone. */
  lemma EmptyHistoryPrompt(hits: seq<Hit>, query: string)
    ensures ChatPrompt(hits, [], query) == PromptHead(hits) + HistoryHeader + PromptTail(query)
  {
    assert HistoryText([]) == "" by {
      assert HistoryLines([]) == [];
    }
    ChatPromptSections(hits, [], query);
  }

  /** Regrouping a concatenation of eight strings into its three sections. */
  lemma Regroup(a: string, b: string, c: string, d: string, e: string, f: string, g: string, h: string)
    ensures a + b + c + d + e + f + g + h == (a + b + c) + (d + e) + (f + g + h)
  {
  }

  /** The command-line prompt is the `/chat` prompt without its history
      section, over the same context in the same order. */
  lemma CliPromptWithoutHistory(hits: seq<Hit>, query: string)
    ensures Cli.CliPrompt(hits, query) == PromptHead(hits) + PromptTail(query)
  {
    Regroup(Cli.Preamble, Cli.ContextLabel, Context(hits), "", "", Cli.QuestionLabel, query, Cli.LanguageHint);
  }

  /** The `sources` list: one entry per result row, in retrieval order, with
      the row's fields. */
  function Sources(hits: seq<Hit>): (r: seq<SourceEntry>)
    ensures |r| == |hits|
    ensures forall i :: 0 <= i < |hits| ==>
      r[i] == SourceEntry(hits[i].text, hits[i].distance, hits[i].source, hits[i].chunkIndex)
  {
    seq(|hits|, i requires 0 <= i < |hits| =>
      SourceEntry(hits[i].text, hits[i].distance, hits[i].source, hits[i].chunkIndex))
  }

  /** The result row an entry was made from. */
  function HitOfSource(e: SourceEntry): Hit
  {
    Hit(e.text, e.distance, e.source, e.chunkIndex)
  }

  /** Nothing is lost in `sources`: the rows can be read back from it. */
  lemma SourcesRoundTrip(hits: seq<Hit>)
    ensures seq(|hits|, i requires 0 <= i < |hits| => HitOfSource(Sources(hits)[i])) == hits
  {
  }

  // ---------------------------------------------------------------------
  // Allowed origins

  const DefaultOrigins: seq<string> := ["http://localhost:5173", "http://127.0.0.1:5173"]

  /** The list comprehension over `ALLOWED_ORIGINS`: its stripped text split
      on commas, each entry stripped, the blank ones dropped. */
  function ParsedOrigins(env: string): seq<string>
  {
    StrippedNonBlank(Split(Strip(env), ','))
  }

  /** `_allowed` for the value of `ALLOWED_ORIGINS` (`""` when unset). */
  function AllowedOrigins(env: string): (r: seq<string>)
    ensures r != []
  {
    var parsed := ParsedOrigins(env);
    if parsed == [] then DefaultOrigins else parsed
  }

  /** The defaults are used exactly when the variable holds nothing but
      commas and whitespace (an unset variable among them); otherwise the
      parsed entries are. */
  lemma OriginsFallBack(env: string)
    ensures ParsedOrigins(env) == [] <==> Blank(env, ',')
    ensures Blank(env, ',') ==> AllowedOrigins(env) == DefaultOrigins
    ensures !Blank(env, ',') ==> AllowedOrigins(env) == ParsedOrigins(env)
  {
    StrippedNonBlankEmpty(Split(Strip(env), ','));
    SplitBlank(Strip(env), ',');
    StripBlank(env, ',');
  }

  /** Every parsed origin is non-empty, has no whitespace at either end and
      holds no comma. */
  lemma OriginsShape(env: string)
    ensures forall j :: 0 <= j < |ParsedOrigins(env)| ==>
      Trimmed(ParsedOrigins(env)[j]) && ',' !in ParsedOrigins(env)[j]
  {
    var ps := Split(Strip(env), ',');
    SplitShape(Strip(env), ',');
    StrippedNonBlankShape(ps);
    StrippedNonBlankFree(ps, ',');
  }

  /** Round trip: a comma-separated list of trimmed, comma-free origins
      gives back exactly those origins, in order. */
  lemma OriginsRoundTrip(origins: seq<string>)
    requires origins != []
    requires forall i :: 0 <= i < |origins| ==> Trimmed(origins[i]) && ',' !in origins[i]
    ensures AllowedOrigins(Join(origins, ",")) == origins
  {
    ParsedJoin(origins);
  }

  lemma ParsedJoin(origins: seq<string>)
    requires origins != []
    requires forall i :: 0 <= i < |origins| ==> Trimmed(origins[i]) && ',' !in origins[i]
    ensures ParsedOrigins(Join(origins, ",")) == origins
  {
    JoinOfTrimmed(origins);
    SplitJoin(origins, ',');
    StrippedNonBlankKeeps(origins);
  }

  /** A comma-join of trimmed entries is itself trimmed. */
  lemma JoinOfTrimmed(xs: seq<string>)
    requires xs != [] && forall i :: 0 <= i < |xs| ==> Trimmed(xs[i])
    ensures Strip(Join(xs, ",")) == Join(xs, ",")
  {
    JoinEnds(xs, ",");
    assert Trimmed(xs[0]) && Trimmed(xs[|xs| - 1]);
    StripKeeps(Join(xs, ","));
  }

  // ---------------------------------------------------------------------
  // The model call

  /** The endpoint's `call_ollama`: no reply, an error status or a body that
      is not JSON (all `RequestException`s) is a 502; a reply of the wrong
      shape is an `AttributeError`, a 500. */
  function CallOllama(reply: HttpReply): (r: Result<Json, ApiError>)
    ensures r == Err(BadGateway) <==> reply.TransportFailure? || ErrorStatus(reply.status) || reply.body.None?
    ensures r == Err(InternalError) <==>
      reply.Reply? && !ErrorStatus(reply.status) && reply.body.Some? && Answer(reply.body.value).None?
    ensures r.Ok? ==> reply.Reply? && reply.body.Some? && Answer(reply.body.value) == Some(r.value)
  {
    match reply
    case TransportFailure => Err(BadGateway)
    case Reply(status, body) =>
      if ErrorStatus(status) || body.None? then Err(BadGateway)
      else
        match Answer(body.value)
        case None => Err(InternalError)
        case Some(a) => Ok(a)
  }

  /** The two `call_ollama`s read a reply alike: the client gets an answer
      exactly when the endpoint does, and the same one. */
  lemma CallOllamaAgrees(reply: HttpReply)
    ensures Cli.CallOllama(reply).Some? <==> CallOllama(reply).Ok?
    ensures CallOllama(reply).Ok? ==> Cli.CallOllama(reply) == Some(CallOllama(reply).value)
  {
  }

  // ---------------------------------------------------------------------
  // The chat endpoint

  /** The state-changing and external steps of `chat`, in the order it
      takes them. */
  datatype Step = Resolve | Ensure | ReadHistory | AppendUser | Retrieve | Generate | AppendAssistant

  const ChatOrder: seq<Step> := [Resolve, Ensure, ReadHistory, AppendUser, Retrieve, Generate, AppendAssistant]

  /** The outcome of one request and the memory it leaves behind, with how
      many of the steps of `ChatOrder` were taken and the request sent to the
      model, if any. */
  datatype ChatRun = ChatRun(
    response: Result<ChatResponse, ApiError>,
    sessions: set<string>, messages: seq<Message>, clock: nat,
    taken: nat, sent: Option<LlmRequest>)

  /** The text `add_message` stores for an answer the database driver can
      send: a string as it is, a number as `str` gives it, a boolean as the
      `1` or `0` the driver turns it into. `null` would be a NULL, which
      `content TEXT NOT NULL` refuses, and the driver cannot send a list or
      an object. */
  function StoredAnswer(answer: Json): (r: Option<string>)
    ensures r.Some? <==> answer.JStr? || answer.JNum? || answer.JBool?
    ensures answer.JStr? ==> r == Some(answer.s)
    ensures answer.JNum? ==> r.Some? && ParseInt(r.value) == answer.n
    ensures answer.JBool? ==> r.Some? && ParseInt(r.value) == if answer.b then 1 else 0
  {
    match answer
    case JStr(s) => Some(s)
    case JNum(n) => IntTextRoundTrip(n); Some(IntText(n))
    case JBool(b) => var n := if b then 1 else 0; IntTextRoundTrip(n); Some(IntText(n))
    case _ => None
  }

  /** The end of `chat`, from the model's reply on: the answer is stored as
      the assistant turn of `sid` and returned with the `sources`. An answer
      that is a number or a boolean is stored too, and only then does
      `ChatResponse(answer=...)` refuse it, since `answer` must be a
      string. */
  function Answering(sessions: set<string>, messages: seq<Message>, clock: nat, sid: string,
                     hits: seq<Hit>, request: LlmRequest, reply: HttpReply): ChatRun
  {
    var answer := CallOllama(reply);
    if answer.Err? then
      ChatRun(Err(answer.error), sessions, messages, clock, 6, Some(request))
    else
      var stored := StoredAnswer(answer.value);
      if stored.None? then
        ChatRun(Err(InternalError), sessions, messages, clock, 6, Some(request))
      else
        var messages1 := messages + [Message(sid, "assistant", stored.value, clock)];
        if answer.value.JStr? then
          ChatRun(Ok(ChatResponse(answer.value.s, Sources(hits))), sessions, messages1, clock + 1, 7, Some(request))
        else
          ChatRun(Err(InternalError), sessions, messages1, clock + 1, 7, Some(request))
  }

  /** The middle of `chat`, once the question is stored: retrieval, the
      prompt over the retrieved rows and `history`, and the model call. */
  function AfterUserTurn(sessions: set<string>, messages: seq<Message>, clock: nat, sid: string,
                         history: seq<(string, string)>, docs: seq<Passage>, distance: (Vector, Vector) -> int,
                         config: AppConfig, encode: Encoder, generate: Generator, req: ChatRequest): ChatRun
  {
    var found := Search(docs, distance, EmbedOne(encode, req.query), req.k);
    if found.Err? then
      ChatRun(Err(InternalError), sessions, messages, clock, 5, None)
    else
      var request := GenerateRequest(config, ChatPrompt(found.value, history, req.query));
      Answering(sessions, messages, clock, sid, found.value, request, generate(request))
  }

  /** What `chat` does for `req`, starting from the memory
      `(sessions, messages, clock)`, with the document store `docs`, the
      configuration and embedding model `get_services` provides, the model
      server `generate`, and `freshId` as the value of `uuid4().hex`. */
  function ChatSpec(sessions: set<string>, messages: seq<Message>, clock: nat,
                    docs: seq<Passage>, distance: (Vector, Vector) -> int,
                    config: AppConfig, encode: Encoder, generate: Generator,
                    freshId: string, req: ChatRequest): ChatRun
  {
    var sid := ResolveSessionId(req.sessionId, freshId);
    var sessions1 := sessions + {StoredSessionId(sid)};
    if AddFailure(sessions1, sid, "user").Some? then
      ChatRun(Err(InternalError), sessions1, messages, clock, 4, None)
    else
      AfterUserTurn(sessions1, messages + [Message(sid, "user", req.query, clock)], clock + 1, sid,
                    Recent(messages, sid, HistoryLimit), docs, distance, config, encode, generate, req)
  }

  /** Once the model has replied, the request succeeds exactly when the
      reply holds a string answer. One message is appended exactly when the
      answer can be stored, and it is the stored answer; otherwise nothing
      is. */
  lemma AnsweringShape(sessions: set<string>, messages: seq<Message>, clock: nat, sid: string,
                       hits: seq<Hit>, request: LlmRequest, reply: HttpReply)
    ensures var run := Answering(sessions, messages, clock, sid, hits, request, reply);
      run.sessions == sessions && run.sent == Some(request) && 6 <= run.taken <= 7 &&
      (run.taken == 7 <==> CallOllama(reply).Ok? && StoredAnswer(CallOllama(reply).value).Some?) &&
      (run.response.Ok? <==> CallOllama(reply).Ok? && CallOllama(reply).value.JStr?) &&
      (run.response == Err(BadGateway) <==> CallOllama(reply) == Err(BadGateway)) &&
      (run.response.Ok? ==>
        run.response.value == ChatResponse(CallOllama(reply).value.s, Sources(hits)) &&
        run.messages == messages + [Message(sid, "assistant", run.response.value.answer, clock)] &&
        run.clock == clock + 1) &&
      (run.taken == 7 ==>
        run.messages == messages + [Message(sid, "assistant", StoredAnswer(CallOllama(reply).value).value, clock)] &&
        run.clock == clock + 1) &&
      (run.taken == 6 ==> run.messages == messages && run.clock == clock)
  {
  }

  /** Once the question is stored, the model is asked exactly when
      retrieval succeeds, with the prompt over the top `k` rows and the
      given history. */
  lemma AfterUserTurnShape(sessions: set<string>, messages: seq<Message>, clock: nat, sid: string,
                           history: seq<(string, string)>, docs: seq<Passage>, distance: (Vector, Vector) -> int,
                           config: AppConfig, encode: Encoder, generate: Generator, req: ChatRequest)
    ensures var run := AfterUserTurn(sessions, messages, clock, sid, history, docs, distance, config, encode, generate, req);
      var found := Search(docs, distance, EmbedOne(encode, req.query), req.k);
      run.sessions == sessions && 5 <= run.taken <= 7 &&
      (run.sent.Some? <==> found.Ok?) &&
      (found.Err? ==> run == ChatRun(Err(InternalError), sessions, messages, clock, 5, None)) &&
      (found.Ok? ==>
        var request := GenerateRequest(config, ChatPrompt(found.value, history, req.query));
        run == Answering(sessions, messages, clock, sid, found.value, request, generate(request)))
  {
  }

  /** Steps are taken in the fixed order up to the first that fails:
      resolving the session, ensuring it, reading the history and appending
      the question always happen, all seven when the request succeeds and
      exactly when the model's answer can be stored, and the session is
      ensured whatever happens afterwards. */
  lemma ChatSteps(sessions: set<string>, messages: seq<Message>, clock: nat,
                  docs: seq<Passage>, distance: (Vector, Vector) -> int,
                  config: AppConfig, encode: Encoder, generate: Generator,
                  freshId: string, req: ChatRequest)
    ensures var run := ChatSpec(sessions, messages, clock, docs, distance, config, encode, generate, freshId, req);
      4 <= run.taken <= |ChatOrder| &&
      (run.response.Ok? ==> run.taken == |ChatOrder|) &&
      (run.taken == |ChatOrder| <==>
        run.sent.Some? && CallOllama(generate(run.sent.value)).Ok? &&
        StoredAnswer(CallOllama(generate(run.sent.value)).value).Some?) &&
      run.sessions == sessions + {StoredSessionId(ResolveSessionId(req.sessionId, freshId))}
  {
    var sid := ResolveSessionId(req.sessionId, freshId);
    var sessions1 := sessions + {StoredSessionId(sid)};
    if AddFailure(sessions1, sid, "user").None? {
      var messages1 := messages + [Message(sid, "user", req.query, clock)];
      var history := Recent(messages, sid, HistoryLimit);
      AfterUserTurnShape(sessions1, messages1, clock + 1, sid, history, docs, distance, config, encode, generate, req);
      var found := Search(docs, distance, EmbedOne(encode, req.query), req.k);
      if found.Ok? {
        var request := GenerateRequest(config, ChatPrompt(found.value, history, req.query));
        AnsweringShape(sessions1, messages1, clock + 1, sid, found.value, request, generate(request));
      }
    }
  }

  /** On success exactly two messages are appended to the resolved session,
      the question and then the answer returned, and `sources` lists the top
      `k` rows for the query in order. */
  lemma ChatSuccess(sessions: set<string>, messages: seq<Message>, clock: nat,
                    docs: seq<Passage>, distance: (Vector, Vector) -> int,
                    config: AppConfig, encode: Encoder, generate: Generator,
                    freshId: string, req: ChatRequest)
    ensures var run := ChatSpec(sessions, messages, clock, docs, distance, config, encode, generate, freshId, req);
      var sid := ResolveSessionId(req.sessionId, freshId);
      run.response.Ok? ==>
        run.messages == messages + [Message(sid, "user", req.query, clock),
                                    Message(sid, "assistant", run.response.value.answer, clock + 1)] &&
        run.clock == clock + 2 &&
        EmbedOne(encode, req.query).Some? && req.k >= 0 &&
        run.response.value.sources == Sources(TopK(docs, distance, EmbedOne(encode, req.query).value, req.k).value)
  {
    var sid := ResolveSessionId(req.sessionId, freshId);
    var sessions1 := sessions + {StoredSessionId(sid)};
    if AddFailure(sessions1, sid, "user").None? {
      var user := Message(sid, "user", req.query, clock);
      var messages1 := messages + [user];
      var history := Recent(messages, sid, HistoryLimit);
      AfterUserTurnShape(sessions1, messages1, clock + 1, sid, history, docs, distance, config, encode, generate, req);
      var found := Search(docs, distance, EmbedOne(encode, req.query), req.k);
      if found.Ok? {
        var request := GenerateRequest(config, ChatPrompt(found.value, history, req.query));
        AnsweringShape(sessions1, messages1, clock + 1, sid, found.value, request, generate(request));
        var run := Answering(sessions1, messages1, clock + 1, sid, found.value, request, generate(request));
        if run.response.Ok? {
          assert messages1 + [Message(sid, "assistant", run.response.value.answer, clock + 1)] ==
            messages + [user, Message(sid, "assistant", run.response.value.answer, clock + 1)];
        }
      }
    }
  }

  /** An answer that is a number or a boolean is stored after the question,
      and the request still fails with a 500. */
  lemma ChatUnreturnableAnswer(sessions: set<string>, messages: seq<Message>, clock: nat,
                               docs: seq<Passage>, distance: (Vector, Vector) -> int,
                               config: AppConfig, encode: Encoder, generate: Generator,
                               freshId: string, req: ChatRequest)
    ensures var run := ChatSpec(sessions, messages, clock, docs, distance, config, encode, generate, freshId, req);
      var sid := ResolveSessionId(req.sessionId, freshId);
      run.sent.Some? && CallOllama(generate(run.sent.value)).Ok? &&
      (CallOllama(generate(run.sent.value)).value.JNum? || CallOllama(generate(run.sent.value)).value.JBool?) ==>
        run.response == Err(InternalError) &&
        run.messages == messages + [Message(sid, "user", req.query, clock),
                                    Message(sid, "assistant", StoredAnswer(CallOllama(generate(run.sent.value)).value).value, clock + 1)] &&
        run.clock == clock + 2
  {
    var sid := ResolveSessionId(req.sessionId, freshId);
    var sessions1 := sessions + {StoredSessionId(sid)};
    if AddFailure(sessions1, sid, "user").None? {
      var user := Message(sid, "user", req.query, clock);
      var messages1 := messages + [user];
      var history := Recent(messages, sid, HistoryLimit);
      AfterUserTurnShape(sessions1, messages1, clock + 1, sid, history, docs, distance, config, encode, generate, req);
      var found := Search(docs, distance, EmbedOne(encode, req.query), req.k);
      if found.Ok? {
        var request := GenerateRequest(config, ChatPrompt(found.value, history, req.query));
        AnsweringShape(sessions1, messages1, clock + 1, sid, found.value, request, generate(request));
        var answer := CallOllama(generate(request));
        if answer.Ok? && StoredAnswer(answer.value).Some? {
          var assistant := Message(sid, "assistant", StoredAnswer(answer.value).value, clock + 1);
          assert messages1 + [assistant] == messages + [user, assistant];
        }
      }
    }
  }

  /** A failed model call (502) keeps the question stored and appends no
      assistant turn. */
  lemma ChatGenerationFailure(sessions: set<string>, messages: seq<Message>, clock: nat,
                              docs: seq<Passage>, distance: (Vector, Vector) -> int,
                              config: AppConfig, encode: Encoder, generate: Generator,
                              freshId: string, req: ChatRequest)
    ensures var run := ChatSpec(sessions, messages, clock, docs, distance, config, encode, generate, freshId, req);
      var sid := ResolveSessionId(req.sessionId, freshId);
      run.response == Err(BadGateway) ==>
        run.messages == messages + [Message(sid, "user", req.query, clock)] &&
        run.sent.Some? && CallOllama(generate(run.sent.value)) == Err(BadGateway)
  {
    var sid := ResolveSessionId(req.sessionId, freshId);
    var sessions1 := sessions + {StoredSessionId(sid)};
    if AddFailure(sessions1, sid, "user").None? {
      var messages1 := messages + [Message(sid, "user", req.query, clock)];
      var history := Recent(messages, sid, HistoryLimit);
      AfterUserTurnShape(sessions1, messages1, clock + 1, sid, history, docs, distance, config, encode, generate, req);
      var found := Search(docs, distance, EmbedOne(encode, req.query), req.k);
      if found.Ok? {
        var request := GenerateRequest(config, ChatPrompt(found.value, history, req.query));
        AnsweringShape(sessions1, messages1, clock + 1, sid, found.value, request, generate(request));
      }
    }
  }

  /** `k` is not checked: a negative one fails in the database, after the
      question has been stored and before the model is asked. */
  lemma ChatNegativeK(sessions: set<string>, messages: seq<Message>, clock: nat,
                      docs: seq<Passage>, distance: (Vector, Vector) -> int,
                      config: AppConfig, encode: Encoder, generate: Generator,
                      freshId: string, req: ChatRequest)
    requires req.k < 0
    requires |ResolveSessionId(req.sessionId, freshId)| <= MaxSessionIdLength
    ensures var run := ChatSpec(sessions, messages, clock, docs, distance, config, encode, generate, freshId, req);
      run.response == Err(InternalError) && run.sent == None &&
      run.messages == messages + [Message(ResolveSessionId(req.sessionId, freshId), "user", req.query, clock)]
  {
    var sid := ResolveSessionId(req.sessionId, freshId);
    var sessions1 := sessions + {StoredSessionId(sid)};
    assert AddFailure(sessions1, sid, "user").None?;
    AfterUserTurnShape(sessions1, messages + [Message(sid, "user", req.query, clock)], clock + 1, sid,
                       Recent(messages, sid, HistoryLimit), docs, distance, config, encode, generate, req);
  }

  /** A request that leaves `k` at its default is answered, when it
      succeeds, with the five closest rows, or every row of a smaller store. */
  lemma ChatDefaultK(sessions: set<string>, messages: seq<Message>, clock: nat,
                     docs: seq<Passage>, distance: (Vector, Vector) -> int,
                     config: AppConfig, encode: Encoder, generate: Generator,
                     freshId: string, req: ChatRequest)
    requires req.k == DefaultK
    ensures var run := ChatSpec(sessions, messages, clock, docs, distance, config, encode, generate, freshId, req);
      run.response.Ok? ==> |run.response.value.sources| == Min(DefaultK, |docs|)
  {
    ChatSuccess(sessions, messages, clock, docs, distance, config, encode, generate, freshId, req);
    var run := ChatSpec(sessions, messages, clock, docs, distance, config, encode, generate, freshId, req);
    if run.response.Ok? {
      TopKLength(docs, distance, EmbedOne(encode, req.query).value, req.k);
    }
  }

  /** The prompt sent carries the history read before the question was
      stored: the session's latest turns of the log as it was, so never the
      current question, which the log after the append ends with. */
  lemma ChatHistoryBeforeTurn(sessions: set<string>, messages: seq<Message>, clock: nat,
                              docs: seq<Passage>, distance: (Vector, Vector) -> int,
                              config: AppConfig, encode: Encoder, generate: Generator,
                              freshId: string, req: ChatRequest)
    ensures var run := ChatSpec(sessions, messages, clock, docs, distance, config, encode, generate, freshId, req);
      var sid := ResolveSessionId(req.sessionId, freshId);
      run.sent.Some? ==>
        var hits := TopK(docs, distance, EmbedOne(encode, req.query).value, req.k).value;
        run.sent.value == GenerateRequest(config, ChatPrompt(hits, Rows(Latest(SessionLog(messages, sid), HistoryLimit)), req.query)) &&
        Recent(messages + [Message(sid, "user", req.query, clock)], sid, HistoryLimit) != [] &&
        Last(Recent(messages + [Message(sid, "user", req.query, clock)], sid, HistoryLimit)) == ("user", req.query)
  {
    var sid := ResolveSessionId(req.sessionId, freshId);
    var sessions1 := sessions + {StoredSessionId(sid)};
    var user := Message(sid, "user", req.query, clock);
    RecentAfterAdd(messages, user, HistoryLimit);
    if AddFailure(sessions1, sid, "user").None? {
      var history := Recent(messages, sid, HistoryLimit);
      RecentIsLatest(messages, sid, HistoryLimit);
      AfterUserTurnShape(sessions1, messages + [user], clock + 1, sid, history, docs, distance, config, encode, generate, req);
      var found := Search(docs, distance, EmbedOne(encode, req.query), req.k);
      if found.Ok? {
        var request := GenerateRequest(config, ChatPrompt(found.value, history, req.query));
        AnsweringShape(sessions1, messages + [user], clock + 1, sid, found.value, request, generate(request));
      }
    }
  }

  /** The last element of a non-empty list. */
  function Last<T>(s: seq<T>): T
    requires s != []
  {
    s[|s| - 1]
  }

  /** A request without a session id starts a new conversation: with a
      fresh 32-character id that is not stored yet, there is no history, so
      the prompt's history section is its header alone. */
  lemma ChatFreshSession(sessions: set<string>, messages: seq<Message>, clock: nat,
                         docs: seq<Passage>, distance: (Vector, Vector) -> int,
                         config: AppConfig, encode: Encoder, generate: Generator,
                         freshId: string, req: ChatRequest)
    requires req.sessionId.None? || req.sessionId.value == ""
    requires |freshId| == 32 && freshId !in sessions
    requires forall i :: 0 <= i < |messages| ==> messages[i].sessionId in sessions
    ensures var run := ChatSpec(sessions, messages, clock, docs, distance, config, encode, generate, freshId, req);
      run.sent.Some? ==>
        var hits := TopK(docs, distance, EmbedOne(encode, req.query).value, req.k).value;
        run.sent.value.prompt == PromptHead(hits) + HistoryHeader + PromptTail(req.query)
  {
    NoSessionLog(messages, freshId);
    ChatHistoryBeforeTurn(sessions, messages, clock, docs, distance, config, encode, generate, freshId, req);
    var run := ChatSpec(sessions, messages, clock, docs, distance, config, encode, generate, freshId, req);
    if run.sent.Some? {
      var hits := TopK(docs, distance, EmbedOne(encode, req.query).value, req.k).value;
      assert Rows(Latest(SessionLog(messages, freshId), HistoryLimit)) == [];
      EmptyHistoryPrompt(hits, req.query);
    }
  }

  /** A session no message belongs to has an empty log. */
  lemma {:induction false} NoSessionLog(messages: seq<Message>, sid: string)
    requires forall i :: 0 <= i < |messages| ==> messages[i].sessionId != sid
    ensures SessionLog(messages, sid) == []
  {
    if messages != [] {
      NoSessionLog(messages[..|messages| - 1], sid);
    }
  }

  /** The first `n` steps of `ChatOrder`. */
  function StepsTaken(n: nat): seq<Step>
  {
    ChatOrder[..Min(n, |ChatOrder|)]
  }

  /** Taking one more step appends the next one of `ChatOrder`. */
  lemma StepsNext(n: nat)
    requires n < |ChatOrder|
    ensures StepsTaken(n + 1) == StepsTaken(n) + [ChatOrder[n]]
  {
  }

  /** `POST /chat`. `run` is what `ChatSpec` prescribes for the memory
      before the call and for what `get_services` provides; the response
      and the memory afterwards are those of `run`. `steps` records the
      steps taken, the first `run.taken` of `ChatOrder`, and `sent` what the
      model was asked. The query is embedded once when the question could be
      stored, and not at all otherwise. */
  method Chat(services: Services, memory: ChatStore, store: DocumentStore, generate: Generator,
              freshId: string, req: ChatRequest)
    returns (r: Result<ChatResponse, ApiError>, ghost steps: seq<Step>, ghost sent: Option<LlmRequest>,
             ghost run: ChatRun)
    requires services.Valid() && memory.Valid()
    modifies services, memory
    modifies if services.embedder.Some? then {services.embedder.value} else {}
    ensures services.Valid() && memory.Valid() && services.embedder.Some?
    ensures services.config == Some(Configured(old(services.config), services.settings))
    ensures services.embedder.value.encode ==
      EncoderOf(old(services.embedder), Configured(old(services.config), services.settings), services.load)
    ensures var config := Configured(old(services.config), services.settings);
      run == ChatSpec(old(memory.sessions), old(memory.messages), old(memory.clock), store.docs, store.distance,
                      config, EncoderOf(old(services.embedder), config, services.load), generate, freshId, req)
    ensures r == run.response && memory.sessions == run.sessions
    ensures memory.messages == run.messages && memory.clock == run.clock
    ensures steps == StepsTaken(run.taken) && sent == run.sent
    ensures old(services.embedder).Some? ==>
      services.embedder == old(services.embedder) &&
      services.embedder.value.batches == old(services.embedder.value.batches) + Embedded(run, req.query)
    ensures old(services.embedder).None? ==>
      fresh(services.embedder.value) && services.embedder.value.batches == Embedded(run, req.query)
  {
    ghost var cfg := Configured(services.config, services.settings);
    ghost var enc := EncoderOf(services.embedder, cfg, services.load);
    var config, embedder := services.GetServices();
    assert config == cfg && embedder.encode == enc;
    r, steps, sent, run := Converse(memory, store, embedder, config, generate, freshId, req);
  }

  /** The body of `chat` once `get_services` has returned `config` and
      `embedder`. */
  method Converse(memory: ChatStore, store: DocumentStore, embedder: Embedder, config: AppConfig,
                  generate: Generator, freshId: string, req: ChatRequest)
    returns (r: Result<ChatResponse, ApiError>, ghost steps: seq<Step>, ghost sent: Option<LlmRequest>,
             ghost run: ChatRun)
    requires memory.Valid()
    modifies memory, embedder`batches
    ensures memory.Valid()
    ensures run == ChatSpec(old(memory.sessions), old(memory.messages), old(memory.clock), store.docs, store.distance,
                            config, embedder.encode, generate, freshId, req)
    ensures r == run.response && memory.sessions == run.sessions
    ensures memory.messages == run.messages && memory.clock == run.clock
    ensures steps == StepsTaken(run.taken) && sent == run.sent
    ensures embedder.batches == old(embedder.batches) + Embedded(run, req.query)
  {
    ghost var sessions0, log, clock0 := memory.sessions, memory.messages, memory.clock;
    sent := None;
    var sid := ResolveSessionId(req.sessionId, freshId);
    steps := [Resolve];
    StepsNext(0);
    var history, failure;
    history, failure, steps := TakeQuestion(memory, sid, req.query, steps);
    if failure.Some? {
      ChatRefused(sessions0, log, clock0, store.docs, store.distance, config, embedder.encode, generate, freshId, req);
      r := Err(InternalError);
      run := ChatRun(r, memory.sessions, memory.messages, memory.clock, 4, None);
      return;
    }
    ChatStored(sessions0, log, clock0, store.docs, store.distance, config, embedder.encode, generate, freshId, req);
    r, steps, sent, run := Respond(memory, store, embedder, config, generate, sid, history, req, steps);
  }

  /** The memory steps of `chat` before retrieval: the session is ensured,
      its recent history read, and then the question appended. */
  method TakeQuestion(memory: ChatStore, sid: string, query: string, ghost before: seq<Step>)
    returns (history: seq<(string, string)>, failure: Option<MemoryError>, ghost steps: seq<Step>)
    requires memory.Valid() && before == StepsTaken(1)
    modifies memory
    ensures memory.Valid()
    ensures memory.sessions == old(memory.sessions) + {StoredSessionId(sid)}
    ensures history == Recent(old(memory.messages), sid, HistoryLimit)
    ensures failure == AddFailure(memory.sessions, sid, "user")
    ensures failure.Some? ==> memory.messages == old(memory.messages) && memory.clock == old(memory.clock)
    ensures failure.None? ==>
      memory.messages == old(memory.messages) + [Message(sid, "user", query, old(memory.clock))] &&
      memory.clock == old(memory.clock) + 1 && sid in memory.sessions && |sid| <= MaxSessionIdLength
    ensures steps == StepsTaken(4)
  {
    memory.EnsureSession(sid);
    steps := before + [Ensure];
    StepsNext(1);
    var read := memory.GetRecentMessages(sid, HistoryLimit);
    history := read.value;
    steps := steps + [ReadHistory];
    StepsNext(2);
    failure := memory.AddMessage(sid, "user", query);
    steps := steps + [AppendUser];
    StepsNext(3);
  }

  /** The batches `chat` embeds for a run: the query, once, when the
      question could be stored. */
  function Embedded(run: ChatRun, query: string): (r: seq<seq<string>>)
    ensures r == [] || r == [[query]]
  {
    if run.taken >= 5 then [[query]] else []
  }

  /** `ChatSpec` when the question cannot be stored. */
  lemma ChatRefused(sessions: set<string>, messages: seq<Message>, clock: nat,
                    docs: seq<Passage>, distance: (Vector, Vector) -> int,
                    config: AppConfig, encode: Encoder, generate: Generator,
                    freshId: string, req: ChatRequest)
    requires var sid := ResolveSessionId(req.sessionId, freshId);
      AddFailure(sessions + {StoredSessionId(sid)}, sid, "user").Some?
    ensures ChatSpec(sessions, messages, clock, docs, distance, config, encode, generate, freshId, req) ==
      ChatRun(Err(InternalError), sessions + {StoredSessionId(ResolveSessionId(req.sessionId, freshId))},
              messages, clock, 4, None)
  {
  }

  /** `ChatSpec` when the question is stored: the rest is `AfterUserTurn`
      with the history read before. */
  lemma ChatStored(sessions: set<string>, messages: seq<Message>, clock: nat,
                   docs: seq<Passage>, distance: (Vector, Vector) -> int,
                   config: AppConfig, encode: Encoder, generate: Generator,
                   freshId: string, req: ChatRequest)
    requires var sid := ResolveSessionId(req.sessionId, freshId);
      AddFailure(sessions + {StoredSessionId(sid)}, sid, "user").None?
    ensures var sid := ResolveSessionId(req.sessionId, freshId);
      ChatSpec(sessions, messages, clock, docs, distance, config, encode, generate, freshId, req) ==
      AfterUserTurn(sessions + {StoredSessionId(sid)}, messages + [Message(sid, "user", req.query, clock)], clock + 1, sid,
                    Recent(messages, sid, HistoryLimit), docs, distance, config, encode, generate, req)
  {
  }

  /** The rest of `chat` once the question is stored, as `AfterUserTurn`
      says: retrieval, the model call, and the assistant turn, which the
      store cannot refuse since the session and the role were accepted for
      the question. */
  method Respond(memory: ChatStore, store: DocumentStore, embedder: Embedder, config: AppConfig,
                 generate: Generator, sid: string, history: seq<(string, string)>, req: ChatRequest,
                 ghost before: seq<Step>)
    returns (r: Result<ChatResponse, ApiError>, ghost steps: seq<Step>, ghost sent: Option<LlmRequest>,
             ghost run: ChatRun)
    requires memory.Valid() && sid in memory.sessions && |sid| <= MaxSessionIdLength
    requires before == StepsTaken(4)
    modifies memory, embedder`batches
    ensures memory.Valid()
    ensures run == AfterUserTurn(old(memory.sessions), old(memory.messages), old(memory.clock), sid, history,
                                 store.docs, store.distance, config, embedder.encode, generate, req)
    ensures r == run.response && memory.sessions == run.sessions
    ensures memory.messages == run.messages && memory.clock == run.clock
    ensures steps == StepsTaken(run.taken) && sent == run.sent && run.taken >= 5
    ensures embedder.batches == old(embedder.batches) + [[req.query]]
  {
    sent := None;
    var found := SearchTopK(store, embedder, req.query, req.k);
    steps := before + [Retrieve];
    StepsNext(4);
    if found.Err? {
      r := Err(InternalError);
      run := ChatRun(r, memory.sessions, memory.messages, memory.clock, 5, None);
      return;
    }
    var request := GenerateRequest(config, ChatPrompt(found.value, history, req.query));
    sent := Some(request);
    r, steps, run := Reply(memory, sid, found.value, request, generate(request), steps);
  }

  /** The end of `chat` once the model has replied with `reply`: the answer,
      when there is one, is stored as the assistant turn and returned with the
      `sources`. */
  method Reply(memory: ChatStore, sid: string, hits: seq<Hit>, request: LlmRequest, reply: HttpReply,
               ghost before: seq<Step>)
    returns (r: Result<ChatResponse, ApiError>, ghost steps: seq<Step>, ghost run: ChatRun)
    requires memory.Valid() && sid in memory.sessions && |sid| <= MaxSessionIdLength
    requires before == StepsTaken(5)
    modifies memory
    ensures memory.Valid()
    ensures run == Answering(old(memory.sessions), old(memory.messages), old(memory.clock), sid, hits, request, reply)
    ensures r == run.response && memory.sessions == run.sessions
    ensures memory.messages == run.messages && memory.clock == run.clock
    ensures steps == StepsTaken(run.taken) && run.sent == Some(request)
  {
    var answer := CallOllama(reply);
    steps := before + [Generate];
    StepsNext(5);
    if answer.Err? {
      r := Err(answer.error);
      run := ChatRun(r, memory.sessions, memory.messages, memory.clock, 6, Some(request));
      return;
    }
    var stored := StoredAnswer(answer.value);
    if stored.None? {
      r := Err(InternalError);
      run := ChatRun(r, memory.sessions, memory.messages, memory.clock, 6, Some(request));
      return;
    }
    var failure := memory.AddMessage(sid, "assistant", stored.value);
    steps := steps + [AppendAssistant];
    StepsNext(6);
    assert failure.None?;
    if answer.value.JStr? {
      r := Ok(ChatResponse(answer.value.s, Sources(hits)));
    } else {
      r := Err(InternalError);
    }
    run := ChatRun(r, memory.sessions, memory.messages, memory.clock, 7, Some(request));
  }
}
