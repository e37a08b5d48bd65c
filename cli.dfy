/** The command-line client: one question, answered from the retrieved
    context alone. It builds its own configuration and embedder, and touches
    no conversation memory. */
module Cli {
  import opened Results
  import opened Embedding
  import opened Documents
  import opened Retriever
  import opened Generation

  const Preamble := "You are a helpful assistant. Use the following context to answer the user's question.\n\n"
  const ContextLabel := "Context:\n"
  const QuestionLabel := "\n\nQuestion: "
  const LanguageHint := "\nAnswer in Bahasa Indonesia if the question is Indonesian."

  /** The prompt of the command-line client. */
  function CliPrompt(hits: seq<Hit>, query: string): string
  {
    Preamble + ContextLabel + Context(hits) + QuestionLabel + query + LanguageHint
  }

  /** The client's `call_ollama`: any failure (no reply, an error status, a
      body that is not JSON, a reply of the wrong shape) is an uncaught
      exception that ends the script, written `None`. */
  function CallOllama(reply: HttpReply): (r: Option<Json>)
    ensures r.Some? <==>
      reply.Reply? && !ErrorStatus(reply.status) && reply.body.Some? && Answer(reply.body.value).Some?
    ensures r.Some? ==> r == Answer(reply.body.value)
  {
    match reply
    case TransportFailure => None
    case Reply(status, body) =>
      if ErrorStatus(status) || body.None? then None else Answer(body.value)
  }

  /** What the script prints, or `None` when it ends with an exception: the
      query is embedded, the top `k` rows retrieved, and the model asked
      with the prompt over them. */
  function Answered(docs: seq<Passage>, distance: (Vector, Vector) -> int, encode: Encoder,
                    config: AppConfig, generate: Generator, query: string, k: int): Option<Json>
  {
    match Search(docs, distance, EmbedOne(encode, query), k)
    case Err(_) => None
    case Ok(hits) => CallOllama(generate(GenerateRequest(config, CliPrompt(hits, query))))
  }

  /** The model is asked only after a successful retrieval: a failed
      embedding or a negative `k` ends the script first, and an answer is
      what the model made of the prompt over the top `k` rows. */
  lemma AnsweredAfterRetrieval(docs: seq<Passage>, distance: (Vector, Vector) -> int, encode: Encoder,
                               config: AppConfig, generate: Generator, query: string, k: int)
    ensures var a := Answered(docs, distance, encode, config, generate, query, k);
      a.Some? ==>
        k >= 0 && EmbedOne(encode, query).Some? &&
        var hits := TopK(docs, distance, EmbedOne(encode, query).value, k).value;
        a == CallOllama(generate(GenerateRequest(config, CliPrompt(hits, query))))
  {
  }

  /** The script's body. It has no `modifies` clause: apart from the
      embedder it creates, no object, and so no session or message, is
      changed. */
  method Run(settings: AppConfig, load: string -> Encoder, store: DocumentStore,
             generate: Generator, query: string, k: int)
    returns (answer: Option<Json>)
    ensures answer == Answered(store.docs, store.distance, load(settings.embeddingModel), settings, generate, query, k)
  {
    var embedder := new Embedder(load(settings.embeddingModel));
    var found := SearchTopK(store, embedder, query, k);
    if found.Err? {
      return None;
    }
    var prompt := CliPrompt(found.value, query);
    answer := CallOllama(generate(GenerateRequest(settings, prompt)));
  }
}
