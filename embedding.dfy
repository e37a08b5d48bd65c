/** The embedding gateway. The sentence-embedding model itself is outside the
    model: it is the function `encode` an `Embedder` is built around, which may
    fail. The ghost log `batches` records each call, so that callers can state
    how often, and on what, the model is invoked. */
module Embedding {
  import opened Results

  /** An embedding vector; its floating-point arithmetic is not modelled. */
  type Vector = seq<real>

  /** The external model: one vector per text, or a failure. */
  type Encoder = seq<string> -> Option<seq<Vector>>

  class Embedder {
    const encode: Encoder
    ghost var batches: seq<seq<string>>

    constructor (encode: Encoder)
      ensures this.encode == encode && batches == []
    {
      this.encode := encode;
      batches := [];
    }

    /** `embed_texts`: one call of the model on the whole list. */
    method EmbedTexts(texts: seq<string>) returns (r: Option<seq<Vector>>)
      modifies this`batches
      ensures batches == old(batches) + [texts]
      ensures r == encode(texts)
    {
      batches := batches + [texts];
      r := encode(texts);
    }

    /** `embed_text`: the first vector of a one-element batch. */
    method EmbedText(text: string) returns (r: Option<Vector>)
      modifies this`batches
      ensures batches == old(batches) + [[text]]
      ensures r == EmbedOne(encode, text)
    {
      var vs := EmbedTexts([text]);
      r := if vs.Some? && |vs.value| > 0 then Some(vs.value[0]) else None;
    }
  }

  /** What `embed_text` yields: the model's failure, or the `IndexError` of an
      empty reply, is a failure; otherwise the first vector. */
  function EmbedOne(encode: Encoder, text: string): (r: Option<Vector>)
    ensures r.Some? <==> encode([text]).Some? && |encode([text]).value| > 0
    ensures r.Some? ==> r.value == encode([text]).value[0]
  {
    match encode([text])
    case None => None
    case Some(vs) => if |vs| == 0 then None else Some(vs[0])
  }
}
