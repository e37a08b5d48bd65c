/** The `documents` table: one row per ingested chunk. The store is the only
    state; the vector distance the database computes is the store's function
    `distance`, smaller meaning more similar. */
module Documents {
  import opened Embedding

  /** A row of `documents` (its auto-increment `id` is not modelled). */
  datatype Passage = Passage(source: string, chunkIndex: int, text: string, vec: Vector)

  class DocumentStore {
    var docs: seq<Passage>
    const distance: (Vector, Vector) -> int

    constructor (distance: (Vector, Vector) -> int)
      ensures docs == [] && this.distance == distance
    {
      docs := [];
      this.distance := distance;
    }

    /** `INSERT INTO documents ...`: appends one row. */
    method Insert(p: Passage)
      modifies this`docs
      ensures docs == old(docs) + [p]
    {
      docs := docs + [p];
    }
  }
}
