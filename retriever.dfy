/** `search_top_k`: embed the query once, then read the `documents` rows
    ordered by ascending distance to the query vector, at most `k` of them. */
module Retriever {
  import opened Results
  import opened Embedding
  import opened Documents

  /** A result row `(text, distance, source, chunk_index)`. */
  datatype Hit = Hit(text: string, distance: int, source: string, chunkIndex: int)

  /** Why `search_top_k` raises: the query could not be embedded, or the
      database refused a negative `LIMIT`. */
  datatype RetrieveError = QueryNotEmbedded | NegativeLimit

  /** The row the query yields for a stored passage. */
  function HitOf(p: Passage, distance: (Vector, Vector) -> int, q: Vector): Hit
  {
    Hit(p.text, distance(p.vec, q), p.source, p.chunkIndex)
  }

  /** Every stored passage with its distance to `q`, in store order. */
  function Hits(docs: seq<Passage>, distance: (Vector, Vector) -> int, q: Vector): (r: seq<Hit>)
    ensures |r| == |docs|
    ensures forall i :: 0 <= i < |docs| ==> r[i] == HitOf(docs[i], distance, q)
  {
    if docs == [] then [] else [HitOf(docs[0], distance, q)] + Hits(docs[1..], distance, q)
  }

  /** Non-decreasing distances: `ORDER BY distance ASC`. */
  predicate Sorted(s: seq<Hit>) {
    forall i, j :: 0 <= i < j < |s| ==> s[i].distance <= s[j].distance
  }

  /** Puts `h` before the first row that is not closer than it. */
  function InsertHit(h: Hit, s: seq<Hit>): seq<Hit>
  {
    if s == [] then [h]
    else if h.distance <= s[0].distance then [h] + s
    else [s[0]] + InsertHit(h, s[1..])
  }

  /** Rows by ascending distance; rows at equal distance keep store order
      (the database leaves their order open; this fixes one). */
  function SortHits(s: seq<Hit>): seq<Hit>
  {
    if s == [] then [] else InsertHit(s[0], SortHits(s[1..]))
  }

  lemma {:induction false} InsertHitPerm(h: Hit, s: seq<Hit>)
    ensures multiset(InsertHit(h, s)) == multiset(s) + multiset{h}
  {
    if s != [] && h.distance > s[0].distance {
      InsertHitPerm(h, s[1..]);
      assert s == [s[0]] + s[1..];
    }
  }

  /** A bound below `h` and below every row of `s` is below every row after
      the insertion. */
  lemma {:induction false} InsertHitBound(h: Hit, s: seq<Hit>, b: int)
    requires b <= h.distance && forall i :: 0 <= i < |s| ==> b <= s[i].distance
    ensures forall i :: 0 <= i < |InsertHit(h, s)| ==> b <= InsertHit(h, s)[i].distance
  {
    if s != [] && h.distance > s[0].distance {
      InsertHitBound(h, s[1..], b);
      var r := InsertHit(h, s);
      assert r == [s[0]] + InsertHit(h, s[1..]);
    }
  }

  lemma {:induction false} InsertHitSorted(h: Hit, s: seq<Hit>)
    requires Sorted(s)
    ensures Sorted(InsertHit(h, s))
  {
    if s != [] && h.distance > s[0].distance {
      var rest := InsertHit(h, s[1..]);
      InsertHitSorted(h, s[1..]);
      InsertHitBound(h, s[1..], s[0].distance);
      var r := [s[0]] + rest;
      assert InsertHit(h, s) == r;
      forall i, j | 0 <= i < j < |r| ensures r[i].distance <= r[j].distance {
        assert r[j] == rest[j - 1];
        if i > 0 {
          assert r[i] == rest[i - 1];
        }
      }
    }
  }

  /** Sorting by distance reorders the rows and loses or adds none. */
  lemma {:induction false} SortHitsPerm(s: seq<Hit>)
    ensures multiset(SortHits(s)) == multiset(s)
  {
    if s != [] {
      SortHitsPerm(s[1..]);
      InsertHitPerm(s[0], SortHits(s[1..]));
      assert s == [s[0]] + s[1..];
    }
  }

  lemma {:induction false} SortHitsSorted(s: seq<Hit>)
    ensures Sorted(SortHits(s))
  {
    if s != [] {
      SortHitsSorted(s[1..]);
      InsertHitSorted(s[0], SortHits(s[1..]));
    }
  }

  lemma SortHitsLength(s: seq<Hit>)
    ensures |SortHits(s)| == |s|
  {
    SortHitsPerm(s);
    assert |multiset(SortHits(s))| == |multiset(s)|;
  }

  /** Every stored passage with its distance, closest first. */
  function Ranked(docs: seq<Passage>, distance: (Vector, Vector) -> int, q: Vector): seq<Hit>
  {
    SortHits(Hits(docs, distance, q))
  }

  /** The query `ORDER BY distance ASC LIMIT k` against the query vector `q`. */
  function TopK(docs: seq<Passage>, distance: (Vector, Vector) -> int, q: Vector, k: int)
    : (r: Result<seq<Hit>, RetrieveError>)
    ensures r.Err? <==> k < 0
    ensures r.Err? ==> r.error == NegativeLimit
  {
    if k < 0 then Err(NegativeLimit)
    else
      SortHitsLength(Hits(docs, distance, q));
      Ok(Ranked(docs, distance, q)[..Min(k, |docs|)])
  }

  /** For `k >= 0` there are `min(k, n)` results for `n` stored passages: none
      for an empty store or `k == 0`. */
  lemma TopKLength(docs: seq<Passage>, distance: (Vector, Vector) -> int, q: Vector, k: int)
    requires k >= 0
    ensures |TopK(docs, distance, q, k).value| == Min(k, |docs|)
    ensures docs == [] ==> TopK(docs, distance, q, k).value == []
  {
    SortHitsLength(Hits(docs, distance, q));
  }

  /** The results are in non-decreasing order of distance. */
  lemma TopKSorted(docs: seq<Passage>, distance: (Vector, Vector) -> int, q: Vector, k: int)
    requires k >= 0
    ensures Sorted(TopK(docs, distance, q, k).value)
  {
    var ranked := Ranked(docs, distance, q);
    SortHitsSorted(Hits(docs, distance, q));
    SortHitsLength(Hits(docs, distance, q));
    var r := ranked[..Min(k, |docs|)];
    assert TopK(docs, distance, q, k).value == r;
    forall i, j | 0 <= i < j < |r| ensures r[i].distance <= r[j].distance {
      assert r[i] == ranked[i] && r[j] == ranked[j];
    }
  }

  /** Every result row is a stored passage paired with its distance to the
      query, and no stored passage is returned more often than it is stored. */
  lemma TopKFromStore(docs: seq<Passage>, distance: (Vector, Vector) -> int, q: Vector, k: int)
    requires k >= 0
    ensures var r := TopK(docs, distance, q, k).value;
      multiset(r) <= multiset(Hits(docs, distance, q)) &&
      forall h :: h in r ==> exists i :: 0 <= i < |docs| && h == HitOf(docs[i], distance, q)
  {
    var hs := Hits(docs, distance, q);
    var ranked := Ranked(docs, distance, q);
    SortHitsPerm(hs);
    SortHitsLength(hs);
    var n := Min(k, |docs|);
    PrefixSubset(ranked, n);
    var r := ranked[..n];
    assert TopK(docs, distance, q, k).value == r;
    forall h | h in r ensures exists i :: 0 <= i < |docs| && h == HitOf(docs[i], distance, q) {
      assert h in multiset(hs);
      var i :| 0 <= i < |hs| && hs[i] == h;
      assert h == HitOf(docs[i], distance, q);
    }
  }

  /** A prefix holds no row more often than the whole list. */
  lemma PrefixSubset(s: seq<Hit>, n: nat)
    requires n <= |s|
    ensures multiset(s[..n]) <= multiset(s)
    ensures multiset(s) - multiset(s[..n]) == multiset(s[n..])
  {
    assert s == s[..n] + s[n..];
  }

  /** Cutting a sorted list leaves in front no row farther than a row left
      out. */
  lemma SortedCut(s: seq<Hit>, n: nat)
    requires Sorted(s) && n <= |s|
    ensures forall d, h :: d in multiset(s) - multiset(s[..n]) && h in s[..n] ==> h.distance <= d.distance
  {
    PrefixSubset(s, n);
    forall d, h | d in multiset(s) - multiset(s[..n]) && h in s[..n] ensures h.distance <= d.distance {
      var j :| n <= j < |s| && s[j] == d;
      var i :| 0 <= i < n && s[i] == h;
    }
  }

  /** The top-k property: every stored row left out is at least as far from
      the query as every row returned. */
  lemma TopKSelects(docs: seq<Passage>, distance: (Vector, Vector) -> int, q: Vector, k: int)
    requires k >= 0
    ensures var r := TopK(docs, distance, q, k).value;
      forall d, h :: d in multiset(Hits(docs, distance, q)) - multiset(r) && h in r ==>
        h.distance <= d.distance
  {
    var hs := Hits(docs, distance, q);
    var ranked := Ranked(docs, distance, q);
    SortHitsPerm(hs);
    SortHitsSorted(hs);
    SortHitsLength(hs);
    var n := Min(k, |docs|);
    assert TopK(docs, distance, q, k).value == ranked[..n];
    SortedCut(ranked, n);
  }

  /** What `search_top_k` returns given what `embed_text` made of the query:
      a failed embedding raises before the database is queried. */
  function Search(docs: seq<Passage>, distance: (Vector, Vector) -> int, qvec: Option<Vector>, k: int)
    : Result<seq<Hit>, RetrieveError>
  {
    match qvec
    case None => Err(QueryNotEmbedded)
    case Some(q) => TopK(docs, distance, q, k)
  }

  /** `search_top_k`: the query is embedded exactly once, the store is only
      read, and the rows are the top `k` for the query vector. */
  method SearchTopK(store: DocumentStore, embedder: Embedder, query: string, k: int)
    returns (r: Result<seq<Hit>, RetrieveError>)
    modifies embedder`batches
    ensures embedder.batches == old(embedder.batches) + [[query]]
    ensures r == Search(store.docs, store.distance, EmbedOne(embedder.encode, query), k)
  {
    var qvec := embedder.EmbedText(query);
    r := Search(store.docs, store.distance, qvec, k);
  }
}
