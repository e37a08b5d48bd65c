/** `chunk_text`, the sentence chunker, and `ingest_csv`, which chunks, embeds
    and inserts every row of a CSV file. */
module Ingest {
  import opened Results
  import opened PyText
  import opened Embedding
  import opened Documents

  /** The default `max_tokens` of `chunk_text`, the one `ingest_csv` uses. */
  const DefaultMaxTokens := 400

  // ---------------------------------------------------------------------
  // Sentences

  /** What the loop makes of one piece of `text.split('.')`: the piece
      stripped, a period appended, and the whole stripped again. */
  function Sentence(piece: string): string
  {
    Strip(Strip(piece) + ".")
  }

  /** The sentences `chunk_text` iterates over, one per piece. */
  function Sentences(text: string): (r: seq<string>)
    ensures |r| == |Split(text, '.')|
  {
    var pieces := Split(text, '.');
    seq(|pieces|, i requires 0 <= i < |pieces| => Sentence(pieces[i]))
  }

  /** A period-free piece becomes its stripped self followed by one period:
      the second `strip()` never removes anything. */
  lemma SentenceShape(piece: string)
    requires '.' !in piece
    ensures Sentence(piece) == Strip(piece) + "."
    ensures multiset(Sentence(piece))['.'] == 1
  {
    var t := Strip(piece);
    StripShape(piece);
    StripSubset(piece);
    assert multiset(t)['.'] == 0;
    var u := t + ".";
    assert u[|u| - 1] == '.';
    assert u[0] == if t == [] then '.' else t[0];
    StripKeeps(u);
  }

  /** Every piece of the split gives exactly one sentence, non-empty, ending
      in its only period; so there is one sentence more than there are
      periods, and the empty-sentence guard of the loop never fires. */
  lemma {:induction false} SentencesShape(text: string)
    ensures |Sentences(text)| == multiset(text)['.'] + 1
    ensures forall i :: 0 <= i < |Sentences(text)| ==>
      var s := Sentences(text)[i];
      s != "" && s[|s| - 1] == '.' && multiset(s)['.'] == 1
  {
    var pieces := Split(text, '.');
    SplitShape(text, '.');
    forall i | 0 <= i < |pieces|
      ensures var s := Sentences(text)[i]; s != "" && s[|s| - 1] == '.' && multiset(s)['.'] == 1
    {
      SentenceShape(pieces[i]);
    }
  }

  /** Every sentence holds a word: its final period. */
  lemma SentenceHasWord(text: string, i: nat)
    requires i < |Sentences(text)|
    ensures WordCount(Sentences(text)[i]) >= 1
  {
    SentencesShape(text);
    var s := Sentences(text)[i];
    WordCountOfNonBlank(s, |s| - 1);
  }

  // ---------------------------------------------------------------------
  // Chunking

  /** `sum(len(x.split()) for x in buf)`. */
  function TotalWords(buf: seq<string>): nat
  {
    if buf == [] then 0 else TotalWords(buf[..|buf| - 1]) + WordCount(buf[|buf| - 1])
  }

  lemma TotalWordsSnoc(buf: seq<string>, s: string)
    ensures TotalWords(buf + [s]) == TotalWords(buf) + WordCount(s)
  {
    assert (buf + [s])[..|buf|] == buf;
  }

  /** A prefix of a buffer has no more words than the buffer. */
  lemma {:induction false} TotalWordsPrefix(buf: seq<string>, n: nat)
    requires n <= |buf|
    ensures TotalWords(buf[..n]) <= TotalWords(buf)
  {
    if n < |buf| {
      assert buf[..|buf| - 1][..n] == buf[..n];
      TotalWordsPrefix(buf[..|buf| - 1], n);
    } else {
      assert buf[..n] == buf;
    }
  }

  /** The groups of sentences the loop of `chunk_text` emits, from the
      remaining sentences `ss` and the current buffer `buf` on: each sentence
      is appended to the buffer, and the buffer is flushed as soon as its word
      count reaches `maxTokens` (the check follows the append); what is left in
      the buffer at the end is the last group. */
  function GroupsFrom(ss: seq<string>, buf: seq<string>, maxTokens: int): seq<seq<string>>
    decreases |ss|
  {
    if ss == [] then
      if buf == [] then [] else [buf]
    else if ss[0] == "" then
      GroupsFrom(ss[1..], buf, maxTokens)
    else
      var b := buf + [ss[0]];
      if TotalWords(b) >= maxTokens then [b] + GroupsFrom(ss[1..], [], maxTokens)
      else GroupsFrom(ss[1..], b, maxTokens)
  }

  /** The sentence groups of `chunk_text(text, maxTokens)`. */
  function ChunkGroups(text: string, maxTokens: int): seq<seq<string>>
  {
    GroupsFrom(Sentences(text), [], maxTokens)
  }

  /** The chunks the loop of `chunk_text` appends to `parts` from the
      remaining sentences `ss` and the buffer `buf` on: each flushed buffer,
      and the leftover one, joined with single spaces. */
  function ChunksFrom(ss: seq<string>, buf: seq<string>, maxTokens: int): seq<string>
    decreases |ss|
  {
    if ss == [] then
      if buf == [] then [] else [Join(buf, " ")]
    else if ss[0] == "" then
      ChunksFrom(ss[1..], buf, maxTokens)
    else
      var b := buf + [ss[0]];
      if TotalWords(b) >= maxTokens then [Join(b, " ")] + ChunksFrom(ss[1..], [], maxTokens)
      else ChunksFrom(ss[1..], b, maxTokens)
  }

  /** `chunk_text(text, maxTokens)`. */
  function Chunks(text: string, maxTokens: int): seq<string>
  {
    ChunksFrom(Sentences(text), [], maxTokens)
  }

  /** The chunks are the sentence groups, each joined with single spaces. */
  lemma {:induction false} ChunksJoinGroups(ss: seq<string>, buf: seq<string>, m: int)
    ensures ChunksFrom(ss, buf, m) == JoinAll(GroupsFrom(ss, buf, m), " ")
    decreases |ss|
  {
    if ss == [] {
      if buf != [] {
        assert JoinAll([buf], " ") == [Join(buf, " ")] + JoinAll([buf][1..], " ");
        assert [buf][1..] == [];
      }
    } else if ss[0] != "" {
      var b := buf + [ss[0]];
      if TotalWords(b) >= m {
        ChunksJoinGroups(ss[1..], [], m);
        var gs := [b] + GroupsFrom(ss[1..], [], m);
        assert gs[1..] == GroupsFrom(ss[1..], [], m);
      } else {
        ChunksJoinGroups(ss[1..], b, m);
      }
    } else {
      ChunksJoinGroups(ss[1..], buf, m);
    }
  }

  /** The groups hold the buffer and then every sentence, in order, each
      exactly once. */
  lemma {:induction false} GroupsFlatten(ss: seq<string>, buf: seq<string>, m: int)
    requires forall i :: 0 <= i < |ss| ==> ss[i] != ""
    ensures Flatten(GroupsFrom(ss, buf, m)) == buf + ss
    decreases |ss|
  {
    if ss == [] {
      if buf != [] {
        assert Flatten([buf]) == buf + Flatten([buf][1..]);
        assert [buf][1..] == [];
      }
      assert buf + ss == buf;
    } else {
      var b := buf + [ss[0]];
      assert buf + ss == b + ss[1..];
      if TotalWords(b) >= m {
        GroupsFlatten(ss[1..], [], m);
        var rest := GroupsFrom(ss[1..], [], m);
        var gs := [b] + rest;
        assert GroupsFrom(ss, buf, m) == gs;
        assert gs[1..] == rest;
        assert Flatten(gs) == b + Flatten(rest);
        assert [] + ss[1..] == ss[1..];
      } else {
        GroupsFlatten(ss[1..], b, m);
        assert GroupsFrom(ss, buf, m) == GroupsFrom(ss[1..], b, m);
      }
    }
  }

  /** No element of `xs` is the empty string. */
  predicate NoneEmpty(xs: seq<string>) {
    forall k :: 0 <= k < |xs| ==> xs[k] != ""
  }

  /** Every group is non-empty and holds only non-empty sentences. */
  predicate ProperGroups(gs: seq<seq<string>>) {
    forall j :: 0 <= j < |gs| ==> gs[j] != [] && NoneEmpty(gs[j])
  }

  /** Every group but the last has reached `m` words. */
  predicate FullBeforeLast(gs: seq<seq<string>>, m: int) {
    forall j :: 0 <= j < |gs| - 1 ==> TotalWords(gs[j]) >= m
  }

  /** Without its final sentence, a group is empty or has fewer than `m` words. */
  predicate ShortWithoutLast(g: seq<string>, m: int) {
    g != [] ==> g[..|g| - 1] == [] || TotalWords(g[..|g| - 1]) < m
  }

  predicate AllShortWithoutLast(gs: seq<seq<string>>, m: int) {
    forall j :: 0 <= j < |gs| ==> ShortWithoutLast(gs[j], m)
  }

  /** Every group is non-empty and holds only non-empty sentences. */
  lemma {:induction false} GroupsNonEmpty(ss: seq<string>, buf: seq<string>, m: int)
    requires NoneEmpty(buf)
    ensures ProperGroups(GroupsFrom(ss, buf, m))
    decreases |ss|
  {
    if ss == [] {
    } else if ss[0] == "" {
      GroupsNonEmpty(ss[1..], buf, m);
    } else {
      var b := buf + [ss[0]];
      assert NoneEmpty(b) by {
        forall k | 0 <= k < |b| ensures b[k] != "" {
          if k < |buf| { assert b[k] == buf[k]; }
        }
      }
      if TotalWords(b) >= m {
        GroupsNonEmpty(ss[1..], [], m);
        var rest := GroupsFrom(ss[1..], [], m);
        var gs := [b] + rest;
        forall j | 0 <= j < |gs| ensures gs[j] != [] && NoneEmpty(gs[j]) {
          if j > 0 { assert gs[j] == rest[j - 1]; }
        }
      } else {
        GroupsNonEmpty(ss[1..], b, m);
      }
    }
  }

  /** The soft bound: every group but the last has reached `m` words, and no
      group had reached them before its final sentence was appended. */
  lemma {:induction false} GroupsBounds(ss: seq<string>, buf: seq<string>, m: int)
    requires buf == [] || TotalWords(buf) < m
    ensures FullBeforeLast(GroupsFrom(ss, buf, m), m)
    ensures AllShortWithoutLast(GroupsFrom(ss, buf, m), m)
    decreases |ss|
  {
    if ss == [] {
      if buf != [] {
        TotalWordsPrefix(buf, |buf| - 1);
        assert GroupsFrom(ss, buf, m) == [buf];
      }
    } else if ss[0] == "" {
      GroupsBounds(ss[1..], buf, m);
    } else {
      var b := buf + [ss[0]];
      assert b[..|b| - 1] == buf;
      assert ShortWithoutLast(b, m);
      if TotalWords(b) >= m {
        GroupsBounds(ss[1..], [], m);
        var rest := GroupsFrom(ss[1..], [], m);
        var gs := [b] + rest;
        assert GroupsFrom(ss, buf, m) == gs;
        forall j | 0 <= j < |gs| - 1 ensures TotalWords(gs[j]) >= m {
          if j > 0 { assert gs[j] == rest[j - 1]; }
        }
        forall j | 0 <= j < |gs| ensures ShortWithoutLast(gs[j], m) {
          if j > 0 { assert gs[j] == rest[j - 1]; }
        }
      } else {
        GroupsBounds(ss[1..], b, m);
      }
    }
  }

  /** With a limit of at most one word, every sentence is a group of its own,
      since every sentence has a word. */
  lemma {:induction false} GroupsSingletons(ss: seq<string>, m: int)
    requires m <= 1
    requires forall i :: 0 <= i < |ss| ==> WordCount(ss[i]) >= 1
    ensures |GroupsFrom(ss, [], m)| == |ss|
    ensures forall i :: 0 <= i < |ss| ==> GroupsFrom(ss, [], m)[i] == [ss[i]]
  {
    if ss != [] {
      var first := [ss[0]];
      assert ss[0] != "";
      TotalWordsSnoc([], ss[0]);
      assert [] + [ss[0]] == first;
      assert TotalWords(first) >= m;
      var rest := GroupsFrom(ss[1..], [], m);
      assert GroupsFrom(ss, [], m) == [first] + rest;
      GroupsSingletons(ss[1..], m);
      forall i | 0 < i < |ss| ensures ([first] + rest)[i] == [ss[i]] {
        assert ss[1..][i - 1] == ss[i];
      }
    }
  }

  /** `chunk_text` never returns an empty list, never returns an empty chunk,
      and loses, duplicates or reorders no sentence: joining the chunks with
      spaces is joining the sentences with spaces. */
  lemma ChunksPreserveSentences(text: string, m: int)
    ensures |Chunks(text, m)| >= 1
    ensures forall j :: 0 <= j < |Chunks(text, m)| ==> Chunks(text, m)[j] != ""
    ensures Join(Chunks(text, m), " ") == Join(Sentences(text), " ")
  {
    var ss := Sentences(text);
    SentencesShape(text);
    ChunksJoinGroups(ss, [], m);
    GroupsFlatten(ss, [], m);
    GroupsNonEmpty(ss, [], m);
    var gs := ChunkGroups(text, m);
    assert ProperGroups(gs);
    assert [] + ss == ss;
    JoinFlatten(gs, " ");
    forall j | 0 <= j < |gs| ensures Chunks(text, m)[j] != "" {
      JoinNonEmpty(gs[j], " ");
    }
  }

  /** The words of a `' '`-join are those of its pieces: `len(chunk.split())`
      is the sum the loop compares with the limit. */
  lemma {:induction false} JoinWords(g: seq<string>)
    ensures WordCount(Join(g, " ")) == TotalWords(g)
  {
    if |g| == 1 {
      assert g[..0] == [];
    } else if |g| > 1 {
      var init := g[..|g| - 1];
      JoinWords(init);
      JoinConcat(init, [g[|g| - 1]], " ");
      assert init + [g[|g| - 1]] == g;
      WordCountSpaced(Join(init, " "), g[|g| - 1]);
    }
  }

  /** Every chunk but possibly the last has at least `m` words, as
      `len(chunk.split())` counts them; the same chunk without its final
      sentence has fewer than `m`, or no sentence at all. */
  lemma ChunkBounds(text: string, m: int)
    ensures |Chunks(text, m)| == |ChunkGroups(text, m)|
    ensures forall j :: 0 <= j < |ChunkGroups(text, m)| ==>
      Chunks(text, m)[j] == Join(ChunkGroups(text, m)[j], " ")
    ensures ProperGroups(ChunkGroups(text, m))
    ensures FullBeforeLast(ChunkGroups(text, m), m)
    ensures AllShortWithoutLast(ChunkGroups(text, m), m)
    ensures forall j :: 0 <= j < |Chunks(text, m)| - 1 ==> WordCount(Chunks(text, m)[j]) >= m
    ensures forall j :: 0 <= j < |ChunkGroups(text, m)| ==>
      var g := ChunkGroups(text, m)[j];
      |g| > 1 ==> WordCount(Join(g[..|g| - 1], " ")) < m
  {
    var cs, gs := Chunks(text, m), ChunkGroups(text, m);
    ChunksJoinGroups(Sentences(text), [], m);
    GroupsBounds(Sentences(text), [], m);
    GroupsNonEmpty(Sentences(text), [], m);
    forall j | 0 <= j < |cs| - 1 ensures WordCount(cs[j]) >= m {
      JoinWords(gs[j]);
    }
    forall j | 0 <= j < |gs| && |gs[j]| > 1
      ensures WordCount(Join(gs[j][..|gs[j]| - 1], " ")) < m
    {
      JoinWords(gs[j][..|gs[j]| - 1]);
    }
  }

  /** With a limit of at most one word, sentences that all hold a word are
      chunked one per chunk, unchanged. */
  lemma SingletonChunks(ss: seq<string>, m: int)
    requires m <= 1
    requires forall i :: 0 <= i < |ss| ==> WordCount(ss[i]) >= 1
    ensures ChunksFrom(ss, [], m) == ss
  {
    GroupsSingletons(ss, m);
    ChunksJoinGroups(ss, [], m);
    var gs := GroupsFrom(ss, [], m);
    forall i | 0 <= i < |ss| ensures JoinAll(gs, " ")[i] == ss[i] {
      assert gs[i] == [ss[i]];
    }
  }

  /** With `max_tokens <= 1` the chunks are exactly the sentences. */
  lemma SmallLimitChunks(text: string, m: int)
    requires m <= 1
    ensures Chunks(text, m) == Sentences(text)
  {
    var ss := Sentences(text);
    forall i | 0 <= i < |ss| ensures WordCount(ss[i]) >= 1 {
      SentenceHasWord(text, i);
    }
    SingletonChunks(ss, m);
  }

  /** The empty text is a single empty piece, which becomes the chunk ".". */
  lemma EmptyTextChunk(m: int)
    ensures Chunks("", m) == ["."]
  {
    assert Split("", '.') == [""];
    assert Strip("") == "";
    assert "" + "." == ".";
    StripKeeps(".");
    assert Sentences("") == ["."];
    WordCountOfNonBlank(".", 0);
    assert [] + ["."] == ["."];
    assert ChunksFrom(["."], [], m) == ["."];
  }

  /** One step of the loop of `chunk_text` on the remaining sentences. */
  lemma ChunksFromStep(ss: seq<string>, buf: seq<string>, m: int)
    requires ss != []
    ensures ChunksFrom(ss, buf, m) ==
      if ss[0] == "" then ChunksFrom(ss[1..], buf, m)
      else if TotalWords(buf + [ss[0]]) >= m then [Join(buf + [ss[0]], " ")] + ChunksFrom(ss[1..], [], m)
      else ChunksFrom(ss[1..], buf + [ss[0]], m)
  {
  }

  /** `chunk_text`: the loop over the pieces of the split, with its buffer of
      sentences and its list of emitted chunks. */
  method ChunkText(text: string, maxTokens: int) returns (parts: seq<string>)
    ensures parts == Chunks(text, maxTokens)
  {
    var pieces := Split(text, '.');
    ghost var ss := Sentences(text);
    ghost var total := Chunks(text, maxTokens);
    assert ss[0..] == ss;
    parts := [];
    var buf: seq<string> := [];
    for i := 0 to |pieces|
      invariant parts + ChunksFrom(ss[i..], buf, maxTokens) == total
    {
      var s := Strip(Strip(pieces[i]) + ".");
      assert s == ss[i];
      ChunksFromStep(ss[i..], buf, maxTokens);
      assert ss[i..][1..] == ss[i + 1..];
      if s == "" {
        continue;
      }
      buf := buf + [s];
      if TotalWords(buf) >= maxTokens {
        parts := parts + [Join(buf, " ")];
        buf := [];
      }
    }
    assert ss[|pieces|..] == [];
    if buf != [] {
      parts := parts + [Join(buf, " ")];
    }
  }

  // ---------------------------------------------------------------------
  // Ingestion

  /** A row of a data frame: the string `str(...)` makes of its cell in each
      column (what it gives outside the frame's columns is never looked at). */
  type Row = string -> string

  /** A CSV file as a data frame: its column names and its rows. Every row has
      a cell in every column, so a lookup fails exactly when the column is not
      one of the frame's. */
  datatype DataFrame = Frame(columns: set<string>, rows: seq<Row>)

  /** The column names `ingest_csv` is called with: `text_col`, `id_col` and
      the optional `source_col`. */
  datatype Columns = Columns(text: string, id: string, source: Option<string>)

  /** The `source` of a row: the `source_col` cell when that column is named
      (a non-empty string) and exists, else the `id_col` cell, else "csv". */
  function RowSource(frame: DataFrame, i: nat, cols: Columns): (r: string)
    requires i < |frame.rows|
    ensures cols.source.Some? && cols.source.value != "" && cols.source.value in frame.columns ==>
      r == frame.rows[i](cols.source.value)
    ensures !(cols.source.Some? && cols.source.value != "" && cols.source.value in frame.columns) ==>
      r == if cols.id in frame.columns then frame.rows[i](cols.id) else "csv"
  {
    var row := frame.rows[i];
    if cols.source.Some? && cols.source.value != "" && cols.source.value in frame.columns then row(cols.source.value)
    else if cols.id in frame.columns then row(cols.id)
    else "csv"
  }

  /** The rows inserted for one CSV row: chunk `i` with vector `i` at
      `chunk_index` `i`, as far as both lists go, all with the row's source. */
  function RowPassages(source: string, chunks: seq<string>, embs: seq<Vector>): (r: seq<Passage>)
    ensures |r| == if |chunks| <= |embs| then |chunks| else |embs|
    ensures forall i :: 0 <= i < |r| ==>
      r[i].source == source && r[i].chunkIndex == i && r[i].text == chunks[i] && r[i].vec == embs[i]
  {
    var n := if |chunks| <= |embs| then |chunks| else |embs|;
    seq(n, i requires 0 <= i < n => Passage(source, i, chunks[i], embs[i]))
  }

  datatype IngestError = MissingTextColumn | EmbeddingFailed

  /** What ingesting some rows does: the passages a row inserts, and the
      batches it sends to the embedder, and the failure that stopped it, if
      any. */
  datatype Run = Run(passages: seq<Passage>, batches: seq<seq<string>>, failure: Option<IngestError>)

  /** How a row's text is cut into chunks. */
  type Chunker = string -> seq<string>

  /** The chunker `ingest_csv` uses: `chunk_text` at its default limit. */
  const DefaultChunker: Chunker := text => Chunks(text, DefaultMaxTokens)

  /** What `ingest_csv` does with row `i`, with `chunker` for `chunk_text`: a
      row without the text column raises `KeyError` before anything is sent;
      otherwise the chunk list goes to the embedder in one batch, and either
      the embedder fails or one passage per (chunk, vector) pair is
      inserted. */
  function RowRun(frame: DataFrame, i: nat, cols: Columns, encode: Encoder, chunker: Chunker): Run
    requires i < |frame.rows|
  {
    if cols.text !in frame.columns then Run([], [], Some(MissingTextColumn))
    else
      var chunks := chunker(frame.rows[i](cols.text));
      match encode(chunks)
      case None => Run([], [chunks], Some(EmbeddingFailed))
      case Some(embs) => Run(RowPassages(RowSource(frame, i, cols), chunks, embs), [chunks], None)
  }

  /** A row fails on a missing text column exactly when the frame lacks that
      column, and then sends nothing; otherwise it sends its chunk list once,
      and fails on the embedder exactly when the embedder gives no vectors.
      A failed row inserts nothing; a completed one inserts the passages of
      its chunks and vectors. */
  lemma RowRunShape(frame: DataFrame, i: nat, cols: Columns, encode: Encoder, chunker: Chunker)
    requires i < |frame.rows|
    ensures var r := RowRun(frame, i, cols, encode, chunker);
      (r.failure == Some(MissingTextColumn) <==> cols.text !in frame.columns) &&
      (cols.text !in frame.columns ==> r.batches == []) &&
      (cols.text in frame.columns ==>
        r.batches == [chunker(frame.rows[i](cols.text))] &&
        (r.failure == Some(EmbeddingFailed) <==> encode(r.batches[0]).None?)) &&
      (r.failure.Some? ==> r.passages == []) &&
      (r.failure.None? ==>
        r.passages == RowPassages(RowSource(frame, i, cols), r.batches[0], encode(r.batches[0]).value))
  {
  }

  /** The store's rows and the embedder's batches after `ingest_csv` has gone
      through the first `n` rows of `frame`, starting from `docs` and `sent`:
      the rows in order until one fails; what earlier rows inserted stays
      (each insert is committed). */
  function Ingested(docs: seq<Passage>, sent: seq<seq<string>>, frame: DataFrame, n: nat, cols: Columns,
                    encode: Encoder, chunker: Chunker): Run
    requires n <= |frame.rows|
  {
    if n == 0 then Run(docs, sent, None)
    else
      var before := Ingested(docs, sent, frame, n - 1, cols, encode, chunker);
      if before.failure.Some? then before
      else
        var here := RowRun(frame, n - 1, cols, encode, chunker);
        Run(before.passages + here.passages, before.batches + here.batches, here.failure)
  }

  /** Once a row has failed, the later rows are never looked at. */
  lemma {:induction false} FailureStays(docs: seq<Passage>, sent: seq<seq<string>>, frame: DataFrame,
                                        m: nat, n: nat, cols: Columns, encode: Encoder, chunker: Chunker)
    requires m <= n <= |frame.rows|
    requires Ingested(docs, sent, frame, m, cols, encode, chunker).failure.Some?
    ensures Ingested(docs, sent, frame, n, cols, encode, chunker) == Ingested(docs, sent, frame, m, cols, encode, chunker)
    decreases n
  {
    if m < n {
      FailureStays(docs, sent, frame, m, n - 1, cols, encode, chunker);
    }
  }

  /** Ingesting only appends: the rows already in the store and the batches
      already sent stay, in front. */
  lemma {:induction false} IngestAppends(docs: seq<Passage>, sent: seq<seq<string>>, frame: DataFrame,
                                         n: nat, cols: Columns, encode: Encoder, chunker: Chunker)
    requires n <= |frame.rows|
    ensures var run := Ingested(docs, sent, frame, n, cols, encode, chunker);
      docs <= run.passages && sent <= run.batches
  {
    if n > 0 {
      IngestAppends(docs, sent, frame, n - 1, cols, encode, chunker);
    }
  }

  /** A run that completes calls the embedder exactly once per row, in row
      order, on the whole chunk list of that row's text. */
  lemma {:induction false} IngestBatches(docs: seq<Passage>, sent: seq<seq<string>>, frame: DataFrame,
                                         n: nat, cols: Columns, encode: Encoder, chunker: Chunker)
    requires n <= |frame.rows|
    requires Ingested(docs, sent, frame, n, cols, encode, chunker).failure.None?
    ensures var run := Ingested(docs, sent, frame, n, cols, encode, chunker);
      |run.batches| == |sent| + n &&
      forall j :: 0 <= j < n ==>
        cols.text in frame.columns && run.batches[|sent| + j] == chunker(frame.rows[j](cols.text))
  {
    if n > 0 {
      var before := Ingested(docs, sent, frame, n - 1, cols, encode, chunker);
      assert before.failure.None?;
      var here := RowRun(frame, n - 1, cols, encode, chunker);
      var run := Ingested(docs, sent, frame, n, cols, encode, chunker);
      assert run.batches == before.batches + here.batches;
      RowRunShape(frame, n - 1, cols, encode, chunker);
      IngestBatches(docs, sent, frame, n - 1, cols, encode, chunker);
      forall j | 0 <= j < n
        ensures cols.text in frame.columns && run.batches[|sent| + j] == chunker(frame.rows[j](cols.text))
      {
        if j < n - 1 {
          assert run.batches[|sent| + j] == before.batches[|sent| + j];
        }
      }
    }
  }

  /** A completed run inserts, row after row, the passages of that row's
      chunks and vectors. */
  lemma IngestPassages(docs: seq<Passage>, sent: seq<seq<string>>, frame: DataFrame,
                       n: nat, cols: Columns, encode: Encoder, chunker: Chunker)
    requires 0 < n <= |frame.rows|
    requires Ingested(docs, sent, frame, n, cols, encode, chunker).failure.None?
    ensures var run := Ingested(docs, sent, frame, n, cols, encode, chunker);
      var chunks := chunker(frame.rows[n - 1](cols.text));
      encode(chunks).Some? &&
      run.passages == Ingested(docs, sent, frame, n - 1, cols, encode, chunker).passages
                      + RowPassages(RowSource(frame, n - 1, cols), chunks, encode(chunks).value)
  {
    RowRunShape(frame, n - 1, cols, encode, chunker);
  }

  /** A frame whose columns lack the text column inserts nothing and fails
      (unless it has no rows), before the embedder is ever called. */
  lemma MissingTextColumnFails(docs: seq<Passage>, sent: seq<seq<string>>, frame: DataFrame, cols: Columns,
                               encode: Encoder, chunker: Chunker)
    requires cols.text !in frame.columns && |frame.rows| > 0
    ensures Ingested(docs, sent, frame, |frame.rows|, cols, encode, chunker) == Run(docs, sent, Some(MissingTextColumn))
  {
    assert Ingested(docs, sent, frame, 1, cols, encode, chunker) == Run(docs, sent, Some(MissingTextColumn));
    FailureStays(docs, sent, frame, 1, |frame.rows|, cols, encode, chunker);
  }

  /** The inner loop of `ingest_csv`: one insert per (chunk, vector) pair,
      in order, as far as both lists go. */
  method InsertRow(store: DocumentStore, source: string, chunks: seq<string>, embs: seq<Vector>)
    modifies store`docs
    ensures store.docs == old(store.docs) + RowPassages(source, chunks, embs)
  {
    ghost var inserted := RowPassages(source, chunks, embs);
    var n := if |chunks| <= |embs| then |chunks| else |embs|;
    for idx := 0 to n
      invariant store.docs == old(store.docs) + inserted[..idx]
    {
      store.Insert(Passage(source, idx, chunks[idx], embs[idx]));
      assert inserted[..idx + 1] == inserted[..idx] + [inserted[idx]];
    }
    assert inserted[..n] == inserted;
  }

  /** One iteration of the row loop of `ingest_csv`: row `i` is chunked,
      embedded and inserted, or fails. */
  method IngestRow(store: DocumentStore, embedder: Embedder, frame: DataFrame, i: nat, cols: Columns,
                   chunker: Chunker)
    returns (failure: Option<IngestError>)
    requires i < |frame.rows|
    modifies store`docs, embedder`batches
    ensures var run := RowRun(frame, i, cols, embedder.encode, chunker);
      store.docs == old(store.docs) + run.passages &&
      embedder.batches == old(embedder.batches) + run.batches &&
      failure == run.failure
  {
    var row := frame.rows[i];
    var source := if cols.source.Some? && cols.source.value != "" && cols.source.value in frame.columns
                  then row(cols.source.value)
                  else if cols.id in frame.columns then row(cols.id) else "csv";
    if cols.text !in frame.columns {
      return Some(MissingTextColumn);
    }
    var chunks := chunker(row(cols.text));
    var embs := embedder.EmbedTexts(chunks);
    if embs.None? {
      return Some(EmbeddingFailed);
    }
    InsertRow(store, source, chunks, embs.value);
    failure := None;
  }

  /** The row loop of `ingest_csv`: per row, chunk, embed once, and insert one
      row per (chunk, vector) pair with its position as `chunk_index`; the
      first failing row ends the loop. */
  method IngestRows(store: DocumentStore, embedder: Embedder, frame: DataFrame, cols: Columns,
                    chunker: Chunker)
    returns (failure: Option<IngestError>)
    modifies store`docs, embedder`batches
    ensures var run := Ingested(old(store.docs), old(embedder.batches), frame, |frame.rows|, cols,
                                embedder.encode, chunker);
      store.docs == run.passages && embedder.batches == run.batches && failure == run.failure
  {
    ghost var docs, sent := store.docs, embedder.batches;
    var i := 0;
    failure := None;
    while i < |frame.rows| && failure.None?
      invariant 0 <= i <= |frame.rows|
      invariant var run := Ingested(docs, sent, frame, i, cols, embedder.encode, chunker);
        store.docs == run.passages && embedder.batches == run.batches && failure == run.failure
      decreases |frame.rows| - i
    {
      failure := IngestRow(store, embedder, frame, i, cols, chunker);
      i := i + 1;
    }
    if failure.Some? {
      FailureStays(docs, sent, frame, i, |frame.rows|, cols, embedder.encode, chunker);
    }
  }

  /** `ingest_csv` over a parsed frame, chunking each row with `chunk_text`. */
  method IngestCsv(store: DocumentStore, embedder: Embedder, frame: DataFrame, cols: Columns)
    returns (failure: Option<IngestError>)
    modifies store`docs, embedder`batches
    ensures var run := Ingested(old(store.docs), old(embedder.batches), frame, |frame.rows|, cols,
                                embedder.encode, DefaultChunker);
      store.docs == run.passages && embedder.batches == run.batches && failure == run.failure
  {
    failure := IngestRows(store, embedder, frame, cols, DefaultChunker);
  }
}
