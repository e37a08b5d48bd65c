# rag-agent-tidb in Dafny

A model of the core of `rag-agent-tidb`, a retrieval-augmented chat service.
Documents are cut into sentence chunks, embedded and stored in TiDB. A
question is answered by embedding it, fetching the `k` nearest chunks, and
asking an Ollama model with a prompt that also holds the session's recent
turns. Both turns are then stored in two chat tables.

The table below maps the Dafny modules to what they model. `Ingest`,
`Retriever`, `Memory`, `Schema`, `Embedding`, `Cli` and `Api` each follow one
Python file. `PyText`, `Results` and `Documents` hold what those share: the
Python string operations, option and result values, and the `documents`
table. `Generation` gathers the settings of `rag_agent/config.py` and the
handling of Ollama's reply that `scripts/api.py` and `scripts/chat.py` share.
The database tables become in-memory state. The embedding model, the database's distance function and
the Ollama server become function-valued parameters.

| Dafny module | file | models |
|---|---|---|
| `Results` | `results.dfy` | `Option`, `Result`, and `Min`, the row count a `LIMIT` lets through |
| `PyText` | `text.dfy` | the Python `str` operations the core uses: `isspace`, `strip`, `split(sep)`, `split()` word count, `join` |
| `Embedding` | `embedding.dfy` | `Embedder`: a fixed encoder function and a ghost log of the batches sent to it |
| `Documents` | `documents.dfy` | the `documents` table as a class over a sequence of passages, with the store's distance function |
| `Schema` | `schema.dfy` | the `DDL` text, its constraint facts (64-character session ids, the role enum), and `init_schema` over a server that logs the statements it executes |
| `Ingest` | `ingest.dfy` | `chunk_text` as a specification function and as the loop it is, and `ingest_csv` over a data frame |
| `Retriever` | `retriever.dfy` | `search_top_k`: one embedding call, then a pure top-`k` selection by ascending distance |
| `Memory` | `memory.dfy` | `ensure_session`, `add_message` and `get_recent_messages` as a class over a session set, a message log and a timestamp counter |
| `Generation` | `generation.dfy` | the settings, the Ollama request, the reading of its JSON reply, and the context block |
| `Cli` | `cli.dfy` | `scripts/chat.py`: the prompt without history, and no memory writes |
| `Api` | `api.dfy` | `scripts/api.py`: lazy services, session-id fallback, prompt, `sources`, allowed origins, `call_ollama`, and the `/chat` endpoint |

`/chat` is specified by the pure function `Api.ChatSpec`. It is built in
stages (`AfterUserTurn`, `Answering`) that follow the endpoint's steps.
`Api.Chat` is proved to leave the memory, the embedder's log and the response
exactly as `ChatSpec` prescribes. The lemmas about `ChatSpec` then give the
endpoint's promises:
- the fixed step order;
- history read before the question is stored;
- two messages on success;
- the question kept when the model call fails;
- a number or boolean answer stored although the request fails;
- the effect of an unchecked `k`.

## Model

| member | source | states |
|---|---|---|
| `PyText.StripShape` | rag_agent/ingest.py:14 | `strip()` removes exactly the leading and trailing whitespace, and gives `""` exactly when the text is all whitespace |
| `PyText.SplitShape` | rag_agent/ingest.py:13 | `split(sep)` yields one more piece than there are separators, no piece holds the separator, and joining the pieces with it gives the text back |
| `PyText.SplitJoin` | scripts/api.py:59 | splitting a join of separator-free pieces gives the pieces back |
| `PyText.StrippedNonBlankEmpty` | rag_agent/schema.py:47-50 | the strip-and-skip-empty filter leaves nothing exactly when every piece is whitespace |
| `PyText.StrippedNonBlankCount` | rag_agent/schema.py:47-50 | the filter keeps one entry per piece that is not all whitespace |
| `PyText.SplitBlank` | scripts/api.py:58-59 | every piece of a split is whitespace exactly when the text holds only separators and whitespace |
| `Embedding.Embedder.constructor` | rag_agent/embedding.py:7-9 | the embedder wraps the loaded model and has sent nothing yet |
| `Embedding.Embedder.EmbedTexts` | rag_agent/embedding.py:11-13 | one call of the model on the whole batch, whose result is returned |
| `Embedding.Embedder.EmbedText` | rag_agent/embedding.py:15-16 | one batch of the single text, and the first vector returned |
| `Embedding.EmbedOne` | rag_agent/embedding.py:15-16 | a vector exactly when the model succeeds on `[text]` with a non-empty result, and then its first vector |
| `Documents.DocumentStore.Insert` | rag_agent/ingest.py:36-40 | one `INSERT` appends exactly one passage |
| `Ingest.Sentences` | rag_agent/ingest.py:13-14 | one sentence per piece of `text.split('.')` |
| `Ingest.SentenceShape` | rag_agent/ingest.py:14 | a piece becomes its stripped text plus `.`, holding exactly one period |
| `Ingest.SentencesShape` | rag_agent/ingest.py:13-15 | there is one sentence more than there are periods, and every sentence is non-empty and ends in its only `.`, so the guard at line 15 never fires |
| `Ingest.SentenceHasWord` | rag_agent/ingest.py:14-18 | every sentence counts at least one word |
| `Ingest.TotalWordsSnoc` | rag_agent/ingest.py:18 | appending a sentence adds its word count to the buffer's sum |
| `Ingest.TotalWordsPrefix` | rag_agent/ingest.py:18 | a prefix of the buffer counts no more words than the buffer |
| `Ingest.ChunksJoinGroups` | rag_agent/ingest.py:17-22 | each chunk is the `' '`-join of one group of buffered sentences |
| `Ingest.GroupsFlatten` | rag_agent/ingest.py:17-22 | the groups, in order, are exactly the sentences: none lost, none repeated |
| `Ingest.GroupsNonEmpty` | rag_agent/ingest.py:15-22 | every flushed group is non-empty and holds only non-empty sentences |
| `Ingest.GroupsBounds` | rag_agent/ingest.py:17-20 | every group but the last reached `max_tokens` words, and no group had reached it before its final sentence |
| `Ingest.GroupsSingletons` | rag_agent/ingest.py:17-20 | with `max_tokens <= 1` every sentence is flushed on its own |
| `Ingest.ChunksPreserveSentences` | rag_agent/ingest.py:13-23 | there is at least one chunk, every chunk is non-empty, and the `' '`-join of the chunks equals that of the sentences |
| `PyText.IntTextRoundTrip` | scripts/api.py:119 | `str(n)` of an integer parses back to `n`, and starts with `-` exactly when `n` is negative |
| `PyText.WordCountSpaced` | rag_agent/ingest.py:18-19 | a space between two strings keeps their words apart: `len((a + " " + b).split())` is the sum of the two counts |
| `Ingest.JoinWords` | rag_agent/ingest.py:18-19 | the `' '`-join of a buffer has as many words as the sum the loop compares with the limit |
| `Ingest.ChunkBounds` | rag_agent/ingest.py:17-22 | the chunks are the joins of groups; every chunk but the last has at least `max_tokens` words by `len(chunk.split())`, and the same chunk without its final sentence has fewer (the soft bound, checked after appending) |
| `Ingest.SingletonChunks` | rag_agent/ingest.py:17-20 | with `max_tokens <= 1`, sentences of at least one word come out one chunk each |
| `Ingest.SmallLimitChunks` | rag_agent/ingest.py:13-20 | with `max_tokens <= 1` the chunks are exactly the sentences |
| `Ingest.EmptyTextChunk` | rag_agent/ingest.py:13-23 | `chunk_text("")` is `["."]` |
| `Ingest.ChunksFromStep` | rag_agent/ingest.py:13-22 | one iteration of the loop: skip, flush once the limit is reached, or keep buffering |
| `Ingest.ChunkText` | rag_agent/ingest.py:9-23 | the loop over the pieces, with its `buf` and `parts` lists, returns exactly the specified chunks |
| `Ingest.RowSource` | rag_agent/ingest.py:32 | the `source_col` cell when that column is named and present, else the `id_col` cell, else `"csv"` |
| `Ingest.RowPassages` | rag_agent/ingest.py:35-40 | `min(len(chunks), len(embs))` passages with `chunk_index` 0, 1, … in order, each with the row's source, chunk `i` and vector `i` |
| `Ingest.RowRunShape` | rag_agent/ingest.py:32-40 | a row without the text column fails before embedding; otherwise its chunk list is embedded in one batch, and either the embedder fails or the row's passages are inserted |
| `Ingest.FailureStays` | rag_agent/ingest.py:31-40 | after a failure, later rows change nothing: the exception ends the loop |
| `Ingest.IngestAppends` | rag_agent/ingest.py:31-40 | ingestion only appends passages and batches |
| `Ingest.IngestBatches` | rag_agent/ingest.py:33-34 | without a failure, the embedder is called once per row, on that row's chunk list |
| `Ingest.IngestPassages` | rag_agent/ingest.py:35-40 | with no failure, each row adds exactly its own passages after those of the earlier rows |
| `Ingest.MissingTextColumnFails` | rag_agent/ingest.py:33 | a missing text column fails at the first row, with nothing embedded or inserted |
| `Ingest.InsertRow` | rag_agent/ingest.py:35-40 | the `enumerate(zip(...))` loop appends exactly the row's passages |
| `Ingest.IngestRow` | rag_agent/ingest.py:32-40 | one row changes the store and the embedder's log exactly as `RowRun` computes from the rows' text and the embedder it started with |
| `Ingest.IngestRows` | rag_agent/ingest.py:31-40 | the loop over the rows leaves the store and the log exactly as `Ingested` computes, stopping at the first failure |
| `Ingest.IngestCsv` | rag_agent/ingest.py:26-42 | `ingest_csv` is the row loop with `chunk_text` at its default of 400 words |
| `Retriever.Hits` | rag_agent/retriever.py:15-20 | one row `(text, distance, source, chunk_index)` per stored passage, with its distance to the query vector |
| `Retriever.SortHitsPerm` | rag_agent/retriever.py:21 | ordering the rows neither adds nor loses any |
| `Retriever.SortHitsSorted` | rag_agent/retriever.py:21 | the rows come out by non-decreasing distance |
| `Retriever.InsertHitSorted` | rag_agent/retriever.py:21 | placing one row into a sorted list keeps it sorted |
| `Retriever.TopK` | rag_agent/retriever.py:20-24 | the query fails exactly when `k` is negative (a negative `LIMIT`) |
| `Retriever.TopKLength` | rag_agent/retriever.py:20-22 | for `k >= 0` there are `min(k, M)` rows for `M` stored passages, so none for an empty store |
| `Retriever.TopKSorted` | rag_agent/retriever.py:21 | the result is sorted by non-decreasing distance |
| `Retriever.TopKFromStore` | rag_agent/retriever.py:15-20 | every result row is a stored passage paired with its distance, and no row is returned more often than it is stored |
| `Retriever.TopKSelects` | rag_agent/retriever.py:21-22 | every stored row left out is at least as far as every row returned |
| `Retriever.SearchTopK` | rag_agent/retriever.py:8-29 | the query is embedded exactly once, the store is only read, and the result is the top-`k` selection for that vector or the failure |
| `Memory.Rows` | rag_agent/memory.py:42 | one `(role, content)` row per message, in order |
| `Memory.Reversed` | rag_agent/memory.py:50 | the list back to front |
| `Memory.SessionLogOwn` | rag_agent/memory.py:44 | the rows selected for a session are all stored messages of that session |
| `Memory.NewestFirstOrdered` | rag_agent/memory.py:45 | with timestamps increasing on insert, the session's messages back to front are in strictly decreasing `created_at` order, as the `ORDER BY` asks |
| `Memory.RecentIsLatest` | rag_agent/memory.py:39-50 | `get_recent_messages` returns the session's `min(limit, n)` latest messages in the order they were added |
| `Memory.RecentBounds` | rag_agent/memory.py:44-46 | at most `limit` rows, each of a stored message of the session |
| `Memory.LatestRows` | rag_agent/memory.py:45-50 | the first `m` rows newest first, reversed, are the last `m` in order |
| `Memory.RecentAfterAdd` | rag_agent/memory.py:27-50 | a message just added comes last in its session's recent messages |
| `Memory.RecentIgnoresOthers` | rag_agent/memory.py:44 | messages of other sessions never show in a session's recent messages |
| `Memory.StoredSessionId` | rag_agent/memory.py:12-13 | `INSERT IGNORE` stores an id longer than 64 characters cut to its first 64, and any other id unchanged |
| `Memory.AddFailure` | rag_agent/memory.py:27-30 | the plain insert succeeds exactly when the id fits `VARCHAR(64)`, the role is `user` or `assistant`, and the session exists |
| `Memory.ChatStore.EnsureSession` | rag_agent/memory.py:6-18 | the stored id is added to the sessions; an id already present leaves them unchanged, so a second call is a no-op; no call fails |
| `Memory.ChatStore.AddMessage` | rag_agent/memory.py:21-33 | either fails as `AddFailure` says and changes nothing, or appends exactly one message after all others, stamped with the next timestamp |
| `Memory.ChatStore.GetRecentMessages` | rag_agent/memory.py:36-53 | a negative limit fails; otherwise the recent rows, with the store only read |
| `Memory.ReverseInPlace` | rag_agent/memory.py:50 | `rows.reverse()` leaves the array back to front |
| `Schema.Terminated` | rag_agent/schema.py:51 | each statement is sent with a `;` put back |
| `Schema.StatementsShape` | rag_agent/schema.py:47-51 | no executed statement is empty or whitespace-only, and each holds exactly one `;`, as its last character |
| `Schema.StatementsCount` | rag_agent/schema.py:47-50 | one statement per piece of the split that is not all whitespace |
| `Schema.SqlServer.Execute` | rag_agent/schema.py:51 | executing a statement appends it to the server's log |
| `Schema.ExecuteScript` | rag_agent/schema.py:45-51 | the loop executes exactly the stripped non-empty pieces of the split, in order, each with `;` |
| `Schema.InitSchema` | rag_agent/schema.py:34-53 | `CREATE DATABASE IF NOT EXISTS <db>;` is executed first, then the table statements |
| `Generation.DefaultRequest` | rag_agent/config.py:33-34 | with no environment variables set, `deepseek-r1:latest` is asked at `http://localhost:11434/api/generate` |
| `Generation.GenerateRequest` | scripts/api.py:33-35 | the request goes to `<base_url>/api/generate` with the configured model, the prompt and `stream: false` |
| `Generation.Get` | scripts/api.py:40 | `dict.get` gives the value of a present key and `None` otherwise |
| `Generation.Answer` | scripts/api.py:40 | a truthy `response` is the answer; else `message.content`, else `""`; a body or `message` that is not an object raises |
| `Generation.AnswerPrefersResponse` | scripts/api.py:40 | an answer comes from an object body, and is `response` exactly when `response` is truthy |
| `Generation.Texts` | scripts/api.py:105 | `r[0]` of each result row, in retrieval order |
| `Generation.ContextOrder` | scripts/api.py:105 | the context is empty exactly when nothing was retrieved, starts with the closest row's text and ends with the farthest one's |
| `Cli.CallOllama` | scripts/chat.py:10-18 | the client gets an answer exactly when there is a reply with no error status, a JSON body and an answer in it, and then that answer |
| `Cli.AnsweredAfterRetrieval` | scripts/chat.py:29-35 | the model is asked only after a successful retrieval, with the prompt over the top `k` rows |
| `Cli.Run` | scripts/chat.py:27-36 | the script prints what `Answered` gives for its arguments; it builds its own embedder and writes no session or message |
| `Api.Services.constructor` | scripts/api.py:70-71 | neither service exists at start |
| `Api.Services.GetServices` | scripts/api.py:74-80 | builds the configuration and the embedder at most once each; later calls return the same objects |
| `Api.Configured` | scripts/api.py:76-77 | the existing configuration, or a new `AppConfig()` |
| `Api.EncoderOf` | scripts/api.py:78-79 | the existing embedder's model, or the one the configuration names |
| `Api.ResolveSessionId` | scripts/api.py:99 | the request's session id when it is given and non-empty, the fresh one otherwise |
| `Api.HistoryLines` | scripts/api.py:106 | one `role: content` line per earlier turn, in order |
| `Api.ChatPromptSections` | scripts/api.py:107-116 | the prompt is the instructions and context, then the history section, then the question and the language hint |
| `Api.EmptyHistoryPrompt` | scripts/api.py:106-116 | with no earlier turns the history section is its header alone |
| `Api.CliPromptWithoutHistory` | scripts/chat.py:31-34 | the client's prompt is the endpoint's prompt without the history section, over the same context |
| `Api.Sources` | scripts/api.py:120-122 | one `sources` entry per result row, in order, with the row's four fields |
| `Api.SourcesRoundTrip` | scripts/api.py:120-122 | the result rows can be read back from `sources` |
| `Api.AllowedOrigins` | scripts/api.py:57-59 | the list of allowed origins is never empty |
| `Api.OriginsFallBack` | scripts/api.py:57-59 | the two localhost defaults are used exactly when `ALLOWED_ORIGINS` holds only commas and whitespace, the parsed entries otherwise |
| `Api.OriginsShape` | scripts/api.py:59 | every parsed origin is non-empty, trimmed and comma-free |
| `Api.OriginsRoundTrip` | scripts/api.py:58-59 | a comma-joined list of trimmed, comma-free origins is read back as exactly that list |
| `Api.CallOllama` | scripts/api.py:31-42 | no reply, an error status or a non-JSON body is a 502; a reply of the wrong shape is a 500; otherwise the answer |
| `Api.CallOllamaAgrees` | scripts/api.py:31-42 | the endpoint's and the client's `call_ollama` find the same answer in the same replies |
| `Api.AnsweringShape` | scripts/api.py:117-125 | after the model call, success exactly when the answer is a string, which is then the message appended; one message, the stored answer, is appended exactly when the answer can be stored, otherwise nothing is; a 502 stays a 502 |
| `Api.StoredAnswer` | scripts/api.py:119 | `add_message` can store a string, a number or a boolean and nothing else; a string is stored as it is, and a number or boolean as text that parses back to its integer (`1` or `0` for a boolean) |
| `Api.ChatUnreturnableAnswer` | scripts/api.py:117-125 | an answer that is a number or a boolean is stored after the question, and the request still fails with a 500 |
| `Api.AfterUserTurnShape` | scripts/api.py:104-117 | the model is asked exactly when retrieval succeeds, with the prompt over the retrieved rows and the history |
| `Api.ChatSteps` | scripts/api.py:97-125 | the steps are taken in the fixed order up to the first that fails; the first four always happen; all seven happen on success, and exactly when the model's answer can be stored; the session stays ensured |
| `Api.ChatSuccess` | scripts/api.py:103-125 | on success, exactly two messages are appended, the question and then the returned answer, and `sources` lists the top-`k` rows |
| `Api.ChatGenerationFailure` | scripts/api.py:103-119 | a failed model call (502) keeps the stored question and appends no answer |
| `Api.ChatNegativeK` | scripts/api.py:103-104 | a negative `k` is not checked: the question is stored, the query fails, and the model is never asked |
| `Api.ChatDefaultK` | scripts/api.py:22 | a request that leaves `k` at its default of 5 gets, on success, `min(5, M)` sources for `M` stored passages |
| `Api.ChatHistoryBeforeTurn` | scripts/api.py:101-116 | the prompt carries the session's latest turns from before the question was stored, so never the current question |
| `Api.ChatFreshSession` | scripts/api.py:99-116 | a request without a session id gets a new session with an empty history section |
| `Api.NoSessionLog` | rag_agent/memory.py:44 | a session no message belongs to has no rows |
| `Api.Chat` | scripts/api.py:94-125 | `POST /chat` returns and leaves in memory exactly what `ChatSpec` gives for the state it started from, leaves the configuration loaded and the embedder's `encode` as `EncoderOf` picks it, and embeds the query at most once |
| `Api.Converse` | scripts/api.py:99-125 | the endpoint after `get_services`, from the session id on |
| `Api.TakeQuestion` | scripts/api.py:100-103 | the session is ensured, the history read from the log before the append, and the question appended or refused |
| `Api.Respond` | scripts/api.py:104-125 | retrieval, prompt, model call and answer, exactly as `AfterUserTurn` computes them from the state after the question, with `Answering` for the model call and the answer |
| `Api.Reply` | scripts/api.py:117-125 | the model's reply is read as `Answering` says: an answer the driver can store is stored as the assistant turn, and a string answer is returned with `sources` |

## Left out

- I/O: there are no database connections, cursors or commits, and there is no HTTP, no file reading and no printing. The database tables are in-memory state. The embedding model is a function from a batch of texts to vectors or a failure. The Ollama server is a function from a request to a reply, and that reply may be a transport failure.
- The distance: `VEC_COSINE_DISTANCE` and its floating-point values are replaced by an integer-valued distance function fixed with the store. The vector normalisation done by `normalize_embeddings=True` is not modelled. Neither is the 1024-dimension `VECTOR` column, including a dimension mismatch failing at insert.
- `Retriever.TopK`: rows at equal distance are kept in store order. The database does not define an order for ties.
- `Memory.ChatStore.AddMessage`: `created_at` comes from a counter that increases on every insert. The real `CURRENT_TIMESTAMP` has one-second resolution, and equal timestamps would leave the order of `ORDER BY created_at` to the database.
- `Memory.ChatStore.GetRecentMessages`: the only failure modelled is a negative `LIMIT`. Connection and server errors are I/O.
- `Memory.StoredSessionId`: the truncation assumes that `INSERT IGNORE` turns the too-long-value error into a warning. Collation and trailing-space comparison in `UNIQUE` are not modelled.
- `Memory.ChatStore.AddMessage`: a `content` longer than the `TEXT` column holds (65,535 bytes) would also make the plain insert fail. `Memory.AddFailure` leaves this case out, so a very long question or answer is stored in the model.
- `Schema.InitSchema`: the statements are logged, not interpreted. The model takes three facts from the `DDL` text by hand: the 64-character session id, the role enum, and the foreign key. `Memory` then uses them.
- `Api.Chat`: an answer that is a number or a boolean is stored, and then `ChatResponse(answer=...)` refuses it with a 500. This follows pydantic 2, which does not turn a number into a string. Under pydantic 1 the value would be coerced and returned. JSON numbers are integers in the model, so a fractional answer's text is not modelled.
- `Api.Chat`: the ghost `steps` and `sent` out-parameters record the step order and the request sent. They are proof devices.
- `Documents.DocumentStore.Insert`: an insert never fails. In the `documents` table, `source VARCHAR(255)` and `text TEXT` refuse values that are too long, and a failed insert would end `ingest_csv`. The chunks of the same row inserted before it would stay, as would the earlier rows. `Ingest.InsertRow`, `Ingest.IngestRow` and the ingestion lemmas inherit this.
- `Api.Services.GetServices`: the configuration and the embedding model always load. A load that raises would make `/chat` a 500 and leave `_embedder` unset, so the next request would try again; this is not modelled.
- `Api.Services.GetServices`: `AppConfig()` and loading the `SentenceTransformer` become the `settings` and `load` fields. `uuid.uuid4().hex` becomes the `freshId` parameter of `Api.Chat`.
- `Ingest.IngestCsv`: `pd.read_csv` becomes a data frame of string-valued rows. `str(...)` of non-string cells (numbers, `NaN`) is not modelled.
- `rag_agent/config.py` is not part of this model, apart from the three settings the entry points read and their defaults.
- `rag_agent/db.py` is not part of this model, and neither are `scripts/ingest_csv.py`, `scripts/init_db.py` and the React front end.
- The `/health` and `/metrics` endpoints, the Prometheus counters, Sentry, logging, CORS middleware registration, the 600-second timeout and uvicorn are left out. They hold no logic of the core.
- Concurrency: two requests on the same session may interleave in the real service. The model runs one request at a time.

## Behaviour worth knowing

- `chunk_text` appends `.` before its final strip, so every piece of the split becomes a non-empty sentence, and the guard against empty sentences never fires. `chunk_text("")` is `["."]`, and `"a..b"` has a sentence `"."` (`Ingest.EmptyTextChunk`, `Ingest.SentencesShape`).
- `k` is not checked. `k = 0` gives no rows, and a negative `k` makes the query fail after the question has been stored (`Api.ChatNegativeK`).
- `raise_for_status` raises only for statuses 400 to 599, so other statuses are read as replies (`Generation.ErrorStatus`). A body that is not JSON raises a `RequestException`, which `/chat` turns into a 502.
- The plain insert of `add_message` fails for an unknown session, for an id longer than 64 characters and for a role outside the enum. `ensure_session` stores such a long id truncated, so the question `/chat` then tries to append fails, and the request is a 500 (`Memory.AddFailure`, `Memory.StoredSessionId`).
- `add_message` stores the model's answer before `ChatResponse` checks that it is a string. An answer that is a number or a boolean is therefore left in the conversation as an assistant turn, although the request fails with a 500 (`Api.ChatUnreturnableAnswer`). A `null`, a list or an object fails at the insert, and no assistant turn is stored.
- An exception in `ingest_csv` ends the whole run, and the rows already inserted stay (`Ingest.FailureStays`).
- The `;` that ends the commented-out `CREATE VECTOR INDEX` line in `DDL` splits the text there, so `init_schema` sends, as its second table statement (`Statements(Ddl)[1]`, the third statement counting `CREATE DATABASE`), one made only of the two `--` comment lines, ending in `DISTANCE COSINE;`. `Schema.InitSchema` sends exactly `Statements(Ddl)`, which includes it. In the model the server accepts every statement. What a real server answers to a statement with no SQL in it, and whether an error there would end `init_schema`, is not modelled.
