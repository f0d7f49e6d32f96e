# openai_rs core in Dafny

This project models the core of `openai_rs`, a Rust client for the OpenAI
chat-completion API. The client keeps each answer in a prompt-keyed result
cache and keeps a running bill of token usage and cost. It can also write the
cache to a relational store and read the store back.

The model covers these parts:

- **Model names and pricing** (`gpt_models.dfy`, `responses.dfy`):
  - the eight `GptModel` variants and their name strings, with the parse/print codec;
  - the `compute_cost` rate table, and the response's `cost` in cents.
- **Queries and keys** (`queries.dfy`):
  - chat, text (PDF) and meta queries, and the `Query` sum over them;
  - the cache keys: `"Chat: " + prompt`, `title + ": " + prompt` and `"Meta: " + prompt`.
- **The cache** (`cache.dfy`), a class whose fields are:
  - the in-memory map;
  - a ghost copy of what the cache file holds;
  - a ghost graveyard log of overwritten entries;
  - a ghost count of file rewrites.

  `insert` and `insert_many` are modelled under both batch policies, together with `remove` and `clear`.
- **The bill** (`bill.dfy`): a class with the six counters and a ghost copy of the bill file, with `update_bill` and `reset_bill`.
- **The account** (`completion.rs` flows, `completion.dfy`):
  - `get_completion`, `apply_prompt_to_pdf` and `meta_complete_cache`, plus the `client.rs` helpers `cache_query`, `remove_from_cache` and `clear_cache`.
  - The transport's reply, the PDF's pages and the elapsed time are parameters.
  - Ghost logs record every request sent and every PDF path opened.
  - A Rust panic is the outcome `Panic`, with no state change.
- **Rows and the store** (`rows.dfy`, `database.dfy`):
  - the three completion tables as sequences of rows;
  - `to_query` on a row, with the `u64 → i32 → u64` round trip of `process_time` made explicit;
  - `insert_cache` (hash-matched delete into the graveyard, then one batch insert per table), `insert_query`, `read_all_to_cache` and `read_all`.
  - Whether the database is reachable, and which table statements succeed, is a `DbOracle` parameter.
  - `calculate_hash` is an uninterpreted function held by the store.
  - The HashMap's iteration order is a parameter `order` that lists each key once.

The model keeps these quirks of the code:

- The meta request keeps the default role (`User`) for its first message and the default temperature (none).
- `get_completion` records its elapsed time in seconds, while the text and meta flows record milliseconds.
- `cache_query` ignores its key argument.
- `read_all_to_cache` merges text rows, then chat rows, then meta rows.
- `read_all` fills its map from chat, then text, then meta.
- A text query's key is `TextQuery::key(prompt, title)`. The source's `Cacheable` implementation for `TextQuery` names its method `to_query_key`; the model reads that method as the trait's `key`.

## Model

| member | source | states |
|---|---|---|
| ModelStrings.AllModelStrings | src/constants.rs:35-45 | there are exactly eight model name strings |
| ModelStrings.ModelStringsDistinct | src/constants.rs:35-45 | the eight model name strings are pairwise distinct |
| GptModels.ToString | src/models/gpt_models.rs:63-78 | every model prints as one of the documented model strings |
| GptModels.FromStr | src/models/gpt_models.rs:88-102 | parsing fails exactly on strings that are not model names; a successful parse prints back to the input |
| GptModels.FromStrToString | src/models/gpt_models.rs:63-102 | parsing a model's printed name gives back that model |
| GptModels.ToStringInjective | src/models/gpt_models.rs:63-78 | distinct models have distinct names |
| GptModels.ToStringFromStr | src/models/gpt_models.rs:84-102 | every documented name parses, and prints back unchanged |
| GptModels.SerdeRoundTrip | src/models/gpt_models.rs:20-53 | deserializing a serialized model gives back the model |
| Pricing.CostFactors | src/constants.rs:9-21 | every rate is positive and the completion rate exceeds the prompt rate |
| Pricing.ComputeCostZero | src/constants.rs:23-27 | zero prompt and completion tokens cost nothing, whatever the total |
| Pricing.ComputeCostNonNegative | src/constants.rs:7-27 | non-negative token counts never cost a negative amount |
| Pricing.ComputeCostMonotone | src/constants.rs:23-27 | more prompt or completion tokens never cost less |
| Pricing.ResponseRatesAgree | src/models/response.rs:27-39 | the response's own rate table equals `compute_cost`'s table for every model |
| Pricing.CostInCents | src/models/response.rs:41-45 | a response's cost is exactly 100 times `compute_cost` of its usage |
| Pricing.CostIgnoresTotal | src/models/response.rs:24-46 | the cost does not depend on `total_tokens` |
| Pricing.Cost32kDoubleGpt4 | src/models/response.rs:33-38 | a 32k model costs exactly twice its gpt-4 counterpart for the same usage |
| Queries.Query.ExpectAsChat | src/models/query.rs:41-43 | on a chat query, returns the wrapped chat query; any other variant is excluded, as the source panics on it |
| Queries.Query.ExpectAsText | src/models/query.rs:44-46 | on a text query, returns the wrapped text query |
| Queries.Query.ExpectAsMeta | src/models/query.rs:47-49 | on a meta query, returns the wrapped meta query |
| Queries.QueryDelegatesToVariant | src/models/query.rs:25-62 | a `Query`'s key, response and model are those of the variant it wraps |
| Queries.ChatKeyShape | src/models/queries/chat_query.rs:29-33 | a chat key is "Chat: " followed by exactly the prompt |
| Queries.ChatKeyInjective | src/models/queries/chat_query.rs:29-39 | distinct prompts give distinct chat keys |
| Queries.MetaKeyShape | src/models/queries/meta_query.rs:26-30 | a meta key is "Meta: " followed by exactly the prompt |
| Queries.MetaKeyInjective | src/models/queries/meta_query.rs:26-36 | distinct prompts give distinct meta keys |
| Queries.MetaKeyNeverChatKey | src/models/queries/meta_query.rs:26-30 | no meta key equals any chat key |
| Queries.TextKeyCollidesWithChatAndMeta | src/models/queries/text_query.rs:27-31 | a document titled "Chat" or "Meta" gets the same key as the chat or meta query for the same prompt |
| Queries.TextKeyNotInjective | src/models/queries/text_query.rs:28-30 | two different (prompt, title) pairs share one text key |
| Caching.PutAll | src/models/cache.rs:69-80 | the overwriting batch's keys are the old keys plus the batch's keys; keys outside the batch keep their entries |
| Caching.PutAbsent | src/models/cache.rs:81-88 | the skipping batch's keys are the old keys plus the batch's keys |
| Caching.InsertManyIsInsertFold | src/models/cache.rs:52-80 | one more query in an overwriting batch changes the map and the graveyard exactly as a single `insert` does |
| Caching.PutAllLastWins | src/models/cache.rs:69-80 | with overwriting, the last query of the batch with a given key is what the map holds there |
| Caching.PutAbsentKeepsPresent | src/models/cache.rs:81-88 | without overwriting, a key present before the batch keeps its entry |
| Caching.PutAbsentFirstWins | src/models/cache.rs:81-88 | without overwriting, the first batch query with a fresh key wins over later ones with that key |
| Caching.DisplacedAllFresh | src/models/cache.rs:71-79 | a batch of fresh, pairwise distinct keys sends nothing to the graveyard |
| Caching.NothingLostOnOverwrite | src/models/cache.rs:68-80 | after an overwriting batch, every old entry and every batch query is still stored or is in the graveyard |
| Caching.BatchKeepsWellKeyed | src/models/cache.rs:68-90 | both batch policies keep every entry stored under its own key |
| Caching.Visit | src/models/client/database.rs:62 | the visited pairs are the (key, entry) pairs of the map, in iteration order |
| Caching.Cache.constructor | src/client.rs:99-114 | a cache starts from the entries loaded from its file, with the graveyard cleared |
| Caching.Cache.Get | src/models/client/completion.rs:27 | the lookup finds a value exactly when the key is present, and the value is the stored entry |
| Caching.Cache.Clear | src/models/cache.rs:29-34 | the map becomes empty, the file is rewritten to match, and the graveyard is untouched |
| Caching.Cache.Remove | src/models/cache.rs:36-50 | a present key is removed and returned with its entry, and the file is rewritten; an absent key returns None and writes nothing |
| Caching.Cache.Insert | src/models/cache.rs:52-66 | the query is stored under its own key, the displaced entry (if any) is appended to the graveyard, and the file is rewritten once |
| Caching.Cache.InsertMany | src/models/cache.rs:68-94 | the map becomes the fold of the batch under the chosen policy, with displaced entries buried only when overwriting; the file is rewritten exactly once |
| Billing.Charge | src/client.rs:257-267 | charging a query adds its prompt, completion and total tokens and its cost to the counters, adds one to the query count and leaves the cache retrieval count alone |
| Billing.ChargeAllKeepsBalance | src/client.rs:254-272 | charging queries whose usage is consistent (total = prompt + completion) keeps the bill's total consistent |
| Billing.ChargeAllAdds | src/client.rs:254-272 | after N charges, the prompt, completion and total tokens and the cost have grown by their sums, the query count by N, and cache retrievals not at all |
| Billing.FreshBillTotals | src/models/bill.rs:20-31 | from the default bill, N consistent queries give total tokens equal to prompt plus completion, cost equal to the summed cost, and a query count of N |
| Billing.Bill.constructor | src/client.rs:83-96 | a bill starts from the loaded counters, mirrored in its file |
| Billing.Bill.Update | src/client.rs:254-272 | with a query, the counters become its charge; without one they are unchanged; the file is rewritten either way |
| Billing.Bill.Reset | src/client.rs:276-285 | five counters are zeroed, `cache_retrievals` is kept, and the file is rewritten |
| Completion.PdfPathShape | src/models/client/completion.rs:78-79 | the path is the directory, at most one separator, then `title.pdf`; the separator is absent exactly when the directory ends in "/", and is "\" only for a directory containing "\" |
| Completion.DefaultPdfPath | src/models/client/completion.rs:78-79 | with no directory given, the path is "./pdfs/" + title + ".pdf" |
| Completion.PdfPathTrailingSlash | src/models/client/completion.rs:79 | adding a trailing "/" to a plain directory does not change the path |
| Completion.JoinPagesFailurePersists | src/models/client/completion.rs:99-103 | once a page's text extraction fails, the whole document fails |
| Completion.JoinPagesConcatenates | src/models/client/completion.rs:99-103 | when every page extracts, the document is the pages' text concatenated in page order |
| Completion.ExtractDocument | src/models/client/completion.rs:99-103 | the page loop yields the joined document, or fails exactly when some page fails |
| Completion.NatToStringDigits | src/models/client/completion.rs:165 | the essay number is non-empty, all decimal digits, and one digit exactly below ten |
| Completion.NatToStringValue | src/models/client/completion.rs:165 | the essay number's digits denote the number itself, with no leading zero from ten on |
| Completion.EssayContents | src/models/client/completion.rs:159-170 | when the fold succeeds, it yields one essay per text query |
| Completion.EssayFailurePersists | src/models/client/completion.rs:162-168 | once a text query lacks content, the fold fails whatever follows |
| Completion.NumberedPrefix | src/models/client/completion.rs:159-170 | the numbering of a prefix of the essays is a prefix of the numbering of all of them |
| Completion.EssayNumbering | src/models/client/completion.rs:163-167 | the i-th essay appears as "\n\n" + (i+1) + ")\n" + essay, right after the blocks of the essays before it |
| Completion.NonTextEntriesIgnored | src/models/client/completion.rs:163 | chat and meta entries add nothing to the fold |
| Completion.FoldEssays | src/models/client/completion.rs:159-171 | the essay loop fails exactly when the fold fails, and otherwise yields the numbered essays |
| Completion.Traverse | src/models/client/completion.rs:162 | the visited entries are the map's entries in iteration order |
| Completion.Account.constructor | src/client.rs:117-124 | an account holds the given model, temperature, cache and bill, and has sent no request |
| Completion.Account.CountCacheHit | src/models/client/completion.rs:33-34 | a hit raises `cache_retrievals` by one, changes no other counter, and rewrites the bill file |
| Completion.Account.GetCompletion | src/models/client/completion.rs:22-74 | the four outcomes, each stating which of requests, cache and bill change and how: a chat hit returns the cached query marked from cache and counts a retrieval without calling the transport; a non-chat hit returns `RetrievedUnexpectedQueryType` with nothing changed; a miss sends one user-message request, and on failure returns `Error` with cache and bill unchanged; on success it caches and bills the new query, with the elapsed time in seconds |
| Completion.Account.ApplyPromptToPdf | src/models/client/completion.rs:76-148 | a text hit is served without touching the PDF or the transport; a wrong-variant hit panics with no change; a miss opens `PdfPath(dir, title)`, and a failed load returns `Error` and a failed page panics, both with no request sent; otherwise it sends the document request, caches and bills the answer, and returns it |
| Completion.Account.MetaCompleteCache | src/models/client/completion.rs:151-217 | never consults the cache for the prompt; it sends one request whose data is the numbered essays of the text entries in iteration order, or panics before sending when an essay has no content; on success it stores the answer at the meta key, buries any previous meta answer, and bills it, without counting a retrieval |
| Completion.Account.CacheQuery | src/client.rs:232-246 | the query is stored under its own key, whatever key is passed, and a displaced entry is buried; the cache file is rewritten once |
| Completion.Account.RemoveFromCache | src/client.rs:197-211 | a present key is removed and returned with its entry and the cache file is rewritten once; an absent key returns None and changes nothing, the file included |
| Completion.Account.ClearCache | src/client.rs:191-195 | the cache becomes empty, the graveyard is kept and the cache file is rewritten once |
| Completion.RepeatedPromptScenario | src/tests/cache.rs:5-62 | asking the same prompt twice: the first answer is fresh, the second comes from the cache with the same response id; one entry is cached, one query billed and one retrieval counted |
| Rows.Cached | src/models/db/db.rs:5-16 | a query read back is marked from cache and keeps its key and table |
| Rows.AsI32 | src/models/client/database.rs:85 | `as i32` keeps values below 2^31 and otherwise agrees with the input modulo 2^32 |
| Rows.AsU64 | src/models/db/db.rs:11 | `as u64` keeps non-negative values, stays below 2^64, and agrees with the input modulo 2^64 |
| Rows.BuildRecord | src/models/client/database.rs:76-90 | the row carries the cache key and its hash, and belongs to the table of the query's variant |
| Rows.ToQuery | src/models/db/db.rs:5-45 | a row that reads back yields a query marked from cache, of its table's variant |
| Rows.ToQueryFields | src/models/db/db.rs:5-45 | a row reads back exactly when its model name is a known name; it then reads back with its prompt, response, model, title and `process_time` widened to 64 bits |
| Rows.RecordRoundTrip | src/models/db/db.rs:5-45 | writing a query as a row and reading it back gives the same query marked from cache, when its elapsed time is below 2^31 |
| Rows.RecordKeepsKey | src/models/client/database.rs:81 | a row read back has the key it was written under, whatever its elapsed time |
| Rows.ProcessTimeWraps | src/models/client/database.rs:85 | an elapsed time of 2^31 does not survive: it reads back as 2^64 − 2^31 |
| Database.FirstWithHash | src/models/client/database.rs:67 | the found row holds the hash and no earlier row does; None means no row holds it |
| Database.PurgeAll | src/models/client/database.rs:62-75 | the delete pass buries at most one row per visited entry |
| Database.PurgeConservesRows | src/models/client/database.rs:67-75 | the delete pass loses no row: the remaining rows plus the buried ones are exactly the rows before |
| Database.PurgeBuriesOnlyMatches | src/models/client/database.rs:67-75 | every buried row holds the hash of some visited key |
| Database.BatchFor | src/models/client/database.rs:62-152 | each table's batch has at most one row per entry, all of that table's kind and each carrying the hash of its own key |
| Database.BatchesPartition | src/models/client/database.rs:65-150 | the three batches together hold exactly one row per visited entry |
| Database.BatchHoldsEntry | src/models/client/database.rs:76-92 | every visited entry's row is in the batch of its variant |
| Database.Stamp | src/models/client/database.rs:153-155 | a stamped batch has one row per record |
| Database.WriteLosesNoRow | src/models/client/database.rs:52-160 | `insert_cache` loses no earlier row, whichever batches fail: every row is still stored or is in the graveyard |
| Database.WriteStoresEveryEntry | src/models/client/database.rs:52-160 | when every batch succeeds, every visited entry has its row in the table of its variant |
| Database.ToQueries | src/models/client/database.rs:250-252 | the rows convert exactly when every row converts, one query per row in row order |
| Database.KeyedByRows | src/models/client/database.rs:351-359 | the extended map's keys are the old keys plus the rows' `query_key`s |
| Database.KeyedByRowsLastWins | src/models/client/database.rs:351-359 | the last row with a key decides that key |
| Database.KeyedByRowsKeepsOthers | src/models/client/database.rs:351-359 | a key no row holds keeps its earlier entry |
| Database.KeyedByRowsFailurePersists | src/models/client/database.rs:351-359 | once a row fails to convert, the whole read fails |
| Database.MetaRowsWinInReadAll | src/models/client/database.rs:343-362 | in `read_all`, a key held by a meta row maps to the last such meta row, whatever chat and text hold |
| Database.TextRowsBeatChatRowsInReadAll | src/models/client/database.rs:343-362 | in `read_all`, a key held by a text row and no meta row maps to the last such text row |
| Database.MetaQueriesWinMerge | src/models/client/database.rs:250-261 | merging with overwriting lets the last meta query with a key win over chat and text queries |
| Database.MergeKeepsCachedEntries | src/models/client/database.rs:250-261 | merging without overwriting leaves every cached entry as it was |
| Database.Store.constructor | src/models/client/database.rs:33-36 | a store starts from well-formed tables and an empty graveyard |
| Database.Store.InsertBatch | src/models/client/database.rs:153-155 | a batch is appended to its table under consecutive fresh ids; the other tables are unchanged |
| Database.Store.PurgeRow | src/models/client/database.rs:67-75 | the first row of the table holding the hash, if any, is deleted and appended to the graveyard |
| Database.Store.Enqueue | src/models/client/database.rs:92-148 | the record is queued in the batch of its own table only |
| Database.Store.PurgeAndQueue | src/models/client/database.rs:62-152 | the loop leaves the tables and the graveyard as the delete pass specifies, and returns the three batches the queueing specifies |
| Database.Store.InsertBatches | src/models/client/database.rs:153-155 | the batches are inserted chat, text, meta; a failing batch stops the later ones and undoes nothing before it |
| Database.Store.WritePairs | src/models/client/database.rs:58-159 | the delete pass followed by the batch inserts |
| Database.Store.InsertCache | src/models/client/database.rs:52-160 | with no connection, nothing changes; otherwise the tables, graveyard and result are those of the delete pass and batch inserts over the cache's entries in iteration order |
| Database.Store.InsertQuery | src/models/client/database.rs:163-237 | a missing key returns None and writes nothing; otherwise the one new row for the cached query is appended under a fresh id, which is returned; a failed connection or insert panics |
| Database.Store.ReadAllToCache | src/models/client/database.rs:241-268 | returns the entries as they were before, after merging text, chat and meta rows in that order under the chosen policy; a failing read returns an error with the cache unchanged |
| Database.Store.ExtendByRows | src/models/client/database.rs:351-359 | the row loop yields the keyed extension, or fails exactly when it does |
| Database.Store.ReadAll | src/models/client/database.rs:343-362 | a fresh map filled from chat, then text, then meta rows; a failed table read is an error and a missing connection a panic |

## Left out

- Network I/O: the transport, `send_completion_request` and the API key are not modelled. The reply is a parameter.
- PDF parsing: `lopdf` loading and page extraction are not modelled. The load outcome and each page's text are a parameter.
- Files: reads and writes of the cache, bill and graveyard files are ghost state. The JSON byte format is not modelled, and neither are panics when a file cannot be opened.
- Floating point: `f32`/`f64` costs, rates and temperatures are `real`. Rounding is not modelled.
- Integer widths: the `i32` bill and usage counters do not wrap in the model. The `process_time` column is the exception; its wrap-around is explicit.
- Timestamps: `Utc::now()` is one `now` parameter per call.
- `calculate_hash`: an uninterpreted function. The model does not assume that distinct keys hash differently.
- HashMap iteration order: a parameter. Row order from `find().all()` is taken to be table order.
- Row ids: one shared counter stands for the three tables' id sequences. Only freshness is stated.
- Graveyards: the cache's and the store's are two logs. In the source both append to one file, so the model does not capture how the two interleave.
- `clear_cache` (src/client.rs:191-195) follows `HashMap::clear` with `File::create`, which leaves an empty cache file. The model states that the file holds the empty map.
- Database panics mid-loop: the `find` and `delete_by_id` `.expect` calls inside `insert_cache` are taken to succeed once connected.
- `serde_json::from_value(...).unwrap()` on a stored response is not modelled, because a row holds the response value itself.
- Earlier copies of the flows in `src/client.rs` are not modelled separately. The `completion.rs` versions are modelled.
  - `get_completion` (lines 131-187) and `meta_complete_cache` (lines 371-437, whose `title` argument is unused) behave like the modelled ones.
  - `apply_prompt_to_pdf` (lines 307-369) frames its request differently: one user message, "prompt\n\ndoc".
- The `db_*` wrappers in `src/client.rs` (lines 458-605) are not modelled.
- `try_init` and `OpenAIAccount::new`'s reading of the environment and files are not modelled.
- `set_temperature`, `get_bill` and `show_bill` are not modelled: a setter, a getter and printing.
- `get_text_query`, `get_chat_query`, `get_meta_query`, the `delete_*` helpers and `delete_all` are not modelled. They are accessors and bulk deletes outside the get-or-create and sync paths. Note that `get_chat_query` and `get_meta_query` filter by `TextQueryColumn` (database.rs:275, 279).
- `Bill::update`, which the `completion.rs` flows call, is not part of this model. Its behaviour is taken to be that of `update_bill` in `src/client.rs`.
- Rows.RecordRoundTrip: requires an elapsed time below 2^31. At or above that, the `as i32` column wraps, as Rows.ProcessTimeWraps shows.
- Queries.Query.ExpectAsChat, Queries.Query.ExpectAsText, Queries.Query.ExpectAsMeta: the wrong-variant panic is a precondition here. The flows that call `expect_as_text` model the panic as an outcome.
- Completion.Account.MetaCompleteCache: requires `order` to list each cache key once, which is what iterating a HashMap does.
