/**
 * Rows of the three completion tables (`chat_completions`,
 * `text_completions`, `meta_completions`) and their conversion to and from
 * queries.
 */
module Rows {
  import opened Wrappers
  import opened GptModels
  import opened Responses
  import opened Queries
  import MS = ModelStrings

  /** A value of a 32-bit signed column. */
  newtype i32 = x: int | -0x8000_0000 <= x < 0x8000_0000

  const U64Modulus: int := 0x1_0000_0000_0000_0000

  datatype Table = ChatTable | TextTable | MetaTable

  /** Which table a row belongs to; only text rows have a `document_title` column. */
  datatype RowKind = ChatRow | TextRow(documentTitle: string) | MetaRow
  {
    function Table(): Table
    {
      match this
      case ChatRow => ChatTable
      case TextRow(_) => TextTable
      case MetaRow => MetaTable
    }
  }

  /** The column values of a row other than its id: an active model with `rid` not set. */
  datatype Record = Record(
    kind: RowKind,
    timestamp: int,
    model: string,
    temperature: real,
    prompt: string,
    queryKey: string,
    queryKeyHash: string,
    promptTokens: int,
    completionTokens: int,
    totalTokens: int,
    processTime: i32,
    response: Response,
    cost: real)

  /** A stored row: the id the table assigned, and the column values. */
  datatype Row = Row(rid: int, record: Record)

  /** The table a query is written to. */
  function TableOf(q: Query): Table
  {
    match q
    case Chat(_) => ChatTable
    case Text(_) => TextTable
    case Meta(_) => MetaTable
  }

  function ProcessTimeOf(q: Query): nat
  {
    match q
    case Chat(c) => c.processTime
    case Text(t) => t.processTime
    case Meta(m) => m.processTime
  }

  /** The query as the store hands it back: marked as coming from the cache. */
  function Cached(q: Query): (r: Query)
    ensures r.FromCache() && r.Key() == q.Key() && TableOf(r) == TableOf(q)
  {
    match q
    case Chat(c) => Chat(c.(fromCache := true))
    case Text(t) => Text(t.(fromCache := true))
    case Meta(m) => Meta(m.(fromCache := true))
  }

  /** `x as i32` on a `u64`: the low 32 bits read as two's complement. */
  function AsI32(x: nat): (r: i32)
    ensures x < 0x8000_0000 ==> r as int == x
    ensures (x - r as int) % 0x1_0000_0000 == 0
  {
    var low := x % 0x1_0000_0000;
    if low < 0x8000_0000 then low as i32 else (low - 0x1_0000_0000) as i32
  }

  /** `x as u64` on an `i32`: a negative value wraps to the top of the `u64` range. */
  function AsU64(x: i32): (r: nat)
    ensures r < U64Modulus
    ensures x >= 0 ==> r == x as int
    ensures (r - x as int) % U64Modulus == 0
  {
    if x < 0 then x as int + U64Modulus else x as int
  }

  /**
   * The row written for query `q` kept at `cacheKey`: the key and its hash,
   * the model name, the usage counts, the elapsed time cast to 32 bits, the
   * response, the cost.
   */
  function BuildRecord(cacheKey: string, keyHash: string, q: Query, now: int): (r: Record)
    ensures r.queryKey == cacheKey && r.queryKeyHash == keyHash
    ensures r.kind.Table() == TableOf(q)
  {
    var usage := q.ResponseOf().usage;
    var kind := match q
      case Chat(_) => ChatRow
      case Text(t) => TextRow(t.documentTitle)
      case Meta(_) => MetaRow;
    var temperature := match q
      case Chat(c) => c.temperature
      case Text(t) => t.temperature
      case Meta(m) => m.temperature;
    var cost := match q
      case Chat(c) => c.cost
      case Text(t) => t.cost
      case Meta(m) => m.cost;
    Record(kind, now, ToString(q.ModelOf()), temperature, q.PromptOf(), cacheKey, keyHash,
           usage.promptTokens, usage.completionTokens, usage.totalTokens,
           AsI32(ProcessTimeOf(q)), q.ResponseOf(), cost)
  }

  /**
   * `to_query`: the query a row reads back as, or `None` where the row's
   * model name is not one of the known names (`from_string` panics there).
   */
  function ToQuery(r: Record): (q: Option<Query>)
    ensures q.Some? ==> q.value.FromCache() && TableOf(q.value) == r.kind.Table()
  {
    match FromStr(r.model)
    case None => None
    case Some(m) =>
      var elapsed := AsU64(r.processTime);
      match r.kind
      case ChatRow =>
        Some(Chat(ChatQuery(r.prompt, r.cost, r.response, elapsed, m, r.temperature, true)))
      case TextRow(title) =>
        Some(Text(TextQuery(r.prompt, r.cost, r.response, elapsed, m, title, r.temperature, true)))
      case MetaRow =>
        Some(Meta(MetaQuery(r.prompt, r.cost, r.response, elapsed, m, r.temperature, true)))
  }

  /**
   * A row reads back exactly when its model name is one of the known names,
   * and then with the row's prompt, document title, response and model, and
   * its elapsed time widened to 64 bits.
   */
  lemma ToQueryFields(r: Record)
    ensures ToQuery(r).Some? <==> r.model in MS.AllModelStrings()
    ensures ToQuery(r).Some? ==>
      && ToQuery(r).value.PromptOf() == r.prompt
      && ToQuery(r).value.ResponseOf() == r.response
      && ToString(ToQuery(r).value.ModelOf()) == r.model
      && ProcessTimeOf(ToQuery(r).value) == AsU64(r.processTime)
    ensures ToQuery(r).Some? && r.kind.TextRow? ==> ToQuery(r).value.text.documentTitle == r.kind.documentTitle
  {
    if r.model in MS.AllModelStrings() {
      ToStringFromStr(r.model);
    }
  }

  /**
   * Writing a query and reading it back gives the same query, marked as
   * cached, as long as its elapsed time fits the 32-bit column.
   */
  lemma RecordRoundTrip(cacheKey: string, keyHash: string, q: Query, now: int)
    requires ProcessTimeOf(q) < 0x8000_0000
    ensures ToQuery(BuildRecord(cacheKey, keyHash, q, now)) == Some(Cached(q))
  {
    FromStrToString(q.ModelOf());
  }

  /** A row read back is found under the key it was written at, whatever its elapsed time. */
  lemma RecordKeepsKey(q: Query, keyHash: string, now: int)
    ensures ToQuery(BuildRecord(q.Key(), keyHash, q, now)).Some?
    ensures ToQuery(BuildRecord(q.Key(), keyHash, q, now)).value.Key() == q.Key()
  {
    FromStrToString(q.ModelOf());
  }

  /**
   * An elapsed time of 2^31 or more does not survive: 2^31 is written as
   * -2^31 and read back near the top of the `u64` range.
   */
  lemma ProcessTimeWraps(cacheKey: string, keyHash: string, q: Query, now: int)
    requires ProcessTimeOf(q) == 0x8000_0000
    ensures ToQuery(BuildRecord(cacheKey, keyHash, q, now)).Some?
    ensures ProcessTimeOf(ToQuery(BuildRecord(cacheKey, keyHash, q, now)).value)
      == U64Modulus - 0x8000_0000
  {
    FromStrToString(q.ModelOf());
  }
}
