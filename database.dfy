/**
 * The store adapter: the three completion tables, writing the cache to them
 * (hash-matched delete, then batch insert per table), inserting one cached
 * query, and reading the tables back into a cache or a fresh map.
 */
module Database {
  import opened Wrappers
  import opened Queries
  import opened Caching
  import opened Rows

  /** The three tables' rows, in the order the store returns them. */
  datatype Tables = Tables(chat: seq<Row>, text: seq<Row>, meta: seq<Row>)
  {
    function Get(t: Table): seq<Row>
    {
      match t
      case ChatTable => chat
      case TextTable => text
      case MetaTable => meta
    }

    function Set(t: Table, rows: seq<Row>): (r: Tables)
      ensures r.Get(t) == rows
      ensures forall u: Table | u != t :: r.Get(u) == Get(u)
    {
      match t
      case ChatTable => this.(chat := rows)
      case TextTable => this.(text := rows)
      case MetaTable => this.(meta := rows)
    }

    /** Every row, whatever its table. */
    function All(): multiset<Row>
    {
      multiset(chat) + multiset(text) + multiset(meta)
    }
  }

  /** How a store call fails when it returns an error. */
  datatype StoreError = ConnectFailed | TableFailed(table: Table)

  /**
   * What the database does on this call: whether a connection is made, and
   * whether the statements on each table succeed.
   */
  datatype DbOracle = DbOracle(reachable: bool, chatOk: bool, textOk: bool, metaOk: bool)
  {
    function Ok(t: Table): bool
    {
      match t
      case ChatTable => chatOk
      case TextTable => textOk
      case MetaTable => metaOk
    }
  }

  // ---------------------------------------------------------------------
  // Writing the cache

  /** The first row holding hash `h`: what `find().filter(hash).one()` returns. */
  function FirstWithHash(rows: seq<Row>, h: string): (r: Option<nat>)
    ensures r.Some? ==> r.value < |rows| && rows[r.value].record.queryKeyHash == h
    ensures r.Some? ==> forall j | 0 <= j < r.value :: rows[j].record.queryKeyHash != h
    ensures r.None? ==> forall j | 0 <= j < |rows| :: rows[j].record.queryKeyHash != h
    decreases |rows|
  {
    if rows == [] then None
    else if rows[0].record.queryKeyHash == h then Some(0)
    else
      var rest := FirstWithHash(rows[1..], h);
      if rest.None? then None else Some(rest.value + 1)
  }

  function RemoveAt(rows: seq<Row>, i: nat): seq<Row>
    requires i < |rows|
  {
    rows[..i] + rows[i + 1..]
  }

  /** Removing a row keeps every other row: the removed one and the rest make up the table. */
  lemma RemoveAtSplits(rows: seq<Row>, i: nat)
    requires i < |rows|
    ensures multiset(RemoveAt(rows, i)) + multiset{rows[i]} == multiset(rows)
    ensures forall row | row in RemoveAt(rows, i) :: row in rows
  {
    assert rows == rows[..i] + [rows[i]] + rows[i + 1..];
  }

  /** The tables during the delete pass, and the rows sent to the graveyard so far. */
  datatype Purge = Purge(tables: Tables, buried: seq<Row>)

  /** One entry's delete: the first row of table `t` holding hash `h`, if any, goes to the graveyard. */
  function PurgeOne(p: Purge, t: Table, h: string): Purge
  {
    var rows := p.tables.Get(t);
    match FirstWithHash(rows, h)
    case None => p
    case Some(i) => Purge(p.tables.Set(t, RemoveAt(rows, i)), p.buried + [rows[i]])
  }

  /** A delete step appends to whatever the graveyard already held. */
  lemma PurgeOneAppends(p: Purge, earlier: seq<Row>, t: Table, h: string)
    ensures PurgeOne(Purge(p.tables, earlier + p.buried), t, h)
      == Purge(PurgeOne(p, t, h).tables, earlier + PurgeOne(p, t, h).buried)
  {
    match FirstWithHash(p.tables.Get(t), h) {
      case None =>
      case Some(i) =>
        assert earlier + p.buried + [p.tables.Get(t)[i]] == earlier + (p.buried + [p.tables.Get(t)[i]]);
    }
  }

  /** The delete pass of `insert_cache` over the visited entries, one entry after another. */
  function PurgeAll(start: Tables, ps: seq<(string, Query)>, hash: string -> string): (p: Purge)
    ensures |p.buried| <= |ps|
    decreases |ps|
  {
    if ps == [] then Purge(start, [])
    else
      var (key, q) := ps[|ps| - 1];
      PurgeOne(PurgeAll(start, ps[..|ps| - 1], hash), TableOf(q), hash(key))
  }

  /** The delete pass loses no row: every row that leaves the tables is in the graveyard. */
  lemma {:induction false} PurgeConservesRows(start: Tables, ps: seq<(string, Query)>, hash: string -> string)
    ensures PurgeAll(start, ps, hash).tables.All() + multiset(PurgeAll(start, ps, hash).buried) == start.All()
    decreases |ps|
  {
    if ps != [] {
      var (key, q) := ps[|ps| - 1];
      var prev := PurgeAll(start, ps[..|ps| - 1], hash);
      PurgeConservesRows(start, ps[..|ps| - 1], hash);
      var t := TableOf(q);
      var rows := prev.tables.Get(t);
      var found := FirstWithHash(rows, hash(key));
      if found.Some? {
        RemoveAtSplits(rows, found.value);
        var rest := RemoveAt(rows, found.value);
        var after := prev.tables.Set(t, rest);
        assert after.All() + multiset{rows[found.value]} == prev.tables.All() by {
          match t {
            case ChatTable =>
            case TextTable =>
            case MetaTable =>
          }
        }
      }
    }
  }

  /** Each buried row holds the hash of some visited key. */
  lemma {:induction false} PurgeBuriesOnlyMatches(start: Tables, ps: seq<(string, Query)>, hash: string -> string, j: nat)
    requires j < |PurgeAll(start, ps, hash).buried|
    ensures exists i | 0 <= i < |ps| :: PurgeAll(start, ps, hash).buried[j].record.queryKeyHash == hash(ps[i].0)
    decreases |ps|
  {
    var init := ps[..|ps| - 1];
    var prev := PurgeAll(start, init, hash);
    if j < |prev.buried| {
      PurgeBuriesOnlyMatches(start, init, hash, j);
      var i :| 0 <= i < |init| && prev.buried[j].record.queryKeyHash == hash(init[i].0);
      assert init[i] == ps[i];
    } else {
      assert PurgeAll(start, ps, hash).buried[j].record.queryKeyHash == hash(ps[|ps| - 1].0);
    }
  }

  /**
   * The batch queued for table `t`: one row per visited entry of that
   * variant, in visiting order, each carrying its key and the key's hash.
   */
  function BatchFor(t: Table, ps: seq<(string, Query)>, hash: string -> string, now: int): (b: seq<Record>)
    ensures |b| <= |ps|
    ensures forall j | 0 <= j < |b| :: b[j].kind.Table() == t && b[j].queryKeyHash == hash(b[j].queryKey)
    decreases |ps|
  {
    if ps == [] then []
    else
      var (key, q) := ps[|ps| - 1];
      var prev := BatchFor(t, ps[..|ps| - 1], hash, now);
      if TableOf(q) == t then prev + [BuildRecord(key, hash(key), q, now)] else prev
  }

  /** Each visited entry is queued in exactly one batch: the one of its variant. */
  lemma {:induction false} BatchesPartition(ps: seq<(string, Query)>, hash: string -> string, now: int)
    ensures |BatchFor(ChatTable, ps, hash, now)| + |BatchFor(TextTable, ps, hash, now)|
          + |BatchFor(MetaTable, ps, hash, now)| == |ps|
    decreases |ps|
  {
    if ps != [] {
      BatchesPartition(ps[..|ps| - 1], hash, now);
    }
  }

  /** The row of every visited entry is in the batch of its variant. */
  lemma {:induction false} BatchHoldsEntry(ps: seq<(string, Query)>, hash: string -> string, now: int, i: nat)
    requires i < |ps|
    ensures BuildRecord(ps[i].0, hash(ps[i].0), ps[i].1, now) in BatchFor(TableOf(ps[i].1), ps, hash, now)
    decreases |ps|
  {
    var init := ps[..|ps| - 1];
    if i < |ps| - 1 {
      assert init[i] == ps[i];
      BatchHoldsEntry(init, hash, now, i);
    }
  }

  /** One more visited entry: one more delete step. */
  lemma PurgeAllStep(start: Tables, ps: seq<(string, Query)>, hash: string -> string, i: nat)
    requires i < |ps|
    ensures PurgeAll(start, ps[..i + 1], hash)
      == PurgeOne(PurgeAll(start, ps[..i], hash), TableOf(ps[i].1), hash(ps[i].0))
  {
    assert ps[..i + 1][..i] == ps[..i];
  }

  /** One more visited entry: its row is queued in its own variant's batch only. */
  lemma BatchForStep(t: Table, ps: seq<(string, Query)>, hash: string -> string, now: int, i: nat)
    requires i < |ps|
    ensures BatchFor(t, ps[..i + 1], hash, now)
      == BatchFor(t, ps[..i], hash, now)
         + (if TableOf(ps[i].1) == t then [BuildRecord(ps[i].0, hash(ps[i].0), ps[i].1, now)] else [])
  {
    assert ps[..i + 1][..i] == ps[..i];
  }

  /** A batch inserted from id `start` on: consecutive fresh ids, in batch order. */
  function Stamp(records: seq<Record>, start: int): (rows: seq<Row>)
    ensures |rows| == |records|
  {
    seq(|records|, i requires 0 <= i < |records| => Row(start + i, records[i]))
  }

  /**
   * The tables after the batch inserts of `insert_cache`: chat, text, meta,
   * each batch under the ids that follow the batch before it; a failing
   * batch stops the ones after it and leaves those before it in place.
   */
  function AfterBatches(t: Tables, chatBatch: seq<Record>, textBatch: seq<Record>, metaBatch: seq<Record>,
                        start: int, db: DbOracle): Tables
  {
    Tables(
      t.chat + (if db.chatOk then Stamp(chatBatch, start) else []),
      t.text + (if db.chatOk && db.textOk then Stamp(textBatch, start + |chatBatch|) else []),
      t.meta + (if db.chatOk && db.textOk && db.metaOk
                then Stamp(metaBatch, start + |chatBatch| + |textBatch|) else []))
  }

  /** What `insert_cache` returns once connected: the first failing batch, if any. */
  function BatchesResult(db: DbOracle): Result<(), StoreError>
  {
    if !db.chatOk then Failure(TableFailed(ChatTable))
    else if !db.textOk then Failure(TableFailed(TextTable))
    else if !db.metaOk then Failure(TableFailed(MetaTable))
    else Success(())
  }

  /** Every row is of table `t`'s kind and has an id below `bound`. */
  ghost predicate RowsIn(rows: seq<Row>, t: Table, bound: int)
  {
    forall row | row in rows :: row.record.kind.Table() == t && row.rid < bound
  }

  lemma RowsInRaise(rows: seq<Row>, t: Table, low: int, high: int)
    requires RowsIn(rows, t, low) && low <= high
    ensures RowsIn(rows, t, high)
  {
  }

  /** Appending a stamped batch of `t`'s kind keeps a table well-formed, with the bound moved past the batch. */
  lemma StampKeepsRowsIn(rows: seq<Row>, t: Table, records: seq<Record>, start: int)
    requires RowsIn(rows, t, start)
    requires forall j | 0 <= j < |records| :: records[j].kind.Table() == t
    ensures RowsIn(rows + Stamp(records, start), t, start + |records|)
  {
    var stamped := Stamp(records, start);
    forall row | row in rows + stamped
      ensures row.record.kind.Table() == t && row.rid < start + |records|
    {
      if row !in rows {
        var j :| 0 <= j < |stamped| && stamped[j] == row;
      }
    }
  }

  /**
   * `insert_cache` loses no row, whichever batches fail: every row stored
   * before is still stored or is in the graveyard.
   */
  lemma WriteLosesNoRow(start: Tables, ps: seq<(string, Query)>, hash: string -> string, now: int,
                        rid: int, db: DbOracle)
    ensures var p := PurgeAll(start, ps, hash);
      start.All() <= AfterBatches(p.tables, BatchFor(ChatTable, ps, hash, now), BatchFor(TextTable, ps, hash, now),
                                  BatchFor(MetaTable, ps, hash, now), rid, db).All() + multiset(p.buried)
  {
    PurgeConservesRows(start, ps, hash);
  }

  /** A record of a batch is stored once the batch is appended under fresh ids. */
  lemma StampedHolds(front: seq<Row>, batch: seq<Record>, start: int, record: Record)
    requires record in batch
    ensures exists row | row in front + Stamp(batch, start) :: row.record == record
  {
    var j :| 0 <= j < |batch| && batch[j] == record;
    assert (front + Stamp(batch, start))[|front| + j] == Row(start + j, record);
  }

  /**
   * When every batch succeeds, each visited entry has its row, with its key
   * and the key's hash, in the table of its variant.
   */
  lemma WriteStoresEveryEntry(start: Tables, ps: seq<(string, Query)>, hash: string -> string, now: int,
                              rid: int, db: DbOracle, i: nat)
    requires db.chatOk && db.textOk && db.metaOk && i < |ps|
    ensures var after := AfterBatches(PurgeAll(start, ps, hash).tables, BatchFor(ChatTable, ps, hash, now),
                                      BatchFor(TextTable, ps, hash, now), BatchFor(MetaTable, ps, hash, now), rid, db);
      exists row | row in after.Get(TableOf(ps[i].1)) ::
        row.record == BuildRecord(ps[i].0, hash(ps[i].0), ps[i].1, now)
  {
    var chatBatch := BatchFor(ChatTable, ps, hash, now);
    var textBatch := BatchFor(TextTable, ps, hash, now);
    var metaBatch := BatchFor(MetaTable, ps, hash, now);
    var purged := PurgeAll(start, ps, hash).tables;
    var record := BuildRecord(ps[i].0, hash(ps[i].0), ps[i].1, now);
    BatchHoldsEntry(ps, hash, now, i);
    match TableOf(ps[i].1) {
      case ChatTable => StampedHolds(purged.chat, chatBatch, rid, record);
      case TextTable => StampedHolds(purged.text, textBatch, rid + |chatBatch|, record);
      case MetaTable => StampedHolds(purged.meta, metaBatch, rid + |chatBatch| + |textBatch|, record);
    }
  }

  // ---------------------------------------------------------------------
  // Reading back

  /** The rows' queries in row order, or `None` where some row's `to_query` panics. */
  function ToQueries(rows: seq<Row>): (r: Option<seq<Query>>)
    ensures r.Some? <==> forall i | 0 <= i < |rows| :: ToQuery(rows[i].record).Some?
    ensures r.Some? ==> |r.value| == |rows|
    ensures r.Some? ==> forall i | 0 <= i < |rows| :: r.value[i] == ToQuery(rows[i].record).value
    decreases |rows|
  {
    if rows == [] then Some([])
    else
      var prev := ToQueries(rows[..|rows| - 1]);
      var last := ToQuery(rows[|rows| - 1].record);
      if prev.None? || last.None? then None else Some(prev.value + [last.value])
  }

  /** The queries `read_all_to_cache` merges: text rows, then chat rows, then meta rows. */
  function MergeOrder(tables: Tables): Option<seq<Query>>
  {
    var text := ToQueries(tables.text);
    var chat := ToQueries(tables.chat);
    var meta := ToQueries(tables.meta);
    if text.None? || chat.None? || meta.None? then None
    else Some(text.value + chat.value + meta.value)
  }

  /** Extending `m` with each row at its `query_key`, or `None` where a row's `to_query` panics. */
  function KeyedByRows(m: Entries, rows: seq<Row>): (r: Option<Entries>)
    ensures r.Some? ==> r.value.Keys == m.Keys + (set i | 0 <= i < |rows| :: rows[i].record.queryKey)
    decreases |rows|
  {
    if rows == [] then Some(m)
    else
      var init := rows[..|rows| - 1];
      var row := rows[|rows| - 1];
      var prev := KeyedByRows(m, init);
      var q := ToQuery(row.record);
      if prev.None? || q.None? then None
      else
        assert (set i | 0 <= i < |rows| :: rows[i].record.queryKey)
            == (set i | 0 <= i < |init| :: init[i].record.queryKey) + {row.record.queryKey} by {
          assert forall i | 0 <= i < |init| :: init[i] == rows[i];
        }
        Some(prev.value[row.record.queryKey := q.value])
  }

  /** The map `read_all` returns: chat rows, then text rows, then meta rows, each at its `query_key`. */
  function ReadAllMap(tables: Tables): Option<Entries>
  {
    var afterChat := KeyedByRows(map[], tables.chat);
    if afterChat.None? then None
    else
      var afterText := KeyedByRows(afterChat.value, tables.text);
      if afterText.None? then None else KeyedByRows(afterText.value, tables.meta)
  }

  /** In a keyed extension, the last row with a key decides that key. */
  lemma {:induction false} KeyedByRowsLastWins(m: Entries, rows: seq<Row>, i: nat)
    requires i < |rows| && KeyedByRows(m, rows).Some?
    requires forall j | i < j < |rows| :: rows[j].record.queryKey != rows[i].record.queryKey
    ensures ToQuery(rows[i].record).Some? && rows[i].record.queryKey in KeyedByRows(m, rows).value
    ensures KeyedByRows(m, rows).value[rows[i].record.queryKey] == ToQuery(rows[i].record).value
    decreases |rows|
  {
    if i < |rows| - 1 {
      var init := rows[..|rows| - 1];
      assert init[i] == rows[i];
      KeyedByRowsLastWins(m, init, i);
    }
  }

  /** A key no row holds keeps its earlier entry. */
  lemma {:induction false} KeyedByRowsKeepsOthers(m: Entries, rows: seq<Row>, k: string)
    requires k in m && KeyedByRows(m, rows).Some?
    requires forall j | 0 <= j < |rows| :: rows[j].record.queryKey != k
    ensures k in KeyedByRows(m, rows).value && KeyedByRows(m, rows).value[k] == m[k]
    decreases |rows|
  {
    if rows != [] {
      KeyedByRowsKeepsOthers(m, rows[..|rows| - 1], k);
    }
  }

  /** Once a row's `to_query` panics, the keyed extension fails whatever follows. */
  lemma {:induction false} KeyedByRowsFailurePersists(m: Entries, rows: seq<Row>, i: nat)
    requires i <= |rows| && KeyedByRows(m, rows[..i]).None?
    ensures KeyedByRows(m, rows).None?
    decreases |rows| - i
  {
    if i < |rows| {
      assert rows[..i + 1][..i] == rows[..i];
      KeyedByRowsFailurePersists(m, rows, i + 1);
    } else {
      assert rows[..i] == rows;
    }
  }

  /**
   * `read_all` lets a later table win: a key held by a meta row maps to the
   * last such meta row, whatever the chat and text tables hold at that key.
   */
  lemma MetaRowsWinInReadAll(tables: Tables, i: nat)
    requires ReadAllMap(tables).Some? && i < |tables.meta|
    requires forall j | i < j < |tables.meta| :: tables.meta[j].record.queryKey != tables.meta[i].record.queryKey
    ensures var key := tables.meta[i].record.queryKey;
      && ToQuery(tables.meta[i].record).Some? && key in ReadAllMap(tables).value
      && ReadAllMap(tables).value[key] == ToQuery(tables.meta[i].record).value
  {
    var afterChat := KeyedByRows(map[], tables.chat);
    var afterText := KeyedByRows(afterChat.value, tables.text);
    assert ReadAllMap(tables) == KeyedByRows(afterText.value, tables.meta);
    KeyedByRowsLastWins(afterText.value, tables.meta, i);
  }

  /**
   * ... and a key held by a text row and no meta row maps to the last such
   * text row, whatever the chat table holds at that key.
   */
  lemma TextRowsBeatChatRowsInReadAll(tables: Tables, i: nat)
    requires ReadAllMap(tables).Some? && i < |tables.text|
    requires forall j | i < j < |tables.text| :: tables.text[j].record.queryKey != tables.text[i].record.queryKey
    requires forall j | 0 <= j < |tables.meta| :: tables.meta[j].record.queryKey != tables.text[i].record.queryKey
    ensures var key := tables.text[i].record.queryKey;
      && ToQuery(tables.text[i].record).Some? && key in ReadAllMap(tables).value
      && ReadAllMap(tables).value[key] == ToQuery(tables.text[i].record).value
  {
    var afterChat := KeyedByRows(map[], tables.chat);
    var afterText := KeyedByRows(afterChat.value, tables.text);
    assert ReadAllMap(tables) == KeyedByRows(afterText.value, tables.meta);
    KeyedByRowsLastWins(afterChat.value, tables.text, i);
    KeyedByRowsKeepsOthers(afterText.value, tables.meta, tables.text[i].record.queryKey);
  }

  /** With overwriting, the last query of a batch's final segment with a given key wins. */
  lemma SuffixLastWins(m: Entries, front: seq<Query>, back: seq<Query>, i: nat)
    requires i < |back|
    requires forall j | i < j < |back| :: back[j].Key() != back[i].Key()
    ensures back[i].Key() in PutAll(m, front + back) && PutAll(m, front + back)[back[i].Key()] == back[i]
  {
    var qs := front + back;
    assert qs[|front| + i] == back[i];
    forall j | |front| + i < j < |qs| ensures qs[j].Key() != qs[|front| + i].Key() {
      assert qs[j] == back[j - |front|];
    }
    PutAllLastWins(m, qs, |front| + i);
  }

  /**
   * Merging the store into the cache with overwriting lets a meta query win
   * over chat and text queries under the same key: the last meta query with
   * a key is what the cache holds there.
   */
  lemma MetaQueriesWinMerge(m: Entries, tables: Tables, i: nat)
    requires MergeOrder(tables).Some? && ToQueries(tables.meta).Some? && i < |ToQueries(tables.meta).value|
    requires forall j | i < j < |ToQueries(tables.meta).value| ::
      ToQueries(tables.meta).value[j].Key() != ToQueries(tables.meta).value[i].Key()
    ensures var q := ToQueries(tables.meta).value[i];
      q.Key() in PutAll(m, MergeOrder(tables).value) && PutAll(m, MergeOrder(tables).value)[q.Key()] == q
  {
    var front := ToQueries(tables.text).value + ToQueries(tables.chat).value;
    assert MergeOrder(tables).value == front + ToQueries(tables.meta).value;
    SuffixLastWins(m, front, ToQueries(tables.meta).value, i);
  }

  /** Merging the store into the cache without overwriting leaves every cached entry as it was. */
  lemma MergeKeepsCachedEntries(m: Entries, tables: Tables)
    requires MergeOrder(tables).Some?
    ensures forall k | k in m ::
      k in PutAbsent(m, MergeOrder(tables).value) && PutAbsent(m, MergeOrder(tables).value)[k] == m[k]
  {
    forall k | k in m
      ensures k in PutAbsent(m, MergeOrder(tables).value) && PutAbsent(m, MergeOrder(tables).value)[k] == m[k]
    {
      PutAbsentKeepsPresent(m, MergeOrder(tables).value, k);
    }
  }

  class Store {
    var tables: Tables
    /** The next id the tables assign. */
    var nextRid: int
    /** Every row `insert_cache` deleted and appended to the graveyard file. */
    ghost var graveyard: seq<Row>
    /** `calculate_hash` on cache keys. */
    const hash: string -> string

    /** Rows sit in the table of their kind, and every id was assigned before `nextRid`. */
    ghost predicate Valid()
      reads this
    {
      && RowsIn(tables.chat, ChatTable, nextRid)
      && RowsIn(tables.text, TextTable, nextRid)
      && RowsIn(tables.meta, MetaTable, nextRid)
    }

    constructor (tables: Tables, nextRid: int, hash: string -> string)
      requires RowsIn(tables.chat, ChatTable, nextRid) && RowsIn(tables.text, TextTable, nextRid)
      requires RowsIn(tables.meta, MetaTable, nextRid)
      ensures Valid() && this.tables == tables && this.nextRid == nextRid && this.hash == hash
      ensures graveyard == []
    {
      this.tables := tables;
      this.nextRid := nextRid;
      this.hash := hash;
      graveyard := [];
    }

    /** Appends `records` to table `t` under fresh ids. */
    method InsertBatch(t: Table, records: seq<Record>)
      requires Valid()
      requires forall j | 0 <= j < |records| :: records[j].kind.Table() == t
      modifies this
      ensures Valid() && graveyard == old(graveyard)
      ensures tables.Get(t) == old(tables).Get(t) + Stamp(records, old(nextRid))
      ensures t != ChatTable ==> tables.chat == old(tables.chat)
      ensures t != TextTable ==> tables.text == old(tables.text)
      ensures t != MetaTable ==> tables.meta == old(tables.meta)
      ensures nextRid == old(nextRid) + |records|
    {
      var rows := Stamp(records, nextRid);
      var bound := nextRid + |records|;
      StampKeepsRowsIn(tables.Get(t), t, records, nextRid);
      RowsInRaise(tables.chat, ChatTable, nextRid, bound);
      RowsInRaise(tables.text, TextTable, nextRid, bound);
      RowsInRaise(tables.meta, MetaTable, nextRid, bound);
      tables := tables.Set(t, tables.Get(t) + rows);
      nextRid := bound;
    }

    /** One entry's delete: the first row of table `t` holding hash `h`, if any, is deleted and buried. */
    method PurgeRow(t: Table, h: string)
      requires Valid()
      modifies this
      ensures Valid() && nextRid == old(nextRid)
      ensures Purge(tables, graveyard) == PurgeOne(Purge(old(tables), old(graveyard)), t, h)
    {
      var rows := tables.Get(t);
      var found := FirstWithHash(rows, h);
      if found.Some? {
        RemoveAtSplits(rows, found.value);
        graveyard := graveyard + [rows[found.value]];
        tables := tables.Set(t, RemoveAt(rows, found.value));
      }
    }

    /** Queues `record` in the batch of table `t`. */
    static method Enqueue(t: Table, record: Record, chatBatch: seq<Record>, textBatch: seq<Record>,
                          metaBatch: seq<Record>)
      returns (chat: seq<Record>, text: seq<Record>, meta: seq<Record>)
      ensures chat == chatBatch + (if t == ChatTable then [record] else [])
      ensures text == textBatch + (if t == TextTable then [record] else [])
      ensures meta == metaBatch + (if t == MetaTable then [record] else [])
    {
      chat, text, meta := chatBatch, textBatch, metaBatch;
      match t {
        case ChatTable => chat := chat + [record];
        case TextTable => text := text + [record];
        case MetaTable => meta := meta + [record];
      }
    }

    /**
     * The loop of `insert_cache`: for each visited entry, the first row of
     * its variant's table with the same key hash is deleted and buried, and
     * the entry's new row is queued in that variant's batch.
     */
    method PurgeAndQueue(ps: seq<(string, Query)>, now: int)
      returns (chatBatch: seq<Record>, textBatch: seq<Record>, metaBatch: seq<Record>)
      requires Valid()
      modifies this
      ensures Valid() && nextRid == old(nextRid)
      ensures tables == PurgeAll(old(tables), ps, hash).tables
      ensures graveyard == old(graveyard) + PurgeAll(old(tables), ps, hash).buried
      ensures chatBatch == BatchFor(ChatTable, ps, hash, now)
      ensures textBatch == BatchFor(TextTable, ps, hash, now)
      ensures metaBatch == BatchFor(MetaTable, ps, hash, now)
    {
      chatBatch, textBatch, metaBatch := [], [], [];
      ghost var p := Purge(tables, []);
      var i := 0;
      while i < |ps|
        invariant 0 <= i <= |ps|
        invariant Valid() && nextRid == old(nextRid)
        invariant p == PurgeAll(old(tables), ps[..i], hash)
        invariant tables == p.tables && graveyard == old(graveyard) + p.buried
        invariant chatBatch == BatchFor(ChatTable, ps[..i], hash, now)
        invariant textBatch == BatchFor(TextTable, ps[..i], hash, now)
        invariant metaBatch == BatchFor(MetaTable, ps[..i], hash, now)
      {
        var key := ps[i].0;
        var q := ps[i].1;
        var h := hash(key);
        var t := TableOf(q);
        PurgeAllStep(old(tables), ps, hash, i);
        PurgeOneAppends(p, old(graveyard), t, h);
        PurgeRow(t, h);
        p := PurgeOne(p, t, h);
        BatchForStep(ChatTable, ps, hash, now, i);
        BatchForStep(TextTable, ps, hash, now, i);
        BatchForStep(MetaTable, ps, hash, now, i);
        chatBatch, textBatch, metaBatch := Enqueue(t, BuildRecord(key, h, q, now), chatBatch, textBatch, metaBatch);
        i := i + 1;
      }
      assert ps[..|ps|] == ps;
    }

    /**
     * The three batch inserts of `insert_cache`: chat, text, meta; a failing
     * batch stops the rest and nothing inserted before it is undone.
     */
    method InsertBatches(chatBatch: seq<Record>, textBatch: seq<Record>, metaBatch: seq<Record>, db: DbOracle)
      returns (r: Result<(), StoreError>)
      requires Valid()
      requires forall j | 0 <= j < |chatBatch| :: chatBatch[j].kind.Table() == ChatTable
      requires forall j | 0 <= j < |textBatch| :: textBatch[j].kind.Table() == TextTable
      requires forall j | 0 <= j < |metaBatch| :: metaBatch[j].kind.Table() == MetaTable
      modifies this
      ensures Valid() && graveyard == old(graveyard)
      ensures tables == AfterBatches(old(tables), chatBatch, textBatch, metaBatch, old(nextRid), db)
      ensures r == BatchesResult(db)
    {
      if !db.chatOk {
        return Failure(TableFailed(ChatTable));
      }
      InsertBatch(ChatTable, chatBatch);
      if !db.textOk {
        return Failure(TableFailed(TextTable));
      }
      InsertBatch(TextTable, textBatch);
      if !db.metaOk {
        return Failure(TableFailed(MetaTable));
      }
      InsertBatch(MetaTable, metaBatch);
      r := Success(());
    }

    /**
     * The work of `insert_cache` once connected, over the cache's entries in
     * visiting order: the delete-and-queue pass, then the batch inserts.
     */
    method WritePairs(ps: seq<(string, Query)>, db: DbOracle, now: int)
      returns (r: Result<(), StoreError>)
      requires Valid()
      modifies this
      ensures Valid()
      ensures
        var p := PurgeAll(old(tables), ps, hash);
        && graveyard == old(graveyard) + p.buried
        && tables == AfterBatches(p.tables, BatchFor(ChatTable, ps, hash, now), BatchFor(TextTable, ps, hash, now),
                                  BatchFor(MetaTable, ps, hash, now), old(nextRid), db)
        && r == BatchesResult(db)
    {
      var chatBatch, textBatch, metaBatch := PurgeAndQueue(ps, now);
      r := InsertBatches(chatBatch, textBatch, metaBatch, db);
    }

    /**
     * `insert_cache`: connects, then visits the cache's entries in `order`.
     * For each, the first row of its variant's table with the same key hash
     * is deleted and buried, and a new row is queued in that variant's
     * batch; the batches are then inserted chat, text, meta. A failing batch
     * stops the rest and nothing done before it is undone.
     */
    method InsertCache(cache: Cache, order: seq<string>, db: DbOracle, now: int)
      returns (r: Result<(), StoreError>)
      requires Valid() && Enumerates(order, cache.entries)
      modifies this
      ensures Valid()
      ensures !db.reachable ==>
        r == Failure(ConnectFailed)
        && tables == old(tables) && nextRid == old(nextRid) && graveyard == old(graveyard)
      ensures db.reachable ==>
        var ps := Visit(cache.entries, order);
        var p := PurgeAll(old(tables), ps, hash);
        && graveyard == old(graveyard) + p.buried
        && tables == AfterBatches(p.tables, BatchFor(ChatTable, ps, hash, now), BatchFor(TextTable, ps, hash, now),
                                  BatchFor(MetaTable, ps, hash, now), old(nextRid), db)
        && r == BatchesResult(db)
    {
      if !db.reachable {
        return Failure(ConnectFailed);
      }
      r := WritePairs(Visit(cache.entries, order), db, now);
    }

    /**
     * `insert_query`: the query cached at `cacheKey` is inserted as one new
     * row, with no check for rows already holding that key. A missing key
     * writes nothing; a failed connection or insert panics.
     */
    method InsertQuery(cacheKey: string, cache: Cache, db: DbOracle, now: int)
      returns (r: Outcome<Option<int>, StoreError>)
      requires Valid()
      modifies this
      ensures Valid() && graveyard == old(graveyard) && !r.Err?
      ensures !r.Ok? || r.value.None? ==> tables == old(tables) && nextRid == old(nextRid)
      ensures !db.reachable ==> r.Panic?
      ensures db.reachable && cacheKey !in cache.entries ==> r == Ok(None)
      ensures db.reachable && cacheKey in cache.entries ==>
        var q := cache.entries[cacheKey];
        var t := TableOf(q);
        && (!db.Ok(t) ==> r.Panic?)
        && (db.Ok(t) ==>
              && r == Ok(Some(old(nextRid)))
              && tables == old(tables).Set(t, old(tables).Get(t)
                   + [Row(old(nextRid), BuildRecord(cacheKey, hash(cacheKey), q, now))])
              && nextRid == old(nextRid) + 1)
      ensures r.Ok? && r.value.Some? ==>
        forall t: Table, row | row in old(tables).Get(t) :: row.rid != r.value.value
    {
      if !db.reachable {
        return Panic("database connection");
      }
      var hit := cache.Get(cacheKey);
      if hit.None? {
        return Ok(None);
      }
      var q := hit.value;
      var t := TableOf(q);
      if !db.Ok(t) {
        return Panic("insertion of ActiveModel to db during .insert_query()");
      }
      var rid := nextRid;
      InsertBatch(t, [BuildRecord(cacheKey, hash(cacheKey), q, now)]);
      r := Ok(Some(rid));
    }

    /**
     * `read_all_to_cache`: reads the text, chat and meta tables, converts
     * their rows, and merges the queries in that order into the cache with
     * the given policy. Returns the entries as they were before the merge.
     */
    method ReadAllToCache(cache: Cache, overwrite: bool, db: DbOracle)
      returns (r: Outcome<Entries, StoreError>)
      requires cache.Valid()
      modifies cache
      ensures cache.Valid()
      ensures !db.reachable ==> r == Err(ConnectFailed)
      ensures db.reachable && !(db.textOk && db.chatOk && db.metaOk) ==>
        r == Err(TableFailed(if !db.textOk then TextTable else if !db.chatOk then ChatTable else MetaTable))
      ensures db.reachable && db.textOk && db.chatOk && db.metaOk && MergeOrder(tables).None? ==> r.Panic?
      ensures !r.Ok? ==>
        cache.entries == old(cache.entries) && cache.graveyard == old(cache.graveyard)
        && cache.writes == old(cache.writes)
      ensures r.Ok? ==>
        && db.reachable && MergeOrder(tables).Some?
        && r.value == old(cache.entries)
        && (overwrite ==> cache.entries == PutAll(old(cache.entries), MergeOrder(tables).value))
        && (!overwrite ==> cache.entries == PutAbsent(old(cache.entries), MergeOrder(tables).value))
        && cache.writes == old(cache.writes) + 1
    {
      if !db.reachable {
        return Err(ConnectFailed);
      }
      var previous := cache.entries;
      if !db.textOk {
        return Err(TableFailed(TextTable));
      }
      if !db.chatOk {
        return Err(TableFailed(ChatTable));
      }
      if !db.metaOk {
        return Err(TableFailed(MetaTable));
      }
      var textQueries := ToQueries(tables.text);
      var chatQueries := ToQueries(tables.chat);
      var metaQueries := ToQueries(tables.meta);
      if textQueries.None? || chatQueries.None? || metaQueries.None? {
        return Panic("invalid model string");
      }
      cache.InsertMany(textQueries.value + chatQueries.value + metaQueries.value, overwrite);
      r := Ok(previous);
    }

    /** The loop of `read_all` over one table: each row's query at the row's `query_key`. */
    method ExtendByRows(m: Entries, rows: seq<Row>) returns (r: Option<Entries>)
      ensures r == KeyedByRows(m, rows)
    {
      var acc := m;
      var i := 0;
      while i < |rows|
        invariant 0 <= i <= |rows|
        invariant KeyedByRows(m, rows[..i]) == Some(acc)
      {
        assert rows[..i + 1][..i] == rows[..i];
        var q := ToQuery(rows[i].record);
        if q.None? {
          KeyedByRowsFailurePersists(m, rows, i + 1);
          return None;
        }
        acc := acc[rows[i].record.queryKey := q.value];
        i := i + 1;
      }
      assert rows[..|rows|] == rows;
      r := Some(acc);
    }

    /**
     * `read_all`: a fresh map of the store, keyed by each row's `query_key`,
     * filled from the chat, then text, then meta table.
     */
    method ReadAll(db: DbOracle) returns (r: Outcome<Entries, StoreError>)
      ensures !db.reachable ==> r.Panic?
      ensures db.reachable && !(db.chatOk && db.textOk && db.metaOk) ==>
        r == Err(TableFailed(if !db.chatOk then ChatTable else if !db.textOk then TextTable else MetaTable))
      ensures db.reachable && db.chatOk && db.textOk && db.metaOk ==>
        (if ReadAllMap(tables).Some? then r == Ok(ReadAllMap(tables).value) else r.Panic?)
    {
      if !db.reachable {
        return Panic("no connection");
      }
      if !db.chatOk {
        return Err(TableFailed(ChatTable));
      }
      if !db.textOk {
        return Err(TableFailed(TextTable));
      }
      if !db.metaOk {
        return Err(TableFailed(MetaTable));
      }
      var afterChat := ExtendByRows(map[], tables.chat);
      if afterChat.None? {
        return Panic("invalid model string");
      }
      var afterText := ExtendByRows(afterChat.value, tables.text);
      if afterText.None? {
        return Panic("invalid model string");
      }
      var afterMeta := ExtendByRows(afterText.value, tables.meta);
      if afterMeta.None? {
        return Panic("invalid model string");
      }
      r := Ok(afterMeta.value);
    }
  }
}
