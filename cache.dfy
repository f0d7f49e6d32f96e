/**
 * The prompt-keyed result cache: a map from cache key to query, a durable
 * mirror rewritten after each mutation, and an append-only graveyard that
 * receives every entry displaced by an overwrite.
 */
module Caching {
  import opened Wrappers
  import opened Queries

  type Entries = map<string, Query>

  /** Every entry is stored under its own key. */
  ghost predicate WellKeyed(m: Entries)
  {
    forall k | k in m :: m[k].Key() == k
  }

  /** The keys a batch of queries is stored under. */
  function KeysOf(qs: seq<Query>): set<string>
  {
    set i | 0 <= i < |qs| :: qs[i].Key()
  }

  /** What the graveyard receives when `q` is inserted into `m`. */
  function Displaced(m: Entries, q: Query): seq<Query>
  {
    if q.Key() in m then [m[q.Key()]] else []
  }

  /** Inserting each of `qs` in order, overwriting (the `overwrite = true` policy). */
  function PutAll(m: Entries, qs: seq<Query>): (r: Entries)
    ensures r.Keys == m.Keys + KeysOf(qs)
    ensures forall k | k in m && k !in KeysOf(qs) :: r[k] == m[k]
    decreases |qs|
  {
    if qs == [] then m
    else
      var init := qs[..|qs| - 1];
      assert KeysOf(qs) == KeysOf(init) + {qs[|qs| - 1].Key()} by {
        assert forall i | 0 <= i < |init| :: init[i] == qs[i];
      }
      PutAll(m, init)[qs[|qs| - 1].Key() := qs[|qs| - 1]]
  }

  /** The entries the overwriting batch displaces, in the order it displaces them. */
  function DisplacedAll(m: Entries, qs: seq<Query>): seq<Query>
    decreases |qs|
  {
    if qs == [] then []
    else
      var init := qs[..|qs| - 1];
      DisplacedAll(m, init) + Displaced(PutAll(m, init), qs[|qs| - 1])
  }

  /** Inserting each of `qs` in order, skipping present keys (the `overwrite = false` policy). */
  function PutAbsent(m: Entries, qs: seq<Query>): (r: Entries)
    ensures r.Keys == m.Keys + KeysOf(qs)
    decreases |qs|
  {
    if qs == [] then m
    else
      var init := qs[..|qs| - 1];
      var q := qs[|qs| - 1];
      assert KeysOf(qs) == KeysOf(init) + {q.Key()} by {
        assert forall i | 0 <= i < |init| :: init[i] == qs[i];
      }
      var r := PutAbsent(m, init);
      if q.Key() in r then r else r[q.Key() := q]
  }

  /**
   * An overwriting batch is `Insert` folded over the batch in order: one more
   * query updates the map and the graveyard exactly as a single insert would.
   */
  lemma InsertManyIsInsertFold(m: Entries, qs: seq<Query>, q: Query)
    ensures PutAll(m, qs + [q]) == PutAll(m, qs)[q.Key() := q]
    ensures DisplacedAll(m, qs + [q]) == DisplacedAll(m, qs) + Displaced(PutAll(m, qs), q)
  {
    assert (qs + [q])[..|qs|] == qs;
  }

  /** With overwriting, the last query of the batch with a given key wins. */
  lemma {:induction false} PutAllLastWins(m: Entries, qs: seq<Query>, i: nat)
    requires i < |qs|
    requires forall j | i < j < |qs| :: qs[j].Key() != qs[i].Key()
    ensures qs[i].Key() in PutAll(m, qs) && PutAll(m, qs)[qs[i].Key()] == qs[i]
    decreases |qs|
  {
    if i < |qs| - 1 {
      var init := qs[..|qs| - 1];
      PutAllLastWins(m, init, i);
    }
  }

  /** Without overwriting, a key present before the batch keeps its entry. */
  lemma {:induction false} PutAbsentKeepsPresent(m: Entries, qs: seq<Query>, k: string)
    requires k in m
    ensures PutAbsent(m, qs)[k] == m[k]
    decreases |qs|
  {
    if qs != [] {
      PutAbsentKeepsPresent(m, qs[..|qs| - 1], k);
    }
  }

  /**
   * Without overwriting, the first query of the batch with a fresh key wins,
   * even against later queries of the same batch.
   */
  lemma {:induction false} PutAbsentFirstWins(m: Entries, qs: seq<Query>, i: nat)
    requires i < |qs| && qs[i].Key() !in m
    requires forall j | 0 <= j < i :: qs[j].Key() != qs[i].Key()
    ensures PutAbsent(m, qs)[qs[i].Key()] == qs[i]
    decreases |qs|
  {
    var init := qs[..|qs| - 1];
    if i == |qs| - 1 {
      assert qs[i].Key() !in KeysOf(init) by {
        forall j | 0 <= j < |init| ensures init[j].Key() != qs[i].Key() {
          assert init[j] == qs[j];
        }
      }
    } else {
      PutAbsentFirstWins(m, init, i);
    }
  }

  /** A batch of fresh, pairwise distinct keys displaces nothing. */
  lemma {:induction false} DisplacedAllFresh(m: Entries, qs: seq<Query>)
    requires forall i | 0 <= i < |qs| :: qs[i].Key() !in m
    requires forall i, j | 0 <= i < j < |qs| :: qs[i].Key() != qs[j].Key()
    ensures DisplacedAll(m, qs) == []
    decreases |qs|
  {
    if qs != [] {
      var init := qs[..|qs| - 1];
      var q := qs[|qs| - 1];
      DisplacedAllFresh(m, init);
      assert q.Key() !in KeysOf(init) by {
        forall j | 0 <= j < |init| ensures init[j].Key() != q.Key() {
          assert init[j] == qs[j];
        }
      }
    }
  }

  /**
   * An overwriting batch loses nothing: every entry present before the batch
   * is still stored or has gone to the graveyard, and so has every query of
   * the batch.
   */
  lemma {:induction false} NothingLostOnOverwrite(m: Entries, qs: seq<Query>)
    ensures forall k | k in m :: PutAll(m, qs)[k] == m[k] || m[k] in DisplacedAll(m, qs)
    ensures forall i | 0 <= i < |qs| ::
      PutAll(m, qs)[qs[i].Key()] == qs[i] || qs[i] in DisplacedAll(m, qs)
    decreases |qs|
  {
    if qs != [] {
      var init := qs[..|qs| - 1];
      var q := qs[|qs| - 1];
      NothingLostOnOverwrite(m, init);
      var before := PutAll(m, init);
      assert PutAll(m, qs) == before[q.Key() := q];
      assert DisplacedAll(m, qs) == DisplacedAll(m, init) + Displaced(before, q);
      forall k | k in m ensures PutAll(m, qs)[k] == m[k] || m[k] in DisplacedAll(m, qs) {
        if k == q.Key() && before[k] == m[k] {
          assert m[k] in Displaced(before, q);
        }
      }
      forall i | 0 <= i < |qs|
        ensures PutAll(m, qs)[qs[i].Key()] == qs[i] || qs[i] in DisplacedAll(m, qs)
      {
        if i < |qs| - 1 {
          assert qs[i] == init[i];
          if qs[i].Key() == q.Key() && before[qs[i].Key()] == qs[i] {
            assert qs[i] in Displaced(before, q);
          }
        }
      }
    }
  }

  /** Both batch policies keep every entry stored under its own key. */
  lemma {:induction false} BatchKeepsWellKeyed(m: Entries, qs: seq<Query>)
    requires WellKeyed(m)
    ensures WellKeyed(PutAll(m, qs)) && WellKeyed(PutAbsent(m, qs))
    decreases |qs|
  {
    if qs != [] {
      BatchKeepsWellKeyed(m, qs[..|qs| - 1]);
    }
  }

  /** `order` lists each key of `m` exactly once: one HashMap iteration order. */
  ghost predicate Enumerates(order: seq<string>, m: Entries)
  {
    && (forall i, j | 0 <= i < j < |order| :: order[i] != order[j])
    && (forall k :: k in m <==> k in order)
  }

  /** The `(key, entry)` pairs of `m` in the order `order` visits them. */
  function Visit(m: Entries, order: seq<string>): (ps: seq<(string, Query)>)
    requires forall i | 0 <= i < |order| :: order[i] in m
    ensures |ps| == |order|
    ensures forall i | 0 <= i < |order| :: ps[i] == (order[i], m[order[i]])
  {
    seq(|order|, i requires 0 <= i < |order| => (order[i], m[order[i]]))
  }

  class Cache {
    /** The in-memory map. */
    var entries: Entries
    /** What the cache file holds (its deserialization). */
    ghost var file: Entries
    /** Everything appended to the graveyard file since process start. */
    ghost var graveyard: seq<Query>
    /** How many times the cache file has been rewritten. */
    ghost var writes: nat

    /** The cache file mirrors the in-memory map. */
    ghost predicate Valid()
      reads this
    {
      file == entries
    }

    /** A cache loaded from its file; the graveyard is truncated at start-up. */
    constructor (stored: Entries)
      ensures Valid() && entries == stored && graveyard == [] && writes == 0
    {
      entries := stored;
      file := stored;
      graveyard := [];
      writes := 0;
    }

    /** `entries.get(key)`: a pure lookup. */
    function Get(key: string): (r: Option<Query>)
      reads this
      ensures r.Some? <==> key in entries
      ensures r.Some? ==> r.value == entries[key]
    {
      if key in entries then Some(entries[key]) else None
    }

    /** Empties the map and writes the empty map to the file; the graveyard is kept. */
    method Clear()
      modifies this
      ensures Valid() && entries == map[]
      ensures graveyard == old(graveyard) && writes == old(writes) + 1
    {
      entries := map[];
      file := entries;
      writes := writes + 1;
    }

    /** Removes and returns the entry at `key`; an absent key writes nothing. */
    method Remove(key: string) returns (r: Option<(string, Query)>)
      requires Valid()
      modifies this
      ensures Valid() && graveyard == old(graveyard)
      ensures key in old(entries) ==>
        && r == Some((key, old(entries)[key]))
        && entries == old(entries) - {key}
        && writes == old(writes) + 1
      ensures key !in old(entries) ==>
        r == None && entries == old(entries) && file == old(file) && writes == old(writes)
    {
      if key in entries {
        r := Some((key, entries[key]));
        entries := entries - {key};
        file := entries;
        writes := writes + 1;
      } else {
        r := None;
      }
    }

    /**
     * Stores `q` under its own key; a displaced previous entry goes to the
     * graveyard; the file is rewritten.
     */
    method Insert(q: Query)
      modifies this
      ensures Valid()
      ensures entries == old(entries)[q.Key() := q]
      ensures graveyard == old(graveyard) + Displaced(old(entries), q)
      ensures writes == old(writes) + 1
    {
      var key := q.Key();
      if key in entries {
        graveyard := graveyard + [entries[key]];
      }
      entries := entries[key := q];
      file := entries;
      writes := writes + 1;
    }

    /**
     * Inserts a batch, overwriting (like `Insert`, one query after another)
     * or skipping present keys, then rewrites the file exactly once.
     */
    method InsertMany(qs: seq<Query>, overwrite: bool)
      modifies this
      ensures Valid()
      ensures overwrite ==> entries == PutAll(old(entries), qs)
      ensures overwrite ==> graveyard == old(graveyard) + DisplacedAll(old(entries), qs)
      ensures !overwrite ==> entries == PutAbsent(old(entries), qs) && graveyard == old(graveyard)
      ensures writes == old(writes) + 1
    {
      var i := 0;
      while i < |qs|
        invariant 0 <= i <= |qs|
        invariant overwrite ==> entries == PutAll(old(entries), qs[..i])
        invariant overwrite ==> graveyard == old(graveyard) + DisplacedAll(old(entries), qs[..i])
        invariant !overwrite ==> entries == PutAbsent(old(entries), qs[..i]) && graveyard == old(graveyard)
        invariant writes == old(writes)
      {
        var q := qs[i];
        var key := q.Key();
        assert qs[..i + 1][..i] == qs[..i];
        if overwrite {
          if key in entries {
            graveyard := graveyard + [entries[key]];
          }
          entries := entries[key := q];
        } else if key !in entries {
          entries := entries[key := q];
        }
        i := i + 1;
      }
      assert qs[..|qs|] == qs;
      file := entries;
      writes := writes + 1;
    }
  }
}
