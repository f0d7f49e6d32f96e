/** The running usage and cost ledger, persisted to its own file. */
module Billing {
  import opened Wrappers
  import opened Responses
  import opened Queries

  /** The six counters, as written to the bill file. */
  datatype BillRecord = BillRecord(
    cost: real,
    promptTokens: int,
    completionTokens: int,
    totalTokens: int,
    queryCount: int,
    cacheRetrievals: int)

  /** `Bill::default()`. */
  const EmptyBill: BillRecord := BillRecord(0.0, 0, 0, 0, 0, 0)

  /** The bill after one fresh query is charged to it. */
  function Charge(b: BillRecord, q: Query): (r: BillRecord)
    ensures r.promptTokens == b.promptTokens + q.ResponseOf().usage.promptTokens
    ensures r.completionTokens == b.completionTokens + q.ResponseOf().usage.completionTokens
    ensures r.totalTokens == b.totalTokens + q.ResponseOf().usage.totalTokens
    ensures r.cost == b.cost + Cost(q.ResponseOf(), q.ModelOf())
    ensures r.queryCount == b.queryCount + 1
    ensures r.cacheRetrievals == b.cacheRetrievals
  {
    var used := q.ResponseOf().usage;
    b.(completionTokens := b.completionTokens + used.completionTokens,
       promptTokens := b.promptTokens + used.promptTokens,
       totalTokens := b.totalTokens + used.totalTokens,
       queryCount := b.queryCount + 1,
       cost := b.cost + Cost(q.ResponseOf(), q.ModelOf()))
  }

  /** The bill after each of `qs` is charged, in order. */
  function ChargeAll(b: BillRecord, qs: seq<Query>): BillRecord
    decreases |qs|
  {
    if qs == [] then b else Charge(ChargeAll(b, qs[..|qs| - 1]), qs[|qs| - 1])
  }

  function SumPrompt(qs: seq<Query>): int
    decreases |qs|
  {
    if qs == [] then 0 else SumPrompt(qs[..|qs| - 1]) + qs[|qs| - 1].ResponseOf().usage.promptTokens
  }

  function SumCompletion(qs: seq<Query>): int
    decreases |qs|
  {
    if qs == [] then 0 else SumCompletion(qs[..|qs| - 1]) + qs[|qs| - 1].ResponseOf().usage.completionTokens
  }

  function SumTotal(qs: seq<Query>): int
    decreases |qs|
  {
    if qs == [] then 0 else SumTotal(qs[..|qs| - 1]) + qs[|qs| - 1].ResponseOf().usage.totalTokens
  }

  function SumCost(qs: seq<Query>): real
    decreases |qs|
  {
    if qs == [] then 0.0 else SumCost(qs[..|qs| - 1]) + Cost(qs[|qs| - 1].ResponseOf(), qs[|qs| - 1].ModelOf())
  }

  /** The usage record of a query is consistent: total = prompt + completion. */
  predicate UsageBalanced(q: Query)
  {
    var u := q.ResponseOf().usage;
    u.totalTokens == u.promptTokens + u.completionTokens
  }

  predicate Balanced(b: BillRecord)
  {
    b.totalTokens == b.promptTokens + b.completionTokens
  }

  /** Charging queries with consistent usage keeps the bill's token total consistent. */
  lemma {:induction false} ChargeAllKeepsBalance(b: BillRecord, qs: seq<Query>)
    requires Balanced(b)
    requires forall i | 0 <= i < |qs| :: UsageBalanced(qs[i])
    ensures Balanced(ChargeAll(b, qs))
    decreases |qs|
  {
    if qs != [] {
      ChargeAllKeepsBalance(b, qs[..|qs| - 1]);
      assert UsageBalanced(qs[|qs| - 1]);
    }
  }

  /**
   * Billing is additive: after N charged queries the counters have grown by
   * the sums of their usage and cost, the query count by N, and the cache
   * retrieval counter not at all.
   */
  lemma {:induction false} ChargeAllAdds(b: BillRecord, qs: seq<Query>)
    ensures ChargeAll(b, qs).promptTokens == b.promptTokens + SumPrompt(qs)
    ensures ChargeAll(b, qs).completionTokens == b.completionTokens + SumCompletion(qs)
    ensures ChargeAll(b, qs).totalTokens == b.totalTokens + SumTotal(qs)
    ensures ChargeAll(b, qs).cost == b.cost + SumCost(qs)
    ensures ChargeAll(b, qs).queryCount == b.queryCount + |qs|
    ensures ChargeAll(b, qs).cacheRetrievals == b.cacheRetrievals
    decreases |qs|
  {
    if qs != [] {
      ChargeAllAdds(b, qs[..|qs| - 1]);
    }
  }

  /**
   * From an empty bill, after N fresh queries with consistent usage, the token
   * total is the sum of prompt and completion tokens and the query count is N.
   */
  lemma FreshBillTotals(qs: seq<Query>)
    requires forall i | 0 <= i < |qs| :: UsageBalanced(qs[i])
    ensures ChargeAll(EmptyBill, qs).totalTokens == SumPrompt(qs) + SumCompletion(qs)
    ensures ChargeAll(EmptyBill, qs).cost == SumCost(qs)
    ensures ChargeAll(EmptyBill, qs).queryCount == |qs|
  {
    ChargeAllKeepsBalance(EmptyBill, qs);
    ChargeAllAdds(EmptyBill, qs);
  }

  class Bill {
    var cost: real
    var promptTokens: int
    var completionTokens: int
    var totalTokens: int
    var queryCount: int
    var cacheRetrievals: int
    /** What the bill file holds. */
    ghost var file: BillRecord
    /** How many times the bill file has been rewritten. */
    ghost var writes: nat

    function Snapshot(): BillRecord
      reads this
    {
      BillRecord(cost, promptTokens, completionTokens, totalTokens, queryCount, cacheRetrievals)
    }

    /** The bill file mirrors the in-memory counters. */
    ghost predicate Valid()
      reads this
    {
      file == Snapshot()
    }

    /** A bill loaded from its file. */
    constructor (stored: BillRecord)
      ensures Valid() && Snapshot() == stored && writes == 0
    {
      cost := stored.cost;
      promptTokens := stored.promptTokens;
      completionTokens := stored.completionTokens;
      totalTokens := stored.totalTokens;
      queryCount := stored.queryCount;
      cacheRetrievals := stored.cacheRetrievals;
      file := stored;
      writes := 0;
    }

    /**
     * `update_bill`: charges the query if there is one, then always rewrites
     * the bill file (which is how a bumped `cache_retrievals` is persisted).
     */
    method Update(q: Option<Query>)
      modifies this
      ensures Valid() && writes == old(writes) + 1
      ensures q.Some? ==> Snapshot() == Charge(old(Snapshot()), q.value)
      ensures q.None? ==> Snapshot() == old(Snapshot())
    {
      if q.Some? {
        var used := q.value.ResponseOf().usage;
        completionTokens := completionTokens + used.completionTokens;
        promptTokens := promptTokens + used.promptTokens;
        totalTokens := totalTokens + used.totalTokens;
        queryCount := queryCount + 1;
        cost := cost + Cost(q.value.ResponseOf(), q.value.ModelOf());
      }
      file := Snapshot();
      writes := writes + 1;
    }

    /** `reset_bill`: zeroes five counters, keeps `cache_retrievals`, rewrites the file. */
    method Reset()
      modifies this
      ensures Valid() && writes == old(writes) + 1
      ensures Snapshot() == EmptyBill.(cacheRetrievals := old(cacheRetrievals))
    {
      completionTokens := 0;
      promptTokens := 0;
      totalTokens := 0;
      queryCount := 0;
      cost := 0.0;
      file := Snapshot();
      writes := writes + 1;
    }
  }
}
