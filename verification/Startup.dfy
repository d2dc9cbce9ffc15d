/** What the application does to the amount pool when it starts (app/main.py): seed an absent
    `amounts`, rebuild `pending_orders` page by page from the intent table, and make
    `free_amounts` their difference. */
module Startup {
  import opened Prelude
  import opened Amounts
  import opened Orders
  import L = Pipeline

  const REDIS_BUFFER: nat := 1000

  // ---------- the query behind one page ----------

  /** The ids of the PENDING intents above `last`. */
  function PendingAbove(db: Db, last: nat): set<nat> {
    set i | i in db.intents && db.intents[i].status.Pending? && i > last
  }

  function AmountsAt(db: Db, ids: set<nat>): set<int>
    requires ids <= db.intents.Keys
  {
    set i | i in ids :: db.intents[i].exactAmount
  }

  // The first member at or above k, `seen` being one.
  function FirstFrom(s: set<nat>, k: nat, ghost seen: nat): (i: nat)
    requires seen in s && k <= seen && forall j :: j in s ==> j >= k
    ensures i in s && forall j :: j in s ==> i <= j
    decreases seen - k
  {
    if k in s then k else FirstFrom(s, k + 1, seen)
  }

  function Smallest(s: set<nat>): (i: nat)
    requires s != {}
    ensures i in s && forall j :: j in s ==> i <= j
  {
    ghost var seen :| seen in s;
    FirstFrom(s, 0, seen)
  }

  /** ORDER BY id LIMIT limit. */
  function Page(ids: set<nat>, limit: nat): (page: seq<nat>)
    ensures forall i :: i in page ==> i in ids
  {
    if limit == 0 || ids == {} then [] else [Smallest(ids)] + Page(ids - {Smallest(ids)}, limit - 1)
  }

  lemma {:induction false} PageIncreases(ids: set<nat>, limit: nat)
    ensures |Page(ids, limit)| <= limit
    ensures forall j, k :: 0 <= j < k < |Page(ids, limit)| ==> Page(ids, limit)[j] < Page(ids, limit)[k]
    decreases limit
  {
    if limit != 0 && ids != {} {
      var first := Smallest(ids);
      var rest := Page(ids - {first}, limit - 1);
      PageIncreases(ids - {first}, limit - 1);
      forall k | 0 <= k < |rest|
        ensures first < rest[k]
      {
        assert rest[k] in rest;
      }
    }
  }

  lemma {:induction false} PageLeavesLarger(ids: set<nat>, limit: nat, i: nat, j: nat)
    requires i in ids && i !in Page(ids, limit) && j in Page(ids, limit)
    ensures j < i && |Page(ids, limit)| == limit
    decreases limit
  {
    var first := Smallest(ids);
    var left := ids - {first};
    var rest := Page(left, limit - 1);
    assert Page(ids, limit) == [first] + rest;
    assert first < i && i in left && i !in rest;
    if rest == [] {
      assert limit == 1;
      assert j == first;
    } else {
      PageLeavesLarger(left, limit - 1, i, if j == first then rest[0] else j);
    }
  }

  /** A page is the `limit` smallest ids in increasing order; it is shorter only when it
      leaves nothing out. */
  lemma PageTakesSmallest(ids: set<nat>, limit: nat)
    requires ids != {} && limit >= 1
    ensures var page := Page(ids, limit);
            && 1 <= |page| <= limit
            && (forall j, k :: 0 <= j < k < |page| ==> page[j] < page[k])
            && (forall i :: i in ids ==> (i in page <==> i <= page[|page| - 1]))
            && (|page| < limit ==> AsSet(page) == ids)
  {
    PageIncreases(ids, limit);
    var page := Page(ids, limit);
    forall i | i in ids
      ensures i in page <==> i <= page[|page| - 1]
      ensures |page| < limit ==> i in page
    {
      if i !in page {
        PageLeavesLarger(ids, limit, i, page[|page| - 1]);
      }
    }
  }

  /** What is left for the next page is what lies above the last id of this one. */
  lemma PageAdvances(db: Db, last: nat, limit: nat)
    requires Page(PendingAbove(db, last), limit) != []
    ensures var page := Page(PendingAbove(db, last), limit);
            var next := page[|page| - 1];
            && AsSet(page) <= PendingAbove(db, last)
            && PendingAbove(db, next) == PendingAbove(db, last) - AsSet(page)
            && PendingAbove(db, next) < PendingAbove(db, last)
  {
    var ids := PendingAbove(db, last);
    PageTakesSmallest(ids, limit);
    var page := Page(ids, limit);
    var next := page[|page| - 1];
    assert next in page;
    assert next in ids && next !in PendingAbove(db, next);
    assert next > last;
    forall i: nat | i in db.intents && i > last
      ensures i in PendingAbove(db, next) <==> i in ids && i !in page
    {
      if db.intents[i].status.Pending? {
        assert i in ids;
      }
    }
  }

  /** The generator `get_all_pending_orders`: its local state is the last id it has yielded. */
  class PendingOrders {
    const db: Db
    const limit: nat
    var lastOrder: nat

    constructor (db: Db, limit: nat)
      ensures this.db == db && this.limit == limit && lastOrder == 0
    {
      this.db, this.limit, this.lastOrder := db, limit, 0;
    }

    /** The next page, in increasing order and of at most `limit` ids: exactly the PENDING intents
        above the old cursor and not above the new one. It is [] only when none is left. */
    method Next() returns (orders: seq<nat>)
      modifies this
      ensures orders == Page(PendingAbove(db, old(lastOrder)), limit)
      ensures lastOrder == if orders == [] then old(lastOrder) else orders[|orders| - 1]
      ensures limit >= 1 && orders == [] ==> PendingAbove(db, lastOrder) == {}
      ensures |orders| <= limit && forall j, k :: 0 <= j < k < |orders| ==> orders[j] < orders[k]
      ensures forall i :: i in orders <==> i in PendingAbove(db, old(lastOrder)) && i <= lastOrder
    {
      orders := Page(PendingAbove(db, lastOrder), limit);
      if orders == [] {
        return;
      }
      PageTakesSmallest(PendingAbove(db, lastOrder), limit);
      lastOrder := orders[|orders| - 1];
    }
  }

  // ---------- the startup itself ----------

  function Range(first: int, last: int): (r: set<int>)
    ensures forall v :: v in r <==> first <= v <= last
    decreases last - first
  {
    if first > last then {} else {first} + Range(first + 1, last)
  }

  function Values(buffer: seq<int>): set<int> {
    set v | v in buffer
  }

  // The PENDING intents up to `last`.
  function Covered(db: Db, last: nat): set<nat> {
    PendingAbove(db, 0) - PendingAbove(db, last)
  }

  function Exact(db: Db, orders: seq<nat>): (amounts: seq<int>)
    requires forall i :: i in orders ==> i in db.intents
    ensures |amounts| == |orders| && forall k :: 0 <= k < |orders| ==> amounts[k] == db.intents[orders[k]].exactAmount
  {
    if orders == [] then [] else [db.intents[orders[0]].exactAmount] + Exact(db, orders[1..])
  }

  lemma ExactValues(db: Db, orders: seq<nat>)
    requires forall i :: i in orders ==> i in db.intents
    ensures Values(Exact(db, orders)) == AmountsAt(db, AsSet(orders))
  {
    var amounts := Exact(db, orders);
    forall i | i in orders
      ensures db.intents[i].exactAmount in amounts
    {
      var k :| 0 <= k < |orders| && orders[k] == i;
      assert amounts[k] == db.intents[i].exactAmount;
    }
  }

  lemma ValuesAppend(pending: set<int>, a: seq<int>, b: seq<int>)
    ensures pending + Values(a + b) == (pending + Values(a)) + Values(b)
  {
  }

  // Reading one more page.
  lemma PageCovers(db: Db, last: nat, limit: nat)
    requires Page(PendingAbove(db, last), limit) != []
    ensures var orders := Page(PendingAbove(db, last), limit);
            var next := orders[|orders| - 1];
            && |orders| <= limit
            && PendingAbove(db, next) < PendingAbove(db, last)
            && AmountsAt(db, Covered(db, next)) == AmountsAt(db, Covered(db, last)) + Values(Exact(db, orders))
  {
    PageTakesSmallest(PendingAbove(db, last), limit);
    PageAdvances(db, last, limit);
    var orders := Page(PendingAbove(db, last), limit);
    ExactValues(db, orders);
    CoveredGrows(db, last, orders[|orders| - 1], AsSet(orders));
  }

  lemma CoveredGrows(db: Db, last: nat, next: nat, page: set<nat>)
    requires page <= PendingAbove(db, last) && PendingAbove(db, next) == PendingAbove(db, last) - page
    ensures AmountsAt(db, Covered(db, next)) == AmountsAt(db, Covered(db, last)) + AmountsAt(db, page)
  {
    assert Covered(db, next) == Covered(db, last) + page;
  }

  /** Only commands with between one and `most` members have been added. */
  predicate Extends(sent: seq<nat>, before: seq<nat>, most: int) {
    before <= sent && forall k :: |before| <= k < |sent| ==> 1 <= sent[k] <= most
  }

  class Application {
    const db: Db
    var pool: Pool
    // History: how many members each SADD was sent. Redis refuses an SADD without any.
    var sent: seq<nat>

    constructor (db: Db, pool: Pool)
      ensures this.db == db && this.pool == pool && sent == []
    {
      this.db, this.pool, this.sent := db, pool, [];
    }

    /** `AmountSeeder.is_exist_range_amount`: a key exists exactly while its set has members,
        and a batch size below one makes the loop empty (0 raises). */
    method SeedAmounts(first: int, last: int, batch: int)
      modifies this
      ensures batch >= 1 || old(pool).amounts != {} ==>
                pool == old(pool).(amounts := if old(pool).amounts != {} then old(pool).amounts else Range(first, last))
      ensures batch < 1 ==> pool == old(pool)
      ensures Extends(sent, old(sent), batch)
    {
      if pool.amounts != {} || batch < 1 {
        return;
      }
      var n := if first <= last then last - first + 1 else 0;
      var amountRange := seq(n, k requires 0 <= k < n => first + k);
      var i := 0;
      while i < n
        invariant 0 <= i
        invariant pool == old(pool).(amounts := Values(amountRange[..Min(i, n)]))
        invariant Extends(sent, old(sent), batch)
      {
        var batchRange := amountRange[i..Min(i + batch, n)];
        assert amountRange[..Min(i + batch, n)] == amountRange[..i] + batchRange;
        pool := pool.(amounts := pool.amounts + Values(batchRange));
        sent := sent + [|batchRange|];
        i := i + batch;
      }
      assert amountRange[..n] == amountRange;
      forall v | v in Range(first, last)
        ensures v in amountRange
      {
        assert amountRange[v - first] == v;
      }
    }

    /** `pending_orders` deleted and filled again, page by page through a buffer: it becomes
        exactly the amounts of the PENDING intents with positive ids, and no SADD is empty or
        longer than a buffer short of a flush plus one page. */
    method RebuildPending(limit: nat)
      requires limit >= 1
      modifies this
      ensures pool == old(pool).(pending := AmountsAt(db, PendingAbove(db, 0)))
      ensures Extends(sent, old(sent), REDIS_BUFFER + limit - 1)
    {
      pool := pool.(pending := {});
      var buffer: seq<int> := [];
      var generator := new PendingOrders(db, limit);
      while true
        invariant generator.db == db && generator.limit == limit && fresh(generator)
        invariant pool == old(pool).(pending := pool.pending)
        invariant pool.pending + Values(buffer) == AmountsAt(db, Covered(db, generator.lastOrder))
        invariant |buffer| < REDIS_BUFFER
        invariant Extends(sent, old(sent), REDIS_BUFFER + limit - 1)
        decreases PendingAbove(db, generator.lastOrder)
      {
        ghost var last := generator.lastOrder;
        var orders := generator.Next();
        if orders == [] {
          break;
        }
        PageCovers(db, last, limit);
        buffer := Extend(buffer, Exact(db, orders), limit);
      }
      assert Covered(db, generator.lastOrder) == PendingAbove(db, 0);
      if buffer != [] {
        SendAll(buffer);
      }
    }

    /** buffer.extend, and a flush when the buffer is full. */
    method Extend(buffer: seq<int>, ordersAmount: seq<int>, limit: nat) returns (buffer': seq<int>)
      requires |buffer| < REDIS_BUFFER && |ordersAmount| <= limit
      modifies this
      ensures pool == old(pool).(pending := pool.pending)
      ensures pool.pending + Values(buffer') == old(pool).pending + Values(buffer) + Values(ordersAmount)
      ensures |buffer'| < REDIS_BUFFER && Extends(sent, old(sent), REDIS_BUFFER + limit - 1)
    {
      ValuesAppend(pool.pending, buffer, ordersAmount);
      buffer' := buffer + ordersAmount;
      if |buffer'| >= REDIS_BUFFER {
        SendAll(buffer');
        buffer' := [];
      }
    }

    /** SADD pending_orders with the whole buffer. */
    method SendAll(buffer: seq<int>)
      modifies this
      ensures pool == old(pool).(pending := old(pool).pending + Values(buffer))
      ensures sent == old(sent) + [|buffer|]
    {
      pool := pool.(pending := pool.pending + Values(buffer));
      sent := sent + [|buffer|];
    }

    /** The body of `lifespan` up to the scheduler, whatever the batch and page sizes. */
    method Lifespan(first: int, last: int, batch: int, limit: nat)
      requires batch >= 1 && limit >= 1
      modifies this
      ensures (forall i :: i in db.intents ==> i > 0) ==> pool == L.Rebuilt(old(pool), db, Range(first, last))
      ensures pool.pending == AmountsAt(db, PendingAbove(db, 0))
      ensures Disjoint(pool)
      ensures forall v :: v in pool.free <==> v in pool.amounts && v !in pool.pending
      ensures pool.amounts == if old(pool).amounts != {} then old(pool).amounts else Range(first, last)
    {
      SeedAmounts(first, last, batch);
      RebuildPending(limit);
      pool := pool.(free := pool.amounts - pool.pending);
      if forall i :: i in db.intents ==> i > 0 {
        AllPending(db);
      }
    }
  }

  lemma AllPending(db: Db)
    requires forall i :: i in db.intents ==> i > 0
    ensures AmountsAt(db, PendingAbove(db, 0)) == PendingAmounts(db)
  {
  }
}
