/** Orders and payment intents: the table with its partial unique index, and
    `create_order_service` with its retry loop, Postgres fallback and compensation. */
module Orders {
  import opened Prelude
  import opened Amounts

  datatype OrderStatus = Pending | Reviewed | Paid | Failed | Expired

  datatype Order = Order(userId: nat, status: OrderStatus, amount: int)

  datatype Intent = Intent(orderId: nat, status: OrderStatus, baseAmount: int, exactAmount: int, smsTx: Option<nat>)

  // The committed rows.
  datatype Db = Db(orders: map<nat, Order>, intents: map<nat, Intent>)

  function PendingAmounts(db: Db): set<int> {
    set i | i in db.intents && db.intents[i].status.Pending? :: db.intents[i].exactAmount
  }

  /** idx_pending_price: PENDING intents have pairwise distinct exact amounts. */
  predicate IndexHolds(db: Db) {
    forall i, j :: i in db.intents && j in db.intents && i != j
                   && db.intents[i].status.Pending? && db.intents[j].status.Pending?
                   ==> db.intents[i].exactAmount != db.intents[j].exactAmount
  }

  /** An order and its PENDING intent, inserted under the same new id. */
  function Insert(db: Db, id: nat, userId: nat, amount: int, v: int): Db {
    Db(db.orders[id := Order(userId, Pending, amount)],
       db.intents[id := Intent(id, Pending, amount, v, None)])
  }

  lemma InsertKeepsIndex(db: Db, id: nat, userId: nat, amount: int, v: int)
    requires IndexHolds(db) && id !in db.intents
    ensures IndexHolds(Insert(db, id, userId, amount, v)) <==> v !in PendingAmounts(db)
    ensures PendingAmounts(Insert(db, id, userId, amount, v)) == PendingAmounts(db) + {v}
    ensures var db' := Insert(db, id, userId, amount, v);
            && db'.orders.Keys == db.orders.Keys + {id} && db'.intents.Keys == db.intents.Keys + {id}
            && db'.orders[id].userId == userId && db'.orders[id].status.Pending? && db'.orders[id].amount == amount
            && db'.intents[id].orderId == id && db'.intents[id].status.Pending? && db'.intents[id].smsTx.None?
            && db'.intents[id].baseAmount == amount && db'.intents[id].exactAmount == v
            && (forall j :: j in db.orders && j != id ==> db'.orders[j] == db.orders[j])
            && (forall j :: j in db.intents ==> db'.intents[j] == db.intents[j])
  {
    var db' := Insert(db, id, userId, amount, v);
    assert db'.intents[id].exactAmount == v;
    forall x | x in PendingAmounts(db)
      ensures x in PendingAmounts(db')
    {
      var i :| i in db.intents && db.intents[i].status.Pending? && db.intents[i].exactAmount == x;
      assert db'.intents[i] == db.intents[i];
    }
    if v in PendingAmounts(db) {
      var i :| i in db.intents && db.intents[i].status.Pending? && db.intents[i].exactAmount == v;
      assert db'.intents[i] == db.intents[i] && db'.intents[id].exactAmount == db'.intents[i].exactAmount;
    }
  }

  // ---------- the environment of one attempt ----------

  // A Redis error during allocation; `applied` says that the server had executed the command.
  datatype RedisFault = NoFault | PopFailed(applied: bool) | MoveFailed(applied: bool)

  datatype UndoFault = UndoOk | UndoMoveFailed(applied: bool) | UndoAddFailed(applied: bool)

  // `pick` and `candidate` are the choices of SPOP and of ORDER BY random(); `rivals` are the
  // rows other sessions commit between the allocation and the insert.
  datatype Attempt = Attempt(
    pick: int, candidate: int, fault: RedisFault, undo: UndoFault, rivals: map<nat, Intent>, dbError: bool)

  /** What other sessions committed, provided the index let them. */
  function WithRivals(db: Db, rivals: map<nat, Intent>): Db {
    if rivals.Keys !! db.intents.Keys && IndexHolds(db.(intents := db.intents + rivals))
    then db.(intents := db.intents + rivals) else db
  }

  ghost function AfterRivals(db: Db, env: nat -> Attempt, n: nat): Db {
    if n == 0 then db else WithRivals(AfterRivals(db, env, n - 1), env(n - 1).rivals)
  }

  lemma {:induction false} RivalsKeepIndex(db: Db, env: nat -> Attempt, n: nat)
    requires IndexHolds(db)
    ensures IndexHolds(AfterRivals(db, env, n))
  {
    if n > 0 {
      RivalsKeepIndex(db, env, n - 1);
    }
  }

  /** No Redis command misbehaves, except that an attempt may find Redis down before SPOP. */
  predicate Healthy(a: Attempt) {
    (a.fault.NoFault? || a.fault == PopFailed(false)) && a.undo.UndoOk?
  }

  // The first n attempts are healthy.
  ghost predicate AllHealthy(env: nat -> Attempt, n: nat) {
    n == 0 || (AllHealthy(env, n - 1) && Healthy(env(n - 1)))
  }

  datatype Source = Redis | Postgres

  datatype Result =
    | Created(id: nat, amount: int, source: Source)
    | NoAmount
    | DuplicateAmount
    | DatabaseFailure

  // What the allocation of an attempt gave, and from where.
  datatype Allocation = Allocation(given: Option<int>, source: Source)

  // None, or an amount of 0, which the code treats as none.
  predicate NothingGiven(x: Allocation) {
    x.given.None? || x.given.value == 0
  }

  /** The amount came from the fallback and a rival's intent had it first. */
  predicate Collides(x: Allocation, a: Attempt, taken: set<int>) {
    !NothingGiven(x) && x.source.Postgres? && x.given.value in taken && !a.dbError
  }

  /** What an attempt answers: `taken` are the PENDING amounts when it inserts. */
  ghost predicate Answers(r: Option<Result>, x: Allocation, a: Attempt, taken: set<int>, id: nat, lastAttempt: bool) {
    && (r == Some(NoAmount) <==> NothingGiven(x))
    && (r == Some(DatabaseFailure) <==> !NothingGiven(x) && a.dbError)
    && (r == None <==> Collides(x, a, taken) && !lastAttempt)
    && (r == Some(DuplicateAmount) <==>
          !NothingGiven(x) && !a.dbError && x.given.value in taken && (x.source.Redis? || lastAttempt))
    && (r.Some? && r.value.Created? <==> !NothingGiven(x) && !a.dbError && x.given.value !in taken)
    && (r.Some? && r.value.Created? ==> r.value == Created(id, x.given.value, x.source))
  }

  class OrderService {
    var db: Db
    var pool: Pool

    constructor (db: Db, pool: Pool)
      ensures this.db == db && this.pool == pool
    {
      this.db, this.pool := db, pool;
    }

    /** None exactly when every candidate of the window is PENDING in the snapshot. */
    method GetUniqueAmountFromPostgres(base: int, candidate: int) returns (r: Option<int>)
      ensures r.None? <==> forall v :: base + 1 <= v <= base + 500 ==> v in PendingAmounts(db)
      ensures r.Some? ==> base + 1 <= r.value <= base + 500 && r.value !in PendingAmounts(db)
    {
      var taken := PendingAmounts(db);
      if base + 1 <= candidate <= base + 500 && candidate !in taken {
        return Some(candidate);
      }
      var v := base + 1;
      while v <= base + 500
        invariant base + 1 <= v <= base + 501
        invariant forall x :: base + 1 <= x < v ==> x in taken
      {
        if v !in taken {
          return Some(v);
        }
        v := v + 1;
      }
      return None;
    }

    /** SPOP: any member, None if the set is empty. */
    method PopFree(pick: int) returns (r: Option<int>)
      modifies this`pool
      ensures r.None? ==> old(pool).free == {} && pool == old(pool)
      ensures r.Some? ==> r.value in old(pool).free && pool == Pop(old(pool), r.value)
    {
      if pool.free == {} {
        return None;
      }
      var v := pick;
      if pick !in pool.free {
        v := AnyOf(pool.free);
      }
      pool := Pop(pool, v);
      return Some(v);
    }

    /** `lost` is the amount that left `free_amounts` without reaching the caller. */
    method GetUniqueAmount(base: int, env: Attempt) returns (r: Option<int>, source: Source, ghost lost: set<int>)
      modifies this`pool
      ensures Disjoint(old(pool)) ==> Disjoint(pool)
      ensures r.Some? && source == Redis ==>
                env.fault.NoFault? && r.value in old(pool).free && lost == {} && pool == Allocate(old(pool), r.value)
      ensures !(r.Some? && source == Redis) ==>
                && lost <= old(pool).free && pool.free == old(pool).free - lost
                && (Healthy(env) ==> lost == {}) && (lost == {} ==> pool == old(pool))
                && (forall v :: v in lost ==>
                      && lost == {v} && (env.fault == PopFailed(true) || env.fault.MoveFailed?)
                      && pool == if env.fault == MoveFailed(true) then Allocate(old(pool), v) else Pop(old(pool), v))
      ensures r.Some? && source == Postgres ==>
                base + 1 <= r.value <= base + 500 && r.value !in PendingAmounts(db)
      ensures source.Postgres? <==> env.fault.PopFailed? || (env.fault.MoveFailed? && old(pool).free != {})
      ensures source.Redis? ==> (r.None? <==> old(pool).free == {})
      ensures source.Postgres? ==>
                (r.None? <==> forall v :: base + 1 <= v <= base + 500 ==> v in PendingAmounts(db))
    {
      lost := {};
      if env.fault.PopFailed? {
        if env.fault.applied {
          var popped := PopFree(env.pick);
          lost := if popped.Some? then {popped.value} else {};
        }
        r := GetUniqueAmountFromPostgres(base, env.candidate);
        return r, Postgres, lost;
      }
      var given := PopFree(env.pick);
      if given.None? {
        return None, Redis, lost;
      }
      var v := given.value;
      if env.fault.MoveFailed? {
        lost := {v};
        if env.fault.applied {
          pool := Reserve(pool, v);
        }
        r := GetUniqueAmountFromPostgres(base, env.candidate);
        return r, Postgres, lost;
      }
      pool := Reserve(pool, v);
      return Some(v), Redis, lost;
    }

    /** Both compensation commands, the second only if the first raised nothing. */
    method UndoAllocation(v: int, undo: UndoFault) returns (ghost lost: set<int>)
      modifies this`pool
      ensures pool == (match undo
                       case UndoOk => Compensate(old(pool), v)
                       case UndoMoveFailed(applied) => if applied then Unreserve(old(pool), v) else old(pool)
                       case UndoAddFailed(applied) =>
                         if applied then Compensate(old(pool), v) else Unreserve(old(pool), v))
      ensures lost == if undo.UndoMoveFailed? || undo == UndoAddFailed(false) then {v} else {}
      ensures pool.free == old(pool).free + ({v} - lost) && lost <= {v}
      ensures Disjoint(old(pool)) && v !in old(pool).free ==> Disjoint(pool)
    {
      if undo.UndoMoveFailed? {
        if undo.applied {
          pool := Unreserve(pool, v);
        }
        lost := {v};
        return;
      }
      pool := Unreserve(pool, v);
      if undo.UndoAddFailed? && !undo.applied {
        lost := {v};
        return;
      }
      pool := AddFree(pool, v);
      lost := {};
    }

    /** The body of the retry loop; None stands for `continue`. */
    method TryOnce(userId: nat, amount: int, id: nat, a: Attempt, lastAttempt: bool)
      returns (r: Option<Result>, ghost lost: set<int>, ghost x: Allocation)
      requires IndexHolds(db) && Disjoint(pool) && id !in WithRivals(db, a.rivals).intents
      modifies this
      ensures IndexHolds(db) && Disjoint(pool)
      ensures db == if r.Some? && r.value.Created?
                    then Insert(WithRivals(old(db), a.rivals), id, userId, amount, r.value.amount)
                    else WithRivals(old(db), a.rivals)
      ensures Spares(old(pool), pool, Healthy(a), lost, r)
      // What was allocated, and which of the five outcomes follows from it.
      ensures Allocates(old(db), old(pool), amount, a, x)
      ensures RunsOut(old(db), pool, amount, x)
      ensures Answers(r, x, a, PendingAmounts(WithRivals(old(db), a.rivals)), id, lastAttempt)
    {
      ghost var before := pool;
      var unique, source, leaked := GetUniqueAmount(amount, a);
      lost, x := leaked, Allocation(unique, source);
      db := WithRivals(db, a.rivals);
      if unique.None? || unique.value == 0 {
        if unique.Some? && source == Redis {
          lost := {0};
        }
        return Some(NoAmount), lost, x;
      }
      var v := unique.value;
      if v !in PendingAmounts(db) && !a.dbError {
        InsertKeepsIndex(db, id, userId, amount, v);
        db := Insert(db, id, userId, amount, v);
        return Some(Created(id, v, source)), lost, x;
      }
      if source == Redis {
        UndoIsExact(before, v);
        lost := UndoAllocation(v, a.undo);
        return Some(if a.dbError then DatabaseFailure else DuplicateAmount), lost, x;
      }
      if a.dbError {
        return Some(DatabaseFailure), lost, x;
      }
      if lastAttempt {
        return Some(DuplicateAmount), lost, x;
      }
      return None, lost, x;
    }

    /** `n` attempts were made; `lost` collects the amounts that leaked out of `free_amounts`. */
    method CreateOrderService(userId: nat, amount: int, id: nat, env: nat -> Attempt, maxRetries: nat)
      returns (r: Result, ghost n: nat, ghost lost: set<int>, ghost tries: seq<Allocation>)
      requires IndexHolds(db) && Disjoint(pool)
      requires forall k :: id !in AfterRivals(db, env, k).intents
      modifies this
      ensures IndexHolds(db) && Disjoint(pool)
      ensures n <= maxRetries
      // The tables: what rivals committed, plus the new rows on success and nothing on failure.
      ensures r.Created? ==> r.id == id && db == Insert(AfterRivals(old(db), env, n), id, userId, amount, r.amount)
      ensures !r.Created? ==> db == AfterRivals(old(db), env, n)
      // The pool: amounts are conserved up to the leaked ones, and leaks need a Redis failure.
      ensures Spares(old(pool), pool, AllHealthy(env, n), lost, Some(r))
      // Which attempt decided: all before it collided in the fallback, which only the last may answer.
      ensures |tries| == n && (n == 0 <==> maxRetries == 0) && (n == 0 ==> r == NoAmount)
      ensures n > 0 ==> Decides(old(db), env, tries, r, id, maxRetries)
      ensures n > 0 ==> RunsOut(AfterRivals(old(db), env, n - 1), pool, amount, tries[n - 1])
      // An order is created at once if Redis answers and its amounts are unused.
      ensures maxRetries > 0 && env(0).fault.NoFault? && !env(0).dbError && old(pool).free != {} && 0 !in old(pool).free
              && old(pool).free !! PendingAmounts(AfterRivals(old(db), env, 1)) ==>
                r.Created? && r.source == Redis && n == 1
    {
      n, lost, tries := 0, {}, [];
      ghost var was, pool0 := db, pool;
      for attempt := 0 to maxRetries
        invariant n == 0 ==> pool == pool0
        invariant |tries| == n && (n > 0 ==> n < maxRetries)
        invariant Collided(was, env, tries)
        invariant n > 0 ==> Allocates(was, pool0, amount, env(0), tries[0])
        invariant n == attempt && db == AfterRivals(was, env, n) && IndexHolds(db) && Disjoint(pool)
        invariant Spares(pool0, pool, AllHealthy(env, n), lost, None)
      {
        n := attempt + 1;
        ghost var pool1 := pool;
        assert WithRivals(db, env(attempt).rivals) == AfterRivals(was, env, n);
        var outcome, leaked, x := TryOnce(userId, amount, id, env(attempt), attempt == maxRetries - 1);
        AttemptDecides(was, env, tries, x, outcome, id, maxRetries);
        assert RunsOut(AfterRivals(was, env, attempt), pool, amount, x);
        SparesBoth(pool0, pool1, pool, AllHealthy(env, attempt), Healthy(env(attempt)), lost, leaked, outcome);
        lost, tries := lost + leaked, tries + [x];
        assert tries[attempt] == x;
        if outcome.Some? {
          FirstAttempt(was, pool0, amount, env, tries, outcome.value, id, maxRetries);
          return outcome.value, n, lost, tries;
        }
      }
      return NoAmount, n, lost, tries;
    }
  }

  ghost predicate WindowTaken(db: Db, base: int) {
    forall v :: base + 1 <= v <= base + 500 ==> v in PendingAmounts(db)
  }

  /** The pool loses what was allocated and what leaked; with healthy commands nothing leaks, and
      the three sets are as they were but for the allocation. */
  ghost predicate Spares(pool: Pool, pool': Pool, healthy: bool, lost: set<int>, r: Option<Result>) {
    && lost <= pool.free && AllocatedFrom(r) <= pool.free
    && pool'.free == pool.free - lost - AllocatedFrom(r)
    && (healthy && 0 !in pool.free ==>
          && lost == {}
          && pool' == if AllocatedFrom(r) != {} then Allocate(pool, r.value.amount) else pool)
  }

  lemma SparesBoth(p: Pool, p': Pool, p'': Pool, first: bool, second: bool, lost: set<int>, lost': set<int>,
                   r: Option<Result>)
    requires Spares(p, p', first, lost, None) && Spares(p', p'', second, lost', r)
    ensures Spares(p, p'', first && second, lost + lost', r)
  {
  }

  /** The Redis pool is asked first; the fallback answers if a command raises. Either gives nothing
      exactly when it has nothing: the free set is empty, or its whole window is PENDING. */
  ghost predicate Allocates(db: Db, pool: Pool, base: int, a: Attempt, x: Allocation) {
    && (x.source.Postgres? <==> a.fault.PopFailed? || (a.fault.MoveFailed? && pool.free != {}))
    && match x.source
       case Redis => if x.given.None? then pool.free == {} else x.given.value in pool.free
       case Postgres =>
         if x.given.None? then WindowTaken(db, base)
         else base + 1 <= x.given.value <= base + 500 && x.given.value !in PendingAmounts(db)
  }

  /** Every one of these attempts collided in the fallback. */
  ghost predicate Collided(db: Db, env: nat -> Attempt, tries: seq<Allocation>) {
    tries == [] ||
    (Collided(db, env, tries[..|tries| - 1]) &&
     Collides(tries[|tries| - 1], env(|tries| - 1), PendingAmounts(AfterRivals(db, env, |tries|))))
  }

  /** The last attempt gave the answer, and all before it collided in the fallback. */
  ghost predicate Decides(
    db: Db, env: nat -> Attempt, tries: seq<Allocation>, r: Result, id: nat, maxRetries: nat)
    requires tries != []
  {
    var n := |tries|;
    && Collided(db, env, tries[..n - 1])
    && Answers(Some(r), tries[n - 1], env(n - 1), PendingAmounts(AfterRivals(db, env, n)), id, n == maxRetries)
  }

  /** A collision in the fallback refuses the order only when every attempt allowed has collided. */
  lemma FallbackRefusesLast(db: Db, env: nat -> Attempt, tries: seq<Allocation>, r: Result, id: nat, maxRetries: nat)
    requires tries != [] && Decides(db, env, tries, r, id, maxRetries)
    ensures r.DuplicateAmount? && tries[|tries| - 1].source.Postgres? ==>
              |tries| == maxRetries && Collided(db, env, tries)
    ensures r.NoAmount? <==> NothingGiven(tries[|tries| - 1])
  {
    assert Some(r) == Some(NoAmount) <==> r == NoAmount;
    assert Some(r) == Some(DuplicateAmount) <==> r == DuplicateAmount;
  }

  lemma AttemptDecides(db: Db, env: nat -> Attempt, tries: seq<Allocation>, x: Allocation, r: Option<Result>, id: nat,
                       maxRetries: nat)
    requires Collided(db, env, tries)
    requires var n := |tries|;
             Answers(r, x, env(n), PendingAmounts(AfterRivals(db, env, n + 1)), id, n == maxRetries - 1)
    ensures if r.None? then Collided(db, env, tries + [x]) else Decides(db, env, tries + [x], r.value, id, maxRetries)
  {
    assert (tries + [x])[..|tries|] == tries;
  }

  lemma {:induction false} FirstCollided(db: Db, env: nat -> Attempt, tries: seq<Allocation>)
    requires tries != [] && Collided(db, env, tries)
    ensures Collides(tries[0], env(0), PendingAmounts(AfterRivals(db, env, 1)))
  {
    if |tries| > 1 {
      FirstCollided(db, env, tries[..|tries| - 1]);
    }
  }

  lemma FirstAttempt(db: Db, pool: Pool, base: int, env: nat -> Attempt, tries: seq<Allocation>, r: Result, id: nat,
                     maxRetries: nat)
    requires tries != [] && Decides(db, env, tries, r, id, maxRetries)
    requires Allocates(db, pool, base, env(0), tries[0])
    ensures env(0).fault.NoFault? && !env(0).dbError && pool.free != {} && 0 !in pool.free
            && pool.free !! PendingAmounts(AfterRivals(db, env, 1)) ==>
              r.Created? && r.source == Redis && |tries| == 1
  {
    if |tries| > 1 {
      FirstCollided(db, env, tries[..|tries| - 1]);
    }
  }

  /** If nothing was given, the free set is empty, or the whole window of the fallback PENDING. */
  ghost predicate RunsOut(db: Db, pool: Pool, base: int, x: Allocation) {
    x.given.None? ==> if x.source.Redis? then pool.free == {} else WindowTaken(db, base)
  }

  // What a result takes out of `free_amounts` for good.
  function AllocatedFrom(r: Option<Result>): set<int> {
    if r.Some? && r.value.Created? && r.value.source == Redis then {r.value.amount} else {}
  }
}
