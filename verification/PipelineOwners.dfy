/** Who owns an amount, at the granularity of single Redis commands: no amount has two owners in
    any state, and every seeded one has one, amounts that leaked being owned by a ledger that only
    named steps feed - unless a restart frees what somebody still holds, or the Postgres fallback
    hands out what is free or held. */
module PipelineOwners {
  import opened Prelude
  import opened Pipeline
  import opened PipelineMatch
  import D = Orders

  datatype Owner =
    | InFree                    // available in free_amounts
    | ByRequest(request: nat)   // taken by an order request that has not committed
    | ByIntent(intent: nat)     // exact amount of a PENDING intent
    | ByWorker(worker: nat)     // paid and committed, not yet released
    | InLedger                  // leaked

  ghost predicate Owns(s: State, o: Owner, v: int) {
    match o
    case InFree => v in s.pool.free
    case ByRequest(q) => q in s.requests && v in TakenBy(s.requests[q])
    case ByIntent(i) => i in s.db.intents && s.db.intents[i].status.Pending? && s.db.intents[i].exactAmount == v
    case ByWorker(w) => IsCommitted(s, w) && AmountOf(Head(s, w).data) == v
    case InLedger => v in s.lost
  }

  /** No amount is in two hands; the ledger is not a hand. */
  ghost predicate AtMostOne(s: State) {
    forall o, p, v :: Owns(s, o, v) && Owns(s, p, v) && !o.InLedger? && !p.InLedger? ==> o == p
  }

  ghost predicate SingleOwner(s: State) {
    forall o, p, v :: Owns(s, o, v) && Owns(s, p, v) ==> o == p
  }

  ghost predicate AllOwned(s: State) {
    forall v :: v in s.seeded ==> exists o :: Owns(s, o, v)
  }

  /** No amount has two owners, the ledger included, and every seeded amount has one. */
  ghost predicate OwnInv(s: State) {
    SingleOwner(s) && AllOwned(s)
  }

  // ---------- moving one amount ----------

  /** v goes from one owner to another, and nothing else about ownership changes. */
  ghost predicate Moves(s: State, s': State, v: int, from: Owner, to: Owner) {
    && Owns(s, from, v) && Owns(s', to, v) && (from != to ==> !Owns(s', from, v))
    && forall o, x :: !(x == v && (o == from || o == to)) ==> (Owns(s', o, x) <==> Owns(s, o, x))
  }

  lemma MoveKeepsOwners(s: State, s': State, v: int, from: Owner, to: Owner)
    requires OwnInv(s) && Moves(s, s', v, from, to) && s'.seeded == s.seeded
    ensures OwnInv(s')
  {
    forall x | x in s.seeded
      ensures exists o :: Owns(s', o, x)
    {
      var o :| Owns(s, o, x);
      if x == v {
        assert Owns(s', to, x);
      } else {
        assert Owns(s', o, x);
      }
    }
    forall o, p, x | Owns(s', o, x) && Owns(s', p, x)
      ensures o == p
    {
      assert (o == to && x == v) || Owns(s, o, x);
      assert (p == to && x == v) || Owns(s, p, x);
    }
  }

  ghost predicate SameOwners(s: State, s': State) {
    s'.seeded == s.seeded && forall o, x :: Owns(s', o, x) <==> Owns(s, o, x)
  }

  lemma SameKeepsOwners(s: State, s': State)
    requires OwnInv(s) && SameOwners(s, s')
    ensures OwnInv(s')
  {
    forall x | x in s.seeded
      ensures exists o :: Owns(s', o, x)
    {
      var o :| Owns(s, o, x);
      assert Owns(s', o, x);
    }
  }

  // ---------- orders ----------

  lemma PopMoves(s: State, q: nat, v: int)
    requires OwnInv(s) && OrderCan(s, q, OrderPop(v))
    ensures OwnInv(OrderNext(s, q, OrderPop(v)))
  {
    var s' := OrderNext(s, q, OrderPop(v));
    assert Owns(s, InFree, v);
    assert Owns(s', ByRequest(q), v);
    assert Moves(s, s', v, InFree, ByRequest(q));
    MoveKeepsOwners(s, s', v, InFree, ByRequest(q));
  }

  /** Reservation, insertion and the first compensation command keep the request's claim. */
  lemma HolderStays(s: State, q: nat, step: OrderStep)
    requires OwnInv(s) && OrderCan(s, q, step) && Idle(step)
    ensures OwnInv(OrderNext(s, q, step))
  {
    var s' := OrderNext(s, q, step);
    KeepsTaken(s, q, step);
    assert SameOwners(s, s');
    SameKeepsOwners(s, s');
  }

  /** Steps after which a request has taken exactly what it had taken before. */
  predicate Idle(step: OrderStep) {
    || step.OrderStart? || step.OrderEmpty? || step.OrderReserve? || step.OrderInsert? || step.OrderDbError?
    || step.OrderUnreserve? || step.FallbackChoose? || step.FallbackEmpty?
    || (step.FallbackAfterPop? && step.taken.None?)
  }

  function TakenIn(s: State, q: nat): set<int> {
    if q in s.requests then TakenBy(s.requests[q]) else {}
  }

  // Only this request has changed, or ended.
  ghost predicate OnlyRequest(s: State, s': State, q: nat) {
    s'.requests == Remove(s.requests, q) || (q in s'.requests && s'.requests == s.requests[q := s'.requests[q]])
  }

  lemma KeepsTaken(s: State, q: nat, step: OrderStep)
    requires OrderCan(s, q, step) && Idle(step)
    ensures var s' := OrderNext(s, q, step);
            && OnlyRequest(s, s', q)
            && TakenIn(s', q) == TakenIn(s, q)
            && s'.pool.free == s.pool.free && s'.lost == s.lost && s'.db == s.db
  {
    if step.OrderInsert? {
      InsertKeepsTaken(s, q);
    }
  }

  lemma InsertKeepsTaken(s: State, q: nat)
    requires CanInsert(s, q)
    ensures var s' := DoOrderInsert(s, q);
            && OnlyRequest(s, s', q)
            && TakenIn(s', q) == TakenIn(s, q)
  {
  }

  lemma CommitMoves(s: State, q: nat, id: nat)
    requires OwnInv(s) && OrderCan(s, q, OrderCommit(id)) && s.requests[q].hold.source == D.Redis
    ensures OwnInv(OrderNext(s, q, OrderCommit(id)))
  {
    var s' := OrderNext(s, q, OrderCommit(id));
    var v := s.requests[q].hold.v;
    assert Owns(s, ByRequest(q), v);
    assert Owns(s', ByIntent(id), v);
    assert Moves(s, s', v, ByRequest(q), ByIntent(id));
    MoveKeepsOwners(s, s', v, ByRequest(q), ByIntent(id));
  }

  /** A commit through the Postgres fallback leaves no amount in two hands if and only if its
      amount is neither free nor held by a request or by a worker that has to release it. */
  lemma FallbackExact(s: State, q: nat, id: nat)
    requires AtMostOne(s) && IndexInv(s)
    requires OrderCan(s, q, OrderCommit(id)) && s.requests[q].hold.source == D.Postgres
    ensures AtMostOne(OrderNext(s, q, OrderCommit(id))) <==>
              s.requests[q].hold.v !in s.pool.free && s.requests[q].hold.v !in HeldValues(s)
  {
    var s', v := OrderNext(s, q, OrderCommit(id)), s.requests[q].hold.v;
    FallbackAdds(s, q, id);
    PendingOwned(s, v);
    HeldOwned(s, v);
    AddedOwner(s, s', ByIntent(id), v);
    assert v in s.pool.free ==> Owns(s, InFree, v);
  }

  // One more owner of v: two hands if and only if there was another hand before.
  lemma AddedOwner(s: State, s': State, to: Owner, v: int)
    requires AtMostOne(s) && !to.InLedger?
    requires forall o: Owner, x :: !o.InLedger? ==> (Owns(s', o, x) <==> Owns(s, o, x) || (o == to && x == v))
    ensures AtMostOne(s') <==> forall o: Owner :: Owns(s, o, v) && !o.InLedger? ==> o == to
  {
    if forall o: Owner :: Owns(s, o, v) && !o.InLedger? ==> o == to {
      forall o, p, x | Owns(s', o, x) && Owns(s', p, x) && !o.InLedger? && !p.InLedger?
        ensures o == p
      {
        assert (o == to && x == v) || Owns(s, o, x);
        assert (p == to && x == v) || Owns(s, p, x);
      }
    } else {
      var o: Owner :| Owns(s, o, v) && !o.InLedger? && o != to;
      assert Owns(s', o, v) && Owns(s', to, v);
    }
  }

  // The commit adds the new intent as an owner, takes the amount out of the ledger, and changes
  // nothing else about ownership.
  lemma FallbackAdds(s: State, q: nat, id: nat)
    requires OrderCan(s, q, OrderCommit(id)) && s.requests[q].hold.source == D.Postgres
    ensures var s' := OrderNext(s, q, OrderCommit(id));
            var v := s.requests[q].hold.v;
            forall o, x :: Owns(s', o, x) <==>
              (Owns(s, o, x) && !(o == InLedger && x == v)) || (o == ByIntent(id) && x == v)
  {
  }

  lemma FallbackKeepsOwners(s: State, q: nat, id: nat)
    requires OwnInv(s) && IndexInv(s)
    requires OrderCan(s, q, OrderCommit(id)) && s.requests[q].hold.source == D.Postgres
    requires s.requests[q].hold.v !in s.pool.free && s.requests[q].hold.v !in HeldValues(s)
    ensures OwnInv(OrderNext(s, q, OrderCommit(id)))
  {
    var s' := OrderNext(s, q, OrderCommit(id));
    var v := s.requests[q].hold.v;
    FallbackAdds(s, q, id);
    FallbackExact(s, q, id);
    forall x | x in s.seeded
      ensures exists o :: Owns(s', o, x)
    {
      var o :| Owns(s, o, x);
      assert if x == v then Owns(s', ByIntent(id), x) else Owns(s', o, x);
    }
    forall o, p, x | Owns(s', o, x) && Owns(s', p, x)
      ensures o == p
    {
      if o.InLedger? || p.InLedger? {
        assert x != v && Owns(s, o, x) && Owns(s, p, x);
      }
    }
  }

  lemma AddFreeMoves(s: State, q: nat)
    requires OwnInv(s) && OrderCan(s, q, OrderAddFree)
    ensures OwnInv(OrderNext(s, q, OrderAddFree))
  {
    var s' := OrderNext(s, q, OrderAddFree);
    var v := s.requests[q].hold.v;
    assert Owns(s, ByRequest(q), v);
    assert Moves(s, s', v, ByRequest(q), InFree);
    MoveKeepsOwners(s, s', v, ByRequest(q), InFree);
  }

  /** What a request loses: by dying, or by turning to the fallback with an amount in hand. */
  lemma LeakMoves(s: State, s': State, q: nat)
    requires OwnInv(s) && q in s.requests
    requires s' == s.(requests := s'.requests, pool := s'.pool, lost := s.lost + TakenBy(s.requests[q]))
    requires s'.pool.free == s.pool.free && TakenIn(s', q) == {}
    requires OnlyRequest(s, s', q)
    ensures OwnInv(s')
  {
    if TakenBy(s.requests[q]) == {} {
      assert SameOwners(s, s');
      SameKeepsOwners(s, s');
    } else {
      var v := s.requests[q].hold.v;
      assert Owns(s, ByRequest(q), v);
      assert Moves(s, s', v, ByRequest(q), InLedger);
      MoveKeepsOwners(s, s', v, ByRequest(q), InLedger);
    }
  }

  /** SPOP took an amount, but its answer was lost. */
  lemma PopLeaks(s: State, q: nat, v: int)
    requires OwnInv(s) && OrderCan(s, q, FallbackAfterPop(Some(v)))
    ensures OwnInv(OrderNext(s, q, FallbackAfterPop(Some(v))))
  {
    var s' := OrderNext(s, q, FallbackAfterPop(Some(v)));
    assert Owns(s, InFree, v);
    assert Moves(s, s', v, InFree, InLedger);
    MoveKeepsOwners(s, s', v, InFree, InLedger);
  }

  /** The fallback commits only an amount that is neither free nor held. */
  ghost predicate CommitIsSafe(s: State, q: nat, step: OrderStep) {
    step.OrderCommit? && q in s.requests && s.requests[q].hold.Inserted? && s.requests[q].hold.source == D.Postgres ==>
      s.requests[q].hold.v !in s.pool.free && s.requests[q].hold.v !in HeldValues(s)
  }

  lemma OrderKeepsOwners(s: State, q: nat, step: OrderStep)
    requires OwnInv(s) && IndexInv(s) && OrderCan(s, q, step) && CommitIsSafe(s, q, step)
    ensures OwnInv(OrderNext(s, q, step))
  {
    var s' := OrderNext(s, q, step);
    match step
    case OrderPop(v) => PopMoves(s, q, v);
    case OrderCommit(id) =>
      if s.requests[q].hold.source == D.Redis {
        CommitMoves(s, q, id);
      } else {
        FallbackKeepsOwners(s, q, id);
      }
    case OrderAddFree => AddFreeMoves(s, q);
    case OrderLeak(applied) => LeakMoves(s, s', q);
    case FallbackAfterLeak(applied) => LeakMoves(s, s', q);
    case FallbackAfterPop(taken) =>
      if taken.Some? {
        PopLeaks(s, q, taken.value);
      } else {
        HolderStays(s, q, step);
      }
    case _ => HolderStays(s, q, step);
  }

  // ---------- workers and admins ----------

  lemma WorkerCommitMoves(s: State, w: nat)
    requires OwnInv(s) && MatchInv(s) && CanCommit(s, w)
    ensures OwnInv(DoWorkerCommit(s, w))
  {
    var s' := DoWorkerCommit(s, w);
    var i := s.workers[w].stage.intent;
    assert LockOk(s.db, s.workers[w]);
    PayChangesOne(s.db, i, Some(TxOf(Head(s, w).data)));
    var v := s.db.intents[i].exactAmount;
    assert Owns(s, ByIntent(i), v);
    assert Owns(s', ByWorker(w), v);
    assert Moves(s, s', v, ByIntent(i), ByWorker(w));
    MoveKeepsOwners(s, s', v, ByIntent(i), ByWorker(w));
  }

  /** A release gives the amount to `free_amounts` if it still was in `pending_orders`, and to
      the ledger if it was not - or if the command never reached the server. */
  lemma ReleaseMoves(s: State, s': State, w: nat, v: int, to: Owner)
    requires OwnInv(s) && IsCommitted(s, w) && v == AmountOf(Head(s, w).data)
    requires s' == s.(workers := s'.workers, pool := s'.pool, lost := s'.lost)
    requires (w !in s'.workers && s'.workers == Remove(s.workers, w)) ||
             (w in s'.workers && s'.workers == s.workers[w := s'.workers[w]] && !s'.workers[w].stage.Committed?)
    requires to in {InFree, InLedger}
    requires s'.pool.free == s.pool.free + (if to.InFree? then {v} else {})
    requires s'.lost == s.lost + (if to.InLedger? then {v} else {})
    ensures OwnInv(s')
  {
    assert Owns(s, ByWorker(w), v);
    assert Moves(s, s', v, ByWorker(w), to);
    MoveKeepsOwners(s, s', v, ByWorker(w), to);
  }

  lemma CrashMoves(s: State, w: nat)
    requires OwnInv(s) && IsCommitted(s, w)
    ensures OwnInv(DoWorkerCrash(s, w))
  {
    ReleaseMoves(s, DoWorkerCrash(s, w), w, AmountOf(Head(s, w).data), InLedger);
  }

  lemma WorkerKeepsOwners(s: State, w: nat, step: WorkerStep)
    requires OwnInv(s) && MatchInv(s) && WorkerCan(s, w, step)
    ensures OwnInv(WorkerNext(s, w, step))
  {
    var s' := WorkerNext(s, w, step);
    if step.WorkerCommit? {
      WorkerCommitMoves(s, w);
    } else if step.WorkerRelease? || step.WorkerReleaseRaises? {
      var v := AmountOf(Head(s, w).data);
      var reached := step.WorkerRelease? || step.applied;
      ReleaseMoves(s, s', w, v, if reached && v in s.pool.pending then InFree else InLedger);
    } else if step.WorkerCrash? && IsCommitted(s, w) {
      CrashMoves(s, w);
    } else {
      OtherWorkerStep(s, w, step);
    }
  }

  lemma OtherWorkerStep(s: State, w: nat, step: WorkerStep)
    requires OwnInv(s) && WorkerCan(s, w, step)
    requires !step.WorkerCommit? && !step.WorkerRelease? && !step.WorkerReleaseRaises?
    requires step.WorkerCrash? ==> !IsCommitted(s, w)
    ensures OwnInv(WorkerNext(s, w, step))
  {
    NoCommittedChange(s, w, step);
    assert SameOwners(s, WorkerNext(s, w, step));
    SameKeepsOwners(s, WorkerNext(s, w, step));
  }

  lemma NoCommittedChange(s: State, w: nat, step: WorkerStep)
    requires WorkerCan(s, w, step) && !step.WorkerCommit? && !step.WorkerRelease? && !step.WorkerReleaseRaises?
    requires step.WorkerCrash? ==> !IsCommitted(s, w)
    ensures var s' := WorkerNext(s, w, step);
            && s'.lost == s.lost && s'.pool == s.pool && s'.db == s.db
            && forall x, v :: Owns(s', ByWorker(x), v) <==> Owns(s, ByWorker(x), v)
  {
    var s' := WorkerNext(s, w, step);
    assert !IsCommitted(s, w) && !IsCommitted(s', w);
    assert forall x :: x != w ==>
      (x in s.workers <==> x in s'.workers) && (x in s.workers ==> s'.workers[x] == s.workers[x]);
  }

  lemma ConfirmMoves(s: State, i: nat)
    requires OwnInv(s) && MatchInv(s) && Confirmable(s, i)
    ensures OwnInv(DoAdminConfirm(s, i))
  {
    var s' := DoAdminConfirm(s, i);
    assert IntentOk(s.sms, s.db, i);
    PayChangesOne(s.db, i, None);
    var v := s.db.intents[i].exactAmount;
    var to := if v in s.pool.pending then InFree else InLedger;
    assert Owns(s, ByIntent(i), v);
    assert Moves(s, s', v, ByIntent(i), to);
    MoveKeepsOwners(s, s', v, ByIntent(i), to);
  }

  // ---------- restart ----------

  /** Amounts owned by order requests and by workers between commit and release. */
  function HeldValues(s: State): set<int> {
    (set q, v | q in s.requests && v in TakenBy(s.requests[q]) :: v) +
    (set w | IsCommitted(s, w) && w in s.workers :: AmountOf(Head(s, w).data))
  }

  lemma PendingOwned(s: State, v: int)
    ensures v in D.PendingAmounts(s.db) <==> exists i :: Owns(s, ByIntent(i), v)
  {
    if v in D.PendingAmounts(s.db) {
      var i :| i in s.db.intents && s.db.intents[i].status.Pending? && s.db.intents[i].exactAmount == v;
      assert Owns(s, ByIntent(i), v);
    }
  }

  lemma HeldOwned(s: State, v: int)
    ensures v in HeldValues(s) <==> (exists q :: Owns(s, ByRequest(q), v)) || (exists w :: Owns(s, ByWorker(w), v))
  {
    if q :| q in s.requests && v in TakenBy(s.requests[q]) {
      assert Owns(s, ByRequest(q), v);
    }
    if w :| IsCommitted(s, w) && AmountOf(Head(s, w).data) == v {
      assert Owns(s, ByWorker(w), v);
    }
  }

  /** What `amounts` holds after a restart: seeded again when it was empty, as it was otherwise. */
  function AmountsAfter(s: State): set<int> {
    if s.pool.amounts == {} then s.seeded else s.pool.amounts
  }

  /** A restart leaves no amount in two hands if and only if no amount that a request or a worker
      still holds is, or is by seeding again put, in `amounts`. */
  lemma RestartExact(s: State)
    requires AtMostOne(s)
    ensures AtMostOne(DoRestart(s)) <==> HeldValues(s) !! AmountsAfter(s)
  {
    var s' := DoRestart(s);
    RestartKeepsHolders(s);
    if HeldValues(s) !! AmountsAfter(s) {
      forall o, p, v | Owns(s', o, v) && Owns(s', p, v) && !o.InLedger? && !p.InLedger?
        ensures o == p
      {
        PendingOwned(s, v);
        HeldOwned(s, v);
        assert o.InFree? || Owns(s, o, v);
        assert p.InFree? || Owns(s, p, v);
      }
    } else {
      var v :| v in HeldValues(s) && v in AmountsAfter(s);
      HeldOwned(s, v);
      PendingOwned(s, v);
      assert Owns(s', InFree, v);
      var o: Owner :| (o.ByRequest? || o.ByWorker?) && Owns(s, o, v);
      assert Owns(s', o, v);
    }
  }

  /** What a restart does to each amount: one that was free or lost is free afterwards if it is in
      `amounts` and lost if it is not; every other one keeps its owner. So an amount enters the
      ledger exactly if it was free without being in `amounts` - as every amount is that has been
      paid once - and leaves it exactly if it was lost while in `amounts`. */
  lemma RestartLedger(s: State, v: int)
    requires SingleOwner(s)
    ensures var s' := DoRestart(s);
            && (v in s'.lost && v !in s.lost <==> v in s.pool.free && v !in AmountsAfter(s))
            && (v in s.lost && v !in s'.lost <==> v in s.lost && v in AmountsAfter(s))
            && (v in s.pool.free || v in s.lost ==> (v in s'.pool.free <==> v in AmountsAfter(s)))
            && forall o: Owner :: !o.InFree? && !o.InLedger? ==> (Owns(s', o, v) <==> Owns(s, o, v))
  {
    PendingOwned(s, v);
    assert v in s.pool.free ==> Owns(s, InFree, v);
    assert v in s.lost ==> Owns(s, InLedger, v);
    RestartKeepsHolders(s);
  }

  lemma RestartKeepsHolders(s: State)
    ensures forall o: Owner, v :: !o.InFree? && !o.InLedger? ==> (Owns(DoRestart(s), o, v) <==> Owns(s, o, v))
  {
  }

  lemma RestartKeepsOwners(s: State)
    requires OwnInv(s) && HeldValues(s) !! AmountsAfter(s)
    ensures OwnInv(DoRestart(s))
  {
    var s' := DoRestart(s);
    RestartExact(s);
    forall v | v in s.seeded
      ensures exists o :: Owns(s', o, v)
    {
      RestartLedger(s, v);
      var o :| Owns(s, o, v);
      if o.InFree? || o.InLedger? {
        assert if v in AmountsAfter(s) then Owns(s', InFree, v) else Owns(s', InLedger, v);
      } else {
        assert Owns(s', o, v);
      }
    }
    forall o, v | Owns(s', o, v) && v in s'.lost
      ensures o == InLedger
    {
      RestartLedger(s, v);
      assert v in s.lost || v in s.pool.free;
      assert v in s.lost ==> Owns(s, InLedger, v);
      assert v in s.pool.free ==> Owns(s, InFree, v);
    }
  }

  // ---------- runs ----------

  /** The two things a step must not do: commit an amount through the fallback that is free or
      held, and restart while somebody holds an amount that is in `amounts`. */
  ghost predicate SafeStep(s: State, a: Action) {
    && (a.OrderDoes? ==> CommitIsSafe(s, a.request, a.orderStep))
    && (a.Restart? ==> HeldValues(s) !! AmountsAfter(s))
  }

  lemma RelayKeepsOwners(s: State, r: nat, step: RelayStep)
    requires OwnInv(s) && RelayCan(s, r, step)
    ensures OwnInv(RelayNext(s, r, step))
  {
    SameKeepsOwners(s, RelayNext(s, r, step));
  }

  lemma AdminKeepsOwners(s: State, ad: nat, step: AdminStep)
    requires OwnInv(s) && MatchInv(s) && AdminCan(s, ad, step)
    ensures OwnInv(AdminNext(s, ad, step))
  {
    if step.Confirm? {
      ConfirmMoves(s, step.intent);
    } else {
      SameKeepsOwners(s, AdminNext(s, ad, step));
    }
  }

  lemma OwnInvKept(s: State, a: Action)
    requires OwnInv(s) && MatchInv(s) && IndexInv(s) && Enabled(s, a) && SafeStep(s, a)
    ensures OwnInv(Apply(s, a))
  {
    match a
    case Accept(tx, row, sms, trace, now) => SameKeepsOwners(s, Apply(s, a));
    case RelayDoes(r, step) => RelayKeepsOwners(s, r, step);
    case WorkerDoes(w, step) => WorkerKeepsOwners(s, w, step);
    case AdminDoes(ad, step) => AdminKeepsOwners(s, ad, step);
    case OrderDoes(q, step) => OrderKeepsOwners(s, q, step);
    case Restart => RestartKeepsOwners(s);
  }
}
