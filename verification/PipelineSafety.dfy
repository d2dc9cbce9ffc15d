/** The guarantees of the pipeline over whole runs, from an empty database and a freshly seeded
    pool, for any interleaving of relays, workers, orders, replays, restarts and crashes. */
module PipelineSafety {
  import opened Prelude
  import opened Pipeline
  import opened PipelineRelay
  import opened PipelineStream
  import opened PipelineMatch
  import opened PipelineCover
  import opened PipelineHistory
  import opened PipelineOwners
  import D = Orders
  import O = Outbox
  import P = Payments

  ghost predicate Inv(s: State) {
    StreamInv(s) && PayloadInv(s) && RelayInv(s) && MatchInv(s) && IndexInv(s) && CoverInv(s) && HistoryInv(s)
  }

  ghost predicate IsRunFrom(seeded: set<int>, trace: seq<State>, actions: seq<Action>) {
    IsRun(trace, actions) && trace[0] == Initial(seeded)
  }

  lemma InvKept(s: State, a: Action)
    requires Inv(s) && Enabled(s, a)
    ensures Inv(Apply(s, a))
  {
    StreamInvKept(s, a);
    PayloadInvKept(s, a);
    RelayInvKept(s, a);
    MatchInvKept(s, a);
    IndexInvKept(s, a);
    CoverInvKept(s, a);
    HistoryInvKept(s, a);
  }

  lemma {:induction false} InvAlong(seeded: set<int>, trace: seq<State>, actions: seq<Action>, i: nat)
    requires IsRunFrom(seeded, trace, actions) && i <= |actions|
    ensures Inv(trace[i])
  {
    if i > 0 {
      InvAlong(seeded, trace, actions, i - 1);
      assert IsStep(trace, actions, i - 1);
      InvKept(trace[i - 1], actions[i - 1]);
    }
  }

  /** In every reachable state, every committed SMS has an outbox row that is not yet published,
      or an unacknowledged stream entry, or a dead letter, or an intent that carries it, or an
      acknowledged stream entry whose handler found no PENDING intent of its amount. */
  lemma NoAcceptedSmsIsLost(seeded: set<int>, trace: seq<State>, actions: seq<Action>, i: nat, tx: nat)
    requires IsRunFrom(seeded, trace, actions) && i <= |actions| && tx in trace[i].sms
    ensures var s := trace[i];
            || (exists r :: r in s.rows && TxOf(s.rows[r].data) == tx && !s.rows[r].status.Published?)
            || (exists e :: 0 <= e < |s.group.log| && TxOf(s.group.log[e]) == tx && e !in s.group.acked)
            || (exists x :: x in s.dead && TxOf(s.dead[x]) == tx)
            || P.Linked(s.db, tx)
            || (exists e :: e in s.ignored && e in s.group.acked && e < |s.group.log| && TxOf(s.group.log[e]) == tx)
  {
    InvAlong(seeded, trace, actions, i);
    Accounted(trace[i], tx);
  }

  lemma Accounted(s: State, tx: nat)
    requires CoverInv(s) && HistoryInv(s) && tx in s.sms
    ensures || (exists r :: r in s.rows && TxOf(s.rows[r].data) == tx && !s.rows[r].status.Published?)
            || (exists e :: 0 <= e < |s.group.log| && TxOf(s.group.log[e]) == tx && e !in s.group.acked)
            || (exists x :: x in s.dead && TxOf(s.dead[x]) == tx)
            || P.Linked(s.db, tx)
            || (exists e :: e in s.ignored && e in s.group.acked && e < |s.group.log| && TxOf(s.group.log[e]) == tx)
  {
    assert HasRow(s, tx);
    var r :| r in s.rows && TxOf(s.rows[r].data) == tx;
    if s.rows[r].status.Published? {
      assert Covered(s, s.rows[r].data, -1);
      if e :| e in s.ignored && e < |s.group.log| && TxOf(s.group.log[e]) == tx {
        assert e in s.group.acked;
      }
    }
  }

  /** An intent that carries an SMS is PAID, as is its order, at exactly the amount of that
      SMS, and no other intent carries the same SMS. */
  lemma MatchingIsCorrect(seeded: set<int>, trace: seq<State>, actions: seq<Action>, i: nat, p: nat)
    requires IsRunFrom(seeded, trace, actions) && i <= |actions|
    requires p in trace[i].db.intents && trace[i].db.intents[p].smsTx.Some?
    ensures var s := trace[i];
            var t := s.db.intents[p].smsTx.value;
            && s.db.intents[p].status == D.Paid && p in s.db.orders && s.db.orders[p].status == D.Paid
            && t in s.sms && s.db.intents[p].exactAmount == s.sms[t].amount
            && forall q :: q in s.db.intents && s.db.intents[q].smsTx == Some(t) ==> q == p
  {
    InvAlong(seeded, trace, actions, i);
    assert IntentOk(trace[i].sms, trace[i].db, p);
  }

  /** Once an intent carries an SMS it carries it in every later state. */
  lemma {:induction false} LinkIsForever(seeded: set<int>, trace: seq<State>, actions: seq<Action>,
                                         i: nat, j: nat, p: nat)
    requires IsRunFrom(seeded, trace, actions) && i <= j <= |actions|
    requires p in trace[i].db.intents && trace[i].db.intents[p].smsTx.Some?
    ensures p in trace[j].db.intents && trace[j].db.intents[p].smsTx == trace[i].db.intents[p].smsTx
  {
    if i < j {
      LinkIsForever(seeded, trace, actions, i, j - 1, p);
      InvAlong(seeded, trace, actions, j - 1);
      assert IsStep(trace, actions, j - 1);
      LinkSurvives(trace[j - 1], actions[j - 1], p);
    }
  }

  lemma LinkSurvives(s: State, a: Action, p: nat)
    requires Inv(s) && Enabled(s, a) && p in s.db.intents && s.db.intents[p].smsTx.Some?
    ensures p in Apply(s, a).db.intents && Apply(s, a).db.intents[p].smsTx == s.db.intents[p].smsTx
  {
    LinksSurvive(s, a);
  }

  lemma LinksSurvive(s: State, a: Action)
    requires Inv(s) && Enabled(s, a)
    ensures LinksStay(s.db, Apply(s, a).db)
  {
    match a
    case Accept(tx, row, sms, trace, now) =>
    case RelayDoes(r, step) =>
    case WorkerDoes(w, step) => if step.WorkerCommit? { WorkerAdvances(s, w, step); }
    case AdminDoes(ad, step) => ConfirmKeepsLinks(s, ad, step);
    case OrderDoes(q, step) => OrderKeepsLinks(s, q, step);
    case Restart =>
  }

  lemma ConfirmKeepsLinks(s: State, ad: nat, step: AdminStep)
    requires AdminCan(s, ad, step)
    ensures LinksStay(s.db, AdminNext(s, ad, step).db)
  {
    if step.Confirm? {
      PayChangesOne(s.db, step.intent, None);
    }
  }

  lemma OrderKeepsLinks(s: State, q: nat, step: OrderStep)
    requires OrderCan(s, q, step)
    ensures LinksStay(s.db, OrderNext(s, q, step).db)
  {
  }

  /** No two PENDING intents ever share an amount, whatever mix of Redis and Postgres
      allocation produced them, so the handler's "multiple intents" branch is never taken. */
  lemma PendingAmountsAreUnique(seeded: set<int>, trace: seq<State>, actions: seq<Action>, i: nat)
    requires IsRunFrom(seeded, trace, actions) && i <= |actions|
    ensures D.IndexHolds(trace[i].db)
    ensures forall v :: |P.Matching(trace[i].db, v)| <= 1
  {
    InvAlong(seeded, trace, actions, i);
    forall v
      ensures |P.Matching(trace[i].db, v)| <= 1
    {
      P.MatchingSize(trace[i].db, v);
    }
  }

  /** Relay soundness and the retry bound, on the rows, on every claimed snapshot and on every
      update computed but not yet written: a PUBLISHED row's payload is on the stream, and a
      FAILED row's payload is in the dead letters, or has been replayed from there onto the
      stream, or the row has used up its retries. */
  lemma RelaysAreSound(seeded: set<int>, trace: seq<State>, actions: seq<Action>, i: nat)
    requires IsRunFrom(seeded, trace, actions) && i <= |actions|
    ensures var s := trace[i];
            forall id :: id in s.rows ==>
              && (s.rows[id].status.Published? ==> InLog(s, s.rows[id].data))
              && (s.rows[id].status.Failed? ==>
                    InDead(s, s.rows[id].data) || InLog(s, s.rows[id].data) || s.rows[id].retryCount == Some(5))
              && (s.rows[id].status in {O.Pending, O.Processing} ==> O.Retries(s.rows[id].retryCount) <= 4)
              && O.Retries(s.rows[id].retryCount) <= 5
    ensures var s := trace[i];
            forall r :: r in s.relays ==>
              && (forall k :: 0 <= k < |s.relays[r].events| ==> O.Retries(s.relays[r].events[k].retryCount) <= 4)
              && (forall k :: 0 <= k < |s.relays[r].updates| ==>
                    var u := s.relays[r].updates[k];
                    && u.retryCount <= 5 && (u.status.Pending? ==> u.retryCount <= 4)
                    && (u.status.Published? ==> u.id in s.rows && InLog(s, s.rows[u.id].data))
                    && (u.status.Failed? && u.retryCount < 5 ==>
                          u.id in s.rows && (InDead(s, s.rows[u.id].data) || InLog(s, s.rows[u.id].data))))
  {
    InvAlong(seeded, trace, actions, i);
    var s := trace[i];
    forall id | id in s.rows
      ensures Sound(id, s.rows[id].status, O.Retries(s.rows[id].retryCount), s.published, s.discarded)
    {
    }
    forall r | r in s.relays
      ensures RelaySound(s.relays[r], s.published, s.discarded)
    {
    }
  }

  /** Every stream id is in exactly one of undelivered, pending and acknowledged; and an id is
      acknowledged only if its SMS is linked, or its own handler found no PENDING intent, or the
      worker wrote a dead-letter copy of it - in which case the payload is still in the
      dead-letter stream, in a later stream entry not yet acknowledged, or settled by now. */
  lemma AcksAreSafe(seeded: set<int>, trace: seq<State>, actions: seq<Action>, i: nat, e: nat)
    requires IsRunFrom(seeded, trace, actions) && i <= |actions| && e < |trace[i].group.log|
    ensures var s := trace[i];
            && (e >= s.group.last ==> e !in s.group.pel && e !in s.group.acked)
            && (e < s.group.last ==> (e in s.group.pel <==> e !in s.group.acked))
    ensures var s := trace[i];
            var d := s.group.log[e];
            e in s.group.acked ==>
              && (P.Linked(s.db, TxOf(d)) || e in s.ignored || e in s.copied)
              && (Settled(s, TxOf(d)) || (exists x :: x in s.dead && s.dead[x] == d)
                  || exists f :: e < f < |s.group.log| && s.group.log[f] == d && f !in s.group.acked)
  {
    InvAlong(seeded, trace, actions, i);
    var s := trace[i];
    if e in s.group.acked {
      assert AckCovered(s, e);
    }
  }

  // ---------- ownership of amounts ----------

  ghost predicate SafeUpTo(trace: seq<State>, actions: seq<Action>, n: nat) {
    n <= |actions| < |trace| && forall i :: 0 <= i < n ==> SafeStep(trace[i], actions[i])
  }

  lemma {:induction false} OwnersAlong(seeded: set<int>, trace: seq<State>, actions: seq<Action>, i: nat)
    requires IsRunFrom(seeded, trace, actions) && SafeUpTo(trace, actions, i)
    ensures OwnInv(trace[i]) && trace[i].seeded == seeded
  {
    if i == 0 {
      InitialOwners(seeded);
    } else {
      OwnersAlong(seeded, trace, actions, i - 1);
      InvAlong(seeded, trace, actions, i - 1);
      assert IsStep(trace, actions, i - 1);
      OwnersStep(trace[i - 1], actions[i - 1]);
    }
  }

  lemma OwnersStep(s: State, a: Action)
    requires Inv(s) && OwnInv(s) && Enabled(s, a) && SafeStep(s, a)
    ensures OwnInv(Apply(s, a)) && Apply(s, a).seeded == s.seeded
  {
    OwnInvKept(s, a);
  }

  lemma InitialOwners(seeded: set<int>)
    ensures OwnInv(Initial(seeded))
  {
    forall v | v in seeded
      ensures exists o :: Owns(Initial(seeded), o, v)
    {
      assert Owns(Initial(seeded), InFree, v);
    }
  }

  /** In every run of safe steps no amount at all ever has two owners - the free set, a request, a
      PENDING intent, a worker that has paid but not released it, the ledger - and every seeded
      amount always has one. */
  lemma EveryAmountHasOneOwner(seeded: set<int>, trace: seq<State>, actions: seq<Action>, i: nat, v: int)
    requires IsRunFrom(seeded, trace, actions) && SafeUpTo(trace, actions, i)
    ensures forall o, p :: Owns(trace[i], o, v) && Owns(trace[i], p, v) ==> o == p
    ensures v in seeded ==> exists o :: Owns(trace[i], o, v)
  {
    OwnersAlong(seeded, trace, actions, i);
  }

  /** And only in those: no amount is in two hands in any state of a run, the ledger left aside, if
      and only if every step of the run is safe. */
  lemma SafeExactlyWhenSingle(seeded: set<int>, trace: seq<State>, actions: seq<Action>)
    requires IsRunFrom(seeded, trace, actions)
    ensures (forall i :: 0 <= i <= |actions| ==> AtMostOne(trace[i])) <==> SafeUpTo(trace, actions, |actions|)
  {
    if SafeUpTo(trace, actions, |actions|) {
      forall i | 0 <= i <= |actions|
        ensures AtMostOne(trace[i])
      {
        OwnersAlong(seeded, trace, actions, i);
      }
    }
    if forall i :: 0 <= i <= |actions| ==> AtMostOne(trace[i]) {
      SingleIsSafe(seeded, trace, actions, |actions|);
    }
  }

  lemma {:induction false} SingleIsSafe(seeded: set<int>, trace: seq<State>, actions: seq<Action>, n: nat)
    requires IsRunFrom(seeded, trace, actions) && n <= |actions|
    requires forall i :: 0 <= i <= |actions| ==> AtMostOne(trace[i])
    ensures SafeUpTo(trace, actions, n)
  {
    if n > 0 {
      SingleIsSafe(seeded, trace, actions, n - 1);
      SafeNext(seeded, trace, actions, n - 1);
    }
  }

  lemma SafeNext(seeded: set<int>, trace: seq<State>, actions: seq<Action>, i: nat)
    requires IsRunFrom(seeded, trace, actions) && i < |actions| && SafeUpTo(trace, actions, i)
    requires AtMostOne(trace[i + 1])
    ensures SafeStep(trace[i], actions[i])
  {
    OwnersAlong(seeded, trace, actions, i);
    InvAlong(seeded, trace, actions, i);
    assert IsStep(trace, actions, i);
    SingleMeansSafe(trace[i], actions[i]);
  }

  lemma SingleMeansSafe(s: State, a: Action)
    requires Inv(s) && OwnInv(s) && Enabled(s, a) && AtMostOne(Apply(s, a))
    ensures SafeStep(s, a)
  {
    if a.Restart? {
      RestartExact(s);
    } else if a.OrderDoes? && a.orderStep.OrderCommit? && s.requests[a.request].hold.source == D.Postgres {
      FallbackExact(s, a.request, a.orderStep.id);
    }
  }

  // ---------- how it breaks ----------

  // One order created through the fallback while Redis is unreachable and nothing else is in flight.
  lemma FallbackOrder(s: State, q: nat, base: int, v: int, id: nat) returns (trace: seq<State>, actions: seq<Action>)
    requires s.requests == map[] && s.workers == map[] && id !in s.db.intents && id !in s.db.orders
    requires base + 1 <= v <= base + 500 && v != 0 && v !in D.PendingAmounts(s.db)
    ensures IsRun(trace, actions) && |actions| == 5 && trace[0] == s
    ensures trace[5] == s.(db := D.Insert(s.db, id, 7, base, v), lost := s.lost - {v})
  {
    var steps := [OrderStart(7, base), FallbackAfterPop(None), FallbackChoose(v), OrderInsert, OrderCommit(id)];
    actions := seq(5, k requires 0 <= k < 5 => OrderDoes(q, steps[k]));
    var end := s.(db := D.Insert(s.db, id, 7, base, v), lost := s.lost - {v});
    trace := [s, Asking(s, q, base, Starting), Asking(s, q, base, Searching), Asking(s, q, base, Candidate(v)),
              Asking(s, q, base, Inserted(v, D.Postgres)), end];
    FallbackSteps(s, q, base, v, id);
    forall k | 0 <= k < 5
      ensures IsStep(trace, actions, k)
    {
      assert OrderMoves(trace[k], q, steps[k], trace[k + 1]);
    }
  }

  ghost predicate OrderMoves(s: State, q: nat, step: OrderStep, s': State) {
    OrderCan(s, q, step) && s' == OrderNext(s, q, step)
  }

  // The state with one request of user 7 in flight.
  function Asking(s: State, q: nat, base: int, h: Hold): State {
    s.(requests := map[q := Request(7, base, 0, h)])
  }

  lemma FallbackSteps(s: State, q: nat, base: int, v: int, id: nat)
    requires s.requests == map[] && s.workers == map[] && id !in s.db.intents && id !in s.db.orders
    requires base + 1 <= v <= base + 500 && v != 0 && v !in D.PendingAmounts(s.db)
    ensures OrderMoves(s, q, OrderStart(7, base), Asking(s, q, base, Starting))
    ensures OrderMoves(Asking(s, q, base, Starting), q, FallbackAfterPop(None), Asking(s, q, base, Searching))
    ensures OrderMoves(Asking(s, q, base, Searching), q, FallbackChoose(v), Asking(s, q, base, Candidate(v)))
    ensures OrderMoves(Asking(s, q, base, Candidate(v)), q, OrderInsert, Asking(s, q, base, Inserted(v, D.Postgres)))
    ensures OrderMoves(Asking(s, q, base, Inserted(v, D.Postgres)), q, OrderCommit(id),
                       s.(db := D.Insert(s.db, id, 7, base, v), lost := s.lost - {v}))
  {
    FallbackStarts(s, q, base, v);
    FallbackInserts(s, q, base, v);
    FallbackCommits(s, q, base, v, id);
  }

  lemma FallbackStarts(s: State, q: nat, base: int, v: int)
    requires s.requests == map[] && base + 1 <= v <= base + 500 && v !in D.PendingAmounts(s.db)
    ensures OrderMoves(s, q, OrderStart(7, base), Asking(s, q, base, Starting))
    ensures OrderMoves(Asking(s, q, base, Starting), q, FallbackAfterPop(None), Asking(s, q, base, Searching))
    ensures OrderMoves(Asking(s, q, base, Searching), q, FallbackChoose(v), Asking(s, q, base, Candidate(v)))
  {
    Turns(s, q, base, Starting, Searching);
    Turns(s, q, base, Searching, Candidate(v));
  }

  lemma Turns(s: State, q: nat, base: int, h: Hold, h': Hold)
    ensures SetHold(Asking(s, q, base, h), q, h') == Asking(s, q, base, h')
  {
    assert map[q := Request(7, base, 0, h)][q := Request(7, base, 0, h')] == map[q := Request(7, base, 0, h')];
  }

  lemma FallbackInserts(s: State, q: nat, base: int, v: int)
    requires s.requests == map[] && s.workers == map[] && v != 0 && v !in D.PendingAmounts(s.db)
    ensures OrderMoves(Asking(s, q, base, Candidate(v)), q, OrderInsert, Asking(s, q, base, Inserted(v, D.Postgres)))
  {
    var request := Request(7, base, 0, Inserted(v, D.Postgres));
    assert DoOrderInsert(Asking(s, q, base, Candidate(v)), q).requests == map[q := request];
  }

  lemma FallbackCommits(s: State, q: nat, base: int, v: int, id: nat)
    requires s.requests == map[] && id !in s.db.intents && id !in s.db.orders
    ensures OrderMoves(Asking(s, q, base, Inserted(v, D.Postgres)), q, OrderCommit(id),
                       s.(db := D.Insert(s.db, id, 7, base, v), lost := s.lost - {v}))
  {
    assert Remove(map[q := Request(7, base, 0, Inserted(v, D.Postgres))], q) == map[];
  }

  /** Two runs, the second starting where the first ends, are one. */
  lemma Joined(trace: seq<State>, actions: seq<Action>, more: seq<State>, rest: seq<Action>)
    requires IsRun(trace, actions) && IsRun(more, rest) && more[0] == trace[|actions|]
    ensures IsRun(trace + more[1..], actions + rest)
    ensures (trace + more[1..])[0] == trace[0] && (trace + more[1..])[|actions + rest|] == more[|rest|]
  {
    var all, both := trace + more[1..], actions + rest;
    forall k | 0 <= k < |both|
      ensures IsStep(all, both, k)
    {
      if k < |actions| {
        assert IsStep(trace, actions, k);
      } else {
        assert IsStep(more, rest, k - |actions|);
      }
    }
  }

  /** The fallback does not know about the free set: one order created through it while Redis
      was unreachable leaves its amount both free and PENDING. */
  lemma FallbackBreaksSingleOwnership() returns (trace: seq<State>, actions: seq<Action>)
    ensures IsRunFrom({1500001}, trace, actions)
    ensures Owns(trace[|actions|], InFree, 1500001) && Owns(trace[|actions|], ByIntent(0), 1500001)
  {
    trace, actions := FallbackOrder(Initial({1500001}), 0, 1500000, 1500001, 0);
  }

  // A restart and a confirmation of the only intent.
  lemma RestartAndConfirm(s: State, id: nat, v: int) returns (trace: seq<State>, actions: seq<Action>)
    requires s.workers == map[] && s.requests == map[] && s.pool.amounts != {} && v !in s.pool.amounts
    requires id in s.db.intents && s.db.intents[id].status.Pending? && s.db.intents[id].exactAmount == v
    ensures IsRun(trace, actions) && trace[0] == s && |actions| == 2
    ensures var end := trace[2];
            && end.workers == map[] && end.requests == map[] && v in end.pool.free
            && end.db == P.Pay(s.db, id, None)
  {
    var s1 := DoRestart(s);
    assert v in s1.pool.pending;
    var s2 := DoAdminConfirm(s1, id);
    trace, actions := [s, s1, s2], [Restart, AdminDoes(0, Confirm(id))];
    assert IsStep(trace, actions, 0) && IsStep(trace, actions, 1);
  }

  /** Nor is it enough that the fallback stays outside the seeded range: an amount outside it is in
      `pending_orders` after a restart, in `free_amounts` once its order is paid, and then the
      fallback hands it out a second time. */
  lemma FallbackOutsideRangeBreaksSingleOwnership() returns (trace: seq<State>, actions: seq<Action>)
    ensures IsRunFrom({1500001}, trace, actions)
    ensures Owns(trace[|actions|], InFree, 1500002) && Owns(trace[|actions|], ByIntent(1), 1500002)
  {
    trace, actions := FallbackOrder(Initial({1500001}), 0, 1500001, 1500002, 0);
    var t, a := RestartAndConfirm(trace[5], 0, 1500002);
    Joined(trace, actions, t, a);
    trace, actions := trace + t[1..], actions + a;
    var paid := trace[7];
    assert D.PendingAmounts(paid.db) == {};
    t, a := FallbackOrder(paid, 1, 1500001, 1500002, 1);
    Joined(trace, actions, t, a);
    trace, actions := trace + t[1..], actions + a;
  }

  /** A restart while a request has popped an amount but not yet moved it frees it again. */
  lemma BusyRestartBreaksSingleOwnership() returns (trace: seq<State>, actions: seq<Action>)
    ensures IsRunFrom({1500001}, trace, actions)
    ensures Owns(trace[|actions|], InFree, 1500001) && Owns(trace[|actions|], ByRequest(0), 1500001)
  {
    var s0 := Initial({1500001});
    var a0, a1 := OrderDoes(0, OrderStart(7, 1500000)), OrderDoes(0, OrderPop(1500001));
    var s1 := Apply(s0, a0);
    var s2 := Apply(s1, a1);
    trace, actions := [s0, s1, s2, Apply(s2, Restart)], [a0, a1, Restart];
    assert IsStep(trace, actions, 0) && IsStep(trace, actions, 1) && IsStep(trace, actions, 2);
  }
}
