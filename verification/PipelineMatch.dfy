/** Matching payments to intents: at most one intent per SMS, of the right amount and PAID, and
    at most one PENDING intent per amount - under any interleaving of workers and orders. */
module PipelineMatch {
  import opened Prelude
  import opened Payload
  import opened Pipeline
  import opened PipelineStream
  import D = Orders
  import P = Payments

  /** An order and its intent are PENDING or PAID together, and a linked intent is PAID at
      exactly the amount of its SMS. */
  ghost predicate IntentOk(sms: map<nat, Sms>, db: D.Db, i: nat)
    requires i in db.intents
  {
    var p := db.intents[i];
    && p.status in {D.Pending, D.Paid} && p.orderId == i
    && i in db.orders && db.orders[i].status == p.status
    && (p.smsTx.Some? ==> p.status.Paid? && p.smsTx.value in sms && p.exactAmount == sms[p.smsTx.value].amount)
  }

  ghost predicate IntentsOk(sms: map<nat, Sms>, db: D.Db) {
    && db.orders.Keys == db.intents.Keys
    && (forall i :: i in db.intents ==> IntentOk(sms, db, i))
    && (forall i, j :: i in db.intents && j in db.intents && i != j && db.intents[i].smsTx.Some? ==>
          db.intents[i].smsTx != db.intents[j].smsTx)
  }

  /** What a worker's stage says about the committed tables. */
  ghost predicate LockOk(db: D.Db, w: Worker) {
    w.batch != [] ==>
      var d := w.batch[0].data;
      && (w.stage.Locked? || w.stage.Flushed? ==>
            && w.stage.intent in db.intents && db.intents[w.stage.intent].status.Pending?
            && db.intents[w.stage.intent].exactAmount == AmountOf(d))
      && (w.stage.Flushed? ==> !P.Linked(db, TxOf(d)))
      && (w.stage.Committed? ==>
            && w.stage.intent in db.intents && db.intents[w.stage.intent].smsTx == Some(TxOf(d))
            && db.intents[w.stage.intent].exactAmount == AmountOf(d))
  }

  /** Row locks exclude each other, and so do uncommitted uses of one SMS id. */
  ghost predicate Apart(v: Worker, w: Worker) {
    v.batch != [] && w.batch != [] ==>
      && (forall i :: HoldsLock(v, i) ==> !HoldsLock(w, i))
      && (v.stage.Flushed? && w.stage.Flushed? ==> TxOf(v.batch[0].data) != TxOf(w.batch[0].data))
  }

  ghost predicate MatchInv(s: State) {
    && IntentsOk(s.sms, s.db)
    && (forall w :: w in s.workers ==> LockOk(s.db, s.workers[w]))
    && (forall v, w :: v in s.workers && w in s.workers && v != w ==> Apart(s.workers[v], s.workers[w]))
  }

  // ---------- single steps ----------

  lemma SelectFinds(db: D.Db, d: Data)
    ensures AfterSelect(db, d).Locked? ==> AfterSelect(db, d).intent in P.Matching(db, AmountOf(d))
    ensures AfterSelect(db, d) in {Failing, Ignoring} || AfterSelect(db, d).Locked?
    ensures D.IndexHolds(db) && d.Dict? && P.Integral(d.amount) ==> !AfterSelect(db, d).Failing?
    ensures AfterSelect(db, d).Ignoring? ==> P.Matching(db, AmountOf(d)) == {}
  {
    P.MatchingSize(db, AmountOf(d));
  }

  // The invariant after a stage change, from what the new stage needs.
  lemma StageKeepsMatch(s: State, s': State, w: nat)
    requires MatchInv(s) && MovedStage(s, s', w) && s'.db == s.db && s'.sms == s.sms
    requires LockOk(s.db, s'.workers[w])
    requires forall v :: v in s.workers && v != w ==>
               Apart(s.workers[v], s'.workers[w]) && Apart(s'.workers[w], s.workers[v])
    ensures MatchInv(s')
  {
  }

  // A stage that holds no lock needs nothing.
  lemma LockFreeApart(v: Worker, w: Worker)
    requires !w.stage.Locked? && !w.stage.Flushed?
    ensures Apart(v, w) && Apart(w, v)
  {
  }

  lemma SelectKeepsMatch(s: State, w: nat)
    requires MatchInv(s) && CanSelect(s, w)
    ensures MatchInv(DoWorkerSelect(s, w))
  {
    var s' := DoWorkerSelect(s, w);
    var d := Head(s, w).data;
    SelectFinds(s.db, d);
    var stage := AfterSelect(s.db, d);
    if !stage.Locked? {
      forall v | v in s.workers && v != w {
        LockFreeApart(s.workers[v], s'.workers[w]);
      }
    } else {
      assert Unlocked(s, stage.intent);
    }
    StageKeepsMatch(s, s', w);
  }

  lemma FlushKeepsMatch(s: State, w: nat)
    requires MatchInv(s) && CanFlush(s, w)
    ensures MatchInv(DoWorkerFlush(s, w))
  {
    var s' := DoWorkerFlush(s, w);
    var stage := s'.workers[w].stage;
    if stage.Flushed? {
      FlushedApart(s, w);
    } else {
      forall v | v in s.workers && v != w {
        LockFreeApart(s.workers[v], s'.workers[w]);
      }
    }
    StageKeepsMatch(s, s', w);
  }

  lemma FlushedApart(s: State, w: nat)
    requires MatchInv(s) && CanFlush(s, w)
    ensures var w' := s.workers[w].(stage := Flushed(s.workers[w].stage.intent));
            forall v :: v in s.workers && v != w ==> Apart(s.workers[v], w') && Apart(w', s.workers[v])
  {
    forall v | v in s.workers && v != w
      ensures var w' := s.workers[w].(stage := Flushed(s.workers[w].stage.intent));
              Apart(s.workers[v], w') && Apart(w', s.workers[v])
    {
      assert Apart(s.workers[v], s.workers[w]);
      assert HoldsLock(s.workers[w], s.workers[w].stage.intent);
    }
  }

  /** Committing a payment leaves every other intent as it was. */
  lemma PayChangesOne(db: D.Db, i: nat, tx: Option<nat>)
    requires i in db.intents
    ensures P.Pay(db, i, tx).intents.Keys == db.intents.Keys
    ensures forall j :: j in db.intents && j != i ==> P.Pay(db, i, tx).intents[j] == db.intents[j]
    ensures P.Pay(db, i, tx).intents[i].exactAmount == db.intents[i].exactAmount
  {
  }

  lemma PayKeepsIntents(sms: map<nat, Sms>, db: D.Db, i: nat, tx: Option<nat>)
    requires IntentsOk(sms, db) && i in db.intents && db.intents[i].status.Pending?
    requires tx.Some? ==>
               !P.Linked(db, tx.value) && tx.value in sms && db.intents[i].exactAmount == sms[tx.value].amount
    ensures IntentsOk(sms, P.Pay(db, i, tx))
  {
    assert IntentOk(sms, db, i);
    var db' := P.Pay(db, i, tx);
    PayChangesOne(db, i, tx);
    forall j | j in db'.intents
      ensures IntentOk(sms, db', j)
    {
      assert IntentOk(sms, db, j);
    }
  }

  /** A row lock protects its holder's intent: other workers' facts survive a payment. */
  lemma PayKeepsLocks(db: D.Db, i: nat, tx: Option<nat>, v: Worker)
    requires i in db.intents && db.intents[i].status.Pending? && db.intents[i].smsTx.None?
    requires LockOk(db, v) && (v.batch != [] ==> !HoldsLock(v, i))
    requires v.stage.Flushed? && v.batch != [] ==> tx != Some(TxOf(v.batch[0].data))
    ensures LockOk(P.Pay(db, i, tx), v)
  {
    PayChangesOne(db, i, tx);
  }

  lemma CommitKeepsMatch(s: State, w: nat)
    requires StreamInv(s) && PayloadInv(s) && MatchInv(s) && CanCommit(s, w)
    ensures MatchInv(DoWorkerCommit(s, w))
  {
    var s' := DoWorkerCommit(s, w);
    var i, tx := s.workers[w].stage.intent, TxOf(Head(s, w).data);
    HeadIsPayment(s, w);
    assert LockOk(s.db, s.workers[w]);
    assert IntentOk(s.sms, s.db, i);
    PayKeepsIntents(s.sms, s.db, i, Some(tx));
    forall v | v in s.workers && v != w
      ensures LockOk(s'.db, s.workers[v])
    {
      assert Apart(s.workers[w], s.workers[v]);
      assert HoldsLock(s.workers[w], i);
      PayKeepsLocks(s.db, i, Some(tx), s.workers[v]);
    }
    forall v | v in s.workers && v != w {
      LockFreeApart(s.workers[v], s'.workers[w]);
    }
  }

  lemma ConfirmKeepsMatch(s: State, i: nat)
    requires MatchInv(s) && Confirmable(s, i)
    ensures MatchInv(DoAdminConfirm(s, i))
  {
    var s' := DoAdminConfirm(s, i);
    assert IntentOk(s.sms, s.db, i);
    PayKeepsIntents(s.sms, s.db, i, None);
    forall v | v in s.workers
      ensures LockOk(s'.db, s.workers[v])
    {
      PayKeepsLocks(s.db, i, None, s.workers[v]);
    }
  }

  lemma InsertKeepsMatch(s: State, q: nat, id: nat)
    requires MatchInv(s) && CanOrderCommit(s, q, id)
    ensures MatchInv(DoOrderCommit(s, q, id))
  {
    var s' := DoOrderCommit(s, q, id);
    forall j | j in s'.db.intents
      ensures IntentOk(s.sms, s'.db, j)
    {
      if j != id {
        assert IntentOk(s.sms, s.db, j);
      }
    }
    forall v | v in s.workers
      ensures LockOk(s'.db, s.workers[v])
    {
      assert LockOk(s.db, s.workers[v]);
    }
  }

  // Steps that release locks or only touch the batch behind the head.
  lemma QuietWorkerKeepsMatch(s: State, w: nat, step: WorkerStep)
    requires MatchInv(s) && WorkerCan(s, w, step)
    requires !step.WorkerSelect? && !step.WorkerFlush? && !step.WorkerCommit?
    ensures MatchInv(WorkerNext(s, w, step))
  {
    if step.WorkerCrash? {
      CrashKeepsMatch(s, w);
    } else {
      QuietStage(s, w, step);
      var s' := WorkerNext(s, w, step);
      forall v | v in s.workers && v != w {
        LockFreeApart(s.workers[v], s'.workers[w]);
      }
    }
  }

  lemma CrashKeepsMatch(s: State, w: nat)
    requires MatchInv(s) && w in s.workers
    ensures MatchInv(DoWorkerCrash(s, w))
  {
    assert DoWorkerCrash(s, w).workers == Remove(s.workers, w);
  }

  lemma QuietStage(s: State, w: nat, step: WorkerStep)
    requires WorkerCan(s, w, step)
    requires !step.WorkerSelect? && !step.WorkerFlush? && !step.WorkerCommit? && !step.WorkerCrash?
    ensures var s' := WorkerNext(s, w, step);
            && w in s'.workers && s'.workers == s.workers[w := s'.workers[w]]
            && s'.workers[w].stage in {Ready, Checked, Acking, Ignoring, Failing, Buried}
  {
  }

  lemma WorkerKeepsMatch(s: State, w: nat, step: WorkerStep)
    requires StreamInv(s) && PayloadInv(s) && MatchInv(s) && WorkerCan(s, w, step)
    ensures MatchInv(WorkerNext(s, w, step))
  {
    if step.WorkerSelect? {
      SelectKeepsMatch(s, w);
    } else if step.WorkerFlush? {
      FlushKeepsMatch(s, w);
    } else if step.WorkerCommit? {
      CommitKeepsMatch(s, w);
    } else {
      QuietWorkerKeepsMatch(s, w, step);
    }
  }

  lemma AcceptKeepsMatch(s: State, tx: nat, row: nat, sms: Sms, trace: string, now: int)
    requires MatchInv(s) && CanAccept(s, tx, row, sms)
    ensures MatchInv(DoAccept(s, tx, row, sms, trace, now))
  {
    var s' := DoAccept(s, tx, row, sms, trace, now);
    forall i | i in s.db.intents
      ensures IntentOk(s'.sms, s.db, i)
    {
      assert IntentOk(s.sms, s.db, i);
    }
  }

  lemma MatchInvKept(s: State, a: Action)
    requires StreamInv(s) && PayloadInv(s) && MatchInv(s) && Enabled(s, a)
    ensures MatchInv(Apply(s, a))
  {
    match a
    case Accept(tx, row, sms, trace, now) => AcceptKeepsMatch(s, tx, row, sms, trace, now);
    case RelayDoes(r, step) =>
    case WorkerDoes(w, step) => WorkerKeepsMatch(s, w, step);
    case AdminDoes(ad, step) => if step.Confirm? { ConfirmKeepsMatch(s, step.intent); }
    case OrderDoes(q, step) => if step.OrderCommit? { InsertKeepsMatch(s, q, step.id); }
    case Restart =>
  }

  // ---------- the partial unique index ----------

  /** No two PENDING intents share an amount, and what is flushed but uncommitted conflicts
      neither with the table nor with another session. */
  ghost predicate IndexInv(s: State) {
    && D.IndexHolds(s.db)
    && (forall q :: q in s.requests && s.requests[q].hold.Inserted? ==>
          s.requests[q].hold.v !in D.PendingAmounts(s.db))
    && (forall q, r :: q in s.requests && r in s.requests && q != r
                       && s.requests[q].hold.Inserted? && s.requests[r].hold.Inserted? ==>
          s.requests[q].hold.v != s.requests[r].hold.v)
  }

  lemma PayShrinksPending(db: D.Db, i: nat, tx: Option<nat>)
    requires i in db.intents && D.IndexHolds(db)
    ensures D.IndexHolds(P.Pay(db, i, tx)) && D.PendingAmounts(P.Pay(db, i, tx)) <= D.PendingAmounts(db)
  {
    PayChangesOne(db, i, tx);
    var db' := P.Pay(db, i, tx);
    forall x | x in D.PendingAmounts(db')
      ensures x in D.PendingAmounts(db)
    {
      var j :| j in db'.intents && db'.intents[j].status.Pending? && db'.intents[j].exactAmount == x;
      assert j != i && db.intents[j] == db'.intents[j];
    }
  }

  lemma OrderCommitKeepsIndex(s: State, q: nat, id: nat)
    requires IndexInv(s) && CanOrderCommit(s, q, id)
    ensures IndexInv(DoOrderCommit(s, q, id))
  {
    var r := s.requests[q];
    D.InsertKeepsIndex(s.db, id, r.user, r.amount, r.hold.v);
  }

  lemma OrderInsertKeepsIndex(s: State, q: nat)
    requires IndexInv(s) && CanInsert(s, q)
    ensures IndexInv(DoOrderInsert(s, q))
  {
    var s' := DoOrderInsert(s, q);
    if q in s'.requests {
      InsertedWhenFree(s, q);
      ReplaceKeepsIndex(s, q, s'.requests[q]);
    }
  }

  lemma InsertedWhenFree(s: State, q: nat)
    requires CanInsert(s, q)
    ensures var s' := DoOrderInsert(s, q);
            if q in s'.requests
            then && s'.requests == s.requests[q := s'.requests[q]]
                 && (s'.requests[q].hold.Inserted? ==>
                       s'.requests[q].hold.v == s.requests[q].hold.v && s.requests[q].hold.v !in D.PendingAmounts(s.db))
            else s'.requests == Remove(s.requests, q)
  {
  }

  lemma ReplaceKeepsIndex(s: State, q: nat, r: Request)
    requires IndexInv(s)
    requires r.hold.Inserted? ==>
               && r.hold.v !in D.PendingAmounts(s.db)
               && forall x :: x in s.requests && s.requests[x].hold.Inserted? ==> s.requests[x].hold.v != r.hold.v
    ensures IndexInv(s.(requests := s.requests[q := r]))
  {
  }

  lemma OrderKeepsIndex(s: State, q: nat, step: OrderStep)
    requires IndexInv(s) && OrderCan(s, q, step)
    ensures IndexInv(OrderNext(s, q, step))
  {
    if step.OrderCommit? {
      OrderCommitKeepsIndex(s, q, step.id);
    } else if step.OrderInsert? {
      OrderInsertKeepsIndex(s, q);
    } else {
      OtherOrderStep(s, q, step);
    }
  }

  lemma OtherOrderStep(s: State, q: nat, step: OrderStep)
    requires OrderCan(s, q, step) && !step.OrderCommit? && !step.OrderInsert?
    ensures var s' := OrderNext(s, q, step);
            || s'.requests == Remove(s.requests, q)
            || (q in s'.requests && s'.requests == s.requests[q := s'.requests[q]] && !s'.requests[q].hold.Inserted?)
  {
  }

  lemma WorkerKeepsIndex(s: State, w: nat, step: WorkerStep)
    requires IndexInv(s) && WorkerCan(s, w, step)
    ensures IndexInv(WorkerNext(s, w, step))
  {
    if step.WorkerCommit? {
      PayShrinksPending(s.db, s.workers[w].stage.intent, Some(TxOf(Head(s, w).data)));
    }
  }

  lemma AdminKeepsIndex(s: State, ad: nat, step: AdminStep)
    requires IndexInv(s) && AdminCan(s, ad, step)
    ensures IndexInv(AdminNext(s, ad, step))
  {
    if step.Confirm? {
      PayShrinksPending(s.db, step.intent, None);
    }
  }

  lemma IndexInvKept(s: State, a: Action)
    requires IndexInv(s) && Enabled(s, a)
    ensures IndexInv(Apply(s, a))
  {
    match a
    case Accept(tx, row, sms, trace, now) =>
    case RelayDoes(r, step) =>
    case WorkerDoes(w, step) => WorkerKeepsIndex(s, w, step);
    case AdminDoes(ad, step) => AdminKeepsIndex(s, ad, step);
    case OrderDoes(q, step) => OrderKeepsIndex(s, q, step);
    case Restart =>
  }
}
