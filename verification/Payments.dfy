/** The payment handler (app/modules/order/handlers.py over `process_pending_payment`), the
    admin confirmation, and why delivering a message more than once is harmless. */
module Payments {
  import opened Prelude
  import opened Payload
  import opened Amounts
  import opened Orders

  // How a handler call ends: True, IgnoreAndAck, or CriticalReject.
  datatype Verdict = Success | Ignore | Reject

  // An unexpected error, by where it strikes; `applied` says that the command took effect.
  datatype Fault = NoFault | DbError | CommitFailed(applied: bool) | ReleaseFailed(applied: bool)

  // `sms` holds the ids of the stored SMS, which the foreign key of an intent refers to.
  datatype World = World(db: Db, pool: Pool, sms: set<nat>)

  predicate Linked(db: Db, tx: nat) {
    exists i :: i in db.intents && db.intents[i].smsTx == Some(tx)
  }

  function Matching(db: Db, amount: int): set<nat> {
    set i | i in db.intents && db.intents[i].status.Pending? && db.intents[i].exactAmount == amount
  }

  /** The two rows a payment updates together. */
  function Pay(db: Db, i: nat, tx: Option<nat>): Db
    requires i in db.intents
  {
    var p := db.intents[i];
    var orders := if p.orderId !in db.orders then db.orders
                  else db.orders[p.orderId := db.orders[p.orderId].(status := Paid)];
    Db(orders, db.intents[i := p.(status := Paid, smsTx := if tx.Some? then tx else p.smsTx)])
  }

  /** The only member of a one-element set. */
  function TheOnly(s: set<nat>): (i: nat)
    requires |s| == 1
    ensures s == {i}
  {
    OnlyOne(s);
    var i :| i in s;
    i
  }

  lemma OnlyOne(s: set<nat>)
    requires |s| == 1
    ensures exists i :: i in s
    ensures forall i, j :: i in s && j in s ==> i == j
  {
    var i :| i in s;
    assert |s - {i}| == 0;
  }

  /** A column comparison with a value of another type is a driver error. */
  predicate Integral(f: Option<Field>) {
    f.Some? && f.value.Integer?
  }

  predicate AlreadyLinked(db: Db, tx: int) {
    tx >= 0 && Linked(db, tx)
  }

  /** One whole handler call on a message nobody else is working on. The flush of a link to an
      SMS that is not stored violates the foreign key, which is taken for a concurrent payment. */
  function Handle(w: World, d: Data, fault: Fault): (World, Verdict)
    requires d.Dict?
  {
    if !Truthy(d.transactionId) || !Integral(d.transactionId) || fault.DbError? then (w, Reject)
    else
      var tx := d.transactionId.value.n;
      if AlreadyLinked(w.db, tx) then (w, if fault.CommitFailed? then Reject else Success)
      else if !Integral(d.amount) then (w, Reject)
      else
        var amount := d.amount.value.n;
        var found := Matching(w.db, amount);
        if found == {} then (w, Ignore)
        else if |found| > 1 then (w, Reject)
        else if tx < 0 || tx !in w.sms then (w, Ignore)
        else
          MatchingSize(w.db, amount);
          var paid := Pay(w.db, TheOnly(found), Some(tx));
          match fault
          case CommitFailed(applied) => (if applied then w.(db := paid) else w, Reject)
          case ReleaseFailed(applied) =>
            (w.(db := paid, pool := if applied then Release(w.pool, amount) else w.pool), Reject)
          case _ => (w.(db := paid, pool := Release(w.pool, amount)), Success)
  }

  lemma MatchingSize(db: Db, amount: int)
    ensures Matching(db, amount) != {} ==> |Matching(db, amount)| >= 1
    ensures IndexHolds(db) ==> |Matching(db, amount)| <= 1
  {
    if IndexHolds(db) && Matching(db, amount) != {} {
      var i :| i in Matching(db, amount);
      assert Matching(db, amount) == {i};
    }
  }

  // What `process_pending_payment` returns or raises.
  datatype Processing =
    | InvalidSms
    | DriverError
    | AlreadyProcessed
    | NotFound
    | Ambiguous
    | Concurrent           // the flush violated a constraint
    | Matched(intent: nat)

  // ---------- what a payment does, row by row and amount by amount ----------

  /** The SMS of a message can be looked up. */
  predicate Readable(d: Data) {
    d.Dict? && Truthy(d.transactionId) && Integral(d.transactionId)
  }

  /** The SMS is stored and unused, and one PENDING intent has exactly its amount. */
  predicate Payable(w: World, d: Data) {
    && Readable(d) && d.transactionId.value.n >= 0 && d.transactionId.value.n in w.sms
    && !Linked(w.db, d.transactionId.value.n)
    && Integral(d.amount) && |Matching(w.db, d.amount.value.n)| == 1
  }

  /** There is nothing to pay: no PENDING intent has the amount, or the SMS is not stored. */
  predicate NothingToPay(w: World, d: Data) {
    && Readable(d) && !AlreadyLinked(w.db, d.transactionId.value.n) && Integral(d.amount)
    && (Matching(w.db, d.amount.value.n) == {} ||
        (|Matching(w.db, d.amount.value.n)| == 1 && !Payable(w, d)))
  }

  /** Intent i and its order have become PAID, i carries the SMS of the payment if there is one,
      and no other row has changed. */
  ghost predicate OnlyPaid(db: Db, db': Db, i: nat, tx: Option<nat>) {
    && i in db.intents && db'.intents.Keys == db.intents.Keys && db'.orders.Keys == db.orders.Keys
    && db'.intents[i] == db.intents[i].(status := Paid, smsTx := if tx.Some? then tx else db.intents[i].smsTx)
    && (forall j :: j in db.intents && j != i ==> db'.intents[j] == db.intents[j])
    && forall o :: o in db.orders ==>
         db'.orders[o] == if o == db.intents[i].orderId then db.orders[o].(status := Paid) else db.orders[o]
  }

  /** v is not pending any more, and free if it was pending or free; no other amount has moved. */
  ghost predicate OnlyFreed(p: Pool, p': Pool, v: int) {
    && v !in p'.pending && (v in p'.free <==> v in p.free || v in p.pending) && p'.amounts == p.amounts
    && forall u :: u != v ==> (u in p'.free <==> u in p.free) && (u in p'.pending <==> u in p.pending)
  }

  class PaymentHandler {
    // Committed rows; a call works on a session copy until it commits.
    var db: Db
    var pool: Pool
    var sms: set<nat>

    constructor (db: Db, pool: Pool, sms: set<nat>)
      ensures Tables() == World(db, pool, sms)
    {
      this.db, this.pool, this.sms := db, pool, sms;
    }

    function Tables(): World
      reads this
    {
      World(db, pool, sms)
    }

    method ProcessPendingPayment(session: Db, amount: Option<Field>, transactionId: Option<Field>, fault: Fault)
      returns (session': Db, outcome: Processing)
      ensures !outcome.Matched? ==> session' == session
      ensures outcome.InvalidSms? <==> !Truthy(transactionId)
      ensures Truthy(transactionId) && (fault.DbError? || !Integral(transactionId)) ==> outcome.DriverError?
      ensures Truthy(transactionId) && Integral(transactionId) && !fault.DbError? ==>
                var tx := transactionId.value.n;
                && (outcome.AlreadyProcessed? <==> AlreadyLinked(session, tx))
                && (!AlreadyLinked(session, tx) ==>
                      && (outcome.DriverError? <==> !Integral(amount))
                      && (Integral(amount) ==>
                            var found := Matching(session, amount.value.n);
                            && (outcome.NotFound? <==> found == {})
                            && (outcome.Ambiguous? <==> |found| > 1)
                            && (outcome.Concurrent? <==> |found| == 1 && (tx < 0 || tx !in sms))
                            && (outcome.Matched? ==>
                                  found == {outcome.intent} && tx >= 0 && tx in sms &&
                                  session' == Pay(session, outcome.intent, Some(tx)))))
      ensures outcome.Ambiguous? ==> !IndexHolds(session)
    {
      session' := session;
      if !Truthy(transactionId) {
        return session', InvalidSms;
      }
      if fault.DbError? || !Integral(transactionId) {
        return session', DriverError;
      }
      var tx := transactionId.value.n;
      if AlreadyLinked(session, tx) {
        return session', AlreadyProcessed;
      }
      if !Integral(amount) {
        return session', DriverError;
      }
      var found := Matching(session, amount.value.n);
      MatchingSize(session, amount.value.n);
      if found == {} {
        return session', NotFound;
      }
      if |found| > 1 {
        return session', Ambiguous;
      }
      if tx < 0 || tx !in sms {
        return session', Concurrent;
      }
      var i := TheOnly(found);
      return Pay(session, i, Some(tx)), Matched(i);
    }

    /** Commit first, release the amount after; every exception is mapped to a verdict. */
    method HandlePayment(d: Data, fault: Fault) returns (v: Verdict)
      requires d.Dict?
      modifies this
      ensures (Tables(), v) == Handle(old(Tables()), d, fault)
      // The verdict: an acknowledged SMS is linked, and an error never makes one look paid.
      ensures v.Success? ==> Readable(d) && AlreadyLinked(db, d.transactionId.value.n)
      ensures Payable(old(Tables()), d) ==> !v.Ignore? && (v.Success? <==> fault.NoFault?)
      ensures Readable(d) && AlreadyLinked(old(db), d.transactionId.value.n) ==>
                !v.Ignore? && (v.Success? <==> fault.NoFault? || fault.ReleaseFailed?)
      ensures v.Ignore? <==> NothingToPay(old(Tables()), d) && !fault.DbError?
      // The tables and the sets, error by error.
      ensures Payable(old(Tables()), d) && (fault.NoFault? || fault.ReleaseFailed? || fault == CommitFailed(true)) ==>
                exists i :: Matching(old(db), d.amount.value.n) == {i}
                            && OnlyPaid(old(db), db, i, Some(d.transactionId.value.n))
      ensures Payable(old(Tables()), d) && (fault.NoFault? || fault == ReleaseFailed(true)) ==>
                OnlyFreed(old(pool), pool, d.amount.value.n)
      ensures !Payable(old(Tables()), d) || fault.DbError? || fault == CommitFailed(false) ==> db == old(db)
      ensures !Payable(old(Tables()), d) || fault.DbError? || fault.CommitFailed? || fault == ReleaseFailed(false) ==>
                pool == old(pool)
      ensures sms == old(sms)
    {
      var session, outcome := ProcessPendingPayment(db, d.amount, d.transactionId, fault);
      match outcome {
        case InvalidSms => return Reject;
        case DriverError => return Reject;
        case NotFound => return Ignore;
        case Ambiguous => return Reject;
        case Concurrent => return Ignore;
        case AlreadyProcessed =>
          if fault.CommitFailed? {
            return Reject;
          }
          return Success;
        case Matched(i) =>
          assert session.intents[i].smsTx == Some(d.transactionId.value.n);
          if fault.CommitFailed? {
            if fault.applied {
              db := session;
            }
            return Reject;
          }
          db := session;
          if fault.ReleaseFailed? {
            if fault.applied {
              pool := Release(pool, d.amount.value.n);
            }
            return Reject;
          }
          pool := Release(pool, d.amount.value.n);
          return Success;
      }
    }

    /** `handle_pending_payment` and the commit of its route: PENDING or FAILED intents of the
        given order can be confirmed. The SMOVE comes before the commit, so an error in between
        rolls the tables back but not the sets. */
    method HandlePendingPayment(orderId: nat, paymentId: nat, fault: Fault) returns (r: Confirmation)
      modifies this
      ensures var found := paymentId in old(db).intents && old(db).intents[paymentId].orderId == orderId
                           && old(db).intents[paymentId].status in {Pending, Failed};
              && (r.PaymentNotFound? <==> !found && !fault.DbError?)
              && (r.Confirmed? <==> found && fault.NoFault?)
              && Tables() == if found then AfterConfirm(old(Tables()), paymentId, fault) else old(Tables())
      // What a confirmation does, and how much of it an error leaves.
      ensures r.Confirmed? ==>
                && OnlyPaid(old(db), db, paymentId, None)
                && OnlyFreed(old(pool), pool, old(db).intents[paymentId].exactAmount)
      ensures r.ConfirmFailed? && fault == CommitFailed(true) ==> OnlyPaid(old(db), db, paymentId, None)
      ensures r.ConfirmFailed? && (fault.CommitFailed? || fault == ReleaseFailed(true)) ==>
                OnlyFreed(old(pool), pool, old(db).intents[paymentId].exactAmount)
      ensures r.PaymentNotFound? || fault.DbError? || fault == ReleaseFailed(false) ==> Tables() == old(Tables())
      ensures fault.ReleaseFailed? || fault == CommitFailed(false) ==> db == old(db)
      ensures sms == old(sms)
    {
      if fault.DbError? {
        return ConfirmFailed;
      }
      if paymentId !in db.intents || db.intents[paymentId].orderId != orderId
         || db.intents[paymentId].status !in {Pending, Failed} {
        return PaymentNotFound;
      }
      var session := Pay(db, paymentId, None);
      var exactAmount := db.intents[paymentId].exactAmount;
      if !fault.ReleaseFailed? || fault.applied {
        pool := Release(pool, exactAmount);
      }
      if fault.ReleaseFailed? {
        return ConfirmFailed;
      }
      if !fault.CommitFailed? || fault.applied {
        db := session;
      }
      return if fault.NoFault? then Confirmed else ConfirmFailed;
    }
  }

  datatype Confirmation = Confirmed | PaymentNotFound | ConfirmFailed

  function Confirm(w: World, i: nat): World
    requires i in w.db.intents
  {
    w.(db := Pay(w.db, i, None), pool := Release(w.pool, w.db.intents[i].exactAmount))
  }

  function AfterConfirm(w: World, i: nat, fault: Fault): World
    requires i in w.db.intents
  {
    match fault
    case NoFault => Confirm(w, i)
    case DbError => w
    case ReleaseFailed(applied) => if applied then w.(pool := Confirm(w, i).pool) else w
    case CommitFailed(applied) => if applied then Confirm(w, i) else w.(pool := Confirm(w, i).pool)
  }

  /** Whether a confirmation that fails leaves the amount of a still PENDING intent in the free
      set: exactly if it was free already, or was in `pending_orders` and the SMOVE took effect
      while the commit did not. */
  lemma FailedConfirmFrees(w: World, i: nat, fault: Fault)
    requires i in w.db.intents && w.db.intents[i].status.Pending? && !fault.NoFault?
    ensures var v, w' := w.db.intents[i].exactAmount, AfterConfirm(w, i, fault);
            w'.db.intents[i].status.Pending? && v in w'.pool.free <==>
              && fault != CommitFailed(true)
              && (v in w.pool.free || (v in w.pool.pending && fault in {ReleaseFailed(true), CommitFailed(false)}))
  {
  }

  // ---------- runs ----------

  // Handler calls interleaved with everything else that changes orders, intents or the sets.
  datatype Event =
    | Deliver(data: Data, fault: Fault)
    | Open(id: nat, userId: nat, amount: int, exactAmount: int, fromRedis: bool)
    | AdminConfirm(id: nat)
    | Store(tx: nat)

  function Next(w: World, e: Event): World {
    match e
    case Deliver(d, fault) => if d.Dict? then Handle(w, d, fault).0 else w
    case Open(id, user, amount, v, fromRedis) =>
      // An order that cannot be created leaves everything as it was.
      if id in w.db.intents || v in PendingAmounts(w.db) || (fromRedis && v !in w.pool.free) then w
      else w.(db := Insert(w.db, id, user, amount, v), pool := if fromRedis then Allocate(w.pool, v) else w.pool)
    case AdminConfirm(id) => if id in w.db.intents && w.db.intents[id].status.Pending? then Confirm(w, id) else w
    case Store(tx) => w.(sms := w.sms + {tx})
  }

  function Final(w: World, es: seq<Event>): World
    decreases |es|
  {
    if es == [] then w else Final(Next(w, es[0]), es[1..])
  }

  /** A delivery of an SMS that some intent already carries. */
  predicate Redundant(w: World, e: Event) {
    && e.Deliver? && e.data.Dict? && Integral(e.data.transactionId) && e.data.transactionId.value.n > 0
    && Linked(w.db, e.data.transactionId.value.n)
  }

  /** The run without its redundant deliveries. */
  function WithoutRepeats(w: World, es: seq<Event>): seq<Event>
    decreases |es|
  {
    if es == [] then []
    else (if Redundant(w, es[0]) then [] else [es[0]]) + WithoutRepeats(Next(w, es[0]), es[1..])
  }

  /** A redundant delivery changes nothing, and without an error it is acknowledged. */
  lemma RedundantIsHarmless(w: World, e: Event)
    requires Redundant(w, e)
    ensures Next(w, e) == w
    ensures e.fault.NoFault? || e.fault.ReleaseFailed? ==> Handle(w, e.data, e.fault).1 == Success
  {
  }

  /** At-least-once delivery refines exactly-once delivery: dropping from any run every later
      delivery of an already linked SMS leaves the orders, the intents and the three sets as
      they were at the end of the run. */
  lemma {:induction false} RepeatsDoNotMatter(w: World, es: seq<Event>)
    ensures Final(w, WithoutRepeats(w, es)) == Final(w, es)
    decreases |es|
  {
    if es != [] {
      RepeatsDoNotMatter(Next(w, es[0]), es[1..]);
      var rest := WithoutRepeats(Next(w, es[0]), es[1..]);
      if Redundant(w, es[0]) {
        RedundantIsHarmless(w, es[0]);
        assert [] + rest == rest;
      } else {
        assert ([es[0]] + rest)[1..] == rest;
      }
    }
  }

  /** How many deliveries of a run link `tx` to an intent. */
  ghost function Links(w: World, es: seq<Event>, tx: nat): nat
    decreases |es|
  {
    if es == [] then 0
    else (if !Linked(w.db, tx) && Linked(Next(w, es[0]).db, tx) then 1 else 0) + Links(Next(w, es[0]), es[1..], tx)
  }

  /** A link is never undone, and the linked intent stays PAID at the same amount. */
  lemma LinkIsPermanent(w: World, e: Event, i: nat, tx: nat)
    requires i in w.db.intents && w.db.intents[i].smsTx == Some(tx) && w.db.intents[i].status.Paid?
    ensures i in Next(w, e).db.intents && Next(w, e).db.intents[i] == w.db.intents[i]
  {
  }

  /** Whatever is delivered however often, an SMS pays at most once. */
  lemma {:induction false} PaysAtMostOnce(w: World, es: seq<Event>, tx: nat)
    requires forall i :: i in w.db.intents && w.db.intents[i].smsTx.Some? ==> w.db.intents[i].status.Paid?
    ensures Links(w, es, tx) <= 1
    ensures Linked(w.db, tx) ==> Links(w, es, tx) == 0
    decreases |es|
  {
    if es != [] {
      var w' := Next(w, es[0]);
      if Linked(w.db, tx) {
        var i :| i in w.db.intents && w.db.intents[i].smsTx == Some(tx);
        LinkIsPermanent(w, es[0], i, tx);
      }
      assert forall i :: i in w'.db.intents && w'.db.intents[i].smsTx.Some? ==> w'.db.intents[i].status.Paid?;
      PaysAtMostOnce(w', es[1..], tx);
    }
  }
}
