/** The whole pipeline as a state machine: one action per database transaction step or Redis
    command, any number of relays, workers, order requests and admin replays in flight, and a
    crash possible between any two steps. A run is a sequence of enabled actions. */
module Pipeline {
  import opened Prelude
  import opened Payload
  import opened Amounts
  import O = Outbox
  import G = Streams
  import D = Orders
  import P = Payments

  const MAX_DELIVERIES: nat := 3
  const MAX_ORDER_ATTEMPTS: nat := 3

  datatype Sms = Sms(amount: nat, inventory: nat, date: string, time: string)

  // A claimed batch and the updates computed so far.
  datatype Relay = Relay(events: seq<O.Event>, updates: seq<O.Update>)

  // Where a worker stands with the message at the head of its batch.
  datatype Stage =
    | Ready
    | Checked                  // no committed intent carries the SMS
    | Locked(intent: nat)      // SELECT ... FOR UPDATE returned this intent
    | Flushed(intent: nat)     // UPDATE sent, not committed
    | Committed(intent: nat)   // committed, the amount not yet released
    | Acking                   // the handler returned True, or found the SMS paid concurrently
    | Ignoring                 // the handler found no PENDING intent of the amount
    | Failing                  // the handler returned False
    | Buried                   // dead-letter copy written, not yet acknowledged

  datatype Worker = Worker(batch: seq<G.Message>, stage: Stage)

  // An admin replay between reading the dead letter and the MULTI that moves it.
  datatype Replay = Replay(dead: nat, data: Data)

  datatype Hold =
    | Starting
    | Popped(v: int)           // SPOP answered
    | Reserved(v: int)         // SMOVE amounts -> pending_orders answered
    | Refused(v: int)          // the insert failed, compensation due
    | Unreserved(v: int)       // SMOVE pending_orders -> amounts answered
    | Searching                // Redis failed, Postgres fallback
    | Candidate(v: int)        // chosen by the fallback
    | Inserted(v: int, source: D.Source)  // flushed in a savepoint, not committed

  datatype Request = Request(user: nat, amount: int, attempts: nat, hold: Hold)

  datatype State = State(
    // PostgreSQL
    sms: map<nat, Sms>,
    rows: O.Table,
    db: D.Db,
    // Redis
    group: G.Group,
    dead: map<nat, Data>,
    pool: Pool,
    // in flight
    relays: map<nat, Relay>,
    workers: map<nat, Worker>,
    replays: map<nat, Replay>,
    requests: map<nat, Request>,
    // history: no step reads it
    nextDead: nat,
    published: set<nat>,       // rows whose payload reached the stream
    discarded: set<nat>,       // rows whose payload reached the dead-letter stream
    copied: set<nat>,          // stream ids with a dead-letter copy
    ignored: set<nat>,         // stream ids acknowledged because no intent matched
    seeded: set<int>,          // the amounts the pool was created with
    lost: set<int>)            // amounts that leaked out of the pool

  datatype RelayStep =
    | RelayClaim(ids: seq<nat>, at: int)
    | RelayHandle(up: bool, applied: bool)
    | RelayWrite
    | RelayCrash

  datatype WorkerStep =
    | WorkerRead(count: nat, at: int)
    | WorkerClaim(id: nat, at: int)
    | WorkerCheck
    | WorkerSelect
    | WorkerFlush
    | WorkerCommit
    | WorkerRelease
    | WorkerReleaseRaises(applied: bool)
    | WorkerRaise
    | WorkerBury
    | WorkerGiveUp
    | WorkerAck
    | WorkerCrash

  datatype AdminStep =
    | ReplayRead(deadId: nat)
    | ReplayExec
    | ReplayDrop
    | Confirm(intent: nat)

  datatype OrderStep =
    | OrderStart(user: nat, base: int)
    | OrderPop(v: int)
    | OrderEmpty
    | OrderReserve
    | OrderInsert
    | OrderCommit(id: nat)
    | OrderDbError
    | OrderUnreserve
    | OrderAddFree
    | OrderLeak(applied: bool)
    | FallbackAfterPop(taken: Option<int>)
    | FallbackAfterLeak(applied: bool)
    | FallbackChoose(v: int)
    | FallbackEmpty

  datatype Action =
    | Accept(tx: nat, row: nat, sms: Sms, trace: string, at: int)
    | RelayDoes(relay: nat, relayStep: RelayStep)
    | WorkerDoes(worker: nat, workerStep: WorkerStep)
    | AdminDoes(admin: nat, adminStep: AdminStep)
    | OrderDoes(request: nat, orderStep: OrderStep)
    | Restart

  // ---------- reading payloads ----------

  function TxOf(d: Data): nat {
    if d.Dict? && P.Integral(d.transactionId) && d.transactionId.value.n > 0 then d.transactionId.value.n else 0
  }

  function AmountOf(d: Data): int {
    if d.Dict? && P.Integral(d.amount) then d.amount.value.n else 0
  }

  // ---------- relay ----------

  function Remove<T>(m: map<nat, T>, key: nat): map<nat, T> {
    m - {key}
  }

  /** SKIP LOCKED: any set of claimable rows can be what one claim gets. */
  predicate CanClaim(s: State, relay: nat, ids: seq<nat>, now: int) {
    && relay !in s.relays
    && (forall i :: 0 <= i < |ids| ==> ids[i] in s.rows && O.Claimable(s.rows[ids[i]], now))
    && (forall i, j :: 0 <= i < j < |ids| ==> ids[i] != ids[j])
  }

  function EventsOf(rows: O.Table, ids: seq<nat>): (es: seq<O.Event>)
    requires forall i :: 0 <= i < |ids| ==> ids[i] in rows
    ensures |es| == |ids| && forall i :: 0 <= i < |ids| ==> es[i] == O.EventOf(rows, ids[i])
  {
    if ids == [] then [] else EventsOf(rows, ids[..|ids| - 1]) + [O.EventOf(rows, ids[|ids| - 1])]
  }

  function DoRelayClaim(s: State, relay: nat, ids: seq<nat>, now: int): State
    requires CanClaim(s, relay, ids, now)
  {
    s.(rows := O.AfterClaim(s.rows, AsSet(ids), now),
       relays := s.relays[relay := Relay(EventsOf(s.rows, ids), [])])
  }

  predicate CanHandle(s: State, relay: nat) {
    relay in s.relays && |s.relays[relay].updates| < |s.relays[relay].events|
  }

  /** A relay's write reaching Redis: a valid payload the stream, any other the dead letters. */
  function Land(s: State, e: O.Event): (s': State)
    ensures s' == s.(group := s'.group, dead := s'.dead, nextDead := s'.nextDead,
                     published := s'.published, discarded := s'.discarded)
    ensures s'.group == s.group.(log := s'.group.log) && s.group.log <= s'.group.log
    ensures s.published <= s'.published && s.discarded <= s'.discarded
  {
    if Validate(e.data).None?
    then s.(group := G.Add(s.group, e.data), published := s.published + {e.id})
    else s.(dead := s.dead[s.nextDead := e.data], nextDead := s.nextDead + 1, discarded := s.discarded + {e.id})
  }

  /** The next event of a batch: its write lands when it is answered and may land when it raises. */
  function DoRelayHandle(s: State, relay: nat, up: bool, applied: bool): (s': State)
    requires CanHandle(s, relay)
    ensures s' == s.(relays := s'.relays, group := s'.group, dead := s'.dead, nextDead := s'.nextDead,
                     published := s'.published, discarded := s'.discarded)
    ensures relay in s'.relays && s'.relays == s.relays[relay := s'.relays[relay]]
    ensures s'.group == s.group.(log := s'.group.log) && s.group.log <= s'.group.log
    ensures s.published <= s'.published && s.discarded <= s'.discarded
  {
    var r := s.relays[relay];
    var e := r.events[|r.updates|];
    (if up || applied then Land(s, e) else s)
    .(relays := s.relays[relay := r.(updates := r.updates + [O.Decide(e, up)])])
  }

  // ---------- worker ----------

  function WorkerAt(s: State, worker: nat): Worker {
    if worker in s.workers then s.workers[worker] else Worker([], Ready)
  }

  predicate At(s: State, worker: nat, stage: Stage) {
    worker in s.workers && s.workers[worker].stage == stage && s.workers[worker].batch != []
  }

  function Head(s: State, worker: nat): G.Message
    requires worker in s.workers && s.workers[worker].batch != []
  {
    s.workers[worker].batch[0]
  }

  function SetStage(s: State, worker: nat, stage: Stage): State
    requires worker in s.workers
  {
    s.(workers := s.workers[worker := s.workers[worker].(stage := stage)])
  }

  function Finish(s: State, worker: nat): State
    requires worker in s.workers && s.workers[worker].batch != []
  {
    s.(workers := s.workers[worker := Worker(s.workers[worker].batch[1..], Ready)])
  }

  predicate HoldsLock(w: Worker, i: nat) {
    w.stage == Locked(i) || w.stage == Flushed(i)
  }

  predicate Unlocked(s: State, i: nat) {
    forall w :: w in s.workers ==> !HoldsLock(s.workers[w], i)
  }

  function DoWorkerRead(s: State, worker: nat, count: nat, now: int): State
    requires s.group.last + count <= |s.group.log|
  {
    var w := WorkerAt(s, worker);
    s.(group := G.Deliver(s.group, count, now),
       workers := s.workers[worker := w.(batch := w.batch + G.NewMessages(s.group, count))])
  }

  function DoWorkerClaim(s: State, worker: nat, id: nat, now: int): State
    requires id in s.group.pel && id < |s.group.log|
  {
    var w := WorkerAt(s, worker);
    var m := G.Message(id, s.group.log[id], s.group.pel[id].count);
    s.(group := G.Claim(s.group, id, now), workers := s.workers[worker := w.(batch := w.batch + [m])])
  }

  /** Handler lookup and the "already processed" check. */
  function AfterCheck(db: D.Db, d: Data): Stage
    requires d.Dict?
  {
    if d.kind != Some(Text("payment")) then Failing
    else if !Truthy(d.transactionId) || TxOf(d) == 0 then Failing
    else if P.Linked(db, TxOf(d)) then Acking
    else Checked
  }

  /** The select waits for row locks that other sessions hold. */
  predicate CanSelect(s: State, worker: nat) {
    && At(s, worker, Checked)
    && forall i :: i in P.Matching(s.db, AmountOf(Head(s, worker).data)) ==> Unlocked(s, i)
  }

  function AfterSelect(db: D.Db, d: Data): Stage {
    var found := P.Matching(db, AmountOf(d));
    if !(d.Dict? && P.Integral(d.amount)) then Failing
    else if found == {} then Ignoring
    else if |found| != 1 then Failing
    else Locked(P.TheOnly(found))
  }

  function DoWorkerSelect(s: State, worker: nat): State
    requires CanSelect(s, worker)
  {
    SetStage(s, worker, AfterSelect(s.db, Head(s, worker).data))
  }

  predicate IsLocked(s: State, worker: nat) {
    worker in s.workers && s.workers[worker].batch != [] && s.workers[worker].stage.Locked?
  }

  /** A flush waits while another session has the same SMS id flushed but not committed. */
  predicate CanFlush(s: State, worker: nat) {
    && IsLocked(s, worker)
    && forall w :: w in s.workers && s.workers[w].stage.Flushed? && s.workers[w].batch != [] ==>
         TxOf(Head(s, w).data) != TxOf(Head(s, worker).data)
  }

  /** The unique constraint on `sms_transaction_id` decides; a violation is rolled back and the
      message is acknowledged. (The foreign key is met: every payload names a stored SMS.) */
  function DoWorkerFlush(s: State, worker: nat): State
    requires CanFlush(s, worker)
  {
    if P.Linked(s.db, TxOf(Head(s, worker).data)) then SetStage(s, worker, Acking)
    else SetStage(s, worker, Flushed(s.workers[worker].stage.intent))
  }

  predicate CanCommit(s: State, worker: nat) {
    && worker in s.workers && s.workers[worker].batch != [] && s.workers[worker].stage.Flushed?
    && s.workers[worker].stage.intent in s.db.intents
  }

  function DoWorkerCommit(s: State, worker: nat): State
    requires CanCommit(s, worker)
  {
    var i := s.workers[worker].stage.intent;
    SetStage(s.(db := P.Pay(s.db, i, Some(TxOf(Head(s, worker).data)))), worker, Committed(i))
  }

  predicate IsCommitted(s: State, worker: nat) {
    && worker in s.workers && s.workers[worker].batch != [] && s.workers[worker].stage.Committed?
  }

  /** SMOVE pending_orders free_amounts: an amount that is not in pending_orders is gone. */
  function Released(s: State, v: int): State {
    s.(pool := Release(s.pool, v), lost := s.lost + if v in s.pool.pending then {} else {v})
  }

  function DoWorkerReleaseRaises(s: State, worker: nat, applied: bool): State
    requires IsCommitted(s, worker)
  {
    var v := AmountOf(Head(s, worker).data);
    SetStage(if applied then Released(s, v) else s.(lost := s.lost + {v}), worker, Failing)
  }

  /** The worker's own dead-letter write: a message without an amount, or out of deliveries. */
  predicate CanBury(s: State, worker: nat) {
    && worker in s.workers && s.workers[worker].batch != []
    && var m := Head(s, worker);
       || (s.workers[worker].stage.Ready? && m.data.Dict? && !Truthy(m.data.amount))
       || (s.workers[worker].stage.Failing? && m.attempts >= MAX_DELIVERIES)
  }

  function DoWorkerBury(s: State, worker: nat): State
    requires CanBury(s, worker)
  {
    var m := Head(s, worker);
    SetStage(s.(dead := s.dead[s.nextDead := m.data], nextDead := s.nextDead + 1, copied := s.copied + {m.id}),
             worker, Buried)
  }

  predicate CanAck(s: State, worker: nat) {
    At(s, worker, Acking) || At(s, worker, Ignoring) || At(s, worker, Buried)
  }

  function DoWorkerAck(s: State, worker: nat): State
    requires CanAck(s, worker)
  {
    var m := Head(s, worker);
    var ignored := if s.workers[worker].stage.Ignoring? then {m.id} else {};
    Finish(s.(group := G.Acknowledge(s.group, m.id), ignored := s.ignored + ignored), worker)
  }

  /** A crash rolls back what was not committed; an amount committed but not released leaks. */
  function DoWorkerCrash(s: State, worker: nat): State
    requires worker in s.workers
  {
    var w := s.workers[worker];
    var leaked := if w.stage.Committed? && w.batch != [] then {AmountOf(w.batch[0].data)} else {};
    s.(workers := Remove(s.workers, worker), lost := s.lost + leaked)
  }

  // ---------- orders ----------

  function SetHold(s: State, request: nat, hold: Hold): State
    requires request in s.requests
  {
    s.(requests := s.requests[request := s.requests[request].(hold := hold)])
  }

  function Drop(s: State, request: nat): State {
    s.(requests := Remove(s.requests, request))
  }

  /** The value a request has taken out of the Redis pool and not given back or committed. */
  function TakenBy(r: Request): set<int> {
    match r.hold
    case Popped(v) => {v}
    case Reserved(v) => {v}
    case Refused(v) => {v}
    case Unreserved(v) => {v}
    case Inserted(v, source) => if source == D.Redis then {v} else {}
    case _ => {}
  }

  predicate ReadyToInsert(h: Hold) {
    h.Reserved? || h.Candidate?
  }

  /** An insert waits for sessions that hold the same index key uncommitted. */
  predicate CanInsert(s: State, request: nat) {
    && request in s.requests && ReadyToInsert(s.requests[request].hold) && s.requests[request].hold.v != 0
    && (forall q :: q in s.requests && s.requests[q].hold.Inserted? ==>
          s.requests[q].hold.v != s.requests[request].hold.v)
    && (forall w :: w in s.workers && s.workers[w].stage.Flushed? && s.workers[w].stage.intent in s.db.intents ==>
          s.db.intents[s.workers[w].stage.intent].exactAmount != s.requests[request].hold.v)
  }

  function DoOrderInsert(s: State, request: nat): (s': State)
    requires CanInsert(s, request)
    ensures s' == s.(requests := s'.requests)
    ensures s'.requests == Remove(s.requests, request) ||
            (request in s'.requests && s'.requests == s.requests[request := s'.requests[request]])
    ensures TakenBy(s.requests[request])
         == if request in s'.requests then TakenBy(s'.requests[request]) else {}
  {
    var r := s.requests[request];
    var v := r.hold.v;
    if v !in D.PendingAmounts(s.db) then
      SetHold(s, request, Inserted(v, if r.hold.Reserved? then D.Redis else D.Postgres))
    else if r.hold.Reserved? then SetHold(s, request, Refused(v))
    else if r.attempts + 1 < MAX_ORDER_ATTEMPTS then
      s.(requests := s.requests[request := r.(attempts := r.attempts + 1, hold := Starting)])
    else Drop(s, request)
  }

  predicate CanOrderCommit(s: State, request: nat, id: nat) {
    request in s.requests && s.requests[request].hold.Inserted? && id !in s.db.intents && id !in s.db.orders
  }

  /** An amount that had leaked and is handed out by the fallback is not lost any more. */
  function DoOrderCommit(s: State, request: nat, id: nat): (s': State)
    requires CanOrderCommit(s, request, id)
    ensures s' == s.(requests := s'.requests, db := s'.db, lost := s'.lost)
  {
    var r := s.requests[request];
    Drop(s.(db := D.Insert(s.db, id, r.user, r.amount, r.hold.v), lost := s.lost - {r.hold.v}), request)
  }

  // The pool after a command that raised an error, when the server may have executed it.
  function Interrupted(s: State, h: Hold, applied: bool): Pool {
    if applied && h.Popped? then Reserve(s.pool, h.v)
    else if applied && h.Refused? then Unreserve(s.pool, h.v)
    else s.pool
  }

  /** A request that dies while it owns an amount: crash, failed compensation, failed commit. */
  function DoOrderLeak(s: State, request: nat, applied: bool): (s': State)
    requires request in s.requests
    ensures s' == s.(requests := s'.requests, pool := s'.pool, lost := s'.lost)
  {
    var r := s.requests[request];
    Drop(s.(pool := Interrupted(s, r.hold, applied), lost := s.lost + TakenBy(r)), request)
  }

  function DoFallbackAfterLeak(s: State, request: nat, applied: bool): (s': State)
    requires request in s.requests
    ensures s' == s.(requests := s'.requests, pool := s'.pool, lost := s'.lost)
  {
    var r := s.requests[request];
    SetHold(s.(pool := Interrupted(s, r.hold, applied), lost := s.lost + TakenBy(r)), request, Searching)
  }

  predicate Confirmable(s: State, i: nat) {
    && i in s.db.intents && s.db.intents[i].status in {D.Pending, D.Failed}
    && Unlocked(s, i)
  }

  function DoAdminConfirm(s: State, i: nat): State
    requires Confirmable(s, i)
  {
    Released(s.(db := P.Pay(s.db, i, None)), s.db.intents[i].exactAmount)
  }

  // ---------- restart ----------

  /** What a startup makes of the three sets: an empty `amounts` is seeded again, the pending
      set is rebuilt from the table, and the free set is their difference. */
  function Rebuilt(pool: Pool, db: D.Db, seeded: set<int>): Pool {
    var amounts := if pool.amounts == {} then seeded else pool.amounts;
    var pending := D.PendingAmounts(db);
    Pool(amounts, pending, amounts - pending)
  }

  /** Of the amounts that were free or lost, those in `amounts` are recovered and the others
      are lost. */
  function DoRestart(s: State): State {
    var pool := Rebuilt(s.pool, s.db, s.seeded);
    s.(pool := pool, lost := (s.lost + s.pool.free) - pool.amounts)
  }

  // ---------- the step relation; the postconditions say what each kind of step leaves alone ----------

  predicate CanAccept(s: State, tx: nat, row: nat, sms: Sms) {
    tx > 0 && tx !in s.sms && row !in s.rows && sms !in s.sms.Values
  }

  /** One transaction: the SMS and its outbox row. */
  function DoAccept(s: State, tx: nat, row: nat, sms: Sms, trace: string, now: int): State {
    s.(sms := s.sms[tx := sms],
       rows := s.rows[row := O.Row(O.Pending, PaymentData(tx, sms.amount, trace), Some(0), now, None, None)])
  }

  predicate RelayCan(s: State, r: nat, step: RelayStep) {
    match step
    case RelayClaim(ids, now) => CanClaim(s, r, ids, now)
    case RelayHandle(_, _) => CanHandle(s, r)
    case RelayWrite => r in s.relays && |s.relays[r].updates| == |s.relays[r].events|
    case RelayCrash => r in s.relays
  }

  function RelayNext(s: State, r: nat, step: RelayStep): (s': State)
    requires RelayCan(s, r, step)
    ensures s' == s.(rows := s'.rows, relays := s'.relays, group := s'.group, dead := s'.dead,
                     nextDead := s'.nextDead, published := s'.published, discarded := s'.discarded)
    ensures !step.RelayHandle? ==> s' == s.(rows := s'.rows, relays := s'.relays)
    ensures step.RelayHandle? || step.RelayCrash? ==> s'.rows == s.rows
  {
    match step
    case RelayClaim(ids, now) => DoRelayClaim(s, r, ids, now)
    case RelayHandle(up, applied) => DoRelayHandle(s, r, up, applied)
    case RelayWrite =>
      s.(rows := O.AfterUpdates(s.rows, s.relays[r].updates), relays := Remove(s.relays, r))
    case RelayCrash => s.(relays := Remove(s.relays, r))
  }

  predicate WorkerCan(s: State, w: nat, step: WorkerStep) {
    match step
    case WorkerRead(n, _) => WorkerAt(s, w).stage.Ready? && s.group.last + n <= |s.group.log|
    case WorkerClaim(id, _) => WorkerAt(s, w).stage.Ready? && id in s.group.pel && id < |s.group.log|
    case WorkerCheck => At(s, w, Ready) && Head(s, w).data.Dict? && Truthy(Head(s, w).data.amount)
    case WorkerSelect => CanSelect(s, w)
    case WorkerFlush => CanFlush(s, w)
    case WorkerCommit => CanCommit(s, w)
    case WorkerRelease => IsCommitted(s, w)
    case WorkerReleaseRaises(_) => IsCommitted(s, w)
    case WorkerRaise =>
      w in s.workers && s.workers[w].batch != [] &&
      (s.workers[w].stage in {Ready, Checked} || s.workers[w].stage.Locked? || s.workers[w].stage.Flushed?)
    case WorkerBury => CanBury(s, w)
    case WorkerGiveUp => At(s, w, Failing) || At(s, w, Buried)
    case WorkerAck => CanAck(s, w)
    case WorkerCrash => w in s.workers
  }

  /** Steps that change nothing about the worker but its stage. */
  predicate MovesStage(step: WorkerStep) {
    !step.WorkerRead? && !step.WorkerClaim? && !step.WorkerAck? && !step.WorkerGiveUp? && !step.WorkerCrash?
  }

  predicate MovedStage(s: State, s': State, w: nat) {
    && w in s.workers && s.workers[w].batch != [] && w in s'.workers
    && s'.workers == s.workers[w := s.workers[w].(stage := s'.workers[w].stage)]
  }

  function WorkerNext(s: State, w: nat, step: WorkerStep): (s': State)
    requires WorkerCan(s, w, step)
    ensures s' == s.(workers := s'.workers, group := s'.group, dead := s'.dead, nextDead := s'.nextDead,
                     copied := s'.copied, ignored := s'.ignored, db := s'.db, pool := s'.pool, lost := s'.lost)
    ensures s'.group.log == s.group.log
    ensures !step.WorkerRead? && !step.WorkerClaim? && !step.WorkerAck? ==> s'.group == s.group
    ensures !step.WorkerBury? ==> s'.dead == s.dead && s'.nextDead == s.nextDead && s'.copied == s.copied
    ensures !step.WorkerAck? ==> s'.ignored == s.ignored
    ensures !step.WorkerCommit? ==> s'.db == s.db
    ensures !step.WorkerRelease? && !step.WorkerReleaseRaises? ==> s'.pool == s.pool
    ensures !step.WorkerRelease? && !step.WorkerReleaseRaises? && !step.WorkerCrash? ==> s'.lost == s.lost
    ensures MovesStage(step) ==> MovedStage(s, s', w)
  {
    match step
    case WorkerRead(n, now) => DoWorkerRead(s, w, n, now)
    case WorkerClaim(id, now) => DoWorkerClaim(s, w, id, now)
    case WorkerCheck => SetStage(s, w, AfterCheck(s.db, Head(s, w).data))
    case WorkerSelect => DoWorkerSelect(s, w)
    case WorkerFlush => DoWorkerFlush(s, w)
    case WorkerCommit => DoWorkerCommit(s, w)
    case WorkerRelease => SetStage(Released(s, AmountOf(Head(s, w).data)), w, Acking)
    case WorkerReleaseRaises(applied) => DoWorkerReleaseRaises(s, w, applied)
    case WorkerRaise => SetStage(s, w, Failing)
    case WorkerBury => DoWorkerBury(s, w)
    case WorkerGiveUp => Finish(s, w)
    case WorkerAck => DoWorkerAck(s, w)
    case WorkerCrash => DoWorkerCrash(s, w)
  }

  predicate AdminCan(s: State, a: nat, step: AdminStep) {
    match step
    case ReplayRead(x) => a !in s.replays && x in s.dead
    case ReplayExec => a in s.replays
    case ReplayDrop => a in s.replays
    case Confirm(i) => Confirmable(s, i)
  }

  function AdminNext(s: State, a: nat, step: AdminStep): (s': State)
    requires AdminCan(s, a, step)
    ensures s' == s.(replays := s'.replays, group := s'.group, dead := s'.dead,
                     db := s'.db, pool := s'.pool, lost := s'.lost)
    ensures !step.Confirm? ==> s'.db == s.db && s'.pool == s.pool && s'.lost == s.lost
    ensures !step.ReplayExec? ==> s'.group == s.group && s'.dead == s.dead
    ensures step.Confirm? ==> s'.replays == s.replays
  {
    match step
    case ReplayRead(x) => s.(replays := s.replays[a := Replay(x, s.dead[x])])
    case ReplayExec =>
      s.(group := G.Add(s.group, s.replays[a].data), dead := Remove(s.dead, s.replays[a].dead),
         replays := Remove(s.replays, a))
    case ReplayDrop => s.(replays := Remove(s.replays, a))
    case Confirm(i) => DoAdminConfirm(s, i)
  }

  predicate OrderCan(s: State, q: nat, step: OrderStep) {
    if step.OrderStart? then q !in s.requests
    else if q !in s.requests then false
    else
      var h := s.requests[q].hold;
      match step
      case OrderPop(v) => h.Starting? && v in s.pool.free
      case OrderEmpty => h.Starting? && s.pool.free == {}
      case OrderReserve => h.Popped?
      case OrderInsert => CanInsert(s, q)
      case OrderCommit(id) => CanOrderCommit(s, q, id)
      case OrderDbError => ReadyToInsert(h)
      case OrderUnreserve => h.Refused?
      case OrderAddFree => h.Unreserved?
      case OrderLeak(_) => true
      case FallbackAfterPop(taken) => h.Starting? && (taken.Some? ==> taken.value in s.pool.free)
      case FallbackAfterLeak(_) => h.Popped?
      case FallbackChoose(v) =>
        h.Searching? && s.requests[q].amount + 1 <= v <= s.requests[q].amount + 500 && v !in D.PendingAmounts(s.db)
      case FallbackEmpty => h.Searching?
  }

  function OrderNext(s: State, q: nat, step: OrderStep): (s': State)
    requires OrderCan(s, q, step)
    ensures s' == s.(requests := s'.requests, db := s'.db, pool := s'.pool, lost := s'.lost)
    ensures !step.OrderCommit? ==> s'.db == s.db
  {
    match step
    case OrderStart(user, base) => s.(requests := s.requests[q := Request(user, base, 0, Starting)])
    case OrderPop(v) => SetHold(s.(pool := Pop(s.pool, v)), q, Popped(v))
    case OrderEmpty => Drop(s, q)
    case OrderReserve =>
      var v := s.requests[q].hold.v; SetHold(s.(pool := Reserve(s.pool, v)), q, Reserved(v))
    case OrderInsert => DoOrderInsert(s, q)
    case OrderCommit(id) => DoOrderCommit(s, q, id)
    case OrderDbError =>
      if s.requests[q].hold.Reserved? then SetHold(s, q, Refused(s.requests[q].hold.v)) else Drop(s, q)
    case OrderUnreserve =>
      var v := s.requests[q].hold.v; SetHold(s.(pool := Unreserve(s.pool, v)), q, Unreserved(v))
    case OrderAddFree => Drop(s.(pool := AddFree(s.pool, s.requests[q].hold.v)), q)
    case OrderLeak(applied) => DoOrderLeak(s, q, applied)
    case FallbackAfterPop(taken) =>
      SetHold(if taken.None? then s else s.(pool := Pop(s.pool, taken.value), lost := s.lost + {taken.value}),
              q, Searching)
    case FallbackAfterLeak(applied) => DoFallbackAfterLeak(s, q, applied)
    case FallbackChoose(v) => SetHold(s, q, Candidate(v))
    case FallbackEmpty => Drop(s, q)
  }

  predicate Enabled(s: State, a: Action) {
    match a
    case Accept(tx, row, sms, _, _) => CanAccept(s, tx, row, sms)
    case RelayDoes(r, step) => RelayCan(s, r, step)
    case WorkerDoes(w, step) => WorkerCan(s, w, step)
    case AdminDoes(ad, step) => AdminCan(s, ad, step)
    case OrderDoes(q, step) => OrderCan(s, q, step)
    case Restart => true
  }

  function Apply(s: State, a: Action): State
    requires Enabled(s, a)
  {
    match a
    case Accept(tx, row, sms, trace, now) => DoAccept(s, tx, row, sms, trace, now)
    case RelayDoes(r, step) => RelayNext(s, r, step)
    case WorkerDoes(w, step) => WorkerNext(s, w, step)
    case AdminDoes(ad, step) => AdminNext(s, ad, step)
    case OrderDoes(q, step) => OrderNext(s, q, step)
    case Restart => DoRestart(s)
  }

  /** Freshly migrated tables, an empty stream, and the pool as the first startup leaves it. */
  function Initial(seeded: set<int>): State {
    State(map[], map[], D.Db(map[], map[]),
          G.EmptyGroup, map[], Pool(seeded, {}, seeded),
          map[], map[], map[], map[],
          0, {}, {}, {}, {}, seeded, {})
  }

  /** `trace` is a run of the actions: each one enabled, each state the result of the last. */
  ghost predicate IsRun(trace: seq<State>, actions: seq<Action>) {
    |trace| == |actions| + 1 && forall i :: 0 <= i < |actions| ==> IsStep(trace, actions, i)
  }

  // Action i is enabled and leads to the next state.
  ghost predicate IsStep(trace: seq<State>, actions: seq<Action>, i: nat)
    requires |trace| == |actions| + 1 && i < |actions|
  {
    Enabled(trace[i], actions[i]) && trace[i + 1] == Apply(trace[i], actions[i])
  }
}
