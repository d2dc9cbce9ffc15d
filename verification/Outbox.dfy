/** app/modules/order/tasks.py on values: what a claim, one publish decision and the
    final bulk write do to the outbox table. The relay class and the state machine of
    the whole pipeline are both built from these functions. */
module Outbox {
  import opened Prelude
  import opened Payload

  const MAX_OUTBOX_RETRIES: nat := 5
  const LOCK_TIMEOUT_SECONDS: int := 300

  datatype EventStatus = Pending | Processing | Published | Failed

  datatype ErrorText =
    | Invalid(flaw: Flaw)
    | InvalidAndDlqDown(flaw: Flaw)
    | DlqDownExhausted
    | PublishFailed
    | PublishExhausted

  datatype Row = Row(
    status: EventStatus,
    data: Data,
    retryCount: Option<nat>,
    createdAt: int,
    lockedAt: Option<int>,
    lastError: Option<ErrorText>)

  type Table = map<nat, Row>

  // The three columns a claim returns.
  datatype Event = Event(id: nat, data: Data, retryCount: Option<nat>)

  datatype Update = Update(id: nat, status: EventStatus, retryCount: nat, lastError: Option<ErrorText>)

  /** A NULL `retry_count` is read as 0. */
  function Retries(count: Option<nat>): nat {
    if count.Some? then count.value else 0
  }

  /** PENDING, or PROCESSING with a lock older than the timeout; a NULL lock is never stale. */
  predicate Claimable(row: Row, now: int) {
    || row.status.Pending?
    || (row.status.Processing? && row.lockedAt.Some? && row.lockedAt.value < now - LOCK_TIMEOUT_SECONDS)
  }

  function AfterClaim(rows: Table, ids: set<nat>, now: int): Table {
    map id | id in rows ::
      if id in ids then rows[id].(status := Processing, lockedAt := Some(now)) else rows[id]
  }

  function EventOf(rows: Table, id: nat): Event
    requires id in rows
  {
    Event(id, rows[id].data, rows[id].retryCount)
  }

  /** The update computed for one event. `up` says that the one Redis write attempted
      (stream for a valid payload, dead-letter stream otherwise) raised no error. */
  function Decide(e: Event, up: bool): (u: Update)
    ensures u.id == e.id
  {
    var attempts := Retries(e.retryCount) + 1;
    match Validate(e.data)
    case None =>
      if up then Update(e.id, Published, Retries(e.retryCount), None)
      else if attempts >= MAX_OUTBOX_RETRIES then Update(e.id, Failed, attempts, Some(PublishExhausted))
      else Update(e.id, Pending, attempts, Some(PublishFailed))
    case Some(flaw) =>
      if up then Update(e.id, Failed, Retries(e.retryCount), Some(Invalid(flaw)))
      else if attempts >= MAX_OUTBOX_RETRIES then Update(e.id, Failed, attempts, Some(DlqDownExhausted))
      else Update(e.id, Pending, attempts, Some(InvalidAndDlqDown(flaw)))
  }

  /** The write has no guard on the row's current status; PUBLISHED leaves `retry_count` alone. */
  function Written(row: Row, u: Update): Row {
    if u.status.Published?
    then row.(status := Published, lockedAt := None, lastError := None)
    else row.(status := u.status, retryCount := Some(u.retryCount), lockedAt := None, lastError := u.lastError)
  }

  function UpdateFor(us: seq<Update>, id: nat): Option<Update> {
    if us == [] then None
    else if us[0].id == id then Some(us[0])
    else UpdateFor(us[1..], id)
  }

  function AfterUpdates(rows: Table, us: seq<Update>): Table {
    map id | id in rows ::
      var u := UpdateFor(us, id); if u.Some? then Written(rows[id], u.value) else rows[id]
  }

  predicate DistinctIds(us: seq<Update>) {
    forall i, j :: 0 <= i < j < |us| ==> us[i].id != us[j].id
  }

  lemma {:induction false} UpdateForMember(us: seq<Update>, id: nat)
    ensures UpdateFor(us, id).Some? ==> UpdateFor(us, id).value in us && UpdateFor(us, id).value.id == id
    ensures UpdateFor(us, id).None? ==> forall u :: u in us ==> u.id != id
  {
    if us != [] && us[0].id != id {
      UpdateForMember(us[1..], id);
    }
  }

  /** Within one batch the ids are distinct, so the order of the writes cannot matter. */
  lemma UpdateForUnique(us: seq<Update>, k: nat)
    requires k < |us| && DistinctIds(us)
    ensures UpdateFor(us, us[k].id) == Some(us[k])
  {
    UpdateForMember(us, us[k].id);
  }

  /** The retry rules, over all events: a write that is answered settles the event, PUBLISHED iff the
      payload is valid, and costs no retry; one that raises costs exactly one, and sends the event
      back to PENDING iff that was not the fifth. */
  lemma DecideBounds(e: Event, up: bool)
    ensures var u, failures, valid := Decide(e, up), Retries(e.retryCount), Validate(e.data).None?;
            && u.id == e.id
            && u.retryCount == failures + (if up then 0 else 1)
            && (u.status.Pending? <==> !up && failures + 1 < 5)
            && (u.status.Failed? <==> (up && !valid) || (!up && failures + 1 >= 5))
            && (u.status.Published? <==> up && valid)
            && (u.lastError.None? <==> u.status.Published?)
  {
  }
}
