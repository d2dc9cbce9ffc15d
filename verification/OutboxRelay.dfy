/** One relay pass of app/modules/order/tasks.py as it runs: claim a batch, publish event by
    event, write the results back, with any pattern of Redis failures. */
module OutboxRelay {
  import opened Prelude
  import opened Payload
  import opened Outbox

  datatype DeadLetter = DeadLetter(eventId: nat, data: Data, reason: Flaw)

  function IdsOf(events: seq<Event>): seq<nat> {
    seq(|events|, i requires 0 <= i < |events| => events[i].id)
  }

  lemma IdsOfMore(events: seq<Event>, e: Event)
    ensures IdsOf(events + [e]) == IdsOf(events) + [e.id]
  {
  }

  function Eligible(rows: Table, now: int): set<nat> {
    set id | id in rows && Claimable(rows[id], now)
  }

  /** ORDER BY created_at LIMIT `limit`: as many eligible rows as allowed, none of them
      younger than an eligible row left behind. Ties are broken arbitrarily. */
  ghost predicate IsClaim(rows: Table, now: int, limit: nat, ids: seq<nat>) {
    && Distinct(ids)
    && (forall id :: id in ids ==> id in Eligible(rows, now))
    && |ids| == Min(limit, |Eligible(rows, now)|)
    && (forall c, e :: c in ids && e in Eligible(rows, now) && e !in ids ==> rows[c].createdAt <= rows[e].createdAt)
  }

  /** The updates of a batch, when the k-th Redis write is answered as `net(k)`. */
  function Decisions(rows: Table, ids: seq<nat>, net: nat -> Reply): (us: seq<Update>)
    requires forall id :: id in ids ==> id in rows
    ensures |us| == |ids|
    ensures forall i :: 0 <= i < |ids| ==> us[i] == Decide(EventOf(rows, ids[i]), net(i).Answered?)
  {
    if ids == [] then []
    else
      var last := |ids| - 1;
      Decisions(rows, ids[..last], net) + [Decide(EventOf(rows, ids[last]), net(last).Answered?)]
  }

  /** One whole pass over the table. */
  ghost predicate IsPass(rows: Table, rows': Table, ids: seq<nat>, limit: nat, now: int, net: nat -> Reply) {
    && IsClaim(rows, now, limit, ids)
    && rows' == AfterUpdates(AfterClaim(rows, AsSet(ids), now), Decisions(rows, ids, net))
  }

  /** The update a batch holds for a row: the decision for that row's own event, if claimed. */
  lemma DecisionFor(rows: Table, ids: seq<nat>, net: nat -> Reply, id: nat)
    requires Distinct(ids) && (forall x :: x in ids ==> x in rows) && id in rows
    ensures id !in ids ==> UpdateFor(Decisions(rows, ids, net), id).None?
    ensures forall k :: 0 <= k < |ids| && ids[k] == id ==>
              UpdateFor(Decisions(rows, ids, net), id) == Some(Decide(EventOf(rows, id), net(k).Answered?))
  {
    var us := Decisions(rows, ids, net);
    forall k | 0 <= k < |ids| && ids[k] == id
      ensures UpdateFor(us, id) == Some(Decide(EventOf(rows, id), net(k).Answered?))
    {
      UpdateForUnique(us, k);
    }
    if id !in ids {
      UpdateForMember(us, id);
    }
  }

  // What a PENDING or PROCESSING row must look like to be claimed.
  ghost predicate MayClaim(row: Row, now: int) {
    match row.status
    case Pending => true
    case Processing => row.lockedAt.Some? && row.lockedAt.value + 300 < now
    case Published => false
    case Failed => false
  }

  // The rows picked so far are the oldest of the eligible ones; `pool` holds the others.
  ghost predicate Picking(rows: Table, now: int, ids: seq<nat>, pool: set<nat>) {
    && Distinct(ids)
    && (forall id :: id in Eligible(rows, now) <==> id in pool || id in ids)
    && (forall id :: id in ids ==> id !in pool)
    && |ids| + |pool| == |Eligible(rows, now)|
    && forall c, e :: c in ids && e in pool ==> c in rows && e in rows && rows[c].createdAt <= rows[e].createdAt
  }

  lemma PickedOne(rows: Table, now: int, ids: seq<nat>, pool: set<nat>, id: nat)
    requires Picking(rows, now, ids, pool)
    requires id in pool && forall j :: j in pool ==> j in rows && rows[id].createdAt <= rows[j].createdAt
    ensures Picking(rows, now, ids + [id], pool - {id})
  {
    assert id !in ids;
  }

  lemma PickedAll(rows: Table, now: int, limit: nat, ids: seq<nat>, pool: set<nat>)
    requires Picking(rows, now, ids, pool) && |ids| <= limit && (|ids| < limit ==> pool == {})
    ensures IsClaim(rows, now, limit, ids)
  {
  }

  // The claimed rows are locked, and nothing else has changed.
  ghost predicate OnlyClaimed(rows: Table, ids: seq<nat>, now: int, rows': Table) {
    && rows'.Keys == rows.Keys
    && forall id :: id in rows ==>
         rows'[id] == if id in ids then rows[id].(status := Processing, lockedAt := Some(now)) else rows[id]
  }

  lemma ClaimMeans(rows: Table, now: int, limit: nat, ids: seq<nat>)
    requires IsClaim(rows, now, limit, ids)
    ensures forall id :: id in rows ==>
              && (id in ids ==> MayClaim(rows[id], now))
              && (id !in ids && |ids| < limit ==> !MayClaim(rows[id], now))
    ensures OnlyClaimed(rows, ids, now, AfterClaim(rows, AsSet(ids), now))
  {
    if |ids| < limit {
      DistinctSize(ids);
      assert Eligible(rows, now) == AsSet(ids) + (Eligible(rows, now) - AsSet(ids));
      assert |Eligible(rows, now) - AsSet(ids)| == 0;
    }
  }

  // Every update of a batch is written to its own row, and no other row is touched.
  lemma UpdatesWritten(rows: Table, us: seq<Update>)
    requires DistinctIds(us)
    ensures forall u :: u in us ==> UpdateFor(us, u.id) == Some(u)
    ensures forall u :: u in us && u.id in rows ==> AfterUpdates(rows, us)[u.id] == Written(rows[u.id], u)
    ensures forall id :: id in rows && (forall u :: u in us ==> u.id != id) ==> AfterUpdates(rows, us)[id] == rows[id]
  {
    forall u | u in us
      ensures UpdateFor(us, u.id) == Some(u)
    {
      var k :| 0 <= k < |us| && us[k] == u;
      UpdateForUnique(us, k);
    }
    forall id | id in rows && forall u :: u in us ==> u.id != id
      ensures UpdateFor(us, id).None?
    {
      UpdateForMember(us, id);
    }
  }

  lemma {:induction false} OldestExists(rows: Table, ids: set<nat>)
    requires ids != {} && forall id :: id in ids ==> id in rows
    ensures exists id :: id in ids && forall j :: j in ids ==> rows[id].createdAt <= rows[j].createdAt
  {
    var x :| x in ids;
    if ids != {x} {
      OldestExists(rows, ids - {x});
      var y :| y in ids - {x} && forall j :: j in ids - {x} ==> rows[y].createdAt <= rows[j].createdAt;
      var least := if rows[x].createdAt <= rows[y].createdAt then x else y;
      assert least in ids && forall j :: j in ids ==> rows[least].createdAt <= rows[j].createdAt;
    }
  }

  class Relay {
    var rows: Table
    var stream: seq<Data>
    var dead: seq<DeadLetter>

    constructor (rows: Table)
      ensures this.rows == rows && stream == [] && dead == []
    {
      this.rows, stream, dead := rows, [], [];
    }

    method ClaimProcessEvents(limit: nat, now: int) returns (events: seq<Event>)
      modifies this`rows
      ensures IsClaim(old(rows), now, limit, IdsOf(events))
      ensures forall i :: 0 <= i < |events| ==>
                var id := events[i].id;
                && id in old(rows) && events[i] == EventOf(old(rows), id)
                && events[i].data == old(rows)[id].data && events[i].retryCount == old(rows)[id].retryCount
      ensures rows == AfterClaim(old(rows), AsSet(IdsOf(events)), now)
      // A row is claimed only if PENDING, or PROCESSING for more than five minutes, and a batch
      // that is not full has claimed all of these.
      ensures forall id :: id in old(rows) ==>
                && (id in IdsOf(events) ==> MayClaim(old(rows)[id], now))
                && (id !in IdsOf(events) && |events| < limit ==> !MayClaim(old(rows)[id], now))
      ensures OnlyClaimed(old(rows), IdsOf(events), now, rows)
    {
      ghost var was := rows;
      var pool := Eligible(rows, now);
      var ids: seq<nat> := [];
      events := [];
      while |ids| < limit && pool != {}
        invariant rows == was
        invariant IdsOf(events) == ids && |ids| <= limit
        invariant forall e :: e in events ==> e.id in was && e == EventOf(was, e.id)
        invariant Picking(was, now, ids, pool)
      {
        OldestExists(rows, pool);
        var id :| id in pool && forall j :: j in pool ==> rows[id].createdAt <= rows[j].createdAt;
        PickedOne(rows, now, ids, pool, id);
        IdsOfMore(events, EventOf(rows, id));
        pool := pool - {id};
        ids := ids + [id];
        events := events + [EventOf(rows, id)];
      }
      PickedAll(was, now, limit, ids, pool);
      rows := AfterClaim(rows, AsSet(ids), now);
      ClaimMeans(was, now, limit, ids);
    }

    /** One event: exactly one Redis write is attempted, to the stream when the payload is
        valid and to the dead-letter stream when it is not; it takes effect unless the error
        came before the server applied it. */
    method ProcessSingleOutboxEvent(event: Event, reply: Reply) returns (u: Update)
      modifies this`stream, this`dead
      ensures u == Decide(event, reply.Answered?)
      ensures u.id == event.id && u.retryCount == Retries(event.retryCount) + if reply.Raised? then 1 else 0
      ensures u.status.Pending? <==> reply.Raised? && u.retryCount < 5
      ensures u.status.Published? <==> reply.Answered? && Validate(event.data).None?
      ensures u.status.Failed? <==>
                (reply.Answered? && Validate(event.data).Some?) || (reply.Raised? && u.retryCount >= 5)
      ensures var lands := TakesEffect(reply);
              match Validate(event.data)
              case None =>
                dead == old(dead) && stream == if lands then old(stream) + [event.data] else old(stream)
              case Some(flaw) =>
                stream == old(stream) &&
                dead == if lands then old(dead) + [DeadLetter(event.id, event.data, flaw)] else old(dead)
    {
      var retryCount := Retries(event.retryCount);
      var invalid := Validate(event.data);
      if invalid.Some? {
        if TakesEffect(reply) {
          dead := dead + [DeadLetter(event.id, event.data, invalid.value)];
        }
        if reply.Raised? {
          var attempts := retryCount + 1;
          if attempts >= MAX_OUTBOX_RETRIES {
            return Update(event.id, Failed, attempts, Some(DlqDownExhausted));
          }
          return Update(event.id, Pending, attempts, Some(InvalidAndDlqDown(invalid.value)));
        }
        return Update(event.id, Failed, retryCount, Some(Invalid(invalid.value)));
      }
      if TakesEffect(reply) {
        stream := stream + [event.data];
      }
      if reply.Raised? {
        var attempts := retryCount + 1;
        if attempts >= MAX_OUTBOX_RETRIES {
          return Update(event.id, Failed, attempts, Some(PublishExhausted));
        }
        return Update(event.id, Pending, attempts, Some(PublishFailed));
      }
      return Update(event.id, Published, retryCount, None);
    }

    /** One statement for all published ids, then one row at a time for the rest. */
    method ProcessOutboxUpdates(updates: seq<Update>)
      requires DistinctIds(updates)
      modifies this`rows
      ensures rows == AfterUpdates(old(rows), updates)
      ensures rows.Keys == old(rows).Keys
      ensures forall u :: u in updates && u.id in rows ==>
                rows[u.id] == old(rows)[u.id].(
                  status := u.status, lockedAt := None,
                  retryCount := if u.status.Published? then old(rows)[u.id].retryCount else Some(u.retryCount),
                  lastError := if u.status.Published? then None else u.lastError)
      ensures forall id :: id in rows && (forall u :: u in updates ==> u.id != id) ==> rows[id] == old(rows)[id]
    {
      var publishedIds := set u | u in updates && u.status.Published? :: u.id;
      rows := map id | id in rows ::
        if id in publishedIds then rows[id].(status := Published, lockedAt := None, lastError := None) else rows[id];
      ghost var was := old(rows);
      FirstStatement(was, updates);
      for i := 0 to |updates|
        invariant rows == WrittenUpTo(was, updates, i)
      {
        OneStatementMore(was, updates, i);
        var u := updates[i];
        if !u.status.Published? && u.id in rows {
          rows := rows[u.id := rows[u.id].(status := u.status, retryCount := Some(u.retryCount),
                                           lockedAt := None, lastError := u.lastError)];
        }
      }
      AllStatements(was, updates);
      UpdatesWritten(was, updates);
    }

    /** The loop over the claimed events: the two streams gain the payloads whose write took effect,
        in order, and nothing else. */
    method PublishAll(batch: seq<Event>, net: nat -> Reply) returns (updates: seq<Update>)
      modifies this`stream, this`dead
      ensures |updates| == |batch|
      ensures forall k :: 0 <= k < |batch| ==> updates[k] == Decide(batch[k], net(k).Answered?)
      ensures stream == old(stream) + ToStream(batch, net) && dead == old(dead) + ToDead(batch, net)
    {
      updates := [];
      for i := 0 to |batch|
        invariant |updates| == i && forall k :: 0 <= k < i ==> updates[k] == Decide(batch[k], net(k).Answered?)
        invariant stream == old(stream) + ToStream(batch[..i], net)
        invariant dead == old(dead) + ToDead(batch[..i], net)
      {
        assert batch[..i + 1][..i] == batch[..i];
        var result := ProcessSingleOutboxEvent(batch[i], net(i));
        updates := updates + [result];
      }
      assert batch[..|batch|] == batch;
    }

    /** The scheduled job: one batch of at most 100 events. */
    method ProcessOutboxEvent(now: int, net: nat -> Reply) returns (count: nat, ghost events: seq<Event>)
      modifies this
      ensures count == |events| == Min(100, |Eligible(old(rows), now)|)
      ensures IsPass(old(rows), rows, IdsOf(events), 100, now, net)
      ensures stream == old(stream) + ToStream(events, net) && dead == old(dead) + ToDead(events, net)
      ensures forall k :: 0 <= k < |events| && net(k).Answered? ==>
                Landed(events[k], ToStream(events, net), ToDead(events, net))
    {
      var batch := ClaimProcessEvents(100, now);
      events := batch;
      ghost var was, claimed := old(rows), rows;
      if batch == [] {
        assert AfterUpdates(claimed, Decisions(was, IdsOf(events), net)) == was;
        return 0, events;
      }
      var updates := PublishAll(batch, net);
      assert updates == Decisions(was, IdsOf(events), net);
      assert forall k :: 0 <= k < |updates| ==> updates[k].id == IdsOf(events)[k];
      ProcessOutboxUpdates(updates);
      AnsweredLand(batch, net);
      return |batch|, events;
    }
  }

  function Streamed(stream: seq<Data>, e: Event, reply: Reply): seq<Data> {
    if Validate(e.data).None? && TakesEffect(reply) then stream + [e.data] else stream
  }

  function Lettered(letters: seq<DeadLetter>, e: Event, reply: Reply): seq<DeadLetter> {
    var flaw := Validate(e.data);
    if flaw.Some? && TakesEffect(reply) then letters + [DeadLetter(e.id, e.data, flaw.value)] else letters
  }

  /** What a batch adds to the stream: the valid payloads whose write takes effect. */
  function ToStream(events: seq<Event>, net: nat -> Reply): seq<Data> {
    if events == [] then []
    else var last := |events| - 1; Streamed(ToStream(events[..last], net), events[last], net(last))
  }

  /** What it adds to the dead letters: the invalid ones, each with its flaw. */
  function ToDead(events: seq<Event>, net: nat -> Reply): seq<DeadLetter> {
    if events == [] then []
    else var last := |events| - 1; Lettered(ToDead(events[..last], net), events[last], net(last))
  }

  /** Every write that is answered has landed. */
  lemma {:induction false} AnsweredLand(events: seq<Event>, net: nat -> Reply)
    ensures forall k :: 0 <= k < |events| && net(k).Answered? ==>
              Landed(events[k], ToStream(events, net), ToDead(events, net))
  {
    if events != [] {
      var last := |events| - 1;
      AnsweredLand(events[..last], net);
      forall k | 0 <= k < |events| && net(k).Answered?
        ensures Landed(events[k], ToStream(events, net), ToDead(events, net))
      {
        assert k < last ==> events[..last][k] == events[k];
      }
    }
  }

  /** The payload of `e` is among the entries a pass added, on the stream if it is valid and
      on the dead-letter stream if it is not. */
  ghost predicate Landed(e: Event, stream: seq<Data>, dead: seq<DeadLetter>) {
    match Validate(e.data)
    case None => e.data in stream
    case Some(flaw) => DeadLetter(e.id, e.data, flaw) in dead
  }

  // The table once the set statement and the first n of the other updates have run.
  ghost function WrittenUpTo(rows: Table, us: seq<Update>, n: nat): Table
    requires n <= |us|
  {
    map id | id in rows ::
      var u := UpdateFor(us, id);
      if u.Some? && (u.value.status.Published? || u.value in us[..n]) then Written(rows[id], u.value) else rows[id]
  }

  lemma FirstStatement(rows: Table, us: seq<Update>)
    requires DistinctIds(us)
    ensures var publishedIds := set u | u in us && u.status.Published? :: u.id;
            WrittenUpTo(rows, us, 0) ==
            map id | id in rows ::
              if id in publishedIds then rows[id].(status := Published, lockedAt := None, lastError := None)
              else rows[id]
  {
    UpdatesWritten(rows, us);
    forall id | id in rows {
      UpdateForMember(us, id);
    }
  }

  lemma OneStatementMore(rows: Table, us: seq<Update>, n: nat)
    requires DistinctIds(us) && n < |us|
    ensures var u, before := us[n], WrittenUpTo(rows, us, n);
            WrittenUpTo(rows, us, n + 1) ==
            if u.id in rows && !u.status.Published? then before[u.id := Written(rows[u.id], u)] else before
    ensures us[n].id in rows && !us[n].status.Published? ==> WrittenUpTo(rows, us, n)[us[n].id] == rows[us[n].id]
  {
    assert us[..n + 1] == us[..n] + [us[n]];
    UpdateForUnique(us, n);
    forall id | id in rows {
      UpdateForMember(us, id);
    }
  }

  lemma AllStatements(rows: Table, us: seq<Update>)
    ensures WrittenUpTo(rows, us, |us|) == AfterUpdates(rows, us)
  {
    assert us[..|us|] == us;
    forall id | id in rows {
      UpdateForMember(us, id);
    }
  }
}
