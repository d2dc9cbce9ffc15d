/** No accepted SMS is lost: whatever is published stays covered by something that can still be
    worked on or by its outcome, through crashes, duplicates, dead letters and replays. */
module PipelineCover {
  import opened Prelude
  import opened Payload
  import opened Pipeline
  import opened PipelineStream
  import opened PipelineMatch
  import opened PipelineRelay
  import D = Orders
  import O = Outbox
  import P = Payments
  import G = Streams

  /** A stream entry of the SMS was acknowledged because no PENDING intent had its amount. */
  ghost predicate Dismissed(s: State, tx: nat) {
    exists e :: e in s.ignored && e < |s.group.log| && TxOf(s.group.log[e]) == tx
  }

  ghost predicate Settled(s: State, tx: nat) {
    P.Linked(s.db, tx) || Dismissed(s, tx)
  }

  /** The payload is settled, or is in the dead-letter stream, or in an unacknowledged stream
      entry with an id above k. The bound k is what makes this inductive: the entry that a
      dead letter came from is acknowledged on the strength of a later copy, never an
      earlier one, so two entries cannot justify each other's acknowledgement. */
  ghost predicate Covered(s: State, d: Data, k: int) {
    || (exists e :: k < e < |s.group.log| && 0 <= e && e !in s.group.acked && s.group.log[e] == d)
    || (exists x :: x in s.dead && s.dead[x] == d)
    || Settled(s, TxOf(d))
  }

  ghost predicate StageCovered(s: State, w: Worker) {
    w.batch != [] ==>
      && (w.stage.Acking? ==> P.Linked(s.db, TxOf(w.batch[0].data)))
      && (w.stage.Buried? ==> w.batch[0].id in s.copied && Covered(s, w.batch[0].data, w.batch[0].id))
  }

  ghost predicate RelayCovered(s: State, r: Relay) {
    forall k :: 0 <= k < |r.updates| && k < |r.events| && r.updates[k].status.Published? ==>
      Covered(s, r.events[k].data, -1)
  }

  /** An entry is acknowledged only when its SMS is linked, or the acknowledgement is itself the
      answer to a select that matched nothing, or a dead-letter copy was made of it; and then
      something later covers its payload. */
  ghost predicate AckCovered(s: State, e: nat) {
    e < |s.group.log| ==>
      && Covered(s, s.group.log[e], e)
      && (P.Linked(s.db, TxOf(s.group.log[e])) || e in s.ignored || e in s.copied)
  }

  ghost predicate HasRow(s: State, tx: nat) {
    exists r :: r in s.rows && TxOf(s.rows[r].data) == tx
  }

  ghost predicate ReplaysOk(s: State) {
    && (forall x :: x in s.dead ==> x < s.nextDead)
    && (forall a :: a in s.replays ==>
          && s.replays[a].dead < s.nextDead
          && (s.replays[a].dead in s.dead ==> s.dead[s.replays[a].dead] == s.replays[a].data))
  }

  ghost predicate CoverInv(s: State) {
    && (forall r :: r in s.rows && s.rows[r].status.Published? ==> Covered(s, s.rows[r].data, -1))
    && (forall r :: r in s.relays ==> RelayCovered(s, s.relays[r]))
    && (forall w :: w in s.workers ==> StageCovered(s, s.workers[w]))
    && (forall e :: e in s.group.acked ==> AckCovered(s, e))
    && ReplaysOk(s)
    && (forall tx :: tx in s.sms ==> HasRow(s, tx))
  }

  // ---------- cover is stable ----------

  /** Everything that was covered stays covered. */
  ghost predicate Keeps(s: State, s': State) {
    && s.group.log <= s'.group.log && s.copied <= s'.copied && s.ignored <= s'.ignored
    && (forall tx :: Settled(s, tx) ==> Settled(s', tx))
    && (forall tx :: P.Linked(s.db, tx) ==> P.Linked(s'.db, tx))
    && (forall d, k :: k < |s.group.log| && Covered(s, d, k) ==> Covered(s', d, k))
  }

  ghost predicate LinksStay(db: D.Db, db': D.Db) {
    forall i :: i in db.intents && db.intents[i].smsTx.Some? ==>
      i in db'.intents && db'.intents[i].smsTx == db.intents[i].smsTx
  }

  // Only additions: nothing acknowledged, no dead letter removed, no link undone.
  ghost predicate Advances(s: State, s': State) {
    && s.group.log <= s'.group.log && s'.group.acked == s.group.acked
    && (forall x :: x in s.dead ==> x in s'.dead && s'.dead[x] == s.dead[x])
    && LinksStay(s.db, s'.db) && s.ignored <= s'.ignored && s.copied <= s'.copied
  }

  lemma SettledStays(s: State, s': State, tx: nat)
    requires LinksStay(s.db, s'.db) && s.ignored <= s'.ignored && s.group.log <= s'.group.log && Settled(s, tx)
    ensures Settled(s', tx) && (P.Linked(s.db, tx) ==> P.Linked(s'.db, tx))
  {
    if P.Linked(s.db, tx) {
      var i :| i in s.db.intents && s.db.intents[i].smsTx == Some(tx);
      assert i in s'.db.intents && s'.db.intents[i].smsTx == Some(tx);
    }
    DismissedStays(s, s', tx);
  }

  lemma DismissedStays(s: State, s': State, tx: nat)
    requires s.ignored <= s'.ignored && s.group.log <= s'.group.log
    ensures Dismissed(s, tx) ==> Dismissed(s', tx)
  {
    if e :| e in s.ignored && e < |s.group.log| && TxOf(s.group.log[e]) == tx {
      assert e in s'.ignored && s'.group.log[e] == s.group.log[e];
    }
  }

  lemma AdvanceKeepsCover(s: State, s': State, d: Data, k: int)
    requires Advances(s, s') && Covered(s, d, k)
    ensures Covered(s', d, k)
  {
    if e :| k < e < |s.group.log| && 0 <= e && e !in s.group.acked && s.group.log[e] == d {
      assert s'.group.log[e] == d;
    } else if x :| x in s.dead && s.dead[x] == d {
      assert s'.dead[x] == d;
    } else {
      SettledStays(s, s', TxOf(d));
    }
  }

  lemma AdvanceKeeps(s: State, s': State)
    requires Advances(s, s')
    ensures Keeps(s, s')
  {
    forall tx | Settled(s, tx)
      ensures Settled(s', tx) && (P.Linked(s.db, tx) ==> P.Linked(s'.db, tx))
    {
      SettledStays(s, s', tx);
    }
    forall d, k | Covered(s, d, k)
      ensures Covered(s', d, k)
    {
      AdvanceKeepsCover(s, s', d, k);
    }
  }

  /** A replay removes the dead letter and appends its payload under a new, higher id. */
  lemma ReplayKeeps(s: State, a: nat)
    requires ReplaysOk(s) && a in s.replays && G.Partition(s.group)
    ensures Keeps(s, AdminNext(s, a, ReplayExec))
  {
    var s' := AdminNext(s, a, ReplayExec);
    var n := |s.group.log|;
    assert n !in s.group.acked;
    assert s'.group.log[n] == s.replays[a].data;
    assert s'.db == s.db && s'.ignored == s.ignored;
    forall tx {
      DismissedStays(s, s', tx);
    }
    forall d, k | k < |s.group.log| && Covered(s, d, k)
      ensures Covered(s', d, k)
    {
      if e :| k < e < |s.group.log| && 0 <= e && e !in s.group.acked && s.group.log[e] == d {
        assert s'.group.log[e] == d && e !in s'.group.acked;
      } else if x :| x in s.dead && s.dead[x] == d {
        if x == s.replays[a].dead {
          ReplayedCovers(s, a, k);
        } else {
          assert s'.dead[x] == d;
        }
      } else {
        assert Settled(s', TxOf(d));
      }
    }
  }

  lemma ReplayedCovers(s: State, a: nat, k: int)
    requires ReplaysOk(s) && a in s.replays && G.Partition(s.group) && k < |s.group.log|
    ensures Covered(AdminNext(s, a, ReplayExec), s.replays[a].data, k)
  {
    var s' := AdminNext(s, a, ReplayExec);
    var n := |s.group.log|;
    assert n !in s'.group.acked && s'.group.log[n] == s.replays[a].data;
  }

  /** Acknowledging an entry that is settled, is ignored by this very acknowledgement, or is
      covered by something later uncovers nothing: what relied on the entry now relies on that. */
  lemma AckKeeps(s: State, w: nat)
    requires StreamInv(s) && WorkerCan(s, w, WorkerAck) && StageCovered(s, s.workers[w])
    ensures Keeps(s, DoWorkerAck(s, w))
  {
    var s' := DoWorkerAck(s, w);
    var h := Head(s, w).id;
    assert BatchOk(s.group, s.workers[w]);
    forall tx {
      DismissedStays(s, s', tx);
    }
    forall d, k | k < |s.group.log| && Covered(s, d, k)
      ensures Covered(s', d, k)
    {
      if e :| k < e < |s.group.log| && 0 <= e && e !in s.group.acked && s.group.log[e] == d {
        if e == h {
          AckedStaysCovered(s, w, k);
        } else {
          assert e !in s'.group.acked && s'.group.log[e] == d;
        }
      } else if x :| x in s.dead && s.dead[x] == d {
        assert s'.dead[x] == d;
      } else {
        assert Settled(s', TxOf(d));
      }
    }
  }

  lemma AckedStaysCovered(s: State, w: nat, k: int)
    requires StreamInv(s) && WorkerCan(s, w, WorkerAck) && StageCovered(s, s.workers[w])
    requires k <= Head(s, w).id
    ensures Covered(DoWorkerAck(s, w), Head(s, w).data, k)
  {
    var s' := DoWorkerAck(s, w);
    var h, d := Head(s, w).id, Head(s, w).data;
    DismissedStays(s, s', TxOf(d));
    if s.workers[w].stage.Ignoring? {
      assert BatchOk(s.group, s.workers[w]);
      assert h in s'.ignored && s'.group.log[h] == d;
    } else if Settled(s, TxOf(d)) {
      assert Settled(s', TxOf(d));
    } else if e :| h < e < |s.group.log| && e !in s.group.acked && s.group.log[e] == d {
      assert e !in s'.group.acked && s'.group.log[e] == d;
    } else {
      var x :| x in s.dead && s.dead[x] == d;
      assert s'.dead[x] == d;
    }
  }

  // ---------- the invariant, once cover is kept ----------

  // The parts of the invariant that a step keeps when it only keeps cover: everything already
  // recorded stays justified.
  lemma OldFactsStay(s: State, s': State)
    requires CoverInv(s) && StreamInv(s) && Keeps(s, s')
    ensures forall r :: r in s.rows && s.rows[r].status.Published? ==> Covered(s', s.rows[r].data, -1)
    ensures forall r :: r in s.relays ==> RelayCovered(s', s.relays[r])
    ensures forall w :: w in s.workers ==> StageCovered(s', s.workers[w])
    ensures forall e :: e in s.group.acked ==> AckCovered(s', e)
  {
    forall w | w in s.workers
      ensures StageCovered(s', s.workers[w])
    {
      assert StageCovered(s, s.workers[w]) && BatchOk(s.group, s.workers[w]);
    }
    forall r | r in s.relays
      ensures RelayCovered(s', s.relays[r])
    {
      assert RelayCovered(s, s.relays[r]);
    }
    forall e | e in s.group.acked
      ensures AckCovered(s', e)
    {
      assert AckCovered(s, e) && e < s.group.last;
    }
  }

  lemma RowsStay(s: State, s': State)
    requires CoverInv(s) && s'.sms == s.sms && SamePayloads(s.rows, s'.rows)
    ensures forall tx :: tx in s'.sms ==> HasRow(s', tx)
  {
    forall tx | tx in s'.sms
      ensures HasRow(s', tx)
    {
      assert HasRow(s, tx);
      var r :| r in s.rows && TxOf(s.rows[r].data) == tx;
      assert r in s'.rows && TxOf(s'.rows[r].data) == tx;
    }
  }

  /** A step that keeps cover and acknowledges nothing keeps the invariant if the rows, relays and
      workers it changes are covered in the new state. */
  lemma KeptCover(s: State, s': State)
    requires StreamInv(s) && CoverInv(s) && Keeps(s, s') && s'.group.acked == s.group.acked
    requires s'.sms == s.sms && SamePayloads(s.rows, s'.rows) && ReplaysOk(s')
    requires forall id :: id in s.rows && s'.rows[id].status.Published? ==>
               s.rows[id].status.Published? || Covered(s', s.rows[id].data, -1)
    requires forall r :: r in s'.relays ==>
               (r in s.relays && s'.relays[r] == s.relays[r]) || RelayCovered(s', s'.relays[r])
    requires forall w :: w in s'.workers ==>
               (w in s.workers && s'.workers[w] == s.workers[w]) || StageCovered(s', s'.workers[w])
    ensures CoverInv(s')
  {
    OldFactsStay(s, s');
    RowsStay(s, s');
  }

  lemma AcceptKeepsCover(s: State, tx: nat, row: nat, sms: Sms, trace: string, now: int)
    requires StreamInv(s) && CoverInv(s) && CanAccept(s, tx, row, sms)
    ensures CoverInv(DoAccept(s, tx, row, sms, trace, now))
  {
    var s' := DoAccept(s, tx, row, sms, trace, now);
    AdvanceKeeps(s, s');
    OldFactsStay(s, s');
    forall t | t in s'.sms
      ensures HasRow(s', t)
    {
      if t == tx {
        assert row in s'.rows && TxOf(s'.rows[row].data) == tx;
      } else {
        assert HasRow(s, t);
        var r :| r in s.rows && TxOf(s.rows[r].data) == t;
        assert r in s'.rows && TxOf(s'.rows[r].data) == t;
      }
    }
  }

  // ---------- relay steps ----------

  lemma ClaimKeepsCover(s: State, r: nat, ids: seq<nat>, now: int)
    requires StreamInv(s) && PayloadInv(s) && CoverInv(s) && CanClaim(s, r, ids, now)
    ensures CoverInv(DoRelayClaim(s, r, ids, now))
  {
    var s' := DoRelayClaim(s, r, ids, now);
    AdvanceKeeps(s, s');
    ClaimKeepsPayloads(s, r, ids, now);
    ClaimPublishesNothing(s, r, ids, now);
    KeptCover(s, s');
  }

  lemma ClaimPublishesNothing(s: State, r: nat, ids: seq<nat>, now: int)
    requires CanClaim(s, r, ids, now)
    ensures var s' := DoRelayClaim(s, r, ids, now);
            && s'.rows.Keys == s.rows.Keys && s'.relays == s.relays[r := s'.relays[r]] && s'.relays[r].updates == []
            && forall id :: id in s.rows && s'.rows[id].status.Published? ==> s.rows[id].status.Published?
  {
  }

  lemma HandleAdvances(s: State, r: nat, up: bool, applied: bool)
    requires ReplaysOk(s) && CanHandle(s, r)
    ensures Advances(s, DoRelayHandle(s, r, up, applied)) && ReplaysOk(DoRelayHandle(s, r, up, applied))
  {
    var e := s.relays[r].events[|s.relays[r].updates|];
    var landed := Land(s, e);
    assert s.nextDead !in s.dead;
    assert landed.dead == s.dead || landed.dead == s.dead[s.nextDead := e.data];
    assert Advances(s, landed) && ReplaysOk(landed);
  }

  /** A publish that is answered has put the payload into the stream, unacknowledged. */
  lemma HandledIsCovered(s: State, r: nat, up: bool, applied: bool)
    requires G.Partition(s.group) && CanHandle(s, r)
    requires RelayCovered(DoRelayHandle(s, r, up, applied), s.relays[r])
    ensures RelayCovered(DoRelayHandle(s, r, up, applied), DoRelayHandle(s, r, up, applied).relays[r])
  {
    var s' := DoRelayHandle(s, r, up, applied);
    var relay := s.relays[r];
    var e := relay.events[|relay.updates|];
    if up && Validate(e.data).None? {
      var n := |s.group.log|;
      assert s'.group.log[n] == e.data && n !in s'.group.acked;
      assert Covered(s', e.data, -1);
    }
    assert s'.relays[r].events == relay.events && s'.relays[r].updates == relay.updates + [O.Decide(e, up)];
  }

  lemma HandleKeepsCover(s: State, r: nat, up: bool, applied: bool)
    requires StreamInv(s) && PayloadInv(s) && CoverInv(s) && CanHandle(s, r)
    ensures CoverInv(DoRelayHandle(s, r, up, applied))
  {
    var s' := DoRelayHandle(s, r, up, applied);
    HandleAdvances(s, r, up, applied);
    AdvanceKeeps(s, s');
    OldFactsStay(s, s');
    HandledIsCovered(s, r, up, applied);
    KeptCover(s, s');
  }

  lemma WriteKeepsCover(s: State, r: nat)
    requires StreamInv(s) && PayloadInv(s) && CoverInv(s) && RelayInv(s) && RelayCan(s, r, RelayWrite)
    ensures CoverInv(RelayNext(s, r, RelayWrite))
  {
    var s' := RelayNext(s, r, RelayWrite);
    AdvanceKeeps(s, s');
    OldFactsStay(s, s');
    WriteKeepsPayloads(s, r);
    RowsStay(s, s');
    var us := s.relays[r].updates;
    forall id | id in s'.rows && s'.rows[id].status.Published?
      ensures Covered(s', s'.rows[id].data, -1)
    {
      O.UpdateForMember(us, id);
      if O.UpdateFor(us, id).Some? {
        WrittenIsCovered(s, s', r, id);
      }
    }
  }

  lemma WrittenIsCovered(s: State, s': State, r: nat, id: nat)
    requires PayloadInv(s) && RelayInv(s) && r in s.relays && id in s.rows
    requires RelayCovered(s', s.relays[r])
    requires O.UpdateFor(s.relays[r].updates, id).Some? && O.UpdateFor(s.relays[r].updates, id).value.status.Published?
    ensures Covered(s', s.rows[id].data, -1)
  {
    var relay := s.relays[r];
    O.UpdateForMember(relay.updates, id);
    var k :| 0 <= k < |relay.updates| && relay.updates[k] == O.UpdateFor(relay.updates, id).value;
    assert RelaySound(relay, s.published, s.discarded) && RelayPayloads(s.rows, relay);
    assert relay.events[k].id == id && relay.events[k].data == s.rows[id].data;
  }

  lemma RelayKeepsCover(s: State, r: nat, step: RelayStep)
    requires StreamInv(s) && PayloadInv(s) && CoverInv(s) && RelayInv(s) && RelayCan(s, r, step)
    ensures CoverInv(RelayNext(s, r, step))
  {
    match step
    case RelayClaim(ids, now) => ClaimKeepsCover(s, r, ids, now);
    case RelayHandle(up, applied) => HandleKeepsCover(s, r, up, applied);
    case RelayWrite => WriteKeepsCover(s, r);
    case RelayCrash =>
      AdvanceKeeps(s, RelayNext(s, r, step));
      KeptCover(s, RelayNext(s, r, step));
  }

  // ---------- worker steps ----------

  /** Why a worker may come to acknowledge, or has buried, the message in its hand. */
  lemma NewStageCovered(s: State, w: nat, step: WorkerStep)
    requires StreamInv(s) && MatchInv(s) && ReplaysOk(s) && WorkerCan(s, w, step) && MovesStage(step)
    ensures StageCovered(WorkerNext(s, w, step), WorkerNext(s, w, step).workers[w])
  {
    var s' := WorkerNext(s, w, step);
    var d := Head(s, w).data;
    assert LockOk(s.db, s.workers[w]);
    match step
    case WorkerCheck =>
    case WorkerSelect => SelectFinds(s.db, d);
    case WorkerFlush =>
    case WorkerRelease => LinkedBy(s.db, s.workers[w].stage.intent, TxOf(d));
    case WorkerBury => assert s'.dead[s.nextDead] == d;
    case _ =>
  }

  lemma LinkedBy(db: D.Db, i: nat, tx: nat)
    requires i in db.intents && db.intents[i].smsTx == Some(tx)
    ensures P.Linked(db, tx)
  {
  }

  lemma WorkerAdvances(s: State, w: nat, step: WorkerStep)
    requires StreamInv(s) && MatchInv(s) && ReplaysOk(s) && WorkerCan(s, w, step) && !step.WorkerAck?
    ensures Advances(s, WorkerNext(s, w, step))
  {
    var s' := WorkerNext(s, w, step);
    if step.WorkerCommit? {
      assert LockOk(s.db, s.workers[w]);
      var i := s.workers[w].stage.intent;
      assert IntentOk(s.sms, s.db, i);
      PayChangesOne(s.db, i, Some(TxOf(Head(s, w).data)));
    } else if step.WorkerBury? {
      assert s.nextDead !in s.dead;
    }
  }

  lemma AckKeepsCoverInv(s: State, w: nat)
    requires StreamInv(s) && CoverInv(s) && WorkerCan(s, w, WorkerAck)
    ensures CoverInv(DoWorkerAck(s, w))
  {
    var s' := DoWorkerAck(s, w);
    assert StageCovered(s, s.workers[w]) && BatchOk(s.group, s.workers[w]);
    AckKeeps(s, w);
    OldFactsStay(s, s');
    AckedStaysCovered(s, w, Head(s, w).id);
    RowsStay(s, s');
    assert AckCovered(s', Head(s, w).id);
    assert StageCovered(s', s'.workers[w]);
  }

  lemma WorkerKeepsCover(s: State, w: nat, step: WorkerStep)
    requires StreamInv(s) && MatchInv(s) && CoverInv(s) && WorkerCan(s, w, step)
    ensures CoverInv(WorkerNext(s, w, step))
  {
    if step.WorkerAck? {
      AckKeepsCoverInv(s, w);
    } else {
      OtherStepKeepsCover(s, w, step);
    }
  }

  lemma OtherStepKeepsCover(s: State, w: nat, step: WorkerStep)
    requires StreamInv(s) && MatchInv(s) && CoverInv(s) && WorkerCan(s, w, step) && !step.WorkerAck?
    ensures CoverInv(WorkerNext(s, w, step))
  {
    WorkerAdvances(s, w, step);
    AdvanceKeeps(s, WorkerNext(s, w, step));
    WorkersAfter(s, w, step);
    NextDeadGrows(s, w, step);
    KeptCover(s, WorkerNext(s, w, step));
  }

  lemma NextDeadGrows(s: State, w: nat, step: WorkerStep)
    requires ReplaysOk(s) && WorkerCan(s, w, step)
    ensures ReplaysOk(WorkerNext(s, w, step))
  {
  }

  // The acting worker is gone, back at Ready, or at a stage that is covered.
  lemma WorkersAfter(s: State, w: nat, step: WorkerStep)
    requires StreamInv(s) && MatchInv(s) && ReplaysOk(s) && WorkerCan(s, w, step)
    ensures var s' := WorkerNext(s, w, step);
            s'.workers == Remove(s.workers, w) ||
            (w in s'.workers && s'.workers == s.workers[w := s'.workers[w]] && StageCovered(s', s'.workers[w]))
  {
    if MovesStage(step) {
      NewStageCovered(s, w, step);
    }
  }

  // ---------- everything else ----------

  lemma AdminKeepsCover(s: State, a: nat, step: AdminStep)
    requires StreamInv(s) && MatchInv(s) && CoverInv(s) && AdminCan(s, a, step)
    ensures CoverInv(AdminNext(s, a, step))
  {
    var s' := AdminNext(s, a, step);
    if step.ReplayExec? {
      ReplayKeeps(s, a);
    } else {
      AdminAdvances(s, a, step);
      AdvanceKeeps(s, s');
    }
    KeptCover(s, s');
  }

  lemma AdminAdvances(s: State, a: nat, step: AdminStep)
    requires MatchInv(s) && AdminCan(s, a, step) && !step.ReplayExec?
    ensures Advances(s, AdminNext(s, a, step))
  {
    if step.Confirm? {
      assert IntentOk(s.sms, s.db, step.intent);
      PayChangesOne(s.db, step.intent, None);
    }
  }

  lemma OrderKeepsCover(s: State, q: nat, step: OrderStep)
    requires StreamInv(s) && CoverInv(s) && OrderCan(s, q, step)
    ensures CoverInv(OrderNext(s, q, step))
  {
    AdvanceKeeps(s, OrderNext(s, q, step));
    KeptCover(s, OrderNext(s, q, step));
  }

  lemma CoverInvKept(s: State, a: Action)
    requires StreamInv(s) && PayloadInv(s) && RelayInv(s) && MatchInv(s) && CoverInv(s) && Enabled(s, a)
    ensures CoverInv(Apply(s, a))
  {
    match a
    case Accept(tx, row, sms, trace, now) => AcceptKeepsCover(s, tx, row, sms, trace, now);
    case RelayDoes(r, step) => RelayKeepsCover(s, r, step);
    case WorkerDoes(w, step) => WorkerKeepsCover(s, w, step);
    case AdminDoes(ad, step) => AdminKeepsCover(s, ad, step);
    case OrderDoes(q, step) => OrderKeepsCover(s, q, step);
    case Restart =>
      AdvanceKeeps(s, DoRestart(s));
      KeptCover(s, DoRestart(s));
  }
}
