/** Relay soundness and the retry bound, with arbitrarily many overlapping relays, re-claims of
    stale locks and late unguarded writes. */
module PipelineRelay {
  import opened Prelude
  import opened Pipeline
  import O = Outbox

  /** What a status and a retry count may say about a row. */
  ghost predicate Sound(id: nat, status: O.EventStatus, retries: nat, published: set<nat>, discarded: set<nat>) {
    && retries <= O.MAX_OUTBOX_RETRIES
    && (status.Pending? || status.Processing? ==> retries < O.MAX_OUTBOX_RETRIES)
    && (status.Published? ==> id in published)
    && (status.Failed? ==> id in discarded || retries == O.MAX_OUTBOX_RETRIES)
  }

  ghost predicate RowsSound(rows: O.Table, published: set<nat>, discarded: set<nat>) {
    forall id :: id in rows ==> Sound(id, rows[id].status, O.Retries(rows[id].retryCount), published, discarded)
  }

  /** Snapshots are below the bound, and computed updates are as sound as rows. */
  ghost predicate RelaySound(r: Relay, published: set<nat>, discarded: set<nat>) {
    && |r.updates| <= |r.events|
    && (forall k :: 0 <= k < |r.events| ==> O.Retries(r.events[k].retryCount) < O.MAX_OUTBOX_RETRIES)
    && (forall k :: 0 <= k < |r.updates| ==>
          && r.updates[k].id == r.events[k].id && !r.updates[k].status.Processing?
          && Sound(r.updates[k].id, r.updates[k].status, r.updates[k].retryCount, published, discarded))
  }

  ghost predicate RelayInv(s: State) {
    && RowsSound(s.rows, s.published, s.discarded)
    && forall r :: r in s.relays ==> RelaySound(s.relays[r], s.published, s.discarded)
  }

  lemma ClaimKeeps(s: State, r: nat, ids: seq<nat>, now: int)
    requires RelayInv(s) && CanClaim(s, r, ids, now)
    ensures RelayInv(DoRelayClaim(s, r, ids, now))
  {
    var s' := DoRelayClaim(s, r, ids, now);
    forall id | id in s.rows && id in AsSet(ids)
      ensures O.Retries(s.rows[id].retryCount) < O.MAX_OUTBOX_RETRIES
    {
      var i :| 0 <= i < |ids| && ids[i] == id;
    }
    assert RelaySound(s'.relays[r], s.published, s.discarded);
  }

  lemma HandleKeeps(s: State, r: nat, up: bool, applied: bool)
    requires RelayInv(s) && CanHandle(s, r)
    ensures RelayInv(DoRelayHandle(s, r, up, applied))
  {
    var s' := DoRelayHandle(s, r, up, applied);
    var was := s.relays[r];
    assert RelaySound(was, s.published, s.discarded);
    var e := was.events[|was.updates|];
    O.DecideBounds(e, up);
    assert s.published <= s'.published && s.discarded <= s'.discarded;
    assert Sound(e.id, O.Decide(e, up).status, O.Decide(e, up).retryCount, s'.published, s'.discarded);
    SoundGrows(s, s'.published, s'.discarded);
  }

  lemma SoundGrows(s: State, published: set<nat>, discarded: set<nat>)
    requires RelayInv(s) && s.published <= published && s.discarded <= discarded
    ensures RowsSound(s.rows, published, discarded)
    ensures forall r :: r in s.relays ==> RelaySound(s.relays[r], published, discarded)
  {
  }

  /** A write has no guard, yet whatever it overwrites, the row stays sound: the update brings
      its own status and count, and PUBLISHED keeps a count that was in bounds anyway. */
  lemma WriteKeeps(s: State, r: nat)
    requires RelayInv(s) && r in s.relays
    ensures RelayInv(s.(rows := O.AfterUpdates(s.rows, s.relays[r].updates), relays := Remove(s.relays, r)))
  {
    var us := s.relays[r].updates;
    assert RelaySound(s.relays[r], s.published, s.discarded);
    var rows' := O.AfterUpdates(s.rows, us);
    forall id | id in rows'
      ensures Sound(id, rows'[id].status, O.Retries(rows'[id].retryCount), s.published, s.discarded)
    {
      O.UpdateForMember(us, id);
      if O.UpdateFor(us, id).Some? {
        var k :| 0 <= k < |us| && us[k] == O.UpdateFor(us, id).value;
        assert Sound(us[k].id, us[k].status, us[k].retryCount, s.published, s.discarded);
      }
    }
  }

  /** The invariant holds initially and every enabled action keeps it. */
  lemma RelayInvKept(s: State, a: Action)
    requires RelayInv(s) && Enabled(s, a)
    ensures RelayInv(Apply(s, a))
  {
    match a
    case RelayDoes(r, RelayClaim(ids, now)) => ClaimKeeps(s, r, ids, now);
    case RelayDoes(r, RelayHandle(up, applied)) => HandleKeeps(s, r, up, applied);
    case RelayDoes(r, RelayWrite) => WriteKeeps(s, r);
    case RelayDoes(r, RelayCrash) =>
    case Accept(tx, row, sms, trace, now) =>
    case WorkerDoes(w, step) =>
    case AdminDoes(ad, step) =>
    case OrderDoes(q, step) =>
    case Restart =>
  }
}
