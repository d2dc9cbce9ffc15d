/** What the history fields of the state mean in terms of the stores: a published payload is on
    the stream, a discarded one was put into the dead letters, and an ignored entry has been
    acknowledged. */
module PipelineHistory {
  import opened Pipeline
  import opened PipelineCover
  import opened PipelineStream
  import opened Payload

  ghost predicate InLog(s: State, d: Data) {
    exists e :: 0 <= e < |s.group.log| && s.group.log[e] == d
  }

  ghost predicate InDead(s: State, d: Data) {
    exists x :: x in s.dead && s.dead[x] == d
  }

  ghost predicate HistoryInv(s: State) {
    && (forall id :: id in s.published ==> id in s.rows && InLog(s, s.rows[id].data))
    && (forall id :: id in s.discarded ==> id in s.rows && (InLog(s, s.rows[id].data) || InDead(s, s.rows[id].data)))
    && s.ignored <= s.group.acked
  }

  /** No step takes a payload off the stream, or one out of the dead letters without putting it
      on the stream, or an acknowledgement back. */
  ghost predicate Remembers(s: State, s': State) {
    && s.group.log <= s'.group.log && s.group.acked <= s'.group.acked
    && (forall id :: id in s.rows ==> id in s'.rows && s'.rows[id].data == s.rows[id].data)
    && (forall d :: InDead(s, d) ==> InDead(s', d) || InLog(s', d))
  }

  lemma RememberedStays(s: State, s': State)
    requires HistoryInv(s) && Remembers(s, s')
    ensures forall id :: id in s.published ==> id in s'.rows && InLog(s', s'.rows[id].data)
    ensures forall id :: id in s.discarded ==>
              id in s'.rows && (InLog(s', s'.rows[id].data) || InDead(s', s'.rows[id].data))
    ensures s.ignored <= s'.group.acked
  {
    forall id | id in s.published + s.discarded
      ensures InLog(s, s.rows[id].data) ==> InLog(s', s'.rows[id].data)
    {
      if InLog(s, s.rows[id].data) {
        var e :| 0 <= e < |s.group.log| && s.group.log[e] == s.rows[id].data;
        assert s'.group.log[e] == s'.rows[id].data;
      }
    }
  }

  // Everything in the dead letters stays there.
  lemma DeadGrows(s: State, s': State)
    requires forall x :: x in s.dead ==> x in s'.dead && s'.dead[x] == s.dead[x]
    ensures forall d :: InDead(s, d) ==> InDead(s', d)
  {
    forall d | InDead(s, d)
      ensures InDead(s', d)
    {
      var x :| x in s.dead && s.dead[x] == d;
      assert s'.dead[x] == d;
    }
  }

  // ---------- relays ----------

  // What a handled event newly records has landed.
  lemma HandledLands(s: State, r: nat, up: bool, applied: bool)
    requires CanHandle(s, r)
    ensures var s' := DoRelayHandle(s, r, up, applied);
            var e := s.relays[r].events[|s.relays[r].updates|];
            && (forall id :: id in s'.published && id !in s.published ==> id == e.id && InLog(s', e.data))
            && (forall id :: id in s'.discarded && id !in s.discarded ==> id == e.id && InDead(s', e.data))
  {
    var s' := DoRelayHandle(s, r, up, applied);
    var e := s.relays[r].events[|s.relays[r].updates|];
    if up || applied {
      if Validate(e.data).None? {
        assert s'.group.log[|s.group.log|] == e.data;
      } else {
        assert s'.dead[s.nextDead] == e.data;
      }
    }
  }

  lemma HandleRemembered(s: State, r: nat, up: bool, applied: bool)
    requires PayloadInv(s) && HistoryInv(s) && ReplaysOk(s) && CanHandle(s, r)
    ensures HistoryInv(DoRelayHandle(s, r, up, applied))
  {
    var s' := DoRelayHandle(s, r, up, applied);
    assert RelayPayloads(s.rows, s.relays[r]);
    HandleAdvances(s, r, up, applied);
    DeadGrows(s, s');
    RememberedStays(s, s');
    HandledLands(s, r, up, applied);
  }

  lemma RelayRemembered(s: State, r: nat, step: RelayStep)
    requires PayloadInv(s) && HistoryInv(s) && ReplaysOk(s) && RelayCan(s, r, step)
    ensures HistoryInv(RelayNext(s, r, step))
  {
    var s' := RelayNext(s, r, step);
    match step
    case RelayHandle(up, applied) => HandleRemembered(s, r, up, applied);
    case RelayClaim(ids, now) =>
      ClaimKeepsPayloads(s, r, ids, now);
      RememberedStays(s, s');
    case RelayWrite =>
      WriteKeepsPayloads(s, r);
      RememberedStays(s, s');
    case RelayCrash => RememberedStays(s, s');
  }

  // ---------- workers and administrators ----------

  lemma AckRemembered(s: State, w: nat)
    requires StreamInv(s) && HistoryInv(s) && CanAck(s, w)
    ensures HistoryInv(DoWorkerAck(s, w))
  {
    var s' := DoWorkerAck(s, w);
    var m := Head(s, w);
    assert BatchOk(s.group, s.workers[w]);
    DeadGrows(s, s');
    RememberedStays(s, s');
    assert m.id in s'.group.acked;
  }

  lemma WorkerRemembered(s: State, w: nat, step: WorkerStep)
    requires StreamInv(s) && HistoryInv(s) && ReplaysOk(s) && WorkerCan(s, w, step)
    ensures HistoryInv(WorkerNext(s, w, step))
  {
    if step.WorkerAck? {
      AckRemembered(s, w);
    } else {
      DeadGrows(s, WorkerNext(s, w, step));
      RememberedStays(s, WorkerNext(s, w, step));
    }
  }

  lemma AdminRemembered(s: State, a: nat, step: AdminStep)
    requires HistoryInv(s) && ReplaysOk(s) && AdminCan(s, a, step)
    ensures HistoryInv(AdminNext(s, a, step))
  {
    var s' := AdminNext(s, a, step);
    forall d | InDead(s, d)
      ensures InDead(s', d) || InLog(s', d)
    {
      var x :| x in s.dead && s.dead[x] == d;
      if step.ReplayExec? && x == s.replays[a].dead {
        assert s'.group.log[|s.group.log|] == d;
      } else {
        assert s'.dead[x] == d;
      }
    }
    RememberedStays(s, s');
  }

  lemma OrderRemembered(s: State, q: nat, step: OrderStep)
    requires HistoryInv(s) && OrderCan(s, q, step)
    ensures HistoryInv(OrderNext(s, q, step))
  {
    RememberedStays(s, OrderNext(s, q, step));
  }

  lemma HistoryInvKept(s: State, a: Action)
    requires StreamInv(s) && PayloadInv(s) && HistoryInv(s) && ReplaysOk(s) && Enabled(s, a)
    ensures HistoryInv(Apply(s, a))
  {
    match a
    case Accept(tx, row, sms, trace, now) => RememberedStays(s, Apply(s, a));
    case RelayDoes(r, step) => RelayRemembered(s, r, step);
    case WorkerDoes(w, step) => WorkerRemembered(s, w, step);
    case AdminDoes(ad, step) => AdminRemembered(s, ad, step);
    case OrderDoes(q, step) => OrderRemembered(s, q, step);
    case Restart => RememberedStays(s, Apply(s, a));
  }
}
