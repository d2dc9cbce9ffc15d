/** The stream partition, what a worker holds in hand, and where payloads come from: every
    payload anywhere in the pipeline is the payload of a committed SMS. */
module PipelineStream {
  import opened Prelude
  import opened Payload
  import opened Pipeline
  import O = Outbox
  import P = Payments
  import G = Streams

  // ---------- stream and batches ----------

  /** A worker past `Ready` has a message in hand, and messages are copies of log entries. */
  ghost predicate BatchOk(g: G.Group, w: Worker) {
    && (!w.stage.Ready? ==> w.batch != [])
    && forall k :: 0 <= k < |w.batch| ==>
         w.batch[k].id < g.last && w.batch[k].id < |g.log| && w.batch[k].data == g.log[w.batch[k].id]
  }

  ghost predicate StreamInv(s: State) {
    && G.Partition(s.group)
    && forall w :: w in s.workers ==> BatchOk(s.group, s.workers[w])
  }

  lemma BatchesCarryOver(s: State, g: G.Group)
    requires StreamInv(s) && s.group.log <= g.log && s.group.last <= g.last <= |g.log|
    ensures forall w :: w in s.workers ==> BatchOk(g, s.workers[w])
  {
  }

  lemma ReadKeepsStream(s: State, w: nat, n: nat, now: int)
    requires StreamInv(s) && WorkerCan(s, w, WorkerRead(n, now))
    ensures StreamInv(DoWorkerRead(s, w, n, now))
  {
    var s' := DoWorkerRead(s, w, n, now);
    G.PartitionKept(s.group, NotDict, n, 0, now);
    BatchesCarryOver(s, s'.group);
    assert BatchOk(s'.group, s'.workers[w]);
  }

  lemma ClaimKeepsStream(s: State, w: nat, id: nat, now: int)
    requires StreamInv(s) && WorkerCan(s, w, WorkerClaim(id, now))
    ensures StreamInv(DoWorkerClaim(s, w, id, now))
  {
    var s' := DoWorkerClaim(s, w, id, now);
    G.PartitionKept(s.group, NotDict, 0, id, now);
    BatchesCarryOver(s, s'.group);
    assert BatchOk(s'.group, s'.workers[w]);
  }

  lemma FinishKeepsStream(s: State, w: nat, g: G.Group)
    requires StreamInv(s) && w in s.workers && s.workers[w].batch != []
    requires G.Partition(g) && g.log == s.group.log && g.last == s.group.last
    ensures StreamInv(Finish(s.(group := g), w))
  {
    BatchesCarryOver(s, g);
    assert BatchOk(g, Worker(s.workers[w].batch[1..], Ready));
  }

  lemma WorkerKeepsStream(s: State, w: nat, step: WorkerStep)
    requires StreamInv(s) && WorkerCan(s, w, step)
    ensures StreamInv(WorkerNext(s, w, step))
  {
    var s' := WorkerNext(s, w, step);
    if step.WorkerRead? {
      ReadKeepsStream(s, w, step.count, step.at);
    } else if step.WorkerClaim? {
      ClaimKeepsStream(s, w, step.id, step.at);
    } else if step.WorkerAck? {
      G.PartitionKept(s.group, NotDict, 0, Head(s, w).id, 0);
      FinishKeepsStream(s, w, G.Acknowledge(s.group, Head(s, w).id));
    } else if step.WorkerGiveUp? {
      FinishKeepsStream(s, w, s.group);
    } else if step.WorkerCrash? {
      assert s'.workers == Remove(s.workers, w);
    } else {
      assert MovedStage(s, s', w);
      assert BatchOk(s.group, s'.workers[w]);
    }
  }

  lemma AppendKeepsStream(s: State, d: Data)
    requires StreamInv(s)
    ensures StreamInv(s.(group := G.Add(s.group, d)))
  {
    BatchesCarryOver(s, G.Add(s.group, d));
  }

  lemma RelayKeepsStream(s: State, r: nat, step: RelayStep)
    requires StreamInv(s) && RelayCan(s, r, step)
    ensures StreamInv(RelayNext(s, r, step))
  {
    if step.RelayHandle? {
      AppendKeepsStream(s, s.relays[r].events[|s.relays[r].updates|].data);
    }
  }

  lemma AdminKeepsStream(s: State, ad: nat, step: AdminStep)
    requires StreamInv(s) && AdminCan(s, ad, step)
    ensures StreamInv(AdminNext(s, ad, step))
  {
    if step.ReplayExec? {
      AppendKeepsStream(s, s.replays[ad].data);
    }
  }

  lemma StreamInvKept(s: State, a: Action)
    requires StreamInv(s) && Enabled(s, a)
    ensures StreamInv(Apply(s, a))
  {
    match a
    case Accept(tx, row, sms, trace, now) =>
    case RelayDoes(r, step) => RelayKeepsStream(s, r, step);
    case WorkerDoes(w, step) => WorkerKeepsStream(s, w, step);
    case AdminDoes(ad, step) => AdminKeepsStream(s, ad, step);
    case OrderDoes(q, step) =>
    case Restart =>
  }

  // ---------- payloads ----------

  /** The payload of a committed SMS. */
  ghost predicate IsPayment(sms: map<nat, Sms>, d: Data) {
    && d.Dict? && P.Integral(d.transactionId) && TxOf(d) > 0 && TxOf(d) in sms
    && d.amount == Some(Integer(sms[TxOf(d)].amount)) && d.kind == Some(Text("payment"))
  }

  ghost predicate RelayPayloads(rows: O.Table, r: Relay) {
    forall k :: 0 <= k < |r.events| ==> r.events[k].id in rows && r.events[k].data == rows[r.events[k].id].data
  }

  ghost predicate PayloadInv(s: State) {
    && (forall id :: id in s.rows ==> IsPayment(s.sms, s.rows[id].data))
    && (forall r :: r in s.relays ==> RelayPayloads(s.rows, s.relays[r]))
    && (forall e :: 0 <= e < |s.group.log| ==> IsPayment(s.sms, s.group.log[e]))
    && (forall x :: x in s.dead ==> IsPayment(s.sms, s.dead[x]))
    && (forall a :: a in s.replays ==> IsPayment(s.sms, s.replays[a].data))
  }

  // No step ever changes the payload of a row.
  ghost predicate SamePayloads(rows: O.Table, rows': O.Table) {
    rows'.Keys == rows.Keys && forall id :: id in rows ==> rows'[id].data == rows[id].data
  }

  lemma ClaimKeepsPayloads(s: State, r: nat, ids: seq<nat>, now: int)
    requires PayloadInv(s) && CanClaim(s, r, ids, now)
    ensures PayloadInv(DoRelayClaim(s, r, ids, now)) && SamePayloads(s.rows, DoRelayClaim(s, r, ids, now).rows)
  {
    var s' := DoRelayClaim(s, r, ids, now);
    assert SamePayloads(s.rows, s'.rows);
    assert RelayPayloads(s'.rows, s'.relays[r]);
    forall x | x in s.relays
      ensures RelayPayloads(s'.rows, s.relays[x])
    {
      assert RelayPayloads(s.rows, s.relays[x]);
    }
  }

  lemma HandleKeepsPayloads(s: State, r: nat, up: bool, applied: bool)
    requires PayloadInv(s) && CanHandle(s, r)
    ensures PayloadInv(DoRelayHandle(s, r, up, applied)) && DoRelayHandle(s, r, up, applied).rows == s.rows
  {
    var e := s.relays[r].events[|s.relays[r].updates|];
    assert RelayPayloads(s.rows, s.relays[r]);
    assert IsPayment(s.sms, e.data);
    var s' := DoRelayHandle(s, r, up, applied);
    var r' := s'.relays[r];
    assert r'.events == s.relays[r].events && s'.relays == s.relays[r := r'];
    assert RelayPayloads(s.rows, r');
    if Validate(e.data).None? {
      assert s'.dead == s.dead;
      assert s'.group.log == s.group.log || s'.group.log == s.group.log + [e.data];
    } else {
      assert s'.group == s.group;
    }
  }

  lemma WriteKeepsPayloads(s: State, r: nat)
    requires PayloadInv(s) && RelayCan(s, r, RelayWrite)
    ensures PayloadInv(RelayNext(s, r, RelayWrite)) && SamePayloads(s.rows, RelayNext(s, r, RelayWrite).rows)
  {
    var s' := RelayNext(s, r, RelayWrite);
    assert SamePayloads(s.rows, s'.rows);
    forall x | x in s'.relays
      ensures RelayPayloads(s'.rows, s'.relays[x])
    {
      assert RelayPayloads(s.rows, s.relays[x]);
    }
  }

  lemma RelayKeepsPayloads(s: State, r: nat, step: RelayStep)
    requires PayloadInv(s) && RelayCan(s, r, step)
    ensures PayloadInv(RelayNext(s, r, step)) && SamePayloads(s.rows, RelayNext(s, r, step).rows)
  {
    match step
    case RelayClaim(ids, now) => ClaimKeepsPayloads(s, r, ids, now);
    case RelayHandle(up, applied) => HandleKeepsPayloads(s, r, up, applied);
    case RelayWrite => WriteKeepsPayloads(s, r);
    case RelayCrash =>
  }

  lemma AcceptKeepsPayloads(s: State, tx: nat, row: nat, sms: Sms, trace: string, now: int)
    requires PayloadInv(s) && CanAccept(s, tx, row, sms)
    ensures PayloadInv(DoAccept(s, tx, row, sms, trace, now))
  {
    var s' := DoAccept(s, tx, row, sms, trace, now);
    assert IsPayment(s'.sms, s'.rows[row].data);
    forall d | IsPayment(s.sms, d)
      ensures IsPayment(s'.sms, d)
    {
    }
    forall r | r in s.relays
      ensures RelayPayloads(s'.rows, s.relays[r])
    {
      assert RelayPayloads(s.rows, s.relays[r]);
    }
  }

  lemma AdminKeepsPayloads(s: State, ad: nat, step: AdminStep)
    requires PayloadInv(s) && AdminCan(s, ad, step)
    ensures PayloadInv(AdminNext(s, ad, step))
  {
  }

  lemma HeadIsPayment(s: State, w: nat)
    requires StreamInv(s) && PayloadInv(s) && w in s.workers && s.workers[w].batch != []
    ensures IsPayment(s.sms, Head(s, w).data)
  {
    assert BatchOk(s.group, s.workers[w]);
  }

  lemma PayloadInvKept(s: State, a: Action)
    requires StreamInv(s) && PayloadInv(s) && Enabled(s, a)
    ensures PayloadInv(Apply(s, a))
  {
    match a
    case Accept(tx, row, sms, trace, now) => AcceptKeepsPayloads(s, tx, row, sms, trace, now);
    case RelayDoes(r, step) => RelayKeepsPayloads(s, r, step);
    case WorkerDoes(w, step) => WorkerKeepsPayloads(s, w, step);
    case AdminDoes(ad, step) => AdminKeepsPayloads(s, ad, step);
    case OrderDoes(q, step) =>
    case Restart =>
  }

  lemma WorkerKeepsPayloads(s: State, w: nat, step: WorkerStep)
    requires StreamInv(s) && PayloadInv(s) && WorkerCan(s, w, step)
    ensures PayloadInv(WorkerNext(s, w, step))
  {
    var s' := WorkerNext(s, w, step);
    assert s'.group.log == s.group.log;
    if step.WorkerBury? {
      HeadIsPayment(s, w);
    } else {
      assert s'.dead == s.dead;
    }
  }
}
