/** One message nobody interferes with, from the moment a worker turns to it until it puts it down:
    the sub-steps of the state machine are one step of the worker's loop around one call of the
    payment handler, whatever error strikes the handler, the dead-letter write or the acknowledgement. */
module PipelineMessage {
  import opened Prelude
  import opened Payload
  import opened Pipeline
  import opened PipelineStream
  import opened PipelineSafety
  import opened PipelineDelivery
  import G = Streams
  import P = Payments
  import W = WorkerLoop

  // The worker as the application starts it: one handler, no default.
  const PAYMENT_WORKER := W.Config(MAX_DELIVERIES, {"payment"}, false)

  function OutcomeOf(v: P.Verdict): W.Outcome {
    match v
    case Success => W.Returned(Some(true))
    case Ignore => W.IgnoreAndAck
    case Reject => W.CriticalReject
  }

  function EnvOf(v: P.Verdict, dlq: Reply, ack: Reply): W.Env {
    W.Env((id, attempts) => OutcomeOf(v), id => dlq, id => ack, G.NoFault, Answered)
  }

  /** What the worker's loop makes of the message in hand. */
  function LoopStep(s: State, w: nat, fault: P.Fault, dlq: Reply, ack: Reply): W.Step
    requires At(s, w, Ready) && Head(s, w).data.Dict?
  {
    var m := Head(s, w);
    var verdict := P.Handle(Tables(s), m.data, fault).1;
    W.One(PAYMENT_WORKER, EnvOf(verdict, dlq, ack), W.Desk(s.group, [], []), m)
  }

  /** The message has been put down as the loop and the handler say. An exception that leaves the
      batch takes the rest of it out of the worker's hands. */
  ghost predicate MessageDone(s: State, w: nat, fault: P.Fault, dlq: Reply, ack: Reply, end: State)
    requires At(s, w, Ready) && Head(s, w).data.Dict?
  {
    var m, step := Head(s, w), LoopStep(s, w, fault, dlq, ack);
    && end.group == step.desk.g
    && end.dead == (if step.desk.dead == [] then s.dead else s.dead[s.nextDead := m.data])
    && end.workers == (if step.aborted then Remove(s.workers, w)
                       else s.workers[w := Worker(s.workers[w].batch[1..], Ready)])
    && Tables(end) == if Truthy(m.data.amount) then P.Handle(Tables(s), m.data, fault).0 else Tables(s)
  }

  /** From the moment a worker turns to a message until it puts it down, without interruption: the
      stream, the dead letters, the tables, the sets and what is left in the worker's hands are what
      one step of the loop around one call of the handler makes of them. */
  lemma UninterruptedMessage(s: State, w: nat, fault: P.Fault, dlq: Reply, ack: Reply)
    returns (trace: seq<State>, actions: seq<Action>)
    requires Inv(s) && At(s, w, Ready) && Quiet(s, w)
    ensures IsRun(trace, actions) && trace[0] == s && Head(s, w).data.Dict?
    ensures forall i :: 0 <= i < |actions| ==> actions[i].WorkerDoes? && actions[i].worker == w
    ensures MessageDone(s, w, fault, dlq, ack, trace[|actions|])
  {
    HeadIsPayment(s, w);
    P.MatchingSize(s.db, AmountOf(Head(s, w).data));
    var end := Message(s, w, fault, dlq, ack);
    trace, actions :| RunBetween(s, w, trace, actions, end);
  }

  lemma Message(s: State, w: nat, fault: P.Fault, dlq: Reply, ack: Reply) returns (end: State)
    requires At(s, w, Ready) && Quiet(s, w) && IsPayment(s.sms, Head(s, w).data)
    requires |P.Matching(s.db, AmountOf(Head(s, w).data))| <= 1
    ensures Reaches(s, w, end) && MessageDone(s, w, fault, dlq, ack, end)
  {
    if !Truthy(Head(s, w).data.amount) {
      end := WithoutAmount(s, w, dlq, ack);
    } else {
      var t := Delivery(s, w, fault);
      end := Ends(t, w, dlq, ack);
      Through(s, w, t, end);
      ClosesDelivery(s, w, fault, dlq, ack, t, end);
    }
  }

  lemma Through(s: State, w: nat, t: State, u: State)
    requires Reaches(s, w, t) && Reaches(t, w, u)
    ensures Reaches(s, w, u)
  {
    var trace, actions :| RunBetween(s, w, trace, actions, t);
    var more, rest :| RunBetween(t, w, more, rest, u);
    Joined(trace, actions, more, rest);
    assert RunBetween(s, w, trace + more[1..], actions + rest, u);
  }

  // How a message is put down: acknowledged or not, copied or not, the batch dropped or not.
  ghost predicate Closed(t: State, w: nat, end: State, acked: bool, copied: bool, dropped: bool)
    requires w in t.workers && t.workers[w].batch != []
  {
    && end.group == (if acked then G.Acknowledge(t.group, Head(t, w).id) else t.group)
    && end.dead == (if copied then t.dead[t.nextDead := Head(t, w).data] else t.dead)
    && end.workers == (if dropped then Remove(t.workers, w)
                       else t.workers[w := Worker(t.workers[w].batch[1..], Ready)])
    && Tables(end) == Tables(t)
  }

  lemma AckMoves(s: State, w: nat, t: State)
    requires Reaches(s, w, t) && CanAck(t, w)
    ensures Reaches(s, w, DoWorkerAck(t, w)) && Closed(t, w, DoWorkerAck(t, w), true, false, false)
  {
    MovesOn(s, w, t, WorkerAck, DoWorkerAck(t, w));
  }

  // An exception after the acknowledgement drops the rest of the batch.
  lemma CrashMoves(s: State, w: nat, t: State, u: State, acked: bool, copied: bool)
    requires w in t.workers && t.workers[w].batch != []
    requires Reaches(s, w, u) && Closed(t, w, u, acked, copied, false)
    ensures Reaches(s, w, DoWorkerCrash(u, w)) && Closed(t, w, DoWorkerCrash(u, w), acked, copied, true)
  {
    assert Remove(u.workers, w) == Remove(t.workers, w);
    MovesOn(s, w, u, WorkerCrash, DoWorkerCrash(u, w));
  }

  lemma Acknowledges(s: State, w: nat, t: State, ack: Reply, dropping: bool) returns (end: State)
    requires Reaches(s, w, t) && CanAck(t, w) && TakesEffect(ack)
    ensures Reaches(s, w, end) && Closed(t, w, end, true, false, dropping && ack.Raised?)
  {
    AckMoves(s, w, t);
    end := DoWorkerAck(t, w);
    if dropping && ack.Raised? {
      CrashMoves(s, w, t, end, true, false);
      end := DoWorkerCrash(end, w);
    }
  }

  lemma BuryMoves(t: State, w: nat)
    requires CanBury(t, w)
    ensures Reaches(t, w, DoWorkerBury(t, w)) && At(DoWorkerBury(t, w), w, Buried)
  {
    Starts(t, w);
    MovesOn(t, w, t, WorkerBury, DoWorkerBury(t, w));
  }

  // What follows the copy, seen from before it.
  lemma CopyFirst(t: State, w: nat, end: State, acked: bool, dropped: bool)
    requires CanBury(t, w) && Closed(DoWorkerBury(t, w), w, end, acked, false, dropped)
    ensures Closed(t, w, end, acked, true, dropped)
  {
    var copied := DoWorkerBury(t, w);
    assert Remove(copied.workers, w) == Remove(t.workers, w);
    assert copied.workers[w := Worker(t.workers[w].batch[1..], Ready)]
        == t.workers[w := Worker(t.workers[w].batch[1..], Ready)];
  }

  /** The dead-letter write, and the acknowledgement unless the write raised. An error is swallowed
      when the handler has failed before (`kept`), and leaves the batch otherwise. */
  lemma Buries(t: State, w: nat, dlq: Reply, ack: Reply, kept: bool) returns (end: State)
    requires CanBury(t, w) && (kept <==> t.workers[w].stage.Failing?)
    ensures Reaches(t, w, end)
    ensures Closed(t, w, end, dlq.Answered? && TakesEffect(ack), TakesEffect(dlq),
                   !kept && (dlq.Raised? || ack.Raised?))
  {
    if !TakesEffect(dlq) {
      Starts(t, w);
      end := PutDown(t, w, t, kept);
    } else {
      var copied := DoWorkerBury(t, w);
      BuryMoves(t, w);
      if dlq.Answered? && TakesEffect(ack) {
        end := Acknowledges(t, w, copied, ack, !kept);
        CopyFirst(t, w, end, true, !kept && ack.Raised?);
      } else {
        end := PutDown(t, w, copied, kept);
        CopyFirst(t, w, end, false, !kept);
      }
    }
  }

  // Without an acknowledgement: the worker goes on to the next message, or drops its batch.
  lemma PutDown(s: State, w: nat, t: State, kept: bool) returns (end: State)
    requires Reaches(s, w, t) && w in t.workers && t.workers[w].batch != []
    requires (kept ==> At(t, w, Failing) || At(t, w, Buried)) && !t.workers[w].stage.Committed?
    ensures Reaches(s, w, end) && Closed(t, w, end, false, false, !kept)
  {
    if kept {
      end := Finish(t, w);
      MovesOn(s, w, t, WorkerGiveUp, end);
    } else {
      end := DoWorkerCrash(t, w);
      MovesOn(s, w, t, WorkerCrash, end);
    }
  }

  lemma WithoutAmount(s: State, w: nat, dlq: Reply, ack: Reply) returns (end: State)
    requires At(s, w, Ready) && Head(s, w).data.Dict? && !Truthy(Head(s, w).data.amount)
    ensures Reaches(s, w, end) && forall fault :: MessageDone(s, w, fault, dlq, ack, end)
  {
    end := Buries(s, w, dlq, ack, false);
  }

  // How the loop ends the delivery, by the stage it left the worker in.
  lemma Ends(t: State, w: nat, dlq: Reply, ack: Reply) returns (end: State)
    requires At(t, w, Acking) || At(t, w, Ignoring) || At(t, w, Failing)
    ensures Reaches(t, w, end)
    ensures if !t.workers[w].stage.Failing? then Closed(t, w, end, TakesEffect(ack), false, ack.Raised?)
            else if Head(t, w).attempts < MAX_DELIVERIES then Closed(t, w, end, false, false, false)
            else Closed(t, w, end, dlq.Answered? && TakesEffect(ack), TakesEffect(dlq), false)
  {
    Starts(t, w);
    if !t.workers[w].stage.Failing? && TakesEffect(ack) {
      end := Acknowledges(t, w, t, ack, true);
    } else if !t.workers[w].stage.Failing? {
      end := PutDown(t, w, t, false);
    } else if Head(t, w).attempts < MAX_DELIVERIES {
      end := PutDown(t, w, t, true);
    } else {
      end := Buries(t, w, dlq, ack, true);
    }
  }

  // One step of the loop around a handler that ended with this verdict.
  lemma LoopCases(g: G.Group, m: G.Message, v: P.Verdict, dlq: Reply, ack: Reply)
    requires m.data.Dict? && m.data.kind == Some(Text("payment")) && Truthy(m.data.amount)
    ensures var step := W.One(PAYMENT_WORKER, EnvOf(v, dlq, ack), W.Desk(g, [], []), m);
            var buried := v.Reject? && m.attempts >= MAX_DELIVERIES;
            var acked := TakesEffect(ack) && (!v.Reject? || (buried && dlq.Answered?));
            && step.desk.g == (if acked then G.Acknowledge(g, m.id) else g)
            && (step.desk.dead == [] <==> !(buried && TakesEffect(dlq)))
            && step.aborted == (!v.Reject? && ack.Raised?)
  {
  }

  lemma ClosesDelivery(s: State, w: nat, fault: P.Fault, dlq: Reply, ack: Reply, t: State, end: State)
    requires At(s, w, Ready) && IsPayment(s.sms, Head(s, w).data) && Truthy(Head(s, w).data.amount)
    requires Delivered(s, w, t, fault)
    requires if !t.workers[w].stage.Failing? then Closed(t, w, end, TakesEffect(ack), false, ack.Raised?)
             else if Head(t, w).attempts < MAX_DELIVERIES then Closed(t, w, end, false, false, false)
             else Closed(t, w, end, dlq.Answered? && TakesEffect(ack), TakesEffect(dlq), false)
    ensures MessageDone(s, w, fault, dlq, ack, end)
  {
    var batch := s.workers[w].batch;
    LoopCases(s.group, Head(s, w), P.Handle(Tables(s), Head(s, w).data, fault).1, dlq, ack);
    assert Remove(t.workers, w) == Remove(s.workers, w);
    assert t.workers[w := Worker(batch[1..], Ready)] == s.workers[w := Worker(batch[1..], Ready)];
  }

  // ---------- claiming ----------

  // The group is g, these messages have been added to the batch, and nothing else has happened.
  ghost predicate ClaimedBy(s: State, w: nat, t: State, g: G.Group, messages: seq<G.Message>) {
    && t == s.(group := g, workers := t.workers) && Remove(t.workers, w) == Remove(s.workers, w)
    && WorkerAt(t, w) == Worker(WorkerAt(s, w).batch + messages, Ready)
  }

  lemma ClaimsOneMore(s: State, w: nat, t: State, g: G.Group, messages: seq<G.Message>, id: nat, now: int)
    requires ClaimedBy(s, w, t, g, messages) && id in g.pel && id < |g.log|
    ensures WorkerCan(t, w, WorkerClaim(id, now))
    ensures ClaimedBy(s, w, DoWorkerClaim(t, w, id, now), G.Claim(g, id, now),
                      messages + [G.Message(id, g.log[id], g.pel[id].count)])
  {
    var m := G.Message(id, g.log[id], g.pel[id].count);
    assert WorkerAt(s, w).batch + messages + [m] == WorkerAt(s, w).batch + (messages + [m]);
    assert Remove(DoWorkerClaim(t, w, id, now).workers, w) == Remove(t.workers, w);
  }

  lemma {:induction false} Claims(s: State, w: nat, ids: seq<nat>, now: int)
    returns (t: State, messages: seq<G.Message>)
    requires WorkerAt(s, w).stage.Ready? && Distinct(ids)
    requires forall i :: 0 <= i < |ids| ==> ids[i] in s.group.pel && ids[i] < |s.group.log|
    ensures Reaches(s, w, t) && ClaimedBy(s, w, t, t.group, messages)
    ensures G.ClaimedSoFar(s.group, ids, now, messages, t.group)
  {
    if ids == [] {
      t, messages := s, [];
      Starts(s, w);
    } else {
      var before, id := ids[..|ids| - 1], ids[|ids| - 1];
      t, messages := Claims(s, w, before, now);
      assert ids == before + [id];
      G.ClaimAllMore(s.group, before, id, now, messages, t.group);
      ClaimsOneMore(s, w, t, t.group, messages, id, now);
      MovesOn(s, w, t, WorkerClaim(id, now), DoWorkerClaim(t, w, id, now));
      messages := messages + [G.Message(id, t.group.log[id], t.group.pel[id].count)];
      t := DoWorkerClaim(t, w, id, now);
    }
  }

  /** The claims at the start of a batch, one by one, are the claim of the consumer group: the same
      counts and delivery times, and the same messages, each with the count from before its claim. */
  lemma UninterruptedClaims(s: State, w: nat, now: int) returns (trace: seq<State>, actions: seq<Action>)
    requires Inv(s) && WorkerAt(s, w) == Worker([], Ready)
    ensures IsRun(trace, actions) && trace[0] == s
    ensures forall i :: 0 <= i < |actions| ==> actions[i].WorkerDoes? && actions[i].worker == w
    ensures G.OldestClaimed(s.group, trace[|actions|].group, W.MIN_IDLE_MS, W.WINDOW, now,
                            WorkerAt(trace[|actions|], w).batch)
    ensures trace[|actions|] == s.(group := trace[|actions|].group, workers := trace[|actions|].workers)
  {
    var ids := W.StaleIds(s.group, now);
    G.IdleOfDistinct(s.group, G.Pending(s.group, 0, W.WINDOW), now, W.MIN_IDLE_MS);
    var t, messages := Claims(s, w, ids, now);
    G.OldestAreClaimed(s.group, W.MIN_IDLE_MS, W.WINDOW, now);
    assert [] + messages == messages;
    trace, actions :| RunBetween(s, w, trace, actions, t);
  }
}
