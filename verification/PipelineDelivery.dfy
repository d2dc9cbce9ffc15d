/** One delivery nobody interferes with: taken together, its sub-steps are the handler of the
    sequential model; and a delivery of an SMS that is already linked, wherever it stands, ends
    in an acknowledgement and changes nothing else. */
module PipelineDelivery {
  import opened Prelude
  import opened Payload
  import opened Amounts
  import opened Pipeline
  import opened PipelineStream
  import opened PipelineRefinement
  import opened PipelineSafety
  import P = Payments

  // ---------- one uninterrupted delivery ----------

  /** Nobody else is between selecting and committing. */
  ghost predicate Quiet(s: State, w: nat) {
    forall v :: v in s.workers && v != w ==> !s.workers[v].stage.Locked? && !s.workers[v].stage.Flushed?
  }

  function Tables(s: State): P.World {
    P.World(s.db, s.pool, s.sms.Keys)
  }

  function StageAfter(v: P.Verdict): Stage {
    match v
    case Success => Acking
    case Ignore => Ignoring
    case Reject => Failing
  }

  // What the handler's verdict and effect must be in the state a delivery ends in; the stream, the
  // dead letters and what the worker holds are as they were.
  ghost predicate Delivered(s: State, w: nat, end: State, fault: P.Fault)
    requires w in s.workers && s.workers[w].batch != [] && Head(s, w).data.Dict?
  {
    var handled := P.Handle(Tables(s), Head(s, w).data, fault);
    && Tables(end) == handled.0
    && end.workers == s.workers[w := s.workers[w].(stage := StageAfter(handled.1))]
    && end.group == s.group && end.dead == s.dead && end.nextDead == s.nextDead
  }

  /** The sub-steps of a delivery, taken without interruption from the moment the worker turns
      to a message, have together exactly the effect and the verdict of the sequential handler,
      whatever error strikes it. */
  lemma UninterruptedDelivery(s: State, w: nat, fault: P.Fault) returns (trace: seq<State>, actions: seq<Action>)
    requires Inv(s) && WorkerCan(s, w, WorkerCheck) && Quiet(s, w)
    ensures IsRun(trace, actions) && trace[0] == s
    ensures forall i :: 0 <= i < |actions| ==> actions[i].WorkerDoes? && actions[i].worker == w
    ensures Delivered(s, w, trace[|actions|], fault)
  {
    HeadIsPayment(s, w);
    P.MatchingSize(s.db, AmountOf(Head(s, w).data));
    var end := Delivery(s, w, fault);
    trace, actions :| RunBetween(s, w, trace, actions, end);
  }

  // A run of w's own steps from s to t.
  ghost predicate RunBetween(s: State, w: nat, trace: seq<State>, actions: seq<Action>, t: State) {
    && IsRun(trace, actions) && trace[0] == s && trace[|actions|] == t
    && forall i :: 0 <= i < |actions| ==> actions[i].WorkerDoes? && actions[i].worker == w
  }

  ghost predicate Reaches(s: State, w: nat, t: State) {
    exists trace, actions :: RunBetween(s, w, trace, actions, t)
  }

  lemma Starts(s: State, w: nat)
    ensures Reaches(s, w, s)
  {
    assert RunBetween(s, w, [s], [], s);
  }

  lemma MovesOn(s: State, w: nat, t: State, step: WorkerStep, u: State)
    requires Reaches(s, w, t) && Moves(t, w, step, u)
    ensures Reaches(s, w, u)
  {
    var trace, actions :| RunBetween(s, w, trace, actions, t);
    Joined(trace, actions, [t, u], [WorkerDoes(w, step)]) by {
      assert IsStep([t, u], [WorkerDoes(w, step)], 0);
    }
    assert RunBetween(s, w, trace + [t, u][1..], actions + [WorkerDoes(w, step)], u);
  }

  lemma Delivery(s: State, w: nat, fault: P.Fault) returns (end: State)
    requires WorkerCan(s, w, WorkerCheck) && Quiet(s, w) && IsPayment(s.sms, Head(s, w).data)
    requires |P.Matching(s.db, AmountOf(Head(s, w).data))| <= 1
    ensures Reaches(s, w, end) && Delivered(s, w, end, fault)
  {
    var d := Head(s, w).data;
    var found := P.Matching(s.db, AmountOf(d));
    if fault.DbError? || P.Linked(s.db, TxOf(d)) {
      end := EndsEarly(s, w, fault);
    } else if found == {} {
      end := FindsNothing(s, w, fault);
    } else {
      end := Payment(s, w, P.TheOnly(found), fault);
    }
  }

  lemma EndsEarly(s: State, w: nat, fault: P.Fault) returns (end: State)
    requires WorkerCan(s, w, WorkerCheck) && IsPayment(s.sms, Head(s, w).data)
    requires fault.DbError? || P.Linked(s.db, TxOf(Head(s, w).data))
    ensures Reaches(s, w, end) && Delivered(s, w, end, fault)
  {
    HandleCases(Tables(s), Head(s, w).data, fault);
    Starts(s, w);
    if fault.DbError? || fault.CommitFailed? {
      end := SetStage(s, w, Failing);
      MovesOn(s, w, s, WorkerRaise, end);
    } else {
      end := SetStage(s, w, Acking);
      MovesOn(s, w, s, WorkerCheck, end);
    }
  }

  lemma FindsNothing(s: State, w: nat, fault: P.Fault) returns (end: State)
    requires WorkerCan(s, w, WorkerCheck) && Quiet(s, w) && IsPayment(s.sms, Head(s, w).data) && !fault.DbError?
    requires P.Matching(s.db, AmountOf(Head(s, w).data)) == {} && !P.Linked(s.db, TxOf(Head(s, w).data))
    ensures Reaches(s, w, end) && Delivered(s, w, end, fault)
  {
    HandleCases(Tables(s), Head(s, w).data, fault);
    end := SetStage(s, w, Ignoring);
    Starts(s, w);
    MovesOn(s, w, s, WorkerCheck, SetStage(s, w, Checked));
    SelectsNothing(s, w);
    MovesOn(s, w, SetStage(s, w, Checked), WorkerSelect, end);
  }

  // A delivery that finds its intent.
  lemma Payment(s: State, w: nat, i: nat, fault: P.Fault) returns (end: State)
    requires WorkerCan(s, w, WorkerCheck) && Quiet(s, w) && IsPayment(s.sms, Head(s, w).data) && !fault.DbError?
    requires P.Matching(s.db, AmountOf(Head(s, w).data)) == {i} && !P.Linked(s.db, TxOf(Head(s, w).data))
    ensures Reaches(s, w, end) && Delivered(s, w, end, fault)
  {
    Flushes(s, w, i);
    if fault == P.CommitFailed(false) {
      end := SetStage(s, w, Failing);
      FlushRaises(s, w, i);
      MovesOn(s, w, SetStage(s, w, Flushed(i)), WorkerRaise, end);
      HandleCases(Tables(s), Head(s, w).data, fault);
    } else {
      end := AfterPayment(Settled(s, w, i), w, fault);
      Commits(s, w, i);
      MovesOn(s, w, SetStage(s, w, Flushed(i)), WorkerCommit, SetStage(Settled(s, w, i), w, Committed(i)));
      ReleaseMoves(Settled(s, w, i), w, i, fault);
      MovesOn(s, w, SetStage(Settled(s, w, i), w, Committed(i)), Releasing(fault), end);
      EndsPaid(s, w, i, fault);
    }
  }

  lemma EndsPaid(s: State, w: nat, i: nat, fault: P.Fault)
    requires w in s.workers && s.workers[w].batch != [] && IsPayment(s.sms, Head(s, w).data)
    requires P.Matching(s.db, AmountOf(Head(s, w).data)) == {i} && !P.Linked(s.db, TxOf(Head(s, w).data))
    requires i in s.db.intents && !fault.DbError? && fault != P.CommitFailed(false)
    ensures Delivered(s, w, AfterPayment(Settled(s, w, i), w, fault), fault)
  {
    HandleCases(Tables(s), Head(s, w).data, fault);
    assert P.TheOnly({i}) == i;
  }

  // The value of the handler on a payment, case by case.
  lemma HandleCases(t: P.World, d: Data, fault: P.Fault)
    requires d.Dict? && P.Integral(d.transactionId) && P.Integral(d.amount) && TxOf(d) > 0 && TxOf(d) in t.sms
    ensures var handled := P.Handle(t, d, fault);
            var found := P.Matching(t.db, AmountOf(d));
            if fault.DbError? then handled == (t, P.Reject)
            else if P.Linked(t.db, TxOf(d)) then handled == (t, if fault.CommitFailed? then P.Reject else P.Success)
            else if found == {} then handled == (t, P.Ignore)
            else |found| == 1 ==>
              && handled.1 == (if fault.NoFault? then P.Success else P.Reject)
              && handled.0.sms == t.sms
              && handled.0.db == (if fault == P.CommitFailed(false) then t.db
                                  else P.Pay(t.db, P.TheOnly(found), Some(TxOf(d))))
              && handled.0.pool == if fault.NoFault? || fault == P.ReleaseFailed(true)
                                   then Release(t.pool, AmountOf(d)) else t.pool
  {
  }

  ghost predicate Moves(s: State, w: nat, step: WorkerStep, s': State) {
    WorkerCan(s, w, step) && s' == WorkerNext(s, w, step)
  }

  // A run of one worker's steps through the given states.
  lemma RunOf(w: nat, trace: seq<State>, steps: seq<WorkerStep>) returns (actions: seq<Action>)
    requires |trace| == |steps| + 1
    requires forall k :: 0 <= k < |steps| ==> Moves(trace[k], w, steps[k], trace[k + 1])
    ensures IsRun(trace, actions) && |actions| == |steps|
    ensures forall k :: 0 <= k < |actions| ==> actions[k] == WorkerDoes(w, steps[k])
  {
    actions := seq(|steps|, k requires 0 <= k < |steps| => WorkerDoes(w, steps[k]));
    forall k | 0 <= k < |actions|
      ensures IsStep(trace, actions, k)
    {
      assert Moves(trace[k], w, steps[k], trace[k + 1]);
    }
  }

  // Restaging a worker twice is restaging it once.
  lemma Restaged(s: State, w: nat, a: Stage, b: Stage)
    requires w in s.workers
    ensures SetStage(SetStage(s, w, a), w, b) == SetStage(s, w, b)
  {
    assert s.workers[w := s.workers[w].(stage := a)][w := s.workers[w].(stage := b)]
        == s.workers[w := s.workers[w].(stage := b)];
  }

  lemma Selectable(s: State, w: nat)
    requires w in s.workers && s.workers[w].batch != [] && Quiet(s, w)
    ensures CanSelect(SetStage(s, w, Checked), w)
  {
  }

  lemma SelectsNothing(s: State, w: nat)
    requires w in s.workers && s.workers[w].batch != [] && Quiet(s, w)
    requires Head(s, w).data.Dict? && P.Integral(Head(s, w).data.amount)
    requires P.Matching(s.db, AmountOf(Head(s, w).data)) == {}
    ensures Moves(SetStage(s, w, Checked), w, WorkerSelect, SetStage(s, w, Ignoring))
  {
    Selectable(s, w);
    Restaged(s, w, Checked, Ignoring);
  }

  lemma SelectsOne(s: State, w: nat, i: nat)
    requires w in s.workers && s.workers[w].batch != [] && Quiet(s, w)
    requires Head(s, w).data.Dict? && P.Integral(Head(s, w).data.amount)
    requires P.Matching(s.db, AmountOf(Head(s, w).data)) == {i}
    ensures Moves(SetStage(s, w, Checked), w, WorkerSelect, SetStage(s, w, Locked(i)))
  {
    Selectable(s, w);
    assert P.TheOnly({i}) == i;
    Restaged(s, w, Checked, Locked(i));
  }

  lemma Flushes(s: State, w: nat, i: nat)
    requires WorkerCan(s, w, WorkerCheck) && Quiet(s, w) && IsPayment(s.sms, Head(s, w).data)
    requires P.Matching(s.db, AmountOf(Head(s, w).data)) == {i} && !P.Linked(s.db, TxOf(Head(s, w).data))
    ensures i in s.db.intents && Reaches(s, w, SetStage(s, w, Flushed(i)))
  {
    assert i in P.Matching(s.db, AmountOf(Head(s, w).data));
    Starts(s, w);
    MovesOn(s, w, s, WorkerCheck, SetStage(s, w, Checked));
    SelectsOne(s, w, i);
    MovesOn(s, w, SetStage(s, w, Checked), WorkerSelect, SetStage(s, w, Locked(i)));
    Restaged(s, w, Locked(i), Flushed(i));
    MovesOn(s, w, SetStage(s, w, Locked(i)), WorkerFlush, SetStage(s, w, Flushed(i)));
  }

  // The state after the commit.
  function Settled(s: State, w: nat, i: nat): State
    requires w in s.workers && s.workers[w].batch != [] && i in s.db.intents
  {
    s.(db := P.Pay(s.db, i, Some(TxOf(Head(s, w).data))))
  }

  /** How the release goes: a commit that raised though it took effect is never followed by one. */
  function Releasing(fault: P.Fault): WorkerStep {
    if fault.NoFault? then WorkerRelease else WorkerReleaseRaises(fault == P.ReleaseFailed(true))
  }

  function AfterPayment(t: State, w: nat, fault: P.Fault): (end: State)
    requires w in t.workers && t.workers[w].batch != []
    ensures end == t.(pool := end.pool, lost := end.lost, workers := end.workers)
    ensures end.workers == t.workers[w := t.workers[w].(stage := if fault.NoFault? then Acking else Failing)]
    ensures end.pool == if fault.NoFault? || fault == P.ReleaseFailed(true)
                        then Release(t.pool, AmountOf(Head(t, w).data)) else t.pool
  {
    var v := AmountOf(Head(t, w).data);
    if fault.NoFault? then SetStage(Released(t, v), w, Acking)
    else SetStage(if fault == P.ReleaseFailed(true) then Released(t, v) else t.(lost := t.lost + {v}), w, Failing)
  }

  lemma Commits(s: State, w: nat, i: nat)
    requires w in s.workers && s.workers[w].batch != [] && i in s.db.intents
    ensures Moves(SetStage(s, w, Flushed(i)), w, WorkerCommit, SetStage(Settled(s, w, i), w, Committed(i)))
  {
    Restaged(Settled(s, w, i), w, Flushed(i), Committed(i));
  }

  lemma ReleaseMoves(s: State, w: nat, i: nat, fault: P.Fault)
    requires w in s.workers && s.workers[w].batch != []
    ensures Moves(SetStage(s, w, Committed(i)), w, Releasing(fault), AfterPayment(s, w, fault))
  {
    var v := AmountOf(Head(s, w).data);
    Restaged(Released(s, v), w, Committed(i), Acking);
    Restaged(Released(s, v), w, Committed(i), Failing);
    Restaged(s.(lost := s.lost + {v}), w, Committed(i), Failing);
  }

  lemma FlushRaises(s: State, w: nat, i: nat)
    requires w in s.workers && s.workers[w].batch != []
    ensures Moves(SetStage(s, w, Flushed(i)), w, WorkerRaise, SetStage(s, w, Failing))
  {
    Restaged(s, w, Flushed(i), Failing);
  }

  // ---------- a repeated delivery ----------

  /** The worker is on its way with the message in hand: about to check it, past the check, with
      a row locked, or about to acknowledge. */
  predicate UnderWay(s: State, w: nat) {
    WorkerCan(s, w, WorkerCheck) || At(s, w, Checked) || IsLocked(s, w) || At(s, w, Acking) || At(s, w, Ignoring)
  }

  // The state differs from s in the stage of w alone, and w has not committed.
  ghost predicate OnlyRestaged(s: State, w: nat, t: State)
    requires w in s.workers
  {
    w in t.workers && t == SetStage(s, w, t.workers[w].stage) && !t.workers[w].stage.Committed?
  }

  /** A delivery of an already linked SMS, wherever it stands, is acknowledged by the worker's own
      steps if no error strikes and nobody holds a lock; all of them are steps the removal
      theorem drops, and the tables, the three sets and the ledger stay as they are. */
  lemma RepeatIsAcknowledged(s: State, w: nat) returns (trace: seq<State>, actions: seq<Action>)
    requires Inv(s) && HoldsRepeat(s, w) && UnderWay(s, w) && Quiet(s, w)
    ensures IsRun(trace, actions) && trace[0] == s && actions != []
    ensures forall k :: 0 <= k < |actions| ==> Redundant(trace[k], actions[k]) && actions[k].worker == w
    ensures Head(s, w).id in trace[|actions|].group.acked
    ensures Seen(trace[|actions|]) == Seen(s)
  {
    HeadIsPayment(s, w);
    P.MatchingSize(s.db, AmountOf(Head(s, w).data));
    var states, steps := ToAcknowledgement(s, w);
    trace, actions := ThenAck(s, w, states, steps);
    AcknowledgementEnds(s, w, states[|steps|]);
  }

  // The states and steps lead the worker from s, by handling steps alone, to an acknowledgement.
  ghost predicate Leads(s: State, w: nat, states: seq<State>, steps: seq<WorkerStep>)
    requires w in s.workers
  {
    && |states| == |steps| + 1 && states[0] == s
    && (forall k :: 0 <= k < |steps| ==> Moves(states[k], w, steps[k], states[k + 1]) && Handling(steps[k]))
    && (forall k :: 0 <= k < |states| ==> OnlyRestaged(s, w, states[k]))
    && CanAck(states[|steps|], w)
  }

  lemma ThenAck(s: State, w: nat, states: seq<State>, steps: seq<WorkerStep>)
    returns (trace: seq<State>, actions: seq<Action>)
    requires HoldsRepeat(s, w) && Leads(s, w, states, steps)
    ensures IsRun(trace, actions) && trace[0] == s && |actions| == |steps| + 1
    ensures trace[|actions|] == DoWorkerAck(states[|steps|], w)
    ensures forall k :: 0 <= k < |actions| ==> Redundant(trace[k], actions[k]) && actions[k].worker == w
  {
    var all := steps + [WorkerAck];
    trace := states + [DoWorkerAck(states[|steps|], w)];
    forall k | 0 <= k < |all|
      ensures Moves(trace[k], w, all[k], trace[k + 1])
    {
      assert k < |steps| ==> Moves(states[k], w, steps[k], states[k + 1]);
    }
    actions := RunOf(w, trace, all);
    forall k | 0 <= k < |actions|
      ensures Redundant(trace[k], actions[k])
    {
      StillRepeat(s, w, states[k]);
    }
  }

  lemma StillRepeat(s: State, w: nat, t: State)
    requires HoldsRepeat(s, w) && OnlyRestaged(s, w, t)
    ensures HoldsRepeat(t, w)
  {
  }

  lemma AcknowledgementEnds(s: State, w: nat, t: State)
    requires StreamInv(s) && HoldsRepeat(s, w) && OnlyRestaged(s, w, t) && CanAck(t, w)
    ensures Head(s, w).id in DoWorkerAck(t, w).group.acked
    ensures Seen(DoWorkerAck(t, w)) == Seen(s)
  {
    assert BatchOk(s.group, s.workers[w]);
    OwingSame(s, DoWorkerAck(t, w));
  }

  lemma ToAcknowledgement(s: State, w: nat) returns (states: seq<State>, steps: seq<WorkerStep>)
    requires HoldsRepeat(s, w) && UnderWay(s, w) && Quiet(s, w)
    requires IsPayment(s.sms, Head(s, w).data) && |P.Matching(s.db, AmountOf(Head(s, w).data))| <= 1
    ensures Leads(s, w, states, steps)
  {
    Restored(s, w);
    match s.workers[w].stage
    case Ready =>
      CheckAcknowledges(s, w);
      states, steps := [s, SetStage(s, w, Acking)], [WorkerCheck];
    case Checked => states, steps := SelectLeads(s, w);
    case Locked(i) =>
      FlushAcknowledges(s, w, i);
      states, steps := [s, SetStage(s, w, Acking)], [WorkerFlush];
    case _ => states, steps := [s], [];
  }

  lemma SelectLeads(s: State, w: nat) returns (states: seq<State>, steps: seq<WorkerStep>)
    requires HoldsRepeat(s, w) && Quiet(s, w) && s == SetStage(s, w, Checked)
    requires IsPayment(s.sms, Head(s, w).data) && |P.Matching(s.db, AmountOf(Head(s, w).data))| <= 1
    ensures Leads(s, w, states, steps)
  {
    if P.Matching(s.db, AmountOf(Head(s, w).data)) == {} {
      SelectsNothing(s, w);
      states, steps := [s, SetStage(s, w, Ignoring)], [WorkerSelect];
    } else {
      var i := P.TheOnly(P.Matching(s.db, AmountOf(Head(s, w).data)));
      SelectsOne(s, w, i);
      FlushAcknowledges(s, w, i);
      states := [s, SetStage(s, w, Locked(i)), SetStage(s, w, Acking)];
      steps := [WorkerSelect, WorkerFlush];
    }
  }

  lemma Restored(s: State, w: nat)
    requires w in s.workers
    ensures SetStage(s, w, s.workers[w].stage) == s
  {
    assert s.workers[w := s.workers[w]] == s.workers;
  }

  lemma CheckAcknowledges(s: State, w: nat)
    requires HoldsRepeat(s, w) && WorkerCan(s, w, WorkerCheck) && IsPayment(s.sms, Head(s, w).data)
    ensures Moves(s, w, WorkerCheck, SetStage(s, w, Acking))
  {
  }

  lemma FlushAcknowledges(s: State, w: nat, i: nat)
    requires HoldsRepeat(s, w) && Quiet(s, w)
    ensures Moves(SetStage(s, w, Locked(i)), w, WorkerFlush, SetStage(s, w, Acking))
  {
    Restaged(s, w, Locked(i), Acking);
  }
}
