/** Nothing is given up early: what a worker's own dead-letter copy implies about deliveries, over
    whole runs with any number of workers, crashes and replays. */
module PipelineBurial {
  import opened Prelude
  import opened Payload
  import opened Pipeline
  import opened PipelineStream
  import opened PipelineSafety
  import G = Streams

  /** What is said of a message in hand: while its entry is pending, it has been delivered more
      often than the message's own number of attempts says. */
  ghost predicate HeldOk(g: G.Group, m: G.Message) {
    m.id in g.pel ==> m.attempts < g.pel[m.id].count
  }

  ghost predicate BatchCounts(g: G.Group, w: Worker) {
    forall k :: 0 <= k < |w.batch| ==> HeldOk(g, w.batch[k])
  }

  /** The entry had no amount, or is past its last delivery. */
  ghost predicate GivenUp(g: G.Group, e: nat) {
    && e < g.last <= |g.log|
    && (e in g.pel ==> (g.log[e].Dict? && !Truthy(g.log[e].amount)) || g.pel[e].count > MAX_DELIVERIES)
  }

  ghost predicate CountInv(s: State) {
    && (forall w :: w in s.workers ==> BatchCounts(s.group, s.workers[w]))
    && (forall e :: e in s.copied ==> GivenUp(s.group, e))
  }

  // What every stream command does to the counts of entries already delivered.
  ghost predicate CountsGrow(g: G.Group, g': G.Group) {
    && g.log <= g'.log && g.last <= g'.last <= |g'.log|
    && forall e :: e in g'.pel && e < g.last ==> e in g.pel && g'.pel[e].count >= g.pel[e].count
  }

  lemma GrowthKeepsCounts(s: State, g: G.Group)
    requires StreamInv(s) && CountInv(s) && CountsGrow(s.group, g)
    ensures forall w :: w in s.workers ==> BatchCounts(g, s.workers[w])
    ensures forall e :: e in s.copied ==> GivenUp(g, e)
  {
    forall w | w in s.workers
      ensures BatchCounts(g, s.workers[w])
    {
      var batch := s.workers[w].batch;
      assert BatchOk(s.group, s.workers[w]) && BatchCounts(s.group, s.workers[w]);
      forall k | 0 <= k < |batch|
        ensures HeldOk(g, batch[k])
      {
        assert HeldOk(s.group, batch[k]);
      }
    }
    forall e | e in s.copied
      ensures GivenUp(g, e)
    {
      assert GivenUp(s.group, e);
    }
  }

  lemma ReadKeepsCounts(s: State, w: nat, n: nat, now: int)
    requires StreamInv(s) && CountInv(s) && WorkerCan(s, w, WorkerRead(n, now))
    ensures CountInv(DoWorkerRead(s, w, n, now))
  {
    var s' := DoWorkerRead(s, w, n, now);
    GrowthKeepsCounts(s, s'.group);
    var batch := WorkerAt(s, w).batch;
    assert BatchCounts(s'.group, WorkerAt(s, w));
    forall k | 0 <= k < |s'.workers[w].batch|
      ensures HeldOk(s'.group, s'.workers[w].batch[k])
    {
      assert k < |batch| ==> HeldOk(s'.group, batch[k]);
    }
  }

  lemma ClaimKeepsCounts(s: State, w: nat, id: nat, now: int)
    requires StreamInv(s) && CountInv(s) && WorkerCan(s, w, WorkerClaim(id, now))
    ensures CountInv(DoWorkerClaim(s, w, id, now))
  {
    var s' := DoWorkerClaim(s, w, id, now);
    GrowthKeepsCounts(s, s'.group);
    var batch := WorkerAt(s, w).batch;
    assert BatchCounts(s'.group, WorkerAt(s, w));
    forall k | 0 <= k < |s'.workers[w].batch|
      ensures HeldOk(s'.group, s'.workers[w].batch[k])
    {
      assert k < |batch| ==> HeldOk(s'.group, batch[k]);
    }
  }

  lemma BuryKeepsCounts(s: State, w: nat)
    requires StreamInv(s) && CountInv(s) && CanBury(s, w)
    ensures CountInv(DoWorkerBury(s, w))
  {
    var s' := DoWorkerBury(s, w);
    assert BatchOk(s.group, s.workers[w]) && BatchCounts(s.group, s.workers[w]);
    assert HeldOk(s.group, Head(s, w));
    assert GivenUp(s.group, Head(s, w).id);
    assert BatchCounts(s.group, s'.workers[w]);
  }

  lemma FinishKeepsCounts(s: State, w: nat, g: G.Group)
    requires StreamInv(s) && CountInv(s) && CountsGrow(s.group, g) && w in s.workers && s.workers[w].batch != []
    ensures CountInv(Finish(s.(group := g), w))
  {
    GrowthKeepsCounts(s, g);
    var batch := s.workers[w].batch;
    assert BatchCounts(g, s.workers[w]);
    forall k | 0 <= k < |batch[1..]|
      ensures HeldOk(g, batch[1..][k])
    {
      assert batch[1..][k] == batch[k + 1];
    }
  }

  lemma WorkerKeepsCounts(s: State, w: nat, step: WorkerStep)
    requires StreamInv(s) && CountInv(s) && WorkerCan(s, w, step)
    ensures CountInv(WorkerNext(s, w, step))
  {
    var s' := WorkerNext(s, w, step);
    if step.WorkerRead? {
      ReadKeepsCounts(s, w, step.count, step.at);
    } else if step.WorkerClaim? {
      ClaimKeepsCounts(s, w, step.id, step.at);
    } else if step.WorkerBury? {
      BuryKeepsCounts(s, w);
    } else if step.WorkerAck? {
      FinishKeepsCounts(s, w, s'.group);
    } else if step.WorkerGiveUp? {
      FinishKeepsCounts(s, w, s.group);
    } else if step.WorkerCrash? {
      assert s'.workers == Remove(s.workers, w);
    } else {
      assert MovedStage(s, s', w);
      assert BatchCounts(s.group, s.workers[w]);
      assert BatchCounts(s'.group, s'.workers[w]);
    }
  }

  lemma CountInvKept(s: State, a: Action)
    requires StreamInv(s) && CountInv(s) && Enabled(s, a)
    ensures CountInv(Apply(s, a))
  {
    match a
    case Accept(tx, row, sms, trace, now) =>
    case RelayDoes(r, step) => GrowthKeepsCounts(s, RelayNext(s, r, step).group);
    case WorkerDoes(w, step) => WorkerKeepsCounts(s, w, step);
    case AdminDoes(ad, step) => GrowthKeepsCounts(s, AdminNext(s, ad, step).group);
    case OrderDoes(q, step) =>
    case Restart =>
  }

  lemma {:induction false} CountsAlong(seeded: set<int>, trace: seq<State>, actions: seq<Action>, i: nat)
    requires IsRunFrom(seeded, trace, actions) && i <= |actions|
    ensures CountInv(trace[i])
  {
    if i > 0 {
      CountsAlong(seeded, trace, actions, i - 1);
      assert StreamInv(trace[i - 1]) by {
        InvAlong(seeded, trace, actions, i - 1);
      }
      assert IsStep(trace, actions, i - 1);
      CountInvKept(trace[i - 1], actions[i - 1]);
    }
  }

  /** No early burial: in every reachable state an entry that a worker has copied into the dead
      letters, and that is still pending, either has no amount or has been delivered more than
      max_retries times - whichever workers claimed it in between and whatever they died of. */
  lemma NothingIsBuriedEarly(seeded: set<int>, trace: seq<State>, actions: seq<Action>, i: nat, e: nat)
    requires IsRunFrom(seeded, trace, actions) && i <= |actions|
    requires e in trace[i].copied && e in trace[i].group.pel
    ensures e < |trace[i].group.log|
    ensures || (trace[i].group.log[e].Dict? && !Truthy(trace[i].group.log[e].amount))
            || trace[i].group.pel[e].count >= 4
  {
    CountsAlong(seeded, trace, actions, i);
    assert GivenUp(trace[i].group, e);
  }
}
