/** One relay pass and one order that nobody interferes with: taken together, the sub-steps of the
    state machine are the pass of the relay class and the attempt of the order service. */
module PipelineSequential {
  import opened Prelude
  import opened Payload
  import opened Amounts
  import opened Pipeline
  import O = Outbox
  import R = OutboxRelay
  import D = Orders
  import S = PipelineSafety

  // One more enabled action at the end of a run.
  lemma OneMore(trace: seq<State>, actions: seq<Action>, a: Action)
    requires IsRun(trace, actions) && Enabled(trace[|actions|], a)
    ensures IsRun(trace + [Apply(trace[|actions|], a)], actions + [a])
  {
    var longer, more := trace + [Apply(trace[|actions|], a)], actions + [a];
    forall k | 0 <= k < |more|
      ensures IsStep(longer, more, k)
    {
      assert k < |actions| ==> IsStep(trace, actions, k);
    }
  }

  // One action in front of a run.
  lemma Prefixed(s: State, a: Action, trace: seq<State>, actions: seq<Action>)
    requires Enabled(s, a) && IsRun(trace, actions) && trace[0] == Apply(s, a)
    ensures IsRun([s] + trace, [a] + actions)
  {
    var longer, more := [s] + trace, [a] + actions;
    forall k | 0 <= k < |more|
      ensures IsStep(longer, more, k)
    {
      assert k > 0 ==> IsStep(trace, actions, k - 1);
    }
  }

  // ---------- one relay pass ----------

  function StepOf(reply: Reply): RelayStep {
    RelayHandle(reply.Answered?, TakesEffect(reply))
  }

  /** The dead letters with these appended under the next ids. */
  function Appended(dead: map<nat, Data>, next: nat, letters: seq<R.DeadLetter>): map<nat, Data> {
    if letters == [] then dead
    else
      var last := |letters| - 1;
      Appended(dead, next, letters[..last])[next + last := letters[last].data]
  }

  /** The relay has decided the first k events of its batch, and exactly these entries have reached
      the two streams. */
  ghost predicate HandledSoFar(s: State, t: State, r: nat, es: seq<O.Event>, net: nat -> Reply, k: nat,
                               stream: seq<Data>, letters: seq<R.DeadLetter>)
  {
    && r in t.relays && t.relays == s.relays[r := t.relays[r]] && t.relays[r].events == es
    && |t.relays[r].updates| == k <= |es|
    && (forall j :: 0 <= j < k ==> t.relays[r].updates[j] == O.Decide(es[j], net(j).Answered?))
    && t == s.(relays := t.relays, published := t.published, discarded := t.discarded,
               group := t.group, dead := t.dead, nextDead := t.nextDead)
    && t.group == s.group.(log := s.group.log + stream)
    && t.dead == Appended(s.dead, s.nextDead, letters) && t.nextDead == s.nextDead + |letters|
  }

  // What handling the next event does.
  lemma HandleEffect(t: State, r: nat, reply: Reply)
    requires CanHandle(t, r)
    ensures var t', e := RelayNext(t, r, StepOf(reply)), t.relays[r].events[|t.relays[r].updates|];
            var lands, valid := TakesEffect(reply), Validate(e.data).None?;
            && t' == t.(relays := t'.relays, published := t'.published, discarded := t'.discarded,
                        group := t'.group, dead := t'.dead, nextDead := t'.nextDead)
            && t'.relays == t.relays[r := t.relays[r].(updates := t.relays[r].updates + [O.Decide(e, reply.Answered?)])]
            && t'.group == (if lands && valid then t.group.(log := t.group.log + [e.data]) else t.group)
            && t'.dead == (if lands && !valid then t.dead[t.nextDead := e.data] else t.dead)
            && t'.nextDead == (if lands && !valid then t.nextDead + 1 else t.nextDead)
  {
  }

  lemma HandlesNext(s: State, t: State, r: nat, es: seq<O.Event>, net: nat -> Reply, k: nat,
                    stream: seq<Data>, letters: seq<R.DeadLetter>)
    requires k < |es| && HandledSoFar(s, t, r, es, net, k, stream, letters)
    ensures RelayCan(t, r, StepOf(net(k)))
    ensures HandledSoFar(s, RelayNext(t, r, StepOf(net(k))), r, es, net, k + 1,
                         R.Streamed(stream, es[k], net(k)), R.Lettered(letters, es[k], net(k)))
  {
    HandleEffect(t, r, net(k));
    var t' := RelayNext(t, r, StepOf(net(k)));
    assert t'.relays == s.relays[r := t'.relays[r]];
    assert s.group.log + stream + [es[k].data] == s.group.log + (stream + [es[k].data]);
    if Validate(es[k].data).Some? {
      AppendedMore(s.dead, s.nextDead, letters, R.DeadLetter(es[k].id, es[k].data, Validate(es[k].data).value));
    }
  }

  lemma AppendedMore(dead: map<nat, Data>, next: nat, letters: seq<R.DeadLetter>, letter: R.DeadLetter)
    ensures Appended(dead, next, letters + [letter])
         == Appended(dead, next, letters)[next + |letters| := letter.data]
  {
    assert (letters + [letter])[..|letters|] == letters;
  }

  lemma {:induction false} Handles(s: State, r: nat, es: seq<O.Event>, net: nat -> Reply, k: nat)
    returns (trace: seq<State>, actions: seq<Action>)
    requires r in s.relays && s.relays[r] == Relay(es, []) && k <= |es|
    ensures IsRun(trace, actions) && trace[0] == s && |actions| == k
    ensures forall i :: 0 <= i < |actions| ==> actions[i].RelayDoes? && actions[i].relay == r
    ensures HandledSoFar(s, trace[k], r, es, net, k, R.ToStream(es[..k], net), R.ToDead(es[..k], net))
  {
    if k == 0 {
      trace, actions := [s], [];
    } else {
      trace, actions := Handles(s, r, es, net, k - 1);
      HandlesNext(s, trace[k - 1], r, es, net, k - 1, R.ToStream(es[..k - 1], net), R.ToDead(es[..k - 1], net));
      var a := RelayDoes(r, StepOf(net(k - 1)));
      OneMore(trace, actions, a);
      assert es[..k][..k - 1] == es[..k - 1];
      trace, actions := trace + [Apply(trace[k - 1], a)], actions + [a];
    }
  }

  lemma ClaimAndHandle(s: State, r: nat, ids: seq<nat>, now: int, net: nat -> Reply)
    returns (trace: seq<State>, actions: seq<Action>)
    requires CanClaim(s, r, ids, now)
    ensures IsRun(trace, actions) && trace[0] == s && |actions| == |ids| + 1
    ensures forall i :: 0 <= i < |actions| ==> actions[i].RelayDoes? && actions[i].relay == r
    ensures var es := EventsOf(s.rows, ids);
            HandledSoFar(DoRelayClaim(s, r, ids, now), trace[|actions|], r, es, net, |es|,
                         R.ToStream(es, net), R.ToDead(es, net))
  {
    var claim, es := RelayDoes(r, RelayClaim(ids, now)), EventsOf(s.rows, ids);
    trace, actions := Handles(DoRelayClaim(s, r, ids, now), r, es, net, |es|);
    assert es[..|es|] == es;
    Prefixed(s, claim, trace, actions);
    trace, actions := [s] + trace, [claim] + actions;
  }

  /** What one pass of the relay does to the rows and the two streams, and nothing else. */
  ghost predicate PassDone(s: State, end: State, ids: seq<nat>, now: int, net: nat -> Reply,
                           stream: seq<Data>, letters: seq<R.DeadLetter>)
    requires forall i :: 0 <= i < |ids| ==> ids[i] in s.rows
  {
    && end.rows == O.AfterUpdates(O.AfterClaim(s.rows, AsSet(ids), now), R.Decisions(s.rows, ids, net))
    && end == s.(rows := end.rows, published := end.published, discarded := end.discarded,
                 group := end.group, dead := end.dead, nextDead := end.nextDead)
    && end.group == s.group.(log := s.group.log + stream)
    && end.dead == Appended(s.dead, s.nextDead, letters) && end.nextDead == s.nextDead + |letters|
  }

  lemma AllDecided(rows: O.Table, ids: seq<nat>, net: nat -> Reply, us: seq<O.Update>)
    requires (forall i :: 0 <= i < |ids| ==> ids[i] in rows) && |us| == |ids|
    requires forall j :: 0 <= j < |ids| ==> us[j] == O.Decide(EventsOf(rows, ids)[j], net(j).Answered?)
    ensures us == R.Decisions(rows, ids, net)
  {
  }

  // The final update, when every event of the batch has been decided.
  lemma WritesAll(s: State, t: State, r: nat, es: seq<O.Event>, net: nat -> Reply,
                  stream: seq<Data>, letters: seq<R.DeadLetter>)
    requires HandledSoFar(s, t, r, es, net, |es|, stream, letters)
    ensures RelayCan(t, r, RelayWrite)
    ensures var end := RelayNext(t, r, RelayWrite);
            && end.rows == O.AfterUpdates(s.rows, t.relays[r].updates) && end.relays == Remove(s.relays, r)
            && end == s.(rows := end.rows, relays := end.relays, published := t.published, discarded := t.discarded,
                         group := t.group, dead := t.dead, nextDead := t.nextDead)
  {
  }

  lemma PassEnds(s: State, claimed: State, t: State, r: nat, ids: seq<nat>, now: int, net: nat -> Reply,
                 stream: seq<Data>, letters: seq<R.DeadLetter>)
    requires CanClaim(s, r, ids, now) && claimed == DoRelayClaim(s, r, ids, now)
    requires HandledSoFar(claimed, t, r, EventsOf(s.rows, ids), net, |ids|, stream, letters)
    ensures RelayCan(t, r, RelayWrite) && PassDone(s, RelayNext(t, r, RelayWrite), ids, now, net, stream, letters)
  {
    WritesAll(claimed, t, r, EventsOf(s.rows, ids), net, stream, letters);
    AllDecided(s.rows, ids, net, t.relays[r].updates);
    assert Remove(claimed.relays, r) == s.relays;
  }

  /** The claim, the writes one by one and the final update of a relay nobody interferes with are
      one pass of the relay: the same rows, and the same entries on the two streams. */
  lemma UninterruptedPass(s: State, r: nat, ids: seq<nat>, limit: nat, now: int, net: nat -> Reply)
    returns (trace: seq<State>, actions: seq<Action>)
    requires CanClaim(s, r, ids, now) && R.IsClaim(s.rows, now, limit, ids)
    ensures IsRun(trace, actions) && trace[0] == s && |actions| == |ids| + 2
    ensures forall i :: 0 <= i < |actions| ==> actions[i].RelayDoes? && actions[i].relay == r
    ensures R.IsPass(s.rows, trace[|actions|].rows, ids, limit, now, net)
    ensures var es := EventsOf(s.rows, ids);
            PassDone(s, trace[|actions|], ids, now, net, R.ToStream(es, net), R.ToDead(es, net))
  {
    trace, actions := ClaimAndHandle(s, r, ids, now, net);
    var t, es, write := trace[|actions|], EventsOf(s.rows, ids), RelayDoes(r, RelayWrite);
    PassEnds(s, DoRelayClaim(s, r, ids, now), t, r, ids, now, net, R.ToStream(es, net), R.ToDead(es, net));
    OneMore(trace, actions, write);
    trace, actions := trace + [Apply(t, write)], actions + [write];
  }

  // ---------- one order through Redis ----------

  function Holding(s: State, q: nat, user: nat, base: int, h: Hold): State {
    s.(requests := s.requests[q := Request(user, base, 0, h)])
  }

  // Nobody else is inserting or paying an intent of this amount.
  ghost predicate AmountQuiet(s: State, v: int) {
    && (forall p :: p in s.requests && s.requests[p].hold.Inserted? ==> s.requests[p].hold.v != v)
    && (forall w :: w in s.workers && s.workers[w].stage.Flushed? && s.workers[w].stage.intent in s.db.intents ==>
          s.db.intents[s.workers[w].stage.intent].exactAmount != v)
  }

  lemma Held(s: State, q: nat, user: nat, base: int, h: Hold, h': Hold)
    ensures SetHold(Holding(s, q, user, base, h), q, h') == Holding(s, q, user, base, h')
    ensures q !in s.requests ==> Drop(Holding(s, q, user, base, h), q) == s
  {
    var r, r' := Request(user, base, 0, h), Request(user, base, 0, h');
    assert s.requests[q := r][q := r'] == s.requests[q := r'];
    assert q !in s.requests ==> Remove(s.requests[q := r], q) == s.requests;
  }

  // Taking v out of the pool.
  lemma Takes(s: State, q: nat, user: nat, base: int, v: int)
    requires q !in s.requests && v in s.pool.free
    ensures S.OrderMoves(s, q, OrderStart(user, base), Holding(s, q, user, base, Starting))
    ensures S.OrderMoves(Holding(s, q, user, base, Starting), q, OrderPop(v),
                         Holding(s.(pool := Pop(s.pool, v)), q, user, base, Popped(v)))
    ensures S.OrderMoves(Holding(s.(pool := Pop(s.pool, v)), q, user, base, Popped(v)), q, OrderReserve,
                         Holding(s.(pool := Allocate(s.pool, v)), q, user, base, Reserved(v)))
  {
    Held(s.(pool := Pop(s.pool, v)), q, user, base, Starting, Popped(v));
    Held(s.(pool := Allocate(s.pool, v)), q, user, base, Popped(v), Reserved(v));
  }

  // Inserting with v in hand; `t` is the state without the request.
  lemma Inserts(t: State, q: nat, user: nat, base: int, v: int, id: nat)
    requires q !in t.requests && v != 0 && v !in D.PendingAmounts(t.db) && AmountQuiet(t, v)
    requires id !in t.db.intents && id !in t.db.orders
    ensures S.OrderMoves(Holding(t, q, user, base, Reserved(v)), q, OrderInsert,
                         Holding(t, q, user, base, Inserted(v, D.Redis)))
    ensures S.OrderMoves(Holding(t, q, user, base, Inserted(v, D.Redis)), q, OrderCommit(id),
                         t.(db := D.Insert(t.db, id, user, base, v), lost := t.lost - {v}))
  {
    Held(t, q, user, base, Reserved(v), Inserted(v, D.Redis));
    var t' := t.(db := D.Insert(t.db, id, user, base, v), lost := t.lost - {v});
    Held(t', q, user, base, Inserted(v, D.Redis), Starting);
  }

  // Giving v back after the index has refused it; `t` is the state with v taken.
  lemma GivesBack(t: State, q: nat, user: nat, base: int, v: int)
    requires q !in t.requests && v != 0 && v in D.PendingAmounts(t.db) && AmountQuiet(t, v)
    ensures S.OrderMoves(Holding(t, q, user, base, Reserved(v)), q, OrderInsert,
                         Holding(t, q, user, base, Refused(v)))
    ensures S.OrderMoves(Holding(t, q, user, base, Refused(v)), q, OrderUnreserve,
                         Holding(t.(pool := Unreserve(t.pool, v)), q, user, base, Unreserved(v)))
    ensures S.OrderMoves(Holding(t.(pool := Unreserve(t.pool, v)), q, user, base, Unreserved(v)), q, OrderAddFree,
                         t.(pool := Compensate(t.pool, v)))
  {
    Held(t, q, user, base, Reserved(v), Refused(v));
    Held(t.(pool := Unreserve(t.pool, v)), q, user, base, Refused(v), Unreserved(v));
    Held(t.(pool := Compensate(t.pool, v)), q, user, base, Unreserved(v), Starting);
  }

  // A run of one request's steps through the given states.
  lemma OrderRun(q: nat, trace: seq<State>, steps: seq<OrderStep>) returns (actions: seq<Action>)
    requires |trace| == |steps| + 1
    requires forall k :: 0 <= k < |steps| ==> S.OrderMoves(trace[k], q, steps[k], trace[k + 1])
    ensures IsRun(trace, actions) && |actions| == |steps|
    ensures forall k :: 0 <= k < |actions| ==> actions[k].OrderDoes? && actions[k].request == q
  {
    actions := seq(|steps|, k requires 0 <= k < |steps| => OrderDoes(q, steps[k]));
    forall k | 0 <= k < |actions|
      ensures IsStep(trace, actions, k)
    {
      assert S.OrderMoves(trace[k], q, steps[k], trace[k + 1]);
    }
  }

  /** The steps of a request that draws v from Redis, with nobody else at work on this amount and no
      error, are the attempt of the order service: both rows and the allocation if no PENDING intent
      has the amount, and otherwise an allocation undone and nothing else. */
  lemma UninterruptedOrder(s: State, q: nat, user: nat, base: int, v: int, id: nat)
    returns (trace: seq<State>, actions: seq<Action>)
    requires q !in s.requests && v in s.pool.free && v != 0 && AmountQuiet(s, v)
    requires id !in s.db.intents && id !in s.db.orders
    ensures IsRun(trace, actions) && trace[0] == s
    ensures forall k :: 0 <= k < |actions| ==> actions[k].OrderDoes? && actions[k].request == q
    ensures trace[|actions|] ==
            if v in D.PendingAmounts(s.db) then s.(pool := Compensate(Allocate(s.pool, v), v))
            else s.(db := D.Insert(s.db, id, user, base, v), pool := Allocate(s.pool, v), lost := s.lost - {v})
  {
    var popped, taken := s.(pool := Pop(s.pool, v)), s.(pool := Allocate(s.pool, v));
    Takes(s, q, user, base, v);
    trace := [s, Holding(s, q, user, base, Starting), Holding(popped, q, user, base, Popped(v)),
              Holding(taken, q, user, base, Reserved(v))];
    var steps := [OrderStart(user, base), OrderPop(v), OrderReserve, OrderInsert];
    if v in D.PendingAmounts(s.db) {
      GivesBack(taken, q, user, base, v);
      trace := trace + [Holding(taken, q, user, base, Refused(v)),
                        Holding(taken.(pool := Unreserve(taken.pool, v)), q, user, base, Unreserved(v)),
                        taken.(pool := Compensate(taken.pool, v))];
      steps := steps + [OrderUnreserve, OrderAddFree];
    } else {
      Inserts(taken, q, user, base, v, id);
      trace := trace + [Holding(taken, q, user, base, Inserted(v, D.Redis)),
                        taken.(db := D.Insert(s.db, id, user, base, v), lost := s.lost - {v})];
      steps := steps + [OrderCommit(id)];
    }
    actions := OrderRun(q, trace, steps);
  }

  // ---------- one replay ----------

  /** A replay moves one payload from the dead letters to the end of the stream if its letter is still
      there, and otherwise adds a second copy: the number of stored payloads stays the same if and
      only if no other replay of the letter came first. */
  lemma ReplayConserves(s: State, a: nat)
    requires AdminCan(s, a, ReplayExec)
    ensures var r, s' := s.replays[a], AdminNext(s, a, ReplayExec);
            && |s'.dead| + |s'.group.log| == |s.dead| + |s.group.log| + (if r.dead in s.dead then 0 else 1)
            && s'.group.log == s.group.log + [r.data] && r.dead !in s'.dead
            && forall x :: x in s.dead && x != r.dead ==> x in s'.dead && s'.dead[x] == s.dead[x]
  {
    var r, s' := s.replays[a], AdminNext(s, a, ReplayExec);
    assert s'.dead.Keys == s.dead.Keys - {r.dead};
    assert |s'.dead.Keys| == |s'.dead| && |s.dead.Keys| == |s.dead|;
  }
}
