/** What the worker's batches achieve over many rounds: which streams drain, and how often a
    message is handled before it is dead-lettered. */
module WorkerDrain {
  import opened Prelude
  import opened Streams
  import opened WorkerLoop

  // One batch: when it starts, when its read is answered, and what the outside decides meanwhile.
  datatype Round = Round(now: int, readAt: int, env: Env)

  function After(cfg: Config, k: Desk, r: Round): Desk
    requires Partition(k.g)
  {
    Batch(cfg, r.env, k, r.now, r.readAt).desk
  }

  ghost function Run(cfg: Config, k: Desk, rounds: seq<Round>): (k': Desk)
    requires Partition(k.g)
    ensures Partition(k'.g)
    decreases |rounds|
  {
    if rounds == [] then k
    else Run(cfg, After(cfg, k, rounds[0]), rounds[1..])
  }

  predicate Drained(g: Group) {
    g.last == |g.log| && g.pel == map[]
  }

  /** No entry still to be acknowledged raises outside the handlers. */
  ghost predicate Clean(g: Group) {
    forall id :: 0 <= id < |g.log| && id !in g.acked ==> !Explodes(g.log[id])
  }

  // ---------- the measure ----------

  /** How many more times an entry can be handled while dead-letter writes work. */
  function Weight(g: Group, max: nat, id: nat): nat {
    if id >= g.last then max + 1
    else if id in g.pel then (if g.pel[id].count >= max then 1 else max + 1 - g.pel[id].count)
    else 0
  }

  function Measure(g: Group, max: nat, n: nat): nat {
    if n == 0 then 0 else Measure(g, max, n - 1) + Weight(g, max, n - 1)
  }

  /** The measure falls by the number of entries whose own weight falls. */
  lemma {:induction false} MeasureFalls(g: Group, g': Group, max: nat, n: nat, ids: set<nat>)
    requires forall id: nat :: id < n ==> Weight(g', max, id) + (if id in ids then 1 else 0) <= Weight(g, max, id)
    ensures Measure(g', max, n) + |Below(ids, n)| <= Measure(g, max, n)
  {
    if n > 0 {
      MeasureFalls(g, g', max, n - 1, ids);
      BelowStep(ids, n);
    } else {
      assert Below(ids, 0) == {};
    }
  }

  /** At most max_retries + 1 handlings per entry. */
  lemma {:induction false} MeasureAtMost(g: Group, max: nat, n: nat)
    requires forall id :: id in g.pel ==> g.pel[id].count >= 1
    ensures Measure(g, max, n) <= (max + 1) * n
  {
    if n > 0 {
      MeasureAtMost(g, max, n - 1);
      assert (max + 1) * n == (max + 1) * (n - 1) + (max + 1);
    }
  }

  lemma {:induction false} MeasureZero(g: Group, max: nat, n: nat)
    requires Partition(g) && n == |g.log| && Measure(g, max, n) == 0
    ensures Drained(g)
  {
    forall id | 0 <= id < n
      ensures id < g.last && id !in g.pel
    {
      MeasureZeroAt(g, max, n, id);
    }
  }

  lemma {:induction false} MeasureZeroAt(g: Group, max: nat, n: nat, id: nat)
    requires id < n && Measure(g, max, n) == 0
    ensures Weight(g, max, id) == 0
  {
    if id < n - 1 {
      MeasureZeroAt(g, max, n - 1, id);
    }
  }

  // ---------- one half-batch ----------

  /** g' is g with some pending entries acknowledged and nothing else changed. */
  ghost predicate Shrunk(g: Group, g': Group) {
    && g'.log == g.log && g'.last == g.last && g.acked <= g'.acked
    && (forall id :: id in g'.pel ==> id in g.pel && g'.pel[id] == g.pel[id])
  }

  /** Processing messages only ever acknowledges, and never acknowledges what explodes. */
  lemma {:induction false} AllShrinks(cfg: Config, env: Env, k: Desk, ms: seq<Message>)
    ensures Shrunk(k.g, All(cfg, env, k, ms).desk.g)
    ensures forall id :: id in All(cfg, env, k, ms).desk.g.acked && id !in k.g.acked ==>
              exists i :: 0 <= i < |ms| && ms[i].id == id && !Explodes(ms[i].data)
  {
    if ms != [] {
      var last := |ms| - 1;
      AllShrinks(cfg, env, k, ms[..last]);
      var before := All(cfg, env, k, ms[..last]).desk.g;
      forall id | id in All(cfg, env, k, ms).desk.g.acked && id !in k.g.acked
        ensures exists i :: 0 <= i < |ms| && ms[i].id == id && !Explodes(ms[i].data)
      {
        if id in before.acked {
          var i :| 0 <= i < last && ms[..last][i].id == id && !Explodes(ms[..last][i].data);
          assert ms[i].id == id;
        } else {
          assert ms[last].id == id;
        }
      }
    }
  }

  /** With Redis up and payloads that do not explode, a half-batch runs to its end, and a message
      that is out of retries leaves the pending list. */
  lemma {:induction false} LastAttempt(cfg: Config, env: Env, k: Desk, ms: seq<Message>)
    requires RedisUp(env) && forall i :: 0 <= i < |ms| ==> !Explodes(ms[i].data)
    ensures !All(cfg, env, k, ms).aborted
    ensures forall i :: 0 <= i < |ms| && ms[i].attempts >= cfg.maxRetries ==>
              ms[i].id !in All(cfg, env, k, ms).desk.g.pel
  {
    if ms != [] {
      var last := |ms| - 1;
      LastAttempt(cfg, env, k, ms[..last]);
      var before := All(cfg, env, k, ms[..last]).desk;
      forall i | 0 <= i < last && ms[i].attempts >= cfg.maxRetries
        ensures ms[i].id !in before.g.pel
      {
        assert ms[..last][i] == ms[i];
      }
    }
  }

  ghost predicate Lighter(g: Group, g': Group, max: nat) {
    && g'.log == g.log
    && forall id :: 0 <= id < |g.log| ==> Weight(g', max, id) <= Weight(g, max, id)
  }

  /** Nothing that explodes was acknowledged between g and g'. */
  ghost predicate Careful(g: Group, g': Group) {
    forall id :: id in g'.acked && id !in g.acked ==> id < |g.log| && !Explodes(g.log[id])
  }

  lemma StaleHalfEffect(cfg: Config, env: Env, k: Desk, now: int)
    requires Partition(k.g)
    ensures var g' := StaleHalf(cfg, env, k, now).desk.g;
            && Partition(g') && g'.last == k.g.last && k.g.acked <= g'.acked
            && Lighter(k.g, g', cfg.maxRetries) && Careful(k.g, g')
            && forall id :: id in g'.pel ==> id in k.g.pel && g'.pel[id].at in {k.g.pel[id].at, now}
  {
    var window := Pending(k.g, 0, WINDOW);
    var n := ClaimedUpTo(k.g, window, now, MIN_IDLE_MS, env.claims);
    ClaimedEffect(k.g, AsSet(IdleUpTo(k.g, window, n, now, MIN_IDLE_MS)), now, cfg.maxRetries);
    if !ClaimBreaks(k.g, window, now, MIN_IDLE_MS, env.claims) {
      var ids := StaleIds(k.g, now);
      var claimed := k.(g := ClaimAll(k.g, AsSet(ids), now));
      AllShrinks(cfg, env, claimed, ClaimedMessages(k.g, ids));
      ShrunkIsLighter(claimed.g, StaleHalf(cfg, env, k, now).desk.g, cfg.maxRetries);
      NewlyAckedAreClean(k.g, claimed.g, ClaimedMessages(k.g, ids), StaleHalf(cfg, env, k, now).desk.g);
    }
  }

  lemma ClaimedEffect(g: Group, ids: set<nat>, now: int, max: nat)
    ensures var g' := ClaimAll(g, ids, now);
            && Lighter(g, g', max) && g'.acked == g.acked && g'.last == g.last
            && forall id :: id in g'.pel ==> id in g.pel && g'.pel[id].at in {g.pel[id].at, now}
  {
  }

  lemma NewHalfEffect(cfg: Config, env: Env, k: Desk, readAt: int)
    requires Partition(k.g)
    ensures var g' := NewHalf(cfg, env, k, readAt).desk.g;
            && k.g.acked <= g'.acked && Lighter(k.g, g', cfg.maxRetries) && Careful(k.g, g')
            && forall id :: id in g'.pel ==> g'.pel[id].at == if id in k.g.pel then k.g.pel[id].at else readAt
  {
    var n := Min(WINDOW, |k.g.log| - k.g.last);
    var delivered := k.(g := Deliver(k.g, n, readAt));
    var g' := NewHalf(cfg, env, k, readAt).desk.g;
    DeliveredEffect(k.g, n, readAt, cfg.maxRetries);
    if env.read.Answered? {
      AllShrinks(cfg, env, delivered, NewMessages(k.g, n));
      ShrunkIsLighter(delivered.g, g', cfg.maxRetries);
      NewlyAckedAreClean(k.g, delivered.g, NewMessages(k.g, n), g');
    }
  }

  lemma DeliveredEffect(g: Group, n: nat, readAt: int, max: nat)
    requires Partition(g) && g.last + n <= |g.log|
    ensures var g' := Deliver(g, n, readAt);
            && Lighter(g, g', max) && g'.acked == g.acked
            && forall id :: id in g'.pel ==> g'.pel[id].at == if id in g.pel then g.pel[id].at else readAt
  {
  }

  // What is newly acknowledged is one of the messages, and did not explode.
  lemma NewlyAckedAreClean(g: Group, delivered: Group, ms: seq<Message>, g': Group)
    requires delivered.acked == g.acked
    requires forall i :: 0 <= i < |ms| ==> ms[i].id < |g.log| && ms[i].data == g.log[ms[i].id]
    requires forall id :: id in g'.acked && id !in delivered.acked ==>
               exists i :: 0 <= i < |ms| && ms[i].id == id && !Explodes(ms[i].data)
    ensures Careful(g, g')
  {
  }

  lemma ShrunkIsLighter(g: Group, g': Group, max: nat)
    requires Shrunk(g, g')
    ensures Lighter(g, g', max)
  {
  }

  /** A claimed entry is handled: it weighs one less, or has left the pending list. */
  lemma StaleHandled(cfg: Config, env: Env, k: Desk, now: int, id: nat)
    requires Partition(k.g) && Clean(k.g) && RedisUp(env) && id in StaleIds(k.g, now)
    ensures Weight(StaleHalf(cfg, env, k, now).desk.g, cfg.maxRetries, id) < Weight(k.g, cfg.maxRetries, id)
  {
    var ids := StaleIds(k.g, now);
    var claimed := k.(g := ClaimAll(k.g, AsSet(ids), now));
    var ms := ClaimedMessages(k.g, ids);
    AllShrinks(cfg, env, claimed, ms);
    LastAttempt(cfg, env, claimed, ms);
    var i :| 0 <= i < |ids| && ids[i] == id;
    assert ms[i] == Message(id, k.g.log[id], k.g.pel[id].count);
    ClaimedWeighsLess(k.g, claimed.g, StaleHalf(cfg, env, k, now).desk.g, cfg.maxRetries, id);
  }

  // A claimed entry that is still pending counts one delivery more; a last attempt is not.
  lemma ClaimedWeighsLess(g: Group, claimed: Group, g': Group, max: nat, id: nat)
    requires id in g.pel && id in claimed.pel && claimed.pel[id].count == g.pel[id].count + 1
    requires id < g.last == claimed.last && Shrunk(claimed, g')
    requires g.pel[id].count >= max ==> id !in g'.pel
    ensures Weight(g', max, id) < Weight(g, max, id)
  {
  }

  lemma StaleHalfCompletes(cfg: Config, env: Env, k: Desk, now: int)
    requires Partition(k.g) && Clean(k.g) && RedisUp(env)
    ensures !StaleHalf(cfg, env, k, now).aborted && Clean(StaleHalf(cfg, env, k, now).desk.g)
  {
    var ids := StaleIds(k.g, now);
    var claimed := k.(g := ClaimAll(k.g, AsSet(ids), now));
    AllShrinks(cfg, env, claimed, ClaimedMessages(k.g, ids));
    LastAttempt(cfg, env, claimed, ClaimedMessages(k.g, ids));
  }

  /** So is an entry delivered for the first time. */
  lemma NewHandled(cfg: Config, env: Env, k: Desk, readAt: int, id: nat)
    requires Partition(k.g) && Clean(k.g) && RedisUp(env) && id in NewIds(k.g)
    ensures Weight(NewHalf(cfg, env, k, readAt).desk.g, cfg.maxRetries, id) < Weight(k.g, cfg.maxRetries, id)
  {
    var n := Min(WINDOW, |k.g.log| - k.g.last);
    var delivered := k.(g := Deliver(k.g, n, readAt));
    var ms := NewMessages(k.g, n);
    AllShrinks(cfg, env, delivered, ms);
    NoneExplodes(k.g, n);
    LastAttempt(cfg, env, delivered, ms);
    assert ms[id - k.g.last] == Message(id, k.g.log[id], 0);
    DeliveredWeighsLess(k.g, n, readAt, NewHalf(cfg, env, k, readAt).desk.g, cfg.maxRetries, id);
  }

  lemma NoneExplodes(g: Group, n: nat)
    requires Partition(g) && Clean(g) && g.last + n <= |g.log|
    ensures forall i :: 0 <= i < n ==> !Explodes(NewMessages(g, n)[i].data)
  {
  }

  // A delivered entry that is still pending counts one delivery; a last attempt is not.
  lemma DeliveredWeighsLess(g: Group, n: nat, readAt: int, g': Group, max: nat, id: nat)
    requires Partition(g) && g.last <= id < g.last + n <= |g.log| && Shrunk(Deliver(g, n, readAt), g')
    requires max == 0 ==> id !in g'.pel
    ensures Weight(g', max, id) < Weight(g, max, id)
  {
    assert id !in g.pel;
  }

  // ---------- one batch ----------

  function Interval(from: nat, n: nat): (ids: set<nat>)
    ensures |ids| == n && forall id :: id in ids <==> from <= id < from + n
  {
    if n == 0 then {} else Interval(from, n - 1) + {from + n - 1}
  }

  /** The entries a batch delivers for the first time. */
  function NewIds(g: Group): set<nat>
    requires Partition(g)
  {
    Interval(g.last, Min(WINDOW, |g.log| - g.last))
  }

  /** The entries a batch takes up. */
  function Taken(g: Group, now: int): set<nat>
    requires Partition(g)
  {
    AsSet(StaleIds(g, now)) + NewIds(g)
  }

  /** There is something for a batch to take up. */
  predicate HasWork(g: Group, now: int) {
    StaleIds(g, now) != [] || g.last < |g.log|
  }

  /** No batch, however it ends, adds work or acknowledges an entry that explodes, and an
      acknowledgement is final. */
  lemma BatchKeeps(cfg: Config, k: Desk, r: Round)
    requires Partition(k.g)
    ensures var g' := After(cfg, k, r).g;
            && k.g.acked <= g'.acked && Lighter(k.g, g', cfg.maxRetries) && Careful(k.g, g')
            && forall id :: id in g'.pel ==>
                 g'.pel[id].at in {r.now, r.readAt} || (id in k.g.pel && g'.pel[id].at == k.g.pel[id].at)
  {
    StaleHalfEffect(cfg, r.env, k, r.now);
    NewHalfEffect(cfg, r.env, StaleHalf(cfg, r.env, k, r.now).desk, r.readAt);
  }

  lemma TakenWeighsLess(cfg: Config, k: Desk, r: Round, id: nat)
    requires Partition(k.g) && Clean(k.g) && RedisUp(r.env) && id in Taken(k.g, r.now)
    ensures Weight(After(cfg, k, r).g, cfg.maxRetries, id) < Weight(k.g, cfg.maxRetries, id)
  {
    var half := StaleHalf(cfg, r.env, k, r.now).desk;
    StaleHalfCompletes(cfg, r.env, k, r.now);
    StaleHalfEffect(cfg, r.env, k, r.now);
    NewHalfEffect(cfg, r.env, half, r.readAt);
    if id in StaleIds(k.g, r.now) {
      StaleHandled(cfg, r.env, k, r.now, id);
    } else {
      NewHandled(cfg, r.env, half, r.readAt, id);
    }
  }

  lemma TakenSize(g: Group, now: int)
    requires Partition(g)
    ensures |Taken(g, now)| == |StaleIds(g, now)| + Min(WINDOW, |g.log| - g.last)
  {
    IdleOfDistinct(g, Pending(g, 0, WINDOW), now, MIN_IDLE_MS);
    DistinctSize(StaleIds(g, now));
    assert AsSet(StaleIds(g, now)) !! NewIds(g);
  }

  /** With Redis up and no payload that explodes, the measure falls in every batch by at least the
      number of messages the batch takes up - the idle ones among the ten lowest pending entries
      and up to ten new ones - whatever else is pending. */
  lemma BatchProgress(cfg: Config, k: Desk, r: Round)
    requires Partition(k.g) && Clean(k.g) && RedisUp(r.env)
    ensures Measure(After(cfg, k, r).g, cfg.maxRetries, |k.g.log|)
            + |StaleIds(k.g, r.now)| + Min(WINDOW, |k.g.log| - k.g.last)
              <= Measure(k.g, cfg.maxRetries, |k.g.log|)
  {
    BatchKeeps(cfg, k, r);
    forall id | id in Taken(k.g, r.now) {
      TakenWeighsLess(cfg, k, r, id);
    }
    MeasureFalls(k.g, After(cfg, k, r).g, cfg.maxRetries, |k.g.log|, Taken(k.g, r.now));
    assert Below(Taken(k.g, r.now), |k.g.log|) == Taken(k.g, r.now);
    TakenSize(k.g, r.now);
  }

  /** Every pending entry had been delivered by then. */
  ghost predicate DeliveredBy(g: Group, at: int) {
    forall id :: id in g.pel ==> g.pel[id].at <= at
  }

  /** Work is only a matter of waiting: a batch leaves every delivery time at most the instant its
      read was answered, so a batch that starts the threshold after that can claim whatever is
      pending. */
  lemma WaitingRipens(cfg: Config, k: Desk, r: Round, later: int)
    requires Partition(k.g) && DeliveredBy(k.g, r.readAt) && r.now <= r.readAt
    requires later >= r.readAt + MIN_IDLE_MS
    ensures var g' := After(cfg, k, r).g;
            && (forall id :: id in g'.pel ==> Idle(g', id, later, MIN_IDLE_MS))
            && (Drained(g') || HasWork(g', later))
  {
    BatchKeeps(cfg, k, r);
    var g' := After(cfg, k, r).g;
    if g'.last == |g'.log| && g'.pel != map[] {
      LowestIsClaimed(g', later);
    }
  }

  lemma LowestIsClaimed(g: Group, now: int)
    requires Partition(g) && g.pel != map[] && forall id :: id in g.pel ==> Idle(g, id, now, MIN_IDLE_MS)
    ensures StaleIds(g, now) != []
  {
    assert Pending(g, 0, WINDOW) != [] by {
      var some :| some in g.pel;
    }
    assert Pending(g, 0, WINDOW)[0] in StaleIds(g, now);
  }

  // ---------- many rounds ----------

  /** A round counts when Redis is up and there is something to take up, or nothing left at all. */
  ghost predicate IsGood(g: Group, r: Round) {
    RedisUp(r.env) && (Drained(g) || HasWork(g, r.now))
  }

  ghost function GoodRounds(cfg: Config, k: Desk, rounds: seq<Round>): nat
    requires Partition(k.g)
    decreases |rounds|
  {
    if rounds == [] then 0
    else
      (if IsGood(k.g, rounds[0]) then 1 else 0)
      + GoodRounds(cfg, After(cfg, k, rounds[0]), rounds[1..])
  }

  // Redis up, but nothing to take up: the round leaves everything as it was.
  lemma IdleRound(cfg: Config, k: Desk, r: Round)
    requires Partition(k.g) && RedisUp(r.env) && !IsGood(k.g, r)
    ensures After(cfg, k, r) == k
  {
    assert AsSet(StaleIds(k.g, r.now)) == {};
    assert ClaimAll(k.g, {}, r.now) == k.g;
    assert Deliver(k.g, 0, r.readAt) == k.g;
  }

  lemma {:induction false} IdleRounds(cfg: Config, k: Desk, rounds: seq<Round>)
    requires Partition(k.g) && GoodRounds(cfg, k, rounds) == 0 && forall r :: r in rounds ==> RedisUp(r.env)
    ensures Run(cfg, k, rounds) == k
    decreases |rounds|
  {
    if rounds != [] {
      IdleRound(cfg, k, rounds[0]);
      IdleRounds(cfg, k, rounds[1..]);
    }
  }

  /** However fast the worker polls, with Redis up there is a good round in every stretch of the
      idle time after a read: if none of the rounds since `first` was good, a round that starts the
      idle time after the read of `first` is. */
  lemma GoodWithinIdleTime(cfg: Config, k: Desk, first: Round, between: seq<Round>, next: Round)
    requires Partition(k.g) && DeliveredBy(k.g, first.readAt) && first.now <= first.readAt
    requires RedisUp(next.env) && forall r :: r in between ==> RedisUp(r.env)
    requires next.now >= first.readAt + MIN_IDLE_MS
    ensures var after := After(cfg, k, first);
            GoodRounds(cfg, after, between) == 0 ==> IsGood(Run(cfg, after, between).g, next)
  {
    var after := After(cfg, k, first);
    if GoodRounds(cfg, after, between) == 0 {
      IdleRounds(cfg, after, between);
      WaitingRipens(cfg, k, first, next.now);
    }
  }

  lemma {:induction false} RunLighter(cfg: Config, k: Desk, rounds: seq<Round>)
    requires Partition(k.g)
    ensures Lighter(k.g, Run(cfg, k, rounds).g, cfg.maxRetries)
    decreases |rounds|
  {
    if rounds != [] {
      BatchKeeps(cfg, k, rounds[0]);
      RunLighter(cfg, After(cfg, k, rounds[0]), rounds[1..]);
    }
  }

  lemma {:induction false} CleanRunDrains(cfg: Config, k: Desk, rounds: seq<Round>)
    requires Partition(k.g) && Clean(k.g)
    requires GoodRounds(cfg, k, rounds) >= Measure(k.g, cfg.maxRetries, |k.g.log|)
    ensures Drained(Run(cfg, k, rounds).g)
    decreases |rounds|
  {
    var max, n := cfg.maxRetries, |k.g.log|;
    if Measure(k.g, max, n) == 0 {
      RunLighter(cfg, k, rounds);
      MeasureFalls(k.g, Run(cfg, k, rounds).g, max, n, {});
      MeasureZero(Run(cfg, k, rounds).g, max, n);
    } else if rounds != [] {
      RoundSpends(cfg, k, rounds[0]);
      CleanRunDrains(cfg, After(cfg, k, rounds[0]), rounds[1..]);
    }
  }

  // A round never adds to the measure, and a good one takes from it unless nothing is left.
  lemma RoundSpends(cfg: Config, k: Desk, r: Round)
    requires Partition(k.g) && Clean(k.g) && Measure(k.g, cfg.maxRetries, |k.g.log|) > 0
    ensures var g' := After(cfg, k, r).g;
            && Clean(g') && g'.log == k.g.log
            && Measure(g', cfg.maxRetries, |k.g.log|) + (if IsGood(k.g, r) then 1 else 0)
                 <= Measure(k.g, cfg.maxRetries, |k.g.log|)
  {
    var g' := After(cfg, k, r).g;
    BatchKeeps(cfg, k, r);
    if IsGood(k.g, r) {
      DrainedMeasure(k.g, cfg.maxRetries, |k.g.log|);
      BatchProgress(cfg, k, r);
    } else {
      MeasureFalls(k.g, g', cfg.maxRetries, |k.g.log|, {});
    }
  }

  lemma {:induction false} DrainedMeasure(g: Group, max: nat, n: nat)
    requires n <= |g.log|
    ensures Drained(g) ==> Measure(g, max, n) == 0
  {
    if n > 0 {
      DrainedMeasure(g, max, n - 1);
    }
  }

  lemma {:induction false} PoisonRun(cfg: Config, k: Desk, rounds: seq<Round>, id: nat)
    requires Partition(k.g) && id < |k.g.log| && Explodes(k.g.log[id]) && id !in k.g.acked
    ensures Run(cfg, k, rounds).g.log == k.g.log && id !in Run(cfg, k, rounds).g.acked
    decreases |rounds|
  {
    if rounds != [] {
      BatchKeeps(cfg, k, rounds[0]);
      PoisonRun(cfg, After(cfg, k, rounds[0]), rounds[1..], id);
    }
  }

  /** With enough good rounds - never more than max_retries + 1 per entry - a finite stream
      drains if and only if no unacknowledged payload raises outside the handlers. */
  lemma StreamDrains(cfg: Config, k: Desk, rounds: seq<Round>)
    requires Partition(k.g) && forall id :: id in k.g.pel ==> k.g.pel[id].count >= 1
    requires GoodRounds(cfg, k, rounds) >= (cfg.maxRetries + 1) * |k.g.log|
    ensures Drained(Run(cfg, k, rounds).g) <==> Clean(k.g)
  {
    if Clean(k.g) {
      MeasureAtMost(k.g, cfg.maxRetries, |k.g.log|);
      CleanRunDrains(cfg, k, rounds);
    } else {
      var id :| 0 <= id < |k.g.log| && id !in k.g.acked && Explodes(k.g.log[id]);
      PoisonRun(cfg, k, rounds, id);
    }
  }
}
