/** How often one entry is handled: with a single consumer and Redis up, the
    delivery counts read before each claim make the attempts of an entry exactly 0, 1, 2, ...,
    and dead-lettering happens once, on the attempt numbered max_retries. */
module WorkerHistory {
  import opened Prelude
  import opened Payload
  import opened Streams
  import opened WorkerLoop
  import opened WorkerDrain

  /** The attempt numbers with which an entry was taken up, in order. */
  function AttemptsOf(tries: seq<Try>, id: nat): seq<nat> {
    if tries == [] then []
    else
      var last := tries[|tries| - 1];
      AttemptsOf(tries[..|tries| - 1], id) + if last.id == id then [last.attempts] else []
  }

  /** The dead-letter copies made of an entry. */
  function BurialsOf(dead: seq<Burial>, id: nat): seq<Burial> {
    if dead == [] then []
    else
      var last := dead[|dead| - 1];
      BurialsOf(dead[..|dead| - 1], id) + if last.originalId == id then [last] else []
  }

  function UpTo(n: nat): seq<nat> {
    if n == 0 then [] else UpTo(n - 1) + [n - 1]
  }

  predicate Fails(cfg: Config, env: Env, d: Data, id: nat, attempt: nat)
    requires d.Dict?
  {
    !Succeeds(cfg, env, Message(id, d, attempt))
  }

  ghost predicate FailsBelow(cfg: Config, env: Env, d: Data, id: nat, n: int)
    requires d.Dict?
  {
    forall a: nat :: a < n ==> Fails(cfg, env, d, id, a)
  }

  /** No entry at all raises outside the handlers. */
  ghost predicate Safe(log: seq<Data>) {
    forall x :: 0 <= x < |log| ==> !Explodes(log[x])
  }

  /** A worker about to read `log` for the first time. */
  function Start(log: seq<Data>): (k: Desk)
    ensures Partition(k.g)
  {
    Desk(EmptyGroup.(log := log), [], [])
  }

  lemma TryAppended(tries: seq<Try>, t: Try, id: nat)
    ensures AttemptsOf(tries + [t], id) == AttemptsOf(tries, id) + if t.id == id then [t.attempts] else []
  {
    assert (tries + [t])[..|tries|] == tries;
  }

  lemma BurialAppended(dead: seq<Burial>, b: Burial, id: nat)
    ensures BurialsOf(dead + [b], id) == BurialsOf(dead, id) + if b.originalId == id then [b] else []
  {
    assert (dead + [b])[..|dead|] == dead;
  }

  /** The story of one entry so far. `n` is the number of times it was taken up; `inHand` says
      that it was delivered in the running half-batch and is still waiting its turn there. */
  ghost predicate Told(cfg: Config, env: Env, k: Desk, id: nat, n: nat, inHand: bool)
    requires id < |k.g.log| && k.g.log[id].Dict?
  {
    var d := k.g.log[id];
    && AttemptsOf(k.tries, id) == UpTo(n)
    && (if id >= k.g.last then
          n == 0 && BurialsOf(k.dead, id) == [] && id !in k.g.pel && id !in k.g.acked
        else if id in k.g.pel then
          && BurialsOf(k.dead, id) == [] && id !in k.g.acked
          && n <= cfg.maxRetries && FailsBelow(cfg, env, d, id, n)
          && (!inHand ==> Truthy(d.amount))
          && k.g.pel[id].count == n + if inHand then 1 else 0
        else
          && id in k.g.acked && !inHand
          && if !Truthy(d.amount) then n == 0 && BurialsOf(k.dead, id) == [Burial(d, id, 0)]
             else && 1 <= n <= cfg.maxRetries + 1 && FailsBelow(cfg, env, d, id, n - 1)
                  && if Fails(cfg, env, d, id, n - 1)
                     then n == cfg.maxRetries + 1 && BurialsOf(k.dead, id) == [Burial(d, id, cfg.maxRetries)]
                     else BurialsOf(k.dead, id) == [])
  }

  // What concerns one entry is the same on both desks.
  ghost predicate SameFor(k: Desk, k': Desk, id: nat) {
    && k'.g.log == k.g.log && k'.g.last == k.g.last
    && AttemptsOf(k'.tries, id) == AttemptsOf(k.tries, id)
    && BurialsOf(k'.dead, id) == BurialsOf(k.dead, id)
    && (id in k'.g.acked <==> id in k.g.acked)
    && (id in k'.g.pel <==> id in k.g.pel) && (id in k.g.pel ==> k'.g.pel[id] == k.g.pel[id])
  }

  lemma OtherMessage(cfg: Config, env: Env, k: Desk, m: Message, id: nat)
    requires m.id != id
    ensures SameFor(k, One(cfg, env, k, m).desk, id)
  {
    if !Explodes(m.data) {
      if !Truthy(m.data.amount) {
        BuryOther(env, k, m, id);
      } else {
        TriedOther(cfg, env, k, m, id);
      }
    }
  }

  lemma TriedOther(cfg: Config, env: Env, k: Desk, m: Message, id: nat)
    requires m.id != id && !Explodes(m.data) && Truthy(m.data.amount)
    ensures SameFor(k, One(cfg, env, k, m).desk, id)
  {
    var tried := k.(tries := k.tries + [Try(m.id, m.attempts)]);
    TryAppended(k.tries, Try(m.id, m.attempts), id);
    assert SameFor(k, tried, id);
    if Succeeds(cfg, env, m) {
      AckedOther(env, tried, m.id, id);
    } else if m.attempts >= cfg.maxRetries {
      BuryOther(env, tried, m, id);
    }
  }

  lemma AckedOther(env: Env, k: Desk, x: nat, id: nat)
    requires x != id
    ensures SameFor(k, Acked(env, k, x), id)
  {
  }

  lemma BuryOther(env: Env, k: Desk, m: Message, id: nat)
    requires m.id != id
    ensures SameFor(k, Bury(env, k, m).desk, id)
  {
    BurialAppended(k.dead, Burial(m.data, m.id, m.attempts), id);
    assert SameFor(k, Copied(env, k, m), id);
    AckedOther(env, Copied(env, k, m), m.id, id);
  }

  lemma CarryTold(cfg: Config, env: Env, k: Desk, k': Desk, id: nat, n: nat, inHand: bool)
    requires id < |k.g.log| && k.g.log[id].Dict? && SameFor(k, k', id)
    requires Told(cfg, env, k, id, n, inHand)
    ensures Told(cfg, env, k', id, n, inHand)
  {
  }

  lemma {:induction false} OtherMessages(cfg: Config, env: Env, k: Desk, ms: seq<Message>, id: nat)
    requires forall i :: 0 <= i < |ms| ==> ms[i].id != id
    ensures SameFor(k, All(cfg, env, k, ms).desk, id)
  {
    if ms != [] {
      OtherMessages(cfg, env, k, ms[..|ms| - 1], id);
      OtherMessage(cfg, env, All(cfg, env, k, ms[..|ms| - 1]).desk, ms[|ms| - 1], id);
    }
  }

  /** Taking up the entry whose turn it is. */
  lemma OwnMessage(cfg: Config, env: Env, k: Desk, m: Message, n: nat) returns (n': nat)
    requires RedisUp(env) && m.id < |k.g.log| && m == Message(m.id, k.g.log[m.id], n) && !Explodes(m.data)
    requires m.id < k.g.last && m.id in k.g.pel && Told(cfg, env, k, m.id, n, true)
    requires !Truthy(m.data.amount) ==> n == 0
    ensures One(cfg, env, k, m).desk.g.log == k.g.log
    ensures Told(cfg, env, One(cfg, env, k, m).desk, m.id, n', false)
  {
    TryAppended(k.tries, Try(m.id, m.attempts), m.id);
    BurialAppended(k.dead, Burial(m.data, m.id, m.attempts), m.id);
    if !Truthy(m.data.amount) {
      return 0;
    }
    assert Fails(cfg, env, m.data, m.id, n) <==> !Succeeds(cfg, env, m);
    return n + 1;
  }

  ghost predicate Holds(ms: seq<Message>, id: nat) {
    exists i :: 0 <= i < |ms| && ms[i].id == id
  }

  /** A half-batch around the turn of one message: what comes before and after it concerns
      other entries. */
  lemma TurnOf(cfg: Config, env: Env, k: Desk, ms: seq<Message>, i: nat) returns (mid: Desk)
    requires RedisUp(env) && i < |ms|
    requires forall j :: 0 <= j < |ms| ==> !Explodes(ms[j].data) && (j != i ==> ms[j].id != ms[i].id)
    ensures SameFor(k, mid, ms[i].id)
    ensures SameFor(One(cfg, env, mid, ms[i]).desk, All(cfg, env, k, ms).desk, ms[i].id)
  {
    var id := ms[i].id;
    var a, m, b := ms[..i], ms[i], ms[i + 1..];
    assert ms == a + ([m] + b);
    LastAttempt(cfg, env, k, a);
    OtherMessages(cfg, env, k, a, id);
    mid := All(cfg, env, k, a).desk;
    AllSplit(cfg, env, k, a, [m] + b);
    AllSplit(cfg, env, mid, [m], b);
    assert [m][..0] == [];
    assert All(cfg, env, mid, [m]) == One(cfg, env, mid, m);
    OtherMessages(cfg, env, One(cfg, env, mid, m).desk, b, id);
  }

  /** A half-batch moves the story of every entry it holds from "in hand" to told, and leaves
      the others alone. */
  lemma AllTold(cfg: Config, env: Env, k: Desk, ms: seq<Message>, id: nat, n: nat) returns (n': nat)
    requires RedisUp(env) && id < |k.g.log| && k.g.log[id].Dict?
    requires forall i :: 0 <= i < |ms| ==> !Explodes(ms[i].data)
    requires forall i, j :: 0 <= i < j < |ms| ==> ms[i].id != ms[j].id
    requires forall i :: 0 <= i < |ms| && ms[i].id == id ==> ms[i] == Message(id, k.g.log[id], n)
    requires Holds(ms, id) ==> id < k.g.last && id in k.g.pel && (!Truthy(k.g.log[id].amount) ==> n == 0)
    requires Told(cfg, env, k, id, n, Holds(ms, id))
    ensures All(cfg, env, k, ms).desk.g.log == k.g.log
    ensures Told(cfg, env, All(cfg, env, k, ms).desk, id, n', false)
  {
    if Holds(ms, id) {
      var i :| 0 <= i < |ms| && ms[i].id == id;
      var mid := TurnOf(cfg, env, k, ms, i);
      CarryTold(cfg, env, k, mid, id, n, true);
      n' := OwnMessage(cfg, env, mid, ms[i], n);
      CarryTold(cfg, env, One(cfg, env, mid, ms[i]).desk, All(cfg, env, k, ms).desk, id, n', false);
    } else {
      OtherMessages(cfg, env, k, ms, id);
      CarryTold(cfg, env, k, All(cfg, env, k, ms).desk, id, n, false);
      n' := n;
    }
  }

  lemma {:induction false} AllSplit(cfg: Config, env: Env, k: Desk, a: seq<Message>, b: seq<Message>)
    ensures var first := All(cfg, env, k, a);
            All(cfg, env, k, a + b) == if first.aborted then first else All(cfg, env, first.desk, b)
  {
    if b == [] {
      assert a + b == a;
    } else {
      AllSplit(cfg, env, k, a, b[..|b| - 1]);
      assert (a + b)[..|a + b| - 1] == a + b[..|b| - 1];
    }
  }

  lemma StaleHalfTold(cfg: Config, env: Env, k: Desk, now: int, id: nat, n: nat) returns (n': nat)
    requires RedisUp(env) && Partition(k.g) && id < |k.g.log| && Safe(k.g.log)
    requires Told(cfg, env, k, id, n, false)
    ensures StaleHalf(cfg, env, k, now).desk.g.log == k.g.log && !StaleHalf(cfg, env, k, now).aborted
    ensures Told(cfg, env, StaleHalf(cfg, env, k, now).desk, id, n', false)
  {
    var ids := StaleIds(k.g, now);
    var ms := ClaimedMessages(k.g, ids);
    IdleOfDistinct(k.g, Pending(k.g, 0, WINDOW), now, MIN_IDLE_MS);
    var claimed := k.(g := ClaimAll(k.g, AsSet(ids), now));
    assert Holds(ms, id) <==> id in ids by {
      if id in ids {
        var i :| 0 <= i < |ids| && ids[i] == id;
        assert ms[i].id == id;
      }
    }
    assert Told(cfg, env, claimed, id, n, Holds(ms, id));
    LastAttempt(cfg, env, claimed, ms);
    n' := AllTold(cfg, env, claimed, ms, id, n);
  }

  lemma NewHalfTold(cfg: Config, env: Env, k: Desk, readAt: int, id: nat, n: nat) returns (n': nat)
    requires RedisUp(env) && Partition(k.g) && id < |k.g.log| && Safe(k.g.log)
    requires Told(cfg, env, k, id, n, false)
    ensures NewHalf(cfg, env, k, readAt).desk.g.log == k.g.log
    ensures Told(cfg, env, NewHalf(cfg, env, k, readAt).desk, id, n', false)
  {
    var count := Min(WINDOW, |k.g.log| - k.g.last);
    var ms := NewMessages(k.g, count);
    HoldsNew(k.g, count, id);
    DeliveredTold(cfg, env, k, count, readAt, id, n);
    n' := AllTold(cfg, env, k.(g := Deliver(k.g, count, readAt)), ms, id, n);
  }

  lemma HoldsNew(g: Group, count: nat, id: nat)
    requires g.last + count <= |g.log|
    ensures Holds(NewMessages(g, count), id) <==> g.last <= id < g.last + count
  {
    if g.last <= id < g.last + count {
      assert NewMessages(g, count)[id - g.last].id == id;
    }
  }

  lemma DeliveredTold(cfg: Config, env: Env, k: Desk, count: nat, now: int, id: nat, n: nat)
    requires Partition(k.g) && id < |k.g.log| && Safe(k.g.log) && k.g.last + count <= |k.g.log|
    requires Told(cfg, env, k, id, n, false)
    ensures Told(cfg, env, k.(g := Deliver(k.g, count, now)), id, n, k.g.last <= id < k.g.last + count)
  {
  }

  /** The story holds after any number of batches. */
  lemma {:induction false} RunTold(cfg: Config, env: Env, k: Desk, rounds: seq<Round>, id: nat, n: nat)
    returns (n': nat)
    requires RedisUp(env) && Partition(k.g) && id < |k.g.log| && Safe(k.g.log)
    requires forall r :: r in rounds ==> r.env == env
    requires Told(cfg, env, k, id, n, false)
    ensures Run(cfg, k, rounds).g.log == k.g.log
    ensures Told(cfg, env, Run(cfg, k, rounds), id, n', false)
    decreases |rounds|
  {
    if rounds == [] {
      return n;
    }
    var r := rounds[0];
    n' := StaleHalfTold(cfg, env, k, r.now, id, n);
    n' := NewHalfTold(cfg, env, StaleHalf(cfg, env, k, r.now).desk, r.readAt, id, n');
    n' := RunTold(cfg, env, After(cfg, k, r), rounds[1..], id, n');
  }

  /** A message with an amount whose handling always fails is handled exactly max_retries + 1
      times, with attempts 0, 1, ..., max_retries, then dead-lettered exactly once with its own
      data and acknowledged; before that point it has been handled with a prefix of those
      attempts and has no dead-letter copy. */
  lemma AlwaysFailingMessage(cfg: Config, env: Env, log: seq<Data>, rounds: seq<Round>, id: nat)
    requires RedisUp(env) && id < |log| && Safe(log)
    requires forall r :: r in rounds ==> r.env == env
    requires Truthy(log[id].amount)
    requires forall a: nat :: !Succeeds(cfg, env, Message(id, log[id], a))
    ensures var end := Run(cfg, Start(log), rounds);
            if id in end.g.acked
            then AttemptsOf(end.tries, id) == UpTo(cfg.maxRetries + 1) &&
                 BurialsOf(end.dead, id) == [Burial(log[id], id, cfg.maxRetries)]
            else BurialsOf(end.dead, id) == [] &&
                 exists n: nat :: n <= cfg.maxRetries && AttemptsOf(end.tries, id) == UpTo(n)
    ensures GoodRounds(cfg, Start(log), rounds) >= (cfg.maxRetries + 1) * |log| ==>
              id in Run(cfg, Start(log), rounds).g.acked
  {
    var start := Start(log);
    var n := RunTold(cfg, env, start, rounds, id, 0);
    var end := Run(cfg, start, rounds);
    if GoodRounds(cfg, start, rounds) >= (cfg.maxRetries + 1) * |log| {
      StreamDrains(cfg, start, rounds);
    }
    if id in end.g.acked {
      assert Fails(cfg, env, log[id], id, n - 1);
    }
  }

  /** The attempts of any entry, failing or not, are always 0, 1, 2, ... without gaps or repeats,
      never past max_retries; it is acknowledged by its first success or buried once. */
  lemma AttemptsAreConsecutive(cfg: Config, env: Env, log: seq<Data>, rounds: seq<Round>, id: nat)
    requires RedisUp(env) && id < |log| && Safe(log)
    requires forall r :: r in rounds ==> r.env == env
    ensures var end := Run(cfg, Start(log), rounds);
            var n := |AttemptsOf(end.tries, id)|;
            && AttemptsOf(end.tries, id) == UpTo(n) && n <= cfg.maxRetries + 1
            && (forall a: nat :: a + 1 < n ==> !Succeeds(cfg, env, Message(id, log[id], a)))
            && (id in end.g.acked && n > 0 ==>
                  (BurialsOf(end.dead, id) == [] <==> Succeeds(cfg, env, Message(id, log[id], n - 1))))
            && (id in end.g.acked && n == 0 ==> BurialsOf(end.dead, id) == [Burial(log[id], id, 0)])
  {
    var n := RunTold(cfg, env, Start(log), rounds, id, 0);
    ToldMeans(cfg, env, Run(cfg, Start(log), rounds), id, n);
  }

  lemma ToldMeans(cfg: Config, env: Env, k: Desk, id: nat, n: nat)
    requires id < |k.g.log| && k.g.log[id].Dict? && Told(cfg, env, k, id, n, false)
    ensures AttemptsOf(k.tries, id) == UpTo(n) && |UpTo(n)| == n <= cfg.maxRetries + 1
    ensures forall a: nat :: a + 1 < n ==> !Succeeds(cfg, env, Message(id, k.g.log[id], a))
    ensures id in k.g.acked && n > 0 ==>
              (BurialsOf(k.dead, id) == [] <==> Succeeds(cfg, env, Message(id, k.g.log[id], n - 1)))
    ensures id in k.g.acked && n == 0 ==> BurialsOf(k.dead, id) == [Burial(k.g.log[id], id, 0)]
  {
    UpToSize(n);
    forall a: nat | a + 1 < n
      ensures !Succeeds(cfg, env, Message(id, k.g.log[id], a))
    {
      assert Fails(cfg, env, k.g.log[id], id, a);
    }
    if n > 0 && id in k.g.acked {
      assert Fails(cfg, env, k.g.log[id], id, n - 1) <==> !Succeeds(cfg, env, Message(id, k.g.log[id], n - 1));
    }
  }

  lemma {:induction false} UpToSize(n: nat)
    ensures |UpTo(n)| == n
  {
    if n > 0 {
      UpToSize(n - 1);
    }
  }
}
