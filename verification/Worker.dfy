/** app/worker.py: the consumer loop's batch, first on values and then as the class runs it. */
module WorkerLoop {
  import opened Prelude
  import opened Payload
  import opened Streams

  const MIN_IDLE_MS: int := 6000
  const WINDOW: nat := 10

  // How a handler call ends.
  datatype Outcome = Returned(value: Option<bool>) | IgnoreAndAck | CriticalReject | OtherError

  // A dead-letter copy made by the worker.
  datatype Burial = Burial(data: Data, originalId: nat, attempts: nat)

  // A message taken up by `_process_message`.
  datatype Try = Try(id: nat, attempts: nat)

  datatype Config = Config(maxRetries: nat, handlers: set<string>, hasDefault: bool)

  // What the outside decides during a batch: how each handler call ends, by id and attempt; how
  // the dead-letter write and the acknowledgement of each message are answered; and how the
  // commands that fetch messages fare.
  datatype Env = Env(
    verdict: (nat, nat) -> Outcome, dlq: nat -> Reply, ack: nat -> Reply, claims: ClaimFault, read: Reply)

  /** No Redis command raises. */
  ghost predicate RedisUp(env: Env) {
    && (forall id :: env.dlq(id).Answered? && env.ack(id).Answered?)
    && env.claims.NoFault? && env.read.Answered?
  }

  datatype Desk = Desk(g: Group, dead: seq<Burial>, tries: seq<Try>)

  // `aborted`: an exception left the batch; the loop logs it and starts the next batch.
  datatype Step = Step(desk: Desk, aborted: bool)

  /** Payloads that raise inside the batch but outside any handler: a non-dictionary has no
      `get`, and an unhashable `type` cannot be looked up among the handlers. */
  predicate Explodes(d: Data) {
    d.NotDict? || (Truthy(d.amount) && d.kind == Some(Composite(true)))
  }

  predicate HasHandler(cfg: Config, d: Data)
    requires d.Dict?
  {
    (d.kind.Some? && d.kind.value.Text? && d.kind.value.s != "" && d.kind.value.s in cfg.handlers) || cfg.hasDefault
  }

  predicate Succeeds(cfg: Config, env: Env, m: Message)
    requires m.data.Dict?
  {
    HasHandler(cfg, m.data) &&
    match env.verdict(m.id, m.attempts)
    case Returned(value) => value.None? || value.value
    case IgnoreAndAck => true
    case CriticalReject => false
    case OtherError => false
  }

  function Copied(env: Env, k: Desk, m: Message): Desk {
    if TakesEffect(env.dlq(m.id)) then k.(dead := k.dead + [Burial(m.data, m.id, m.attempts)]) else k
  }

  function Acked(env: Env, k: Desk, id: nat): Desk {
    if TakesEffect(env.ack(id)) then k.(g := Acknowledge(k.g, id)) else k
  }

  /** Dead-letter copy first, acknowledgement after it; the step is aborted when either raises. */
  function Bury(env: Env, k: Desk, m: Message): Step {
    if env.dlq(m.id).Raised? then Step(Copied(env, k, m), true)
    else Step(Acked(env, Copied(env, k, m), m.id), env.ack(m.id).Raised?)
  }

  function One(cfg: Config, env: Env, k: Desk, m: Message): Step {
    if Explodes(m.data) then Step(k, true)
    else if !Truthy(m.data.amount) then Bury(env, k, m)
    else
      var tried := k.(tries := k.tries + [Try(m.id, m.attempts)]);
      if Succeeds(cfg, env, m) then Step(Acked(env, tried, m.id), env.ack(m.id).Raised?)
      else if m.attempts >= cfg.maxRetries then Step(Bury(env, tried, m).desk, false)
      else Step(tried, false)
  }

  function All(cfg: Config, env: Env, k: Desk, ms: seq<Message>): Step {
    if ms == [] then Step(k, false)
    else
      var before := All(cfg, env, k, ms[..|ms| - 1]);
      if before.aborted then before else One(cfg, env, before.desk, ms[|ms| - 1])
  }

  function StaleIds(g: Group, now: int): seq<nat> {
    IdleOf(g, Pending(g, 0, WINDOW), now, MIN_IDLE_MS)
  }

  lemma {:induction false} AllPartition(cfg: Config, env: Env, k: Desk, ms: seq<Message>)
    requires Partition(k.g)
    ensures Partition(All(cfg, env, k, ms).desk.g)
  {
    if ms != [] {
      AllPartition(cfg, env, k, ms[..|ms| - 1]);
    }
  }

  /** First half of a batch: claim the stale messages of the window, then process them. */
  function StaleHalf(cfg: Config, env: Env, k: Desk, now: int): (half: Step)
    requires Partition(k.g)
    ensures Partition(half.desk.g)
  {
    var window := Pending(k.g, 0, WINDOW);
    var n := ClaimedUpTo(k.g, window, now, MIN_IDLE_MS, env.claims);
    var claimed := k.(g := ClaimAll(k.g, AsSet(IdleUpTo(k.g, window, n, now, MIN_IDLE_MS)), now));
    AllPartition(cfg, env, claimed, ClaimedMessages(k.g, StaleIds(k.g, now)));
    if ClaimBreaks(k.g, window, now, MIN_IDLE_MS, env.claims) then Step(claimed, true)
    else All(cfg, env, claimed, ClaimedMessages(k.g, StaleIds(k.g, now)))
  }

  /** Second half: read new messages and process them. */
  function NewHalf(cfg: Config, env: Env, k: Desk, readAt: int): (half: Step)
    requires Partition(k.g)
    ensures Partition(half.desk.g)
  {
    var n := Min(WINDOW, |k.g.log| - k.g.last);
    var delivered := if TakesEffect(env.read) then k.(g := Deliver(k.g, n, readAt)) else k;
    AllPartition(cfg, env, delivered, NewMessages(k.g, n));
    if env.read.Raised? then Step(delivered, true)
    else All(cfg, env, delivered, NewMessages(k.g, n))
  }

  /** The claims are made at `now`; the read is answered at `readAt`, when all stale messages have
      been handled and the read has blocked as long as it may. */
  function Batch(cfg: Config, env: Env, k: Desk, now: int, readAt: int): (batch: Step)
    requires Partition(k.g)
    ensures Partition(batch.desk.g)
  {
    var half := StaleHalf(cfg, env, k, now);
    if half.aborted then half else NewHalf(cfg, env, half.desk, readAt)
  }

  lemma {:induction false} AbortIsFinal(cfg: Config, env: Env, k: Desk, ms: seq<Message>, i: nat)
    requires i <= |ms| && All(cfg, env, k, ms[..i]).aborted
    ensures All(cfg, env, k, ms) == All(cfg, env, k, ms[..i])
  {
    if i == |ms| {
      assert ms[..i] == ms;
    } else {
      assert ms[..|ms| - 1][..i] == ms[..i];
      AbortIsFinal(cfg, env, k, ms[..|ms| - 1], i);
    }
  }

  class Worker {
    const cfg: Config
    const consumer: ConsumerGroup
    var dead: seq<Burial>
    var tries: seq<Try>

    constructor (cfg: Config, consumer: ConsumerGroup)
      ensures this.cfg == cfg && this.consumer == consumer && dead == [] && tries == []
    {
      this.cfg, this.consumer := cfg, consumer;
      dead, tries := [], [];
    }

    ghost function State(): Desk
      reads this, consumer
    {
      Desk(consumer.g, dead, tries)
    }

    /** False stands for "not handled": no handler, a rejection, or any other error. */
    method ProcessMessage(m: Message, env: Env) returns (ok: bool)
      requires !Explodes(m.data) && Truthy(m.data.amount)
      modifies this`tries
      ensures ok == Succeeds(cfg, env, m)
      ensures ok <==>
                && (cfg.hasDefault ||
                    exists name :: name in cfg.handlers && name != "" && m.data.kind == Some(Text(name)))
                && env.verdict(m.id, m.attempts) in {Returned(None), Returned(Some(true)), IgnoreAndAck}
      ensures tries == old(tries) + [Try(m.id, m.attempts)]
    {
      tries := tries + [Try(m.id, m.attempts)];
      if !HasHandler(cfg, m.data) {
        return false;
      }
      match env.verdict(m.id, m.attempts) {
        case Returned(value) => ok := if value.Some? then value.value else true;
        case IgnoreAndAck => ok := true;
        case CriticalReject => ok := false;
        case OtherError => ok := false;
      }
    }

    method MoveToDeadLetter(m: Message)
      modifies this`dead
      ensures dead == old(dead) + [Burial(m.data, m.id, m.attempts)]
    {
      dead := dead + [Burial(m.data, m.id, m.attempts)];
    }

    /** Any error here is swallowed: the message stays pending, perhaps with its copy written. A
        message that was pending and is not any more has its own data as the last dead letter. */
    method HandleFailure(m: Message, env: Env)
      requires Partition(consumer.g)
      modifies this`dead, consumer
      ensures State() == if m.attempts >= cfg.maxRetries then Bury(env, old(State()), m).desk else old(State())
      ensures Partition(consumer.g)
      ensures m.id in old(consumer.g).pel && m.id !in consumer.g.pel ==>
                m.attempts >= cfg.maxRetries && dead == old(dead) + [Burial(m.data, m.id, m.attempts)]
      ensures forall x :: x != m.id ==> (x in consumer.g.pel <==> x in old(consumer.g).pel)
    {
      if m.attempts >= cfg.maxRetries {
        var _ := BuryMessage(m, env);
      }
    }

    /** The dead-letter write and the acknowledgement after it. */
    method BuryMessage(m: Message, env: Env) returns (raised: bool)
      requires Partition(consumer.g)
      modifies this`dead, consumer
      ensures Partition(consumer.g)
      ensures Step(State(), raised) == Bury(env, old(State()), m)
    {
      if TakesEffect(env.dlq(m.id)) {
        MoveToDeadLetter(m);
      }
      if env.dlq(m.id).Raised? {
        return true;
      }
      var done;
      done, raised := consumer.AcknowledgeMessage(m.id, env.ack(m.id));
    }

    /** The body of both loops of the batch; `aborted` when an exception leaves it. An entry is
        acknowledged only if its handler succeeded or its own data is the last dead letter. */
    method ProcessOne(m: Message, env: Env) returns (aborted: bool)
      requires Partition(consumer.g)
      modifies this, consumer
      ensures Partition(consumer.g)
      ensures Step(State(), aborted) == One(cfg, env, old(State()), m)
      ensures forall id :: id in consumer.g.acked && id !in old(consumer.g).acked ==>
                && id == m.id && m.data.Dict?
                && ((Truthy(m.data.amount) && Succeeds(cfg, env, m)) ||
                    dead == old(dead) + [Burial(m.data, m.id, m.attempts)])
      ensures consumer.g.log == old(consumer.g).log && tries <= old(tries) + [Try(m.id, m.attempts)]
      ensures m.data.NotDict? || (Truthy(m.data.amount) && m.data.kind == Some(Composite(true))) ==>
                aborted && State() == old(State())
    {
      if Explodes(m.data) {
        return true;
      }
      if !Truthy(m.data.amount) {
        aborted := BuryMessage(m, env);
        return;
      }
      var ok := ProcessMessage(m, env);
      if ok {
        var done;
        done, aborted := consumer.AcknowledgeMessage(m.id, env.ack(m.id));
        return;
      }
      HandleFailure(m, env);
      return false;
    }

    method ProcessAll(ms: seq<Message>, env: Env) returns (aborted: bool)
      requires Partition(consumer.g)
      modifies this, consumer
      ensures Partition(consumer.g)
      ensures Step(State(), aborted) == All(cfg, env, old(State()), ms)
    {
      ghost var was := State();
      for i := 0 to |ms|
        invariant Partition(consumer.g)
        invariant Step(State(), false) == All(cfg, env, was, ms[..i])
      {
        assert ms[..i + 1][..i] == ms[..i];
        aborted := ProcessOne(ms[i], env);
        if aborted {
          AbortIsFinal(cfg, env, was, ms, i + 1);
          return true;
        }
      }
      assert ms[..|ms|] == ms;
      return false;
    }

    /** The first loop of the batch, over what has been claimed. */
    method ProcessStale(now: int, env: Env) returns (aborted: bool)
      requires Partition(consumer.g)
      modifies this, consumer
      ensures Partition(consumer.g)
      ensures Step(State(), aborted) == StaleHalf(cfg, env, old(State()), now)
    {
      var stale;
      stale, aborted := consumer.ClaimStaleMessage(MIN_IDLE_MS, WINDOW, now, env.claims);
      if aborted {
        return;
      }
      aborted := ProcessAll(stale, env);
    }

    /** The second loop, over what has been read. */
    method ProcessNew(readAt: int, env: Env) returns (aborted: bool)
      requires Partition(consumer.g)
      modifies this, consumer
      ensures Partition(consumer.g)
      ensures Step(State(), aborted) == NewHalf(cfg, env, old(State()), readAt)
    {
      var messages;
      messages, aborted := consumer.ReadMessages(WINDOW, readAt, env.read);
      if aborted {
        return;
      }
      aborted := ProcessAll(messages, env);
    }

    method ProcessBatch(now: int, readAt: int, env: Env) returns (aborted: bool)
      requires Partition(consumer.g)
      modifies this, consumer
      ensures Partition(consumer.g)
      ensures Step(State(), aborted) == Batch(cfg, env, old(State()), now, readAt)
    {
      aborted := ProcessStale(now, env);
      if aborted {
        return;
      }
      aborted := ProcessNew(readAt, env);
    }
  }
}
