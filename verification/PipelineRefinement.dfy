/** The pipeline refines an exactly-once matcher: seen through its tables, its amount pool and
    its ledger, every action is nothing at all or one atomic step of a machine that settles each
    SMS at most once and gives its amount back at most once. Dropping from a run everything that
    workers do with an SMS that is already linked leaves a run of that machine with the same end. */
module PipelineRefinement {
  import opened Prelude
  import opened Amounts
  import opened Pipeline
  import opened PipelineStream
  import opened PipelineMatch
  import opened PipelineSafety
  import D = Orders
  import P = Payments

  // ---------- the exactly-once matcher ----------

  // Amount by SMS id, the committed orders and intents, the settled SMS whose amount has not
  // been given back, and the amounts.
  datatype Matcher = Matcher(
    received: map<nat, int>, db: D.Db, owing: set<nat>, pool: Pool, lost: set<int>, seeded: set<int>)

  // The Redis commands of order creation.
  datatype Command = NoCommand | TakeFree(v: int) | MarkPending(v: int) | UnmarkPending(v: int) | ReturnFree(v: int)

  datatype MatchStep =
    | Stutter
    | Receive(tx: nat, amount: int)
    | Open(id: nat, user: nat, base: int, v: int)
    | Settle(intent: nat, tx: nat)
    | GiveBack(tx: nat, reached: bool)
    | Approve(intent: nat)
    | Redis(command: Command, leaked: set<int>)
    | Rebuild

  ghost predicate CanStep(m: Matcher, step: MatchStep) {
    match step
    case Stutter => true
    case Receive(tx, _) => tx !in m.received
    case Open(id, _, _, v) => id !in m.db.intents && v !in D.PendingAmounts(m.db)
    case Settle(i, tx) =>
      // The SMS is known, unused, and of exactly the amount of a PENDING intent.
      && tx in m.received && !P.Linked(m.db, tx)
      && i in m.db.intents && m.db.intents[i].status.Pending? && m.db.intents[i].exactAmount == m.received[tx]
    case GiveBack(tx, _) => tx in m.owing && tx in m.received && P.Linked(m.db, tx)
    case Approve(i) => i in m.db.intents && m.db.intents[i].status.Pending?
    case Redis(c, _) => c.TakeFree? ==> c.v in m.pool.free
    case Rebuild => true
  }

  function Execute(p: Pool, c: Command): Pool {
    match c
    case NoCommand => p
    case TakeFree(v) => Pop(p, v)
    case MarkPending(v) => Reserve(p, v)
    case UnmarkPending(v) => Unreserve(p, v)
    case ReturnFree(v) => AddFree(p, v)
  }

  function Return(m: Matcher, v: int): Matcher {
    m.(pool := Release(m.pool, v), lost := m.lost + if v in m.pool.pending then {} else {v})
  }

  function Step(m: Matcher, step: MatchStep): Matcher {
    match step
    case Stutter => m
    case Receive(tx, amount) => m.(received := m.received[tx := amount])
    case Open(id, user, base, v) => m.(db := D.Insert(m.db, id, user, base, v), lost := m.lost - {v})
    case Settle(i, tx) =>
      if i in m.db.intents then m.(db := P.Pay(m.db, i, Some(tx)), owing := m.owing + {tx}) else m
    case GiveBack(tx, reached) =>
      if tx !in m.received then m
      else if reached then Return(m.(owing := m.owing - {tx}), m.received[tx])
      else m.(owing := m.owing - {tx}, lost := m.lost + {m.received[tx]})
    case Approve(i) =>
      if i in m.db.intents then Return(m.(db := P.Pay(m.db, i, None)), m.db.intents[i].exactAmount) else m
    case Redis(c, leaked) => m.(pool := Execute(m.pool, c), lost := m.lost + leaked)
    case Rebuild =>
      var pool := Rebuilt(m.pool, m.db, m.seeded);
      m.(pool := pool, lost := (m.lost + m.pool.free) - pool.amounts)
  }

  /** The settled SMS whose worker has not yet released the amount. */
  function Owing(s: State): set<nat> {
    set w | w in s.workers && IsCommitted(s, w) :: TxOf(Head(s, w).data)
  }

  function Seen(s: State): Matcher {
    Matcher(map tx | tx in s.sms :: s.sms[tx].amount, s.db, Owing(s), s.pool, s.lost, s.seeded)
  }

  // ---------- what an action looks like ----------

  // A command that was interrupted, as far as it got.
  function Got(h: Hold, applied: bool): Command {
    if applied && h.Popped? then MarkPending(h.v)
    else if applied && h.Refused? then UnmarkPending(h.v)
    else NoCommand
  }

  function OrderStepOf(s: State, q: nat, step: OrderStep): MatchStep
    requires OrderCan(s, q, step)
  {
    match step
    case OrderPop(v) => Redis(TakeFree(v), {})
    case OrderReserve => Redis(MarkPending(s.requests[q].hold.v), {})
    case OrderUnreserve => Redis(UnmarkPending(s.requests[q].hold.v), {})
    case OrderAddFree => Redis(ReturnFree(s.requests[q].hold.v), {})
    case OrderCommit(id) => Open(id, s.requests[q].user, s.requests[q].amount, s.requests[q].hold.v)
    case OrderLeak(applied) => Redis(Got(s.requests[q].hold, applied), TakenBy(s.requests[q]))
    case FallbackAfterLeak(applied) => Redis(Got(s.requests[q].hold, applied), TakenBy(s.requests[q]))
    case FallbackAfterPop(taken) => if taken.Some? then Redis(TakeFree(taken.value), {taken.value}) else Stutter
    case _ => Stutter
  }

  function WorkerStepOf(s: State, w: nat, step: WorkerStep): MatchStep
    requires WorkerCan(s, w, step)
  {
    match step
    case WorkerCommit => Settle(s.workers[w].stage.intent, TxOf(Head(s, w).data))
    case WorkerRelease => GiveBack(TxOf(Head(s, w).data), true)
    case WorkerReleaseRaises(applied) => GiveBack(TxOf(Head(s, w).data), applied)
    case WorkerCrash => if IsCommitted(s, w) then GiveBack(TxOf(Head(s, w).data), false) else Stutter
    case _ => Stutter
  }

  function StepOf(s: State, a: Action): MatchStep
    requires Enabled(s, a)
  {
    match a
    case Accept(tx, _, sms, _, _) => Receive(tx, sms.amount)
    case WorkerDoes(w, step) => WorkerStepOf(s, w, step)
    case AdminDoes(_, Confirm(i)) => Approve(i)
    case OrderDoes(q, step) => OrderStepOf(s, q, step)
    case Restart => Rebuild
    case _ => Stutter
  }

  // ---------- one debtor for each SMS ----------

  /** The worker has paid with this SMS and still has to release its amount. */
  predicate MustRelease(s: State, w: nat, tx: nat) {
    IsCommitted(s, w) && TxOf(Head(s, w).data) == tx
  }

  ghost predicate DebtInv(s: State) {
    forall v, w, tx :: MustRelease(s, v, tx) && MustRelease(s, w, tx) ==> v == w
  }

  // Only a commit puts a worker under the obligation, and a release ends it.
  lemma ObligationsArise(s: State, a: Action, w: nat, tx: nat)
    requires Enabled(s, a) && MustRelease(Apply(s, a), w, tx)
    ensures MustRelease(s, w, tx) || (StepOf(s, a).Settle? && StepOf(s, a).tx == tx && a.worker == w)
    ensures StepOf(s, a).GiveBack? ==> a.worker != w
  {
    match a
    case Accept(x, row, sms, trace, now) =>
    case RelayDoes(r, step) =>
    case WorkerDoes(v, step) =>
      if v == w {
        WorkerObligations(s, w, step, tx);
      } else {
        OthersUntouched(s, v, step, w);
      }
    case AdminDoes(ad, step) =>
    case OrderDoes(q, step) =>
    case Restart =>
  }

  lemma OthersUntouched(s: State, v: nat, step: WorkerStep, w: nat)
    requires WorkerCan(s, v, step) && v != w
    ensures w in WorkerNext(s, v, step).workers <==> w in s.workers
    ensures w in s.workers ==> WorkerNext(s, v, step).workers[w] == s.workers[w]
  {
  }

  lemma WorkerObligations(s: State, w: nat, step: WorkerStep, tx: nat)
    requires WorkerCan(s, w, step) && MustRelease(WorkerNext(s, w, step), w, tx)
    ensures step.WorkerCommit? && TxOf(Head(s, w).data) == tx
  {
    var s' := WorkerNext(s, w, step);
    if MovesStage(step) {
      assert MovedStage(s, s', w);
    }
  }

  lemma ObligedIsLinked(s: State, w: nat, tx: nat)
    requires MatchInv(s) && MustRelease(s, w, tx)
    ensures P.Linked(s.db, tx)
  {
    assert LockOk(s.db, s.workers[w]);
  }

  lemma DebtInvKept(s: State, a: Action)
    requires MatchInv(s) && DebtInv(s) && Enabled(s, a)
    ensures DebtInv(Apply(s, a))
  {
    forall v, w, tx | MustRelease(Apply(s, a), v, tx) && MustRelease(Apply(s, a), w, tx)
      ensures v == w
    {
      ObligationsArise(s, a, v, tx);
      ObligationsArise(s, a, w, tx);
      if MustRelease(s, v, tx) {
        NoDebtBeforeSettling(s, a, v, tx);
      } else if MustRelease(s, w, tx) {
        NoDebtBeforeSettling(s, a, w, tx);
      }
    }
  }

  lemma NoDebtBeforeSettling(s: State, a: Action, w: nat, tx: nat)
    requires MatchInv(s) && Enabled(s, a) && MustRelease(s, w, tx)
    ensures !(StepOf(s, a).Settle? && StepOf(s, a).tx == tx)
  {
    ObligedIsLinked(s, w, tx);
    if StepOf(s, a).Settle? {
      FlushedIsUnlinked(s, a.worker);
    }
  }

  lemma FlushedIsUnlinked(s: State, w: nat)
    requires MatchInv(s) && CanCommit(s, w)
    ensures !P.Linked(s.db, TxOf(Head(s, w).data))
  {
    assert LockOk(s.db, s.workers[w]);
  }

  // ---------- refinement ----------

  lemma CommitSettles(s: State, w: nat)
    requires Inv(s) && CanCommit(s, w)
    ensures CanStep(Seen(s), Settle(s.workers[w].stage.intent, TxOf(Head(s, w).data)))
  {
    HeadIsPayment(s, w);
    assert LockOk(s.db, s.workers[w]);
  }

  // The same workers owe the same.
  lemma OwingSame(s: State, s': State)
    requires forall w, tx :: MustRelease(s', w, tx) <==> MustRelease(s, w, tx)
    ensures Owing(s') == Owing(s)
  {
    forall tx | tx in Owing(s)
      ensures tx in Owing(s')
    {
      var w :| w in s.workers && IsCommitted(s, w) && TxOf(Head(s, w).data) == tx;
      assert MustRelease(s', w, tx);
    }
    forall tx | tx in Owing(s')
      ensures tx in Owing(s)
    {
      var w :| w in s'.workers && IsCommitted(s', w) && TxOf(Head(s', w).data) == tx;
      assert MustRelease(s, w, tx);
    }
  }

  lemma OwingMember(s: State, tx: nat)
    ensures tx in Owing(s) <==> exists w :: MustRelease(s, w, tx)
  {
    if w :| MustRelease(s, w, tx) {
      assert w in s.workers && IsCommitted(s, w) && TxOf(Head(s, w).data) == tx;
    }
    if tx in Owing(s) {
      var w :| w in s.workers && IsCommitted(s, w) && TxOf(Head(s, w).data) == tx;
      assert MustRelease(s, w, tx);
    }
  }

  // Worker w's obligation changes, and nobody else's.
  ghost predicate OnlyDebtOf(s: State, s': State, w: nat) {
    forall v, tx :: v != w ==> (MustRelease(s', v, tx) <==> MustRelease(s, v, tx))
  }

  lemma OthersDebts(s: State, w: nat, step: WorkerStep)
    requires WorkerCan(s, w, step)
    ensures OnlyDebtOf(s, WorkerNext(s, w, step), w)
  {
    forall v | v != w {
      OthersUntouched(s, w, step, v);
    }
  }

  lemma CommitOwes(s: State, w: nat)
    requires CanCommit(s, w)
    ensures Owing(DoWorkerCommit(s, w)) == Owing(s) + {TxOf(Head(s, w).data)}
  {
    var s', tx := DoWorkerCommit(s, w), TxOf(Head(s, w).data);
    OthersDebts(s, w, WorkerCommit);
    assert MustRelease(s', w, tx);
    forall x
      ensures x in Owing(s') <==> x in Owing(s) + {tx}
    {
      OwingMember(s, x);
      OwingMember(s', x);
      assert MustRelease(s', w, x) <==> x == tx;
      assert !MustRelease(s, w, x);
    }
  }

  lemma ReleaseSettlesDebt(s: State, w: nat, step: WorkerStep)
    requires DebtInv(s) && WorkerCan(s, w, step) && WorkerStepOf(s, w, step).GiveBack?
    ensures IsCommitted(s, w) && Owing(WorkerNext(s, w, step)) == Owing(s) - {TxOf(Head(s, w).data)}
  {
    var s', tx := WorkerNext(s, w, step), TxOf(Head(s, w).data);
    OthersDebts(s, w, step);
    assert MustRelease(s, w, tx);
    forall x
      ensures x in Owing(s') <==> x in Owing(s) && x != tx
    {
      OwingMember(s, x);
      OwingMember(s', x);
      assert !MustRelease(s', w, x);
      assert MustRelease(s, w, x) <==> x == tx;
    }
  }

  lemma OtherStepsOwe(s: State, w: nat, step: WorkerStep)
    requires WorkerCan(s, w, step) && WorkerStepOf(s, w, step).Stutter?
    ensures Owing(WorkerNext(s, w, step)) == Owing(s)
  {
    OthersDebts(s, w, step);
    assert forall tx :: !MustRelease(s, w, tx) && !MustRelease(WorkerNext(s, w, step), w, tx);
    OwingSame(s, WorkerNext(s, w, step));
  }

  lemma WorkerRefines(s: State, w: nat, step: WorkerStep)
    requires Inv(s) && DebtInv(s) && WorkerCan(s, w, step)
    ensures CanStep(Seen(s), WorkerStepOf(s, w, step))
    ensures Seen(WorkerNext(s, w, step)) == Step(Seen(s), WorkerStepOf(s, w, step))
  {
    if step.WorkerCommit? {
      CommitRefines(s, w);
    } else if WorkerStepOf(s, w, step).GiveBack? {
      GiveBackRefines(s, w, step);
    } else {
      SilentRefines(s, w, step);
    }
  }

  lemma SilentRefines(s: State, w: nat, step: WorkerStep)
    requires WorkerCan(s, w, step) && WorkerStepOf(s, w, step).Stutter?
    ensures Seen(WorkerNext(s, w, step)) == Seen(s)
  {
    OtherStepsOwe(s, w, step);
  }

  lemma CommitRefines(s: State, w: nat)
    requires Inv(s) && CanCommit(s, w)
    ensures CanStep(Seen(s), WorkerStepOf(s, w, WorkerCommit))
    ensures Seen(DoWorkerCommit(s, w)) == Step(Seen(s), WorkerStepOf(s, w, WorkerCommit))
  {
    CommitSettles(s, w);
    CommitOwes(s, w);
  }

  lemma GiveBackRefines(s: State, w: nat, step: WorkerStep)
    requires Inv(s) && DebtInv(s) && WorkerCan(s, w, step) && WorkerStepOf(s, w, step).GiveBack?
    ensures CanStep(Seen(s), WorkerStepOf(s, w, step))
    ensures Seen(WorkerNext(s, w, step)) == Step(Seen(s), WorkerStepOf(s, w, step))
  {
    ReleaseSettlesDebt(s, w, step);
    HeadIsPayment(s, w);
    OwesItsAmount(s, w);
    GiveBackEffect(s, w, step);
  }

  lemma OwesItsAmount(s: State, w: nat)
    requires MatchInv(s) && IsCommitted(s, w) && IsPayment(s.sms, Head(s, w).data)
    ensures var tx := TxOf(Head(s, w).data);
            && tx in Owing(s) && P.Linked(s.db, tx)
            && tx in s.sms && s.sms[tx].amount == AmountOf(Head(s, w).data)
  {
    var tx := TxOf(Head(s, w).data);
    assert MustRelease(s, w, tx);
    OwingMember(s, tx);
    ObligedIsLinked(s, w, tx);
  }

  lemma GiveBackEffect(s: State, w: nat, step: WorkerStep)
    requires WorkerCan(s, w, step) && WorkerStepOf(s, w, step).GiveBack?
    ensures IsCommitted(s, w)
    ensures var s' := WorkerNext(s, w, step);
            var v := AmountOf(Head(s, w).data);
            var reached := WorkerStepOf(s, w, step).reached;
            && s'.db == s.db && s'.sms == s.sms && s'.seeded == s.seeded
            && s'.pool == (if reached then Release(s.pool, v) else s.pool)
            && s'.lost == s.lost + if reached && v in s.pool.pending then {} else {v}
  {
  }

  lemma AcceptRefines(s: State, tx: nat, row: nat, sms: Sms, trace: string, now: int)
    requires CanAccept(s, tx, row, sms)
    ensures CanStep(Seen(s), Receive(tx, sms.amount))
    ensures Seen(DoAccept(s, tx, row, sms, trace, now)) == Step(Seen(s), Receive(tx, sms.amount))
  {
    OwingSame(s, DoAccept(s, tx, row, sms, trace, now));
  }

  lemma AdminRefines(s: State, ad: nat, step: AdminStep)
    requires MatchInv(s) && AdminCan(s, ad, step)
    ensures CanStep(Seen(s), StepOf(s, AdminDoes(ad, step)))
    ensures Seen(AdminNext(s, ad, step)) == Step(Seen(s), StepOf(s, AdminDoes(ad, step)))
  {
    OwingSame(s, AdminNext(s, ad, step));
    if step.Confirm? {
      assert IntentOk(s.sms, s.db, step.intent);
    }
  }

  lemma OrderRefines(s: State, q: nat, step: OrderStep)
    requires IndexInv(s) && OrderCan(s, q, step)
    ensures CanStep(Seen(s), OrderStepOf(s, q, step))
    ensures Seen(OrderNext(s, q, step)) == Step(Seen(s), OrderStepOf(s, q, step))
  {
    OwingSame(s, OrderNext(s, q, step));
  }

  lemma RelayRefines(s: State, r: nat, step: RelayStep)
    requires RelayCan(s, r, step)
    ensures Seen(RelayNext(s, r, step)) == Seen(s)
  {
    OwingSame(s, RelayNext(s, r, step));
  }

  lemma RestartRefines(s: State)
    ensures Seen(DoRestart(s)) == Step(Seen(s), Rebuild)
  {
    OwingSame(s, DoRestart(s));
  }

  /** Every action of the pipeline is a permitted step of the matcher with the same effect on
      the tables, the three sets and the ledger. */
  lemma Refines(s: State, a: Action)
    requires Inv(s) && DebtInv(s) && Enabled(s, a)
    ensures CanStep(Seen(s), StepOf(s, a))
    ensures Seen(Apply(s, a)) == Step(Seen(s), StepOf(s, a))
  {
    match a
    case Accept(tx, row, sms, trace, now) => AcceptRefines(s, tx, row, sms, trace, now);
    case RelayDoes(r, step) => RelayRefines(s, r, step);
    case WorkerDoes(w, step) => WorkerRefines(s, w, step);
    case AdminDoes(ad, step) => AdminRefines(s, ad, step);
    case OrderDoes(q, step) => OrderRefines(s, q, step);
    case Restart => RestartRefines(s);
  }

  lemma {:induction false} RefinementAlong(seeded: set<int>, trace: seq<State>, actions: seq<Action>, i: nat)
    requires IsRunFrom(seeded, trace, actions) && i <= |actions|
    ensures Inv(trace[i]) && DebtInv(trace[i])
  {
    if i > 0 {
      RefinementAlong(seeded, trace, actions, i - 1);
      assert IsStep(trace, actions, i - 1);
      BothKept(trace[i - 1], actions[i - 1]);
    } else {
      InvAlong(seeded, trace, actions, 0);
    }
  }

  lemma BothKept(s: State, a: Action)
    requires Inv(s) && DebtInv(s) && Enabled(s, a)
    ensures Inv(Apply(s, a)) && DebtInv(Apply(s, a))
  {
    InvKept(s, a);
    DebtInvKept(s, a);
  }

  // ---------- runs of the matcher ----------

  function Drive(m: Matcher, steps: seq<MatchStep>): Matcher {
    if steps == [] then m else Step(Drive(m, steps[..|steps| - 1]), steps[|steps| - 1])
  }

  ghost predicate Permitted(m: Matcher, steps: seq<MatchStep>) {
    steps != [] ==>
      var before := steps[..|steps| - 1];
      Permitted(m, before) && CanStep(Drive(m, before), steps[|steps| - 1])
  }

  function Settlements(steps: seq<MatchStep>, tx: nat): nat {
    if steps == [] then 0
    else Settlements(steps[..|steps| - 1], tx)
         + if steps[|steps| - 1].Settle? && steps[|steps| - 1].tx == tx then 1 else 0
  }

  function Returns(steps: seq<MatchStep>, tx: nat): nat {
    if steps == [] then 0
    else Returns(steps[..|steps| - 1], tx)
         + if steps[|steps| - 1].GiveBack? && steps[|steps| - 1].tx == tx then 1 else 0
  }

  ghost predicate NoPendingLink(db: D.Db) {
    forall i :: i in db.intents && db.intents[i].status.Pending? ==> db.intents[i].smsTx.None?
  }

  /** A matcher step links exactly the SMS it settles. */
  lemma StepLinks(m: Matcher, step: MatchStep, tx: nat)
    requires CanStep(m, step) && NoPendingLink(m.db)
    ensures P.Linked(Step(m, step).db, tx) <==> P.Linked(m.db, tx) || (step.Settle? && step.tx == tx)
    ensures step.Settle? && step.tx == tx ==> !P.Linked(m.db, tx)
    ensures NoPendingLink(Step(m, step).db)
  {
    var db' := Step(m, step).db;
    if i :| i in m.db.intents && m.db.intents[i].smsTx == Some(tx) {
      assert i in db'.intents && db'.intents[i].smsTx == Some(tx);
    }
    if step.Settle? {
      assert db'.intents[step.intent].smsTx == Some(step.tx);
    }
  }

  // Exactly once: as many settlements as links, and as many returns as settlements not owing.
  ghost predicate Once(m: Matcher, tx: nat, settlements: nat, back: nat) {
    && NoPendingLink(m.db)
    && settlements == (if P.Linked(m.db, tx) then 1 else 0)
    && settlements == back + (if tx in m.owing then 1 else 0)
  }

  lemma StepOnce(m: Matcher, step: MatchStep, tx: nat, settlements: nat, back: nat)
    requires CanStep(m, step) && Once(m, tx, settlements, back)
    ensures Once(Step(m, step), tx,
                 settlements + if step.Settle? && step.tx == tx then 1 else 0,
                 back + if step.GiveBack? && step.tx == tx then 1 else 0)
  {
    StepLinks(m, step, tx);
  }

  /** The machine does what its name says: from a start without links and debts, every run
      settles an SMS at most once, exactly once iff an intent carries it at the end, and gives its
      amount back exactly as often as it has settled it, less what is still owed. */
  lemma {:induction false} MatcherIsExactlyOnce(m: Matcher, steps: seq<MatchStep>, tx: nat)
    requires m.db.intents == map[] && m.owing == {} && Permitted(m, steps)
    ensures Once(Drive(m, steps), tx, Settlements(steps, tx), Returns(steps, tx))
  {
    if steps != [] {
      var before, step := steps[..|steps| - 1], steps[|steps| - 1];
      MatcherIsExactlyOnce(m, before, tx);
      StepOnce(Drive(m, before), step, tx, Settlements(before, tx), Returns(before, tx));
    }
  }

  // ---------- dropping what repeats ----------

  /** The steps in which a worker handles the message in its hand, but not the reading, the
      claiming and the crash, which concern its whole batch. */
  predicate Handling(step: WorkerStep) {
    !step.WorkerRead? && !step.WorkerClaim? && !step.WorkerCrash?
  }

  /** The worker has a message in hand whose SMS some intent already carries, and it is not the
      worker that made it so. */
  predicate HoldsRepeat(s: State, w: nat) {
    && w in s.workers && s.workers[w].batch != [] && !s.workers[w].stage.Committed?
    && P.Linked(s.db, TxOf(Head(s, w).data))
  }

  predicate Redundant(s: State, a: Action) {
    a.WorkerDoes? && Handling(a.workerStep) && HoldsRepeat(s, a.worker)
  }

  /** Whatever a worker does with such a message - checking, selecting and locking another
      intent, flushing, failing, burying, acknowledging - the tables, the three sets and the
      ledger stay as they are. */
  lemma RedundantChangesNothing(s: State, a: Action)
    requires Inv(s) && Enabled(s, a) && Redundant(s, a)
    ensures StepOf(s, a) == Stutter && Seen(Apply(s, a)) == Seen(s)
  {
    assert LockOk(s.db, s.workers[a.worker]);
    OtherStepsOwe(s, a.worker, a.workerStep);
  }

  /** What is left of the first n actions of a run, as the matcher sees it, without everything
      done with repeated deliveries. */
  ghost function WithoutRepeats(trace: seq<State>, actions: seq<Action>, n: nat): seq<MatchStep>
    requires IsRun(trace, actions) && n <= |actions|
  {
    if n == 0 then []
    else
      assert IsStep(trace, actions, n - 1);
      var before := WithoutRepeats(trace, actions, n - 1);
      if Redundant(trace[n - 1], actions[n - 1]) then before
      else before + [StepOf(trace[n - 1], actions[n - 1])]
  }

  /** At-least-once delivery refines exactly-once matching, with all interleavings of overlapping
      sub-steps, errors and crashes: dropping from a run everything that is done with an SMS that
      is already linked leaves a permitted run of the exactly-once machine, which ends with the
      same orders and intents, the same three Redis sets and the same ledger. */
  lemma {:induction false} RepeatsDoNotMatter(seeded: set<int>, trace: seq<State>, actions: seq<Action>, n: nat)
    requires IsRunFrom(seeded, trace, actions) && n <= |actions|
    ensures Permitted(Seen(Initial(seeded)), WithoutRepeats(trace, actions, n))
    ensures Drive(Seen(Initial(seeded)), WithoutRepeats(trace, actions, n)) == Seen(trace[n])
  {
    if n > 0 {
      RepeatsDoNotMatter(seeded, trace, actions, n - 1);
      VisibleStep(seeded, trace, actions, n - 1);
      DriveOn(Seen(Initial(seeded)), WithoutRepeats(trace, actions, n - 1), StepOf(trace[n - 1], actions[n - 1]));
    }
  }

  lemma DriveOn(m: Matcher, before: seq<MatchStep>, step: MatchStep)
    requires Permitted(m, before) && CanStep(Drive(m, before), step)
    ensures Permitted(m, before + [step]) && Drive(m, before + [step]) == Step(Drive(m, before), step)
  {
    assert (before + [step])[..|before|] == before;
  }

  // Action i of a run, as the matcher sees it.
  lemma VisibleStep(seeded: set<int>, trace: seq<State>, actions: seq<Action>, i: nat)
    requires IsRunFrom(seeded, trace, actions) && i < |actions|
    ensures Enabled(trace[i], actions[i])
    ensures CanStep(Seen(trace[i]), StepOf(trace[i], actions[i]))
    ensures Seen(trace[i + 1]) == Step(Seen(trace[i]), StepOf(trace[i], actions[i]))
    ensures Redundant(trace[i], actions[i]) ==> Seen(trace[i + 1]) == Seen(trace[i])
  {
    assert IsStep(trace, actions, i);
    RefinementAlong(seeded, trace, actions, i);
    Visible(trace[i], actions[i]);
  }

  lemma Visible(s: State, a: Action)
    requires Inv(s) && DebtInv(s) && Enabled(s, a)
    ensures CanStep(Seen(s), StepOf(s, a)) && Seen(Apply(s, a)) == Step(Seen(s), StepOf(s, a))
    ensures Redundant(s, a) ==> Seen(Apply(s, a)) == Seen(s)
  {
    Refines(s, a);
    if Redundant(s, a) {
      RedundantChangesNothing(s, a);
    }
  }

  /** So it makes no difference at all whether the repeated deliveries happened: two runs of the
      pipeline that agree on everything else end with the same tables, sets and ledger. */
  lemma EndIgnoresRepeats(seeded: set<int>, trace: seq<State>, actions: seq<Action>,
                          other: seq<State>, others: seq<Action>)
    requires IsRunFrom(seeded, trace, actions) && IsRunFrom(seeded, other, others)
    requires WithoutRepeats(trace, actions, |actions|) == WithoutRepeats(other, others, |others|)
    ensures Seen(trace[|actions|]) == Seen(other[|others|])
  {
    RepeatsDoNotMatter(seeded, trace, actions, |actions|);
    RepeatsDoNotMatter(seeded, other, others, |others|);
  }

  // ---------- counting over whole runs ----------

  ghost function AllSteps(trace: seq<State>, actions: seq<Action>, n: nat): seq<MatchStep>
    requires IsRun(trace, actions) && n <= |actions|
  {
    if n == 0 then []
    else
      assert IsStep(trace, actions, n - 1);
      AllSteps(trace, actions, n - 1) + [StepOf(trace[n - 1], actions[n - 1])]
  }

  lemma {:induction false} RunRefines(seeded: set<int>, trace: seq<State>, actions: seq<Action>, n: nat)
    requires IsRunFrom(seeded, trace, actions) && n <= |actions|
    ensures Permitted(Seen(Initial(seeded)), AllSteps(trace, actions, n))
    ensures Drive(Seen(Initial(seeded)), AllSteps(trace, actions, n)) == Seen(trace[n])
  {
    if n > 0 {
      RunRefines(seeded, trace, actions, n - 1);
      VisibleStep(seeded, trace, actions, n - 1);
      DriveOn(Seen(Initial(seeded)), AllSteps(trace, actions, n - 1), StepOf(trace[n - 1], actions[n - 1]));
    }
  }

  /** In any run of the pipeline an SMS is settled at most once, and exactly once if and only
      if an intent carries it at the end - although it may be delivered any number of times. */
  lemma SettledExactlyOnce(seeded: set<int>, trace: seq<State>, actions: seq<Action>, n: nat, tx: nat)
    requires IsRunFrom(seeded, trace, actions) && n <= |actions|
    ensures Settlements(AllSteps(trace, actions, n), tx) == if P.Linked(trace[n].db, tx) then 1 else 0
  {
    RunRefines(seeded, trace, actions, n);
    MatcherIsExactlyOnce(Seen(Initial(seeded)), AllSteps(trace, actions, n), tx);
  }

  /** In any run, however often an SMS is delivered and to however many workers at once, its
      amount leaves its worker's hands - given back to the free set, or lost on the way - at most
      once, and exactly once when the SMS is settled and no worker owes the release any more. */
  lemma ReleasedAtMostOnce(seeded: set<int>, trace: seq<State>, actions: seq<Action>, n: nat, tx: nat)
    requires IsRunFrom(seeded, trace, actions) && n <= |actions|
    ensures Returns(AllSteps(trace, actions, n), tx)
         == if P.Linked(trace[n].db, tx) && forall w :: !MustRelease(trace[n], w, tx) then 1 else 0
  {
    RunRefines(seeded, trace, actions, n);
    MatcherIsExactlyOnce(Seen(Initial(seeded)), AllSteps(trace, actions, n), tx);
    OwingMember(trace[n], tx);
  }
}
