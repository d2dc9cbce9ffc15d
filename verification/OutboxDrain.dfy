/** How long a single crash-free relay needs to empty the outbox when nothing arrives: every
    pass spends at least one unit of retry budget per claimed row. */
module OutboxDrain {
  import opened Prelude
  import opened Payload
  import opened Outbox
  import opened OutboxRelay

  // What one pass chose (ids), when it ran, and how each of its Redis writes was answered.
  datatype Pass = Pass(ids: seq<nat>, now: int, net: nat -> Reply)

  function PendingIds(rows: Table): set<nat> {
    set id | id in rows && rows[id].status.Pending?
  }

  /** No row is left PROCESSING, and every PENDING row is below the retry bound. */
  ghost predicate Quiet(rows: Table) {
    forall id :: id in rows ==>
      && !rows[id].status.Processing?
      && (rows[id].status.Pending? ==> Retries(rows[id].retryCount) < MAX_OUTBOX_RETRIES)
  }

  /** The passes take the table through `trace`, one entry per pass. */
  ghost predicate IsTrace(trace: seq<Table>, passes: seq<Pass>, limit: nat) {
    && |trace| == |passes| + 1
    && forall i :: 0 <= i < |passes| ==> IsStep(trace, passes, limit, i)
  }

  ghost predicate IsStep(trace: seq<Table>, passes: seq<Pass>, limit: nat, i: nat)
    requires |trace| == |passes| + 1 && i < |passes|
  {
    IsPass(trace[i], trace[i + 1], passes[i].ids, limit, passes[i].now, passes[i].net)
  }

  ghost predicate Bounds(rows: Table, n: nat) {
    forall id :: id in rows ==> id < n
  }

  /** Retry budget left on the PENDING rows with an id below `n`. */
  ghost function Budget(rows: Table, n: nat): nat
    requires Quiet(rows)
  {
    if n == 0 then 0
    else Budget(rows, n - 1) +
         if n - 1 in PendingIds(rows) then MAX_OUTBOX_RETRIES - Retries(rows[n - 1].retryCount) else 0
  }

  lemma BoundExists(rows: Table) returns (n: nat)
    ensures Bounds(rows, n)
  {
    var rest := rows.Keys;
    n := 0;
    while rest != {}
      invariant forall id :: id in rows && id !in rest ==> id < n
    {
      var id :| id in rest;
      n := if id < n then n else id + 1;
      rest := rest - {id};
    }
  }

  /** A row across a pass: untouched when not claimed; terminal, or PENDING with exactly one
      retry more, when claimed. */
  ghost predicate RowPasses(row: Row, row': Row, claimed: bool) {
    if claimed then
      && row.status.Pending? && !row'.status.Processing?
      && (row'.status.Pending? ==> Retries(row'.retryCount) == Retries(row.retryCount) + 1 < MAX_OUTBOX_RETRIES)
    else row' == row
  }

  lemma PassRow(rows: Table, rows': Table, p: Pass, limit: nat, id: nat)
    requires Quiet(rows) && IsPass(rows, rows', p.ids, limit, p.now, p.net) && id in rows
    ensures id in rows' && RowPasses(rows[id], rows'[id], id in p.ids)
  {
    assert id in p.ids ==> id in Eligible(rows, p.now);
    DecisionFor(rows, p.ids, p.net, id);
    if id in p.ids {
      var k :| 0 <= k < |p.ids| && p.ids[k] == id;
      DecideBounds(EventOf(rows, id), p.net(k).Answered?);
    }
  }

  lemma PassEffect(rows: Table, rows': Table, p: Pass, limit: nat)
    requires Quiet(rows) && IsPass(rows, rows', p.ids, limit, p.now, p.net)
    ensures rows'.Keys == rows.Keys
    ensures forall id :: id in rows ==> RowPasses(rows[id], rows'[id], id in p.ids)
    ensures AsSet(p.ids) <= PendingIds(rows) && |p.ids| == Min(limit, |PendingIds(rows)|)
  {
    assert Eligible(rows, p.now) == PendingIds(rows);
    forall id | id in rows {
      PassRow(rows, rows', p, limit, id);
    }
  }

  /** The budget falls by at least the number of claimed rows. */
  lemma {:induction false} BudgetDrops(rows: Table, rows': Table, ids: seq<nat>, n: nat)
    requires Quiet(rows) && Quiet(rows') && rows'.Keys == rows.Keys && AsSet(ids) <= PendingIds(rows)
    requires forall id :: id in rows ==> RowPasses(rows[id], rows'[id], id in ids)
    ensures Budget(rows', n) + |Below(AsSet(ids), n)| <= Budget(rows, n)
  {
    if n > 0 {
      BudgetDrops(rows, rows', ids, n - 1);
      BelowStep(AsSet(ids), n);
    } else {
      assert Below(AsSet(ids), 0) == {};
    }
  }

  lemma {:induction false} BudgetAtMost(rows: Table, n: nat)
    requires Quiet(rows)
    ensures Budget(rows, n) <= MAX_OUTBOX_RETRIES * |Below(PendingIds(rows), n)|
  {
    if n > 0 {
      BudgetAtMost(rows, n - 1);
      BelowStep(PendingIds(rows), n);
    }
  }

  /** The pass as the drain argument sees it: the budget falls by the number of claimed rows,
      which is the whole batch unless every PENDING row was claimed. */
  lemma PassSpends(rows: Table, rows': Table, p: Pass, limit: nat, n: nat)
    requires Quiet(rows) && Bounds(rows, n) && IsPass(rows, rows', p.ids, limit, p.now, p.net)
    ensures Quiet(rows') && Bounds(rows', n)
    ensures Budget(rows', n) + Min(limit, |PendingIds(rows)|) <= Budget(rows, n)
  {
    PassEffect(rows, rows', p, limit);
    BudgetDrops(rows, rows', p.ids, n);
    DistinctSize(p.ids);
    assert Below(AsSet(p.ids), n) == AsSet(p.ids);
  }

  // After a first short batch: fewer than `limit` rows are PENDING, each retried at least j times.
  ghost predicate Tail(rows: Table, limit: nat, j: nat) {
    && |PendingIds(rows)| < limit
    && forall id :: id in PendingIds(rows) ==> Retries(rows[id].retryCount) >= j
  }

  /** A short batch claims every PENDING row, so it starts the tail or takes it one further. */
  lemma ShortPass(rows: Table, rows': Table, p: Pass, limit: nat, j: nat)
    requires Quiet(rows) && IsPass(rows, rows', p.ids, limit, p.now, p.net)
    requires Tail(rows, limit, j)
    ensures Tail(rows', limit, j + 1)
  {
    PassEffect(rows, rows', p, limit);
    DistinctSize(p.ids);
    SubsetSize(AsSet(p.ids), PendingIds(rows));
    SubsetSize(PendingIds(rows'), PendingIds(rows));
    assert forall id :: id in PendingIds(rows') ==> id in p.ids;
  }

  lemma SubsetSize(a: set<nat>, b: set<nat>)
    requires a <= b
    ensures |a| <= |b|
    ensures |a| == |b| ==> a == b
  {
    assert b == a + (b - a);
  }

  /** After i passes: `full` full batches have spent limit * full of the budget, and then the
      tail has been running for j passes. */
  lemma {:induction false} Progress(trace: seq<Table>, passes: seq<Pass>, limit: nat, n: nat, i: nat)
    returns (full: nat, j: nat)
    requires limit >= 1 && IsTrace(trace, passes, limit) && Quiet(trace[0]) && Bounds(trace[0], n)
    requires i <= |passes|
    ensures Quiet(trace[i]) && Bounds(trace[i], n) && i == full + j
    ensures limit * full + (if j == 0 then Budget(trace[i], n) else 0) <= Budget(trace[0], n)
    ensures j > 0 ==> Tail(trace[i], limit, j)
  {
    if i == 0 {
      return 0, 0;
    }
    full, j := Progress(trace, passes, limit, n, i - 1);
    var rows, rows', p := trace[i - 1], trace[i], passes[i - 1];
    assert IsStep(trace, passes, limit, i - 1);
    PassSpends(rows, rows', p, limit, n);
    if |PendingIds(rows)| < limit {
      assert j == 0 ==> Tail(rows, limit, 0);
      ShortPass(rows, rows', p, limit, j);
      j := j + 1;
    } else {
      assert limit * (full + 1) == limit * full + limit;
      full := full + 1;
    }
  }

  /** N PENDING rows and batches of `limit`: after floor(5N / limit) + 5 passes nothing is
      PENDING any more, whichever Redis writes failed and whichever rows each pass chose
      among those it was allowed to. */
  lemma OutboxDrains(trace: seq<Table>, passes: seq<Pass>, limit: nat)
    requires limit >= 1 && IsTrace(trace, passes, limit) && Quiet(trace[0])
    requires |passes| >= MAX_OUTBOX_RETRIES * |PendingIds(trace[0])| / limit + MAX_OUTBOX_RETRIES
    ensures forall id :: id in trace[|passes|] ==> trace[|passes|][id].status in {Published, Failed}
  {
    var n := BoundExists(trace[0]);
    BudgetAtMost(trace[0], n);
    assert Below(PendingIds(trace[0]), n) == PendingIds(trace[0]);
    var i := |passes|;
    var full, j := Progress(trace, passes, limit, n, i);
    Quotient(limit, full, MAX_OUTBOX_RETRIES * |PendingIds(trace[0])|);
    forall id | id in trace[i]
      ensures trace[i][id].status in {Published, Failed}
    {
      assert id in PendingIds(trace[i]) <==> trace[i][id].status.Pending?;
    }
  }

  lemma Quotient(d: nat, q: nat, m: nat)
    requires d >= 1 && d * q <= m
    ensures q <= m / d
  {
    var f := m / d;
    assert d * f + m % d == m;
    assert d * (f + 1) == d * f + d;
    if f + 1 <= q {
      TimesMonotone(d, f + 1, q);
    }
  }

  // ---------- what has become of a row ----------

  /** The pass attempted the Redis write of this row, and it raised. */
  ghost predicate WriteRaises(p: Pass, id: nat) {
    exists k :: 0 <= k < |p.ids| && p.ids[k] == id && p.net(k).Raised?
  }

  ghost predicate WriteAnswered(p: Pass, id: nat) {
    exists k :: 0 <= k < |p.ids| && p.ids[k] == id && p.net(k).Answered?
  }

  /** How many writes of this row have raised. */
  ghost function FailedWrites(passes: seq<Pass>, id: nat): nat {
    if passes == [] then 0
    else FailedWrites(passes[..|passes| - 1], id) + if WriteRaises(passes[|passes| - 1], id) then 1 else 0
  }

  ghost predicate EverAnswered(passes: seq<Pass>, id: nat) {
    exists i :: 0 <= i < |passes| && WriteAnswered(passes[i], id)
  }

  /** A row as its writes have left it: `count` of them have raised. */
  ghost predicate LeftBy(row: Row, valid: bool, count: nat, answered: bool) {
    && Retries(row.retryCount) == count <= 5
    && (row.status.Pending? <==> !answered && count < 5)
    && (row.status.Published? <==> answered && valid)
    && (row.status.Failed? <==> (answered && !valid) || count == 5)
    && !(answered && count == 5)
  }

  // One pass over a row that no write has settled yet, or that one has.
  lemma PassLeaves(rows: Table, rows': Table, p: Pass, limit: nat, id: nat, count: nat, answered: bool)
    requires Quiet(rows) && IsPass(rows, rows', p.ids, limit, p.now, p.net) && id in rows
    requires LeftBy(rows[id], Validate(rows[id].data).None?, count, answered)
    ensures id in rows' && rows'[id].data == rows[id].data
    ensures LeftBy(rows'[id], Validate(rows[id].data).None?, count + (if WriteRaises(p, id) then 1 else 0),
                   answered || WriteAnswered(p, id))
  {
    PassRow(rows, rows', p, limit, id);
    DecisionFor(rows, p.ids, p.net, id);
    if id in p.ids {
      var k :| 0 <= k < |p.ids| && p.ids[k] == id;
      DecideBounds(EventOf(rows, id), p.net(k).Answered?);
    }
  }

  lemma {:induction false} QuietAlong(trace: seq<Table>, passes: seq<Pass>, limit: nat, i: nat)
    requires IsTrace(trace, passes, limit) && Quiet(trace[0]) && i <= |passes|
    ensures Quiet(trace[i])
  {
    if i > 0 {
      QuietAlong(trace, passes, limit, i - 1);
      assert IsStep(trace, passes, limit, i - 1);
      PassEffect(trace[i - 1], trace[i], passes[i - 1], limit);
    }
  }

  /** What has become of a row that entered the outbox with no retry, after any number of passes:
      it is PUBLISHED iff it is valid and one of its writes was answered, FAILED iff it is invalid
      and its dead-letter write was answered or exactly five writes of it have raised, and PENDING
      iff fewer have raised and none was answered. `retry_count` is the number that have raised. */
  lemma {:induction false} RowIsItsWrites(trace: seq<Table>, passes: seq<Pass>, limit: nat, i: nat, id: nat)
    requires IsTrace(trace, passes, limit) && Quiet(trace[0]) && i <= |passes|
    requires id in trace[0] && trace[0][id].status.Pending? && Retries(trace[0][id].retryCount) == 0
    ensures id in trace[i] && trace[i][id].data == trace[0][id].data
    ensures LeftBy(trace[i][id], Validate(trace[0][id].data).None?, FailedWrites(passes[..i], id),
                   EverAnswered(passes[..i], id))
  {
    if i > 0 {
      var before, p := passes[..i - 1], passes[i - 1];
      RowIsItsWrites(trace, passes, limit, i - 1, id);
      QuietAlong(trace, passes, limit, i - 1);
      assert IsStep(trace, passes, limit, i - 1);
      PassLeaves(trace[i - 1], trace[i], p, limit, id, FailedWrites(before, id), EverAnswered(before, id));
      assert passes[..i] == before + [p];
      OnePassMore(before, p, id);
    }
  }

  lemma OnePassMore(passes: seq<Pass>, p: Pass, id: nat)
    ensures FailedWrites(passes + [p], id) == FailedWrites(passes, id) + if WriteRaises(p, id) then 1 else 0
    ensures EverAnswered(passes + [p], id) <==> EverAnswered(passes, id) || WriteAnswered(p, id)
  {
    var more := passes + [p];
    assert more[..|passes|] == passes && more[|passes|] == p;
    assert forall j :: 0 <= j < |passes| ==> more[j] == passes[j];
  }
}
