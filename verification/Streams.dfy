/** app/modules/order/queue_manager.py: a Redis stream read through one consumer group. A
    stream id is the position of the entry in the log, which is never trimmed. */
module Streams {
  import opened Prelude
  import opened Payload

  // One entry of the pending-entries list: when it was last delivered, and how often.
  datatype Delivery = Delivery(at: int, count: nat)

  // `acked` is history: the server forgets an entry once it is acknowledged.
  datatype Group = Group(log: seq<Data>, last: nat, pel: map<nat, Delivery>, acked: set<nat>)

  datatype Message = Message(id: nat, data: Data, attempts: nat)

  const EmptyGroup := Group([], 0, map[], {})

  /** XADD. */
  function Add(g: Group, d: Data): Group {
    g.(log := g.log + [d])
  }

  /** XREADGROUP '>' with COUNT n: the next entries, in order, are delivered for the first time. */
  function Deliver(g: Group, n: nat, now: int): Group
    requires g.last + n <= |g.log|
  {
    g.(last := g.last + n,
       pel := map id: nat | id < g.last + n && (id in g.pel || g.last <= id) ::
         if id in g.pel then g.pel[id] else Delivery(now, 1))
  }

  /** XCLAIM of one pending entry: the delivery time restarts and the count goes up by one. */
  function Claim(g: Group, id: nat, now: int): Group {
    if id in g.pel then g.(pel := g.pel[id := Delivery(now, g.pel[id].count + 1)]) else g
  }

  /** XACK: nothing happens unless the entry is pending. */
  function Acknowledge(g: Group, id: nat): Group {
    if id in g.pel then g.(pel := g.pel - {id}, acked := g.acked + {id}) else g
  }

  /** Every id is in exactly one of undelivered, pending and acknowledged. */
  ghost predicate Partition(g: Group) {
    && g.last <= |g.log|
    && g.acked !! g.pel.Keys
    && forall id: nat :: id < g.last <==> id in g.pel || id in g.acked
  }

  lemma PartitionKept(g: Group, d: Data, n: nat, id: nat, now: int)
    requires Partition(g)
    ensures Partition(Add(g, d)) && Partition(Claim(g, id, now)) && Partition(Acknowledge(g, id))
    ensures g.last + n <= |g.log| ==> Partition(Deliver(g, n, now))
  {
  }

  /** The ids XPENDING - + COUNT n reports, from `from` on: the lowest pending ids. */
  function Pending(g: Group, from: nat, n: nat): (ids: seq<nat>)
    ensures |ids| <= n && forall i :: 0 <= i < |ids| ==> ids[i] in g.pel && from <= ids[i] < g.last
    ensures forall i, j :: 0 <= i < j < |ids| ==> ids[i] < ids[j]
    ensures ids == [] ==> n == 0 || forall id :: id in g.pel ==> id < from || id >= g.last
    decreases g.last - from
  {
    if n == 0 || from >= g.last then []
    else if from in g.pel then [from] + Pending(g, from + 1, n - 1)
    else Pending(g, from + 1, n)
  }

  // The pending ids from `from` on and below `id`.
  function Ahead(g: Group, from: nat, id: nat): set<nat> {
    set x | x in g.pel && from <= x < id
  }

  /** The window holds exactly the pending ids that fewer than n others are ahead of. */
  lemma {:induction false} WindowIsLowest(g: Group, from: nat, n: nat, id: nat)
    requires from <= id < g.last
    ensures id in Pending(g, from, n) <==> id in g.pel && |Ahead(g, from, id)| < n
    decreases g.last - from
  {
    if from == id {
      assert Ahead(g, from, id) == {};
    } else {
      assert Ahead(g, from, id) == Ahead(g, from + 1, id) + if from in g.pel then {from} else {};
      if from !in g.pel {
        WindowIsLowest(g, from + 1, n, id);
      } else if n > 0 {
        WindowIsLowest(g, from + 1, n - 1, id);
      }
    }
  }

  predicate Idle(g: Group, id: nat, now: int, minIdle: int) {
    id in g.pel && now - g.pel[id].at >= minIdle
  }

  // Those of the first n ids of a window that are idle long enough to be claimed, in order.
  function IdleUpTo(g: Group, window: seq<nat>, n: nat, now: int, minIdle: int): (ids: seq<nat>)
    requires n <= |window|
    ensures |ids| <= n && forall id :: id in ids ==> id in window && Idle(g, id, now, minIdle)
    ensures forall i :: 0 <= i < n && Idle(g, window[i], now, minIdle) ==> window[i] in ids
    ensures forall i :: 0 <= i < |ids| ==> ids[i] in g.pel
  {
    if n == 0 then []
    else
      var before := IdleUpTo(g, window, n - 1, now, minIdle);
      if Idle(g, window[n - 1], now, minIdle) then before + [window[n - 1]] else before
  }

  /** The ids of a window that are idle long enough to be claimed, in order. */
  function IdleOf(g: Group, window: seq<nat>, now: int, minIdle: int): (ids: seq<nat>)
    ensures |ids| <= |window| && forall id :: id in ids <==> id in window && Idle(g, id, now, minIdle)
    ensures forall i :: 0 <= i < |ids| ==> ids[i] in g.pel
  {
    IdleUpTo(g, window, |window|, now, minIdle)
  }

  function ClaimAll(g: Group, ids: set<nat>, now: int): Group {
    g.(pel := map id | id in g.pel ::
      if id in ids then Delivery(now, g.pel[id].count + 1) else g.pel[id])
  }

  /** A claimed message carries the delivery count read before the claim. */
  function ClaimedMessages(g: Group, ids: seq<nat>): (ms: seq<Message>)
    requires forall i :: 0 <= i < |ids| ==> ids[i] in g.pel && ids[i] < |g.log|
    ensures |ms| == |ids|
    ensures forall i :: 0 <= i < |ids| ==> ms[i] == Message(ids[i], g.log[ids[i]], g.pel[ids[i]].count)
  {
    seq(|ids|, i requires 0 <= i < |ids| => Message(ids[i], g.log[ids[i]], g.pel[ids[i]].count))
  }

  /** A first delivery carries the entry's own `attempts` field, which is always 0. */
  function NewMessages(g: Group, n: nat): (ms: seq<Message>)
    requires g.last + n <= |g.log|
    ensures |ms| == n
    ensures forall i :: 0 <= i < n ==> ms[i] == Message(g.last + i, g.log[g.last + i], 0)
  {
    if n == 0 then [] else NewMessages(g, n - 1) + [Message(g.last + n - 1, g.log[g.last + n - 1], 0)]
  }

  lemma {:induction false} NotYet(g: Group, window: seq<nat>, n: nat, k: nat, now: int, minIdle: int)
    requires Distinct(window) && n <= k < |window|
    ensures window[k] !in IdleUpTo(g, window, n, now, minIdle)
  {
    if n > 0 {
      NotYet(g, window, n - 1, k, now, minIdle);
    }
  }

  lemma {:induction false} IdleDistinct(g: Group, window: seq<nat>, n: nat, now: int, minIdle: int)
    requires Distinct(window) && n <= |window|
    ensures Distinct(IdleUpTo(g, window, n, now, minIdle))
  {
    if n > 0 {
      IdleDistinct(g, window, n - 1, now, minIdle);
      NotYet(g, window, n - 1, n - 1, now, minIdle);
    }
  }

  lemma IdleOfDistinct(g: Group, window: seq<nat>, now: int, minIdle: int)
    requires Distinct(window)
    ensures Distinct(IdleOf(g, window, now, minIdle))
  {
    IdleDistinct(g, window, |window|, now, minIdle);
  }

  // The group and the messages once these ids have been claimed.
  ghost predicate ClaimedSoFar(was: Group, ids: seq<nat>, now: int, claimed: seq<Message>, g: Group) {
    && (forall i :: 0 <= i < |ids| ==> ids[i] in was.pel && ids[i] < |was.log|)
    && g == ClaimAll(was, AsSet(ids), now) && claimed == ClaimedMessages(was, ids)
  }

  // Claiming one entry more.
  lemma ClaimAllMore(was: Group, ids: seq<nat>, id: nat, now: int, claimed: seq<Message>, g: Group)
    requires id in was.pel && id !in ids && id < |was.log| && ClaimedSoFar(was, ids, now, claimed, g)
    ensures g.log == was.log && id in g.pel && g.pel[id] == was.pel[id]
    ensures ClaimedSoFar(was, ids + [id], now,
                         claimed + [Message(id, was.log[id], was.pel[id].count)], Claim(g, id, now))
  {
  }

  /** Entry by entry: claimed are the pending entries idle long enough that fewer than `count`
      pending ones are ahead of; each is handed out as it was found, and nothing else changes. */
  ghost predicate OldestClaimed(g: Group, g': Group, minIdle: int, count: nat, now: int, claimed: seq<Message>) {
    && g' == g.(pel := g'.pel) && g'.pel.Keys == g.pel.Keys
    && (forall id :: id in g.pel ==>
          g'.pel[id] == if now - g.pel[id].at >= minIdle && |Ahead(g, 0, id)| < count
                        then Delivery(now, g.pel[id].count + 1) else g.pel[id])
    && (forall m :: m in claimed ==>
          && m.id in g.pel && now - g.pel[m.id].at >= minIdle && |Ahead(g, 0, m.id)| < count
          && m.id < |g.log| && m == Message(m.id, g.log[m.id], g.pel[m.id].count))
    && (forall id :: id in g.pel && now - g.pel[id].at >= minIdle && |Ahead(g, 0, id)| < count ==>
          HandedOut(claimed, id))
  }

  ghost predicate HandedOut(ms: seq<Message>, id: nat) {
    exists m :: m in ms && m.id == id
  }

  lemma OldestAreClaimed(g: Group, minIdle: int, count: nat, now: int)
    requires Partition(g)
    ensures var ids := IdleOf(g, Pending(g, 0, count), now, minIdle);
            OldestClaimed(g, ClaimAll(g, AsSet(ids), now), minIdle, count, now, ClaimedMessages(g, ids))
  {
    forall id | id in g.pel
      ensures id in Pending(g, 0, count) <==> |Ahead(g, 0, id)| < count
    {
      WindowIsLowest(g, 0, count, id);
    }
    var ids := IdleOf(g, Pending(g, 0, count), now, minIdle);
    forall id | id in ids
      ensures HandedOut(ClaimedMessages(g, ids), id)
    {
      var i :| 0 <= i < |ids| && ids[i] == id;
      assert ClaimedMessages(g, ids)[i].id == id;
    }
  }

  // A claim that raises is the last, and counts if it was applied.
  lemma ClaimStops(was: Group, window: seq<nat>, i: nat, minIdle: int, now: int, applied: bool,
                   claimed: seq<Message>, g: Group)
    requires i < |window| && Idle(was, window[i], now, minIdle)
    requires ClaimedSoFar(was, IdleUpTo(was, window, i, now, minIdle), now, claimed, g)
    requires window[i] !in IdleUpTo(was, window, i, now, minIdle)
    ensures var n := i + if applied then 1 else 0;
            ClaimAll(was, AsSet(IdleUpTo(was, window, n, now, minIdle)), now) ==
            if applied then Claim(g, window[i], now) else g
  {
  }

  // An error while claiming: XPENDING raises, or the XCLAIM of the entry at a place of the window.
  datatype ClaimFault = NoFault | ListRaises | ClaimRaises(at: nat, applied: bool)

  /** XCLAIM is only sent for entries that are idle long enough. */
  predicate ClaimBreaks(g: Group, window: seq<nat>, now: int, minIdle: int, fault: ClaimFault) {
    fault.ListRaises? || (fault.ClaimRaises? && fault.at < |window| && Idle(g, window[fault.at], now, minIdle))
  }

  /** How far into the window the claims get. */
  function ClaimedUpTo(g: Group, window: seq<nat>, now: int, minIdle: int, fault: ClaimFault): (n: nat)
    ensures n <= |window|
  {
    if !ClaimBreaks(g, window, now, minIdle, fault) then |window|
    else if fault.ListRaises? then 0
    else fault.at + if fault.applied then 1 else 0
  }

  class ConsumerGroup {
    var g: Group

    constructor (g: Group)
      ensures this.g == g
    {
      this.g := g;
    }

    /** Entries that were delivered in an answer that got lost are pending all the same. */
    method ReadMessages(count: nat, now: int, reply: Reply) returns (messages: seq<Message>, raised: bool)
      requires Partition(g)
      modifies this
      ensures Partition(g) && raised == reply.Raised?
      ensures var n := Min(count, |old(g).log| - old(g).last);
              && messages == (if raised then [] else NewMessages(old(g), n))
              && g == if TakesEffect(reply) then Deliver(old(g), n, now) else old(g)
      ensures g.log == old(g).log && g.acked == old(g).acked
      ensures TakesEffect(reply) ==>
                && g.last == Min(old(g).last + count, |g.log|)
                && (forall id :: id in g.pel <==> id in old(g).pel || old(g).last <= id < g.last)
                && (forall id :: id in g.pel ==>
                      g.pel[id] == if id in old(g).pel then old(g).pel[id] else Delivery(now, 1))
      ensures !raised ==>
                && |messages| == g.last - old(g).last
                && forall i :: 0 <= i < |messages| ==>
                     messages[i] == Message(old(g).last + i, g.log[old(g).last + i], 0)
    {
      var n := Min(count, |g.log| - g.last);
      ghost var was := g;
      if TakesEffect(reply) {
        g := Deliver(g, n, now);
      }
      if reply.Raised? {
        return [], true;
      }
      messages := [];
      for i := 0 to n
        invariant messages == NewMessages(was, i)
      {
        messages := messages + [Message(g.last - n + i, g.log[g.last - n + i], 0)];
      }
      return messages, false;
    }

    /** True iff the entry was pending; afterwards it is not, and no other entry has changed. */
    method AcknowledgeMessage(id: nat, reply: Reply) returns (done: bool, raised: bool)
      requires Partition(g)
      modifies this
      ensures raised == reply.Raised? && done == (reply.Answered? && id in old(g).pel)
      ensures g == if TakesEffect(reply) then Acknowledge(old(g), id) else old(g)
      ensures Partition(g) && g.log == old(g).log && g.last == old(g).last
      ensures done ==> id !in g.pel && id in g.acked
      ensures forall x :: x != id ==> (x in g.pel <==> x in old(g).pel) && (x in g.acked <==> x in old(g).acked)
      ensures forall x :: x in g.pel ==> g.pel[x] == old(g).pel[x]
    {
      done := reply.Answered? && id in g.pel;
      if TakesEffect(reply) {
        g := Acknowledge(g, id);
      }
      raised := reply.Raised?;
    }

    /** XCLAIM of one entry of the window, unless it was delivered too recently. */
    method ClaimIfIdle(id: nat, minIdle: int, now: int, reply: Reply) returns (m: Option<Message>, raised: bool)
      requires id in g.pel && id < |g.log|
      modifies this
      ensures raised <==> Idle(old(g), id, now, minIdle) && reply.Raised?
      ensures m == if Idle(old(g), id, now, minIdle) && !raised
                   then Some(Message(id, old(g).log[id], old(g).pel[id].count)) else None
      ensures g == if Idle(old(g), id, now, minIdle) && TakesEffect(reply) then Claim(old(g), id, now) else old(g)
    {
      if now - g.pel[id].at < minIdle {
        return None, false;
      }
      m := if reply.Raised? then None else Some(Message(id, g.log[id], g.pel[id].count));
      raised := reply.Raised?;
      if TakesEffect(reply) {
        g := Claim(g, id, now);
      }
    }

    /** The loop over the window. */
    method ClaimWindow(window: seq<nat>, minIdle: int, now: int, fault: ClaimFault)
      returns (claimed: seq<Message>, raised: bool)
      requires Distinct(window) && !fault.ListRaises?
      requires forall i :: 0 <= i < |window| ==> window[i] in g.pel && window[i] < |g.log|
      modifies this
      ensures raised == ClaimBreaks(old(g), window, now, minIdle, fault)
      ensures !raised ==> ClaimedSoFar(old(g), IdleOf(old(g), window, now, minIdle), now, claimed, g)
      ensures raised ==>
                var n := ClaimedUpTo(old(g), window, now, minIdle, fault);
                claimed == [] && g == ClaimAll(old(g), AsSet(IdleUpTo(old(g), window, n, now, minIdle)), now)
    {
      ghost var was := g;
      claimed := [];
      for i := 0 to |window|
        invariant ClaimedSoFar(was, IdleUpTo(was, window, i, now, minIdle), now, claimed, g)
        invariant fault.ClaimRaises? && fault.at < i ==> !Idle(was, window[fault.at], now, minIdle)
      {
        ghost var ids, g0, claimed0 := IdleUpTo(was, window, i, now, minIdle), g, claimed;
        NotYet(was, window, i, i, now, minIdle);
        ClaimAllMore(was, ids, window[i], now, claimed, g);
        var reply := if fault.ClaimRaises? && fault.at == i then Raised(fault.applied) else Answered;
        var m;
        m, raised := ClaimIfIdle(window[i], minIdle, now, reply);
        if raised {
          ClaimStops(was, window, i, minIdle, now, fault.applied, claimed0, g0);
          return [], true;
        }
        if m.Some? {
          claimed := claimed + [m.value];
        }
      }
      return claimed, false;
    }

    /** Looks at the `count` lowest pending ids only, and claims those idle long enough; an error
        on the way leaves the claims made so far and loses their messages. */
    method ClaimStaleMessage(minIdle: int, count: nat, now: int, fault: ClaimFault)
      returns (claimed: seq<Message>, raised: bool)
      requires Partition(g)
      modifies this
      ensures Partition(g)
      ensures var window := Pending(old(g), 0, count);
              && raised == ClaimBreaks(old(g), window, now, minIdle, fault)
              && claimed == (if raised then [] else ClaimedMessages(old(g), IdleOf(old(g), window, now, minIdle)))
              && var n := ClaimedUpTo(old(g), window, now, minIdle, fault);
                 g == ClaimAll(old(g), AsSet(IdleUpTo(old(g), window, n, now, minIdle)), now)
      ensures fault.NoFault? ==> OldestClaimed(old(g), g, minIdle, count, now, claimed)
    {
      ghost var was := g;
      OldestAreClaimed(g, minIdle, count, now);
      if fault.ListRaises? {
        assert ClaimAll(g, {}, now) == g;
        return [], true;
      }
      var window := Pending(g, 0, count);
      claimed, raised := ClaimWindow(window, minIdle, now, fault);
      assert !raised ==> ClaimedSoFar(was, IdleOf(was, window, now, minIdle), now, claimed, g);
    }
  }
}
