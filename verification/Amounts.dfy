/** The three Redis sets that index the unique amounts, one Redis command at a time. */
module Amounts {
  datatype Pool = Pool(amounts: set<int>, pending: set<int>, free: set<int>)

  /** SPOP free_amounts, when the server picks v. */
  function Pop(p: Pool, v: int): Pool {
    p.(free := p.free - {v})
  }

  /** SMOVE amounts pending_orders v. */
  function Reserve(p: Pool, v: int): Pool {
    if v in p.amounts then p.(amounts := p.amounts - {v}, pending := p.pending + {v}) else p
  }

  /** SMOVE pending_orders amounts v. */
  function Unreserve(p: Pool, v: int): Pool {
    if v in p.pending then p.(pending := p.pending - {v}, amounts := p.amounts + {v}) else p
  }

  /** SADD free_amounts v. */
  function AddFree(p: Pool, v: int): Pool {
    p.(free := p.free + {v})
  }

  /** SMOVE pending_orders free_amounts v. */
  function Release(p: Pool, v: int): Pool {
    if v in p.pending then p.(pending := p.pending - {v}, free := p.free + {v}) else p
  }

  function Allocate(p: Pool, v: int): Pool {
    Reserve(Pop(p, v), v)
  }

  function Compensate(p: Pool, v: int): Pool {
    AddFree(Unreserve(p, v), v)
  }

  predicate Disjoint(p: Pool) {
    p.free !! p.pending
  }

  /** Every command sequence the code issues keeps the two working sets apart. */
  lemma DisjointKept(p: Pool, v: int)
    requires Disjoint(p)
    ensures v in p.free ==> Disjoint(Pop(p, v)) && Disjoint(Allocate(p, v)) && Disjoint(Compensate(Allocate(p, v), v))
    ensures Disjoint(Compensate(p, v)) && Disjoint(Release(p, v)) && Disjoint(Unreserve(p, v))
  {
  }

  /** Compensation undoes an allocation exactly, whether or not v was still in `amounts`, if
      and only if v was not also in `pending_orders` before it was popped - which the two sets
      being disjoint guarantees. */
  lemma UndoIsExact(p: Pool, v: int)
    requires v in p.free
    ensures Compensate(Allocate(p, v), v) == p <==> v !in p.pending
  {
  }

  /** A paid life cycle - popped, reserved, released - returns an amount to `free_amounts` if and
      only if it was in `amounts` or `pending_orders`; and the first of these it leaves. */
  lemma PaidCycleReturns(p: Pool, v: int)
    requires v in p.free
    ensures var p' := Release(Allocate(p, v), v);
            && (v in p'.free <==> v in p.amounts || v in p.pending)
            && p' == p.(amounts := p.amounts - {v}, pending := p.pending - {v},
                        free := if v in p.amounts || v in p.pending then p.free else p.free - {v})
  {
    var p' := Release(Allocate(p, v), v);
    assert v in p.amounts || v in p.pending ==> p'.free == p.free;
    assert p'.pending == p.pending - {v};
    assert p'.amounts == p.amounts - {v};
  }

  /** The life of one amount through a paid order: the first time, the release puts it back
      into `free_amounts` but never into `amounts`; the second time neither the reservation
      nor the release does anything, and the amount has left the pool for good. */
  lemma SecondPaymentLosesAmount(p: Pool, v: int)
    requires v in p.free && v in p.amounts && v !in p.pending
    ensures var once := Release(Allocate(p, v), v);
            && once == p.(amounts := p.amounts - {v})
            && Release(Allocate(once, v), v) == once.(free := p.free - {v})
  {
  }

  /** The member a Redis pop picks is not under the caller's control. */
  method AnyOf(s: set<int>) returns (v: int)
    requires s != {}
    ensures v in s
  {
    HasMember(s);
    v :| v in s;
  }

  lemma HasMember(s: set<int>)
    ensures s == {} || exists v: int :: v in s
  {
    if !exists v: int :: v in s {
      assert s <= {};
    }
  }
}
