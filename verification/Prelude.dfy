/** Values and small facts about sequences and sets that every stage uses. */
module Prelude {
  datatype Option<+T> = None | Some(value: T)

  // A command's answer; an error can be raised after the server has executed it.
  datatype Reply = Answered | Raised(applied: bool)

  predicate TakesEffect(r: Reply) {
    r.Answered? || r.applied
  }

  function Min(a: int, b: int): int {
    if a < b then a else b
  }

  function AsSet(ids: seq<nat>): set<nat> {
    set id | id in ids
  }

  ghost predicate Distinct(ids: seq<nat>) {
    forall i, j :: 0 <= i < j < |ids| ==> ids[i] != ids[j]
  }

  lemma {:induction false} DistinctSize(ids: seq<nat>)
    requires Distinct(ids)
    ensures |AsSet(ids)| == |ids|
  {
    if ids != [] {
      var last := |ids| - 1;
      DistinctSize(ids[..last]);
      assert AsSet(ids) == AsSet(ids[..last]) + {ids[last]};
    }
  }

  function Below(ids: set<nat>, n: nat): set<nat> {
    set id | id in ids && id < n
  }

  lemma {:induction false} TimesMonotone(d: nat, a: nat, b: nat)
    requires a <= b
    ensures d * a <= d * b
  {
    if a < b {
      TimesMonotone(d, a, b - 1);
      assert d * b == d * (b - 1) + d;
    }
  }

  lemma BelowStep(ids: set<nat>, n: nat)
    requires n > 0
    ensures |Below(ids, n)| == |Below(ids, n - 1)| + if n - 1 in ids then 1 else 0
  {
    assert Below(ids, n) == Below(ids, n - 1) + if n - 1 in ids then {n - 1} else {};
  }
}
