/** Lists of distinct piece indices, and counting them. */
module Distinct {

  ghost predicate NoDup(ids: seq<nat>) {
    forall x, y :: 0 <= x < y < |ids| ==> ids[x] != ids[y]
  }

  ghost function Below(n: nat): (s: set<nat>)
    ensures forall i: nat :: i in s <==> i < n
    ensures |s| == n
  {
    if n == 0 then {} else Below(n - 1) + {n - 1}
  }

  ghost function Members(ids: seq<nat>): (s: set<nat>)
    ensures forall i: nat :: i in s <==> i in ids
  {
    if ids == [] then {} else Members(ids[1..]) + {ids[0]}
  }

  lemma {:induction false} MembersSize(ids: seq<nat>)
    requires NoDup(ids)
    ensures |Members(ids)| == |ids|
  {
    if ids == [] {
    } else {
      MembersSize(ids[1..]);
      assert ids[0] !in ids[1..];
    }
  }

  lemma SubsetSize(a: set<nat>, b: set<nat>)
    requires a <= b
    ensures |a| <= |b| && (|a| == |b| ==> a == b)
  {
    assert b == a + (b - a);
  }

  /** Distinct numbers below `n` are at most `n` many, and exactly `n` many only when they are all of them. */
  lemma Pigeonhole(ids: seq<nat>, n: nat)
    requires NoDup(ids) && forall k :: 0 <= k < |ids| ==> ids[k] < n
    ensures |ids| <= n
    ensures |ids| == n <==> forall i :: 0 <= i < n ==> i in ids
  {
    MembersSize(ids);
    SubsetSize(Members(ids), Below(n));
    if forall i :: 0 <= i < n ==> i in ids {
      assert Members(ids) == Below(n);
    }
  }
}
