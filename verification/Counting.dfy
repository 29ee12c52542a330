/** Counting arguments over sequences of distinct numbers. */
module Counting {

  /** Distinct numbers below `|a|` leave none of those numbers out. */
  lemma EveryNumberOccurs(a: seq<nat>, b: nat)
    requires forall i :: 0 <= i < |a| ==> a[i] < |a|
    requires forall i, j :: 0 <= i < j < |a| ==> a[i] != a[j]
    requires b < |a|
    ensures b in a
  {
    if b !in a { TooMany(a, Missing(|a|, b), 0); }
  }

  /** The numbers below `n` other than `b`. */
  ghost function Missing(n: nat, b: nat): (r: set<nat>)
    ensures |r| <= if b < n then n - 1 else n
    ensures forall x: nat :: x < n && x != b ==> x in r
  {
    if n == 0 then {} else Missing(n - 1, b) + (if b == n - 1 then {} else {n - 1})
  }

  lemma {:induction false} TooMany(a: seq<nat>, pool: set<nat>, i: nat)
    requires i <= |a| && forall j :: i <= j < |a| ==> a[j] in pool
    requires forall j, k :: 0 <= j < k < |a| ==> a[j] != a[k]
    ensures |pool| >= |a| - i
  {
    if i < |a| { TooMany(a, pool - {a[i]}, i + 1); }
  }
}
