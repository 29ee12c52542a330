/** Parts of sequences by position, and the order of strings. */
module Sequences {

  /** `s` holds `t` at position `at`. */
  predicate Holds<T(==)>(s: seq<T>, at: nat, t: seq<T>) {
    at + |t| <= |s| && forall i {:trigger t[i]} :: 0 <= i < |t| ==> s[at + i] == t[i]
  }

  /** A concatenation that is held is held part by part. */
  lemma HoldsPart<T>(s: seq<T>, at: nat, x: seq<T>, y: seq<T>)
    requires Holds(s, at, x + y)
    ensures Holds(s, at, x) && Holds(s, at + |x|, y)
  {
    forall i | 0 <= i < |x| ensures s[at + i] == x[i] { assert (x + y)[i] == x[i]; }
    forall i | 0 <= i < |y| ensures s[at + |x| + i] == y[i] { assert (x + y)[|x| + i] == y[i]; }
  }

  lemma HoldsPrefix<T>(s: seq<T>, at: nat, t: seq<T>, x: seq<T>)
    requires Holds(s, at, t) && x <= t
    ensures Holds(s, at, x)
  {
    forall i | 0 <= i < |x| ensures s[at + i] == x[i] { assert t[i] == x[i]; }
  }

  lemma HeldAfter<T>(s: seq<T>, before: seq<T>, t: seq<T>)
    requires before + t <= s
    ensures Holds(s, |before|, t)
  {
    forall i | 0 <= i < |t| ensures s[|before| + i] == t[i] { assert (before + t)[|before| + i] == t[i]; }
  }

  lemma HoldsMiddle<T>(s: seq<T>, at: nat, t: seq<T>, x: seq<T>, y: seq<T>)
    requires Holds(s, at, t) && x + y <= t
    ensures Holds(s, at + |x|, y)
  {
    forall i | 0 <= i < |y| ensures s[at + |x| + i] == y[i] {
      assert (x + y)[|x| + i] == y[i];
      assert t[|x| + i] == y[i];
    }
  }

  /** `operator<` of `std::string`, from character `i` on. */
  predicate LessFrom(a: string, b: string, i: nat)
    requires i <= |a| && i <= |b|
    decreases |a| - i
  {
    i < |b| && (i == |a| || a[i] < b[i] || (a[i] == b[i] && LessFrom(a, b, i + 1)))
  }

  predicate Less(a: string, b: string) { LessFrom(a, b, 0) }

  lemma {:induction false} LessTransitive(a: string, b: string, c: string, i: nat)
    requires i <= |a| && i <= |b| && i <= |c| && LessFrom(a, b, i) && LessFrom(b, c, i)
    ensures LessFrom(a, c, i)
    decreases |a| - i
  {
    if i < |a| && a[i] == b[i] == c[i] { LessTransitive(a, b, c, i + 1); }
  }

  /** Of two different strings one is less. */
  lemma {:induction false} LessTotal(a: string, b: string, i: nat)
    requires i <= |a| && i <= |b| && a != b && forall k :: 0 <= k < i ==> a[k] == b[k]
    ensures LessFrom(a, b, i) || LessFrom(b, a, i)
    decreases |a| - i
  {
    if i < |a| && i < |b| && a[i] == b[i] { LessTotal(a, b, i + 1); }
  }
}
