/** Shared facts about sequences. */
module Sequences {

  /** The elements of a sequence. */
  function Elements<T(==)>(s: seq<T>): set<T> {
    set x | x in s
  }

  /** The observations `f` makes, in order. */
  function Collect<S, T>(xs: seq<S>, f: S -> seq<T>): seq<T> {
    if xs == [] then [] else f(xs[0]) + Collect(xs[1..], f)
  }

  lemma Regroup<T>(a: seq<T>, b: seq<T>, c: seq<T>)
    ensures a + (b + c) == a + b + c
  {
  }

  lemma {:induction false} CollectAppend<S, T>(a: seq<S>, b: seq<S>, f: S -> seq<T>)
    ensures Collect(a + b, f) == Collect(a, f) + Collect(b, f)
  {
    if a == [] {
      assert a + b == b;
    } else {
      CollectAppend(a[1..], b, f);
      assert (a + b)[1..] == a[1..] + b;
      Regroup(f(a[0]), Collect(a[1..], f), Collect(b, f));
      assert Collect(a + b, f) == f(a[0]) + Collect((a + b)[1..], f);
    }
  }

  lemma {:induction false} CollectNothing<S, T>(xs: seq<S>, f: S -> seq<T>)
    requires forall i :: 0 <= i < |xs| ==> f(xs[i]) == []
    ensures Collect(xs, f) == []
  {
    if xs != [] {
      assert forall i :: 0 <= i < |xs[1..]| ==> xs[1..][i] == xs[i + 1];
      CollectNothing(xs[1..], f);
    }
  }

  lemma CollectOne<S, T>(x: S, f: S -> seq<T>)
    ensures Collect([x], f) == f(x)
  {
  }

  // ---- rising numbers ----

  /** Strictly increasing numbers from `lo` up to, and without, `hi`. */
  predicate Rising(ns: seq<nat>, lo: nat, hi: nat) {
    && (forall i :: 0 <= i < |ns| ==> lo <= ns[i] < hi)
    && (forall i, j :: 0 <= i < j < |ns| ==> ns[i] < ns[j])
  }

  lemma {:induction false} RisingIsShort(ns: seq<nat>, lo: nat, hi: nat)
    requires Rising(ns, lo, hi) && lo <= hi
    ensures |ns| <= hi - lo
  {
    if ns != [] {
      assert forall i :: 0 <= i < |ns[1..]| ==> ns[1..][i] == ns[i + 1] && ns[0] < ns[i + 1];
      RisingIsShort(ns[1..], ns[0] + 1, hi);
    }
  }
}
