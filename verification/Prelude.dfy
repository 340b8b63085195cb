/** Options, stable filtering, and counting. */
module Prelude {

  datatype Option<+T> = None | Some(value: T)

  /** The elements satisfying `p`, in their original order (C++ `remove_if` keeps this order). */
  function Filter<T>(p: T -> bool, s: seq<T>): seq<T> {
    if s == [] then []
    else
      var rest := Filter(p, s[..|s| - 1]);
      if p(s[|s| - 1]) then rest + [s[|s| - 1]] else rest
  }

  /** The positions that `Filter` keeps. */
  ghost function Kept<T>(p: T -> bool, s: seq<T>): seq<nat> {
    if s == [] then []
    else
      var rest := Kept(p, s[..|s| - 1]);
      if p(s[|s| - 1]) then rest + [|s| - 1] else rest
  }

  /** `r` lists the elements of `s` at positions `at`: all those satisfying `p`, and in increasing order. */
  ghost predicate Selects<T>(p: T -> bool, s: seq<T>, at: seq<nat>, r: seq<T>) {
    && |r| == |at|
    && (forall k :: 0 <= k < |at| ==> at[k] < |s| && r[k] == s[at[k]])
    && (forall k, l :: 0 <= k < l < |at| ==> at[k] < at[l])
    && (forall i :: 0 <= i < |s| ==> (p(s[i]) <==> i in at))
  }

  lemma SelectsSnoc<T>(p: T -> bool, s: seq<T>, at: seq<nat>, r: seq<T>, x: T)
    requires Selects(p, s, at, r)
    ensures Selects(p, s + [x], if p(x) then at + [|s|] else at, if p(x) then r + [x] else r)
  {
  }

  lemma FilterSnoc<T>(p: T -> bool, s: seq<T>, x: T)
    ensures Filter(p, s + [x]) == if p(x) then Filter(p, s) + [x] else Filter(p, s)
    ensures Kept(p, s + [x]) == if p(x) then Kept(p, s) + [|s|] else Kept(p, s)
  {
    assert (s + [x])[..|s|] == s;
  }

  lemma SelectsNone<T>(p: T -> bool, s: seq<T>)
    requires s == []
    ensures Selects(p, s, Kept(p, s), Filter(p, s))
  {
  }

  /** `Filter` is stable: it keeps exactly the satisfying positions, in increasing order. */
  lemma {:induction false} FilterIsStable<T>(p: T -> bool, s: seq<T>)
    ensures Selects(p, s, Kept(p, s), Filter(p, s))
  {
    hide Selects, Filter, Kept;
    if s == [] {
      SelectsNone(p, s);
    } else {
      var front, x := s[..|s| - 1], s[|s| - 1];
      FilterIsStable(p, front);
      FilterSnoc(p, front, x);
      SelectsSnoc(p, front, Kept(p, front), Filter(p, front), x);
      assert s == front + [x];
    }
  }

  lemma {:induction false} InFilter<T>(p: T -> bool, s: seq<T>)
    ensures forall x :: x in Filter(p, s) <==> x in s && p(x)
  {
    if s != [] {
      InFilter(p, s[..|s| - 1]);
      assert s == s[..|s| - 1] + [s[|s| - 1]];
    }
  }

  /** Each place of a filtered list shows an element of the original list that satisfies the predicate. */
  lemma FilterPlace<T>(p: T -> bool, s: seq<T>, k: nat) returns (i: nat)
    requires k < |Filter(p, s)|
    ensures i < |s| && Filter(p, s)[k] == s[i] && p(s[i])
  {
    FilterIsStable(p, s);
    i := Kept(p, s)[k];
    assert i in Kept(p, s);
  }

  /** How many elements of `s` satisfy `p`. */
  ghost function Count<T>(p: T -> bool, s: seq<T>): nat {
    if s == [] then 0 else Count(p, s[..|s| - 1]) + One(p(s[|s| - 1]))
  }

  ghost function One(b: bool): nat {
    if b then 1 else 0
  }

  lemma CountSnoc<T>(p: T -> bool, s: seq<T>, x: T)
    ensures Count(p, s + [x]) == Count(p, s) + One(p(x))
  {
    assert (s + [x])[..|s|] == s;
  }

  lemma {:induction false} CountConcat<T>(p: T -> bool, s: seq<T>, u: seq<T>)
    ensures Count(p, s + u) == Count(p, s) + Count(p, u)
  {
    if u == [] {
      assert s + u == s;
    } else {
      var n := |u| - 1;
      CountConcat(p, s, u[..n]);
      assert s + u == (s + u[..n]) + [u[n]];
      CountSnoc(p, s + u[..n], u[n]);
    }
  }

  lemma {:induction false} CountUpdate<T>(p: T -> bool, s: seq<T>, i: nat, x: T)
    requires i < |s|
    ensures Count(p, s[i := x]) + One(p(s[i])) == Count(p, s) + One(p(x))
  {
    var n := |s| - 1;
    if i < n {
      CountUpdate(p, s[..n], i, x);
      assert s[i := x][..n] == s[..n][i := x];
    } else {
      assert s[i := x][..n] == s[..n];
    }
  }

  lemma {:induction false} CountHas<T>(p: T -> bool, s: seq<T>, i: nat)
    requires i < |s| && p(s[i])
    ensures Count(p, s) >= 1
  {
    if i < |s| - 1 {
      CountHas(p, s[..|s| - 1], i);
    }
  }

  lemma {:induction false} CountTwo<T>(p: T -> bool, s: seq<T>, i: nat, j: nat)
    requires i < j < |s| && p(s[i]) && p(s[j])
    ensures Count(p, s) >= 2
  {
    if j < |s| - 1 {
      CountTwo(p, s[..|s| - 1], i, j);
    } else {
      CountHas(p, s[..|s| - 1], i);
    }
  }

  /** Splitting a container by a predicate neither loses nor copies an element. */
  lemma {:induction false} CountSplit<T(!new)>(p: T -> bool, keep: T -> bool, drop: T -> bool, s: seq<T>)
    requires forall x :: drop(x) == !keep(x)
    ensures Count(p, Filter(keep, s)) + Count(p, Filter(drop, s)) == Count(p, s)
  {
    if s != [] {
      var front, x := s[..|s| - 1], s[|s| - 1];
      CountSplit(p, keep, drop, front);
      CountSnoc(p, Filter(keep, front), x);
      CountSnoc(p, Filter(drop, front), x);
    }
  }

  lemma {:induction false} CountNone<T>(p: T -> bool, s: seq<T>)
    requires forall x :: x in s ==> !p(x)
    ensures Count(p, s) == 0
  {
    if s != [] {
      assert s[|s| - 1] in s;
      CountNone(p, s[..|s| - 1]);
    }
  }

  /** An unbounded supply of numbers: some number is outside any finite set. */
  lemma FreshNumber(s: set<nat>)
    ensures exists n: nat :: n !in s
  {
    var m := Bound(s);
    assert m !in s;
  }

  lemma {:induction false} Bound(s: set<nat>) returns (m: nat)
    ensures forall x :: x in s ==> x < m
  {
    if s == {} {
      m := 0;
    } else {
      var x :| x in s;
      var k := Bound(s - {x});
      m := if x < k then k else x + 1;
      forall y | y in s ensures y < m {
        if y != x {
          assert y in s - {x};
        }
      }
    }
  }
}
