/** Sums over table rows, and the few facts about them that every ledger argument uses. */
module Sums {

  /** The sum of `f` over the rows of `s`. */
  ghost function Sum<T>(s: seq<T>, f: T -> int): int {
    if s == [] then 0 else Sum(s[..|s| - 1], f) + f(s[|s| - 1])
  }

  lemma {:induction false} SumConcat<T>(a: seq<T>, b: seq<T>, f: T -> int)
    ensures Sum(a + b, f) == Sum(a, f) + Sum(b, f)
  {
    if b == [] {
      assert a + b == a;
    } else {
      assert (a + b)[..|a + b| - 1] == a + b[..|b| - 1];
      SumConcat(a, b[..|b| - 1], f);
    }
  }

  lemma {:induction false} SumAppend<T>(a: seq<T>, x: T, f: T -> int)
    ensures Sum(a + [x], f) == Sum(a, f) + f(x)
  {
    assert (a + [x])[..|a|] == a;
  }

  lemma {:induction false} SumNext<T>(s: seq<T>, n: nat, f: T -> int)
    requires n < |s|
    ensures Sum(s[..n + 1], f) == Sum(s[..n], f) + f(s[n])
  {
    assert s[..n + 1] == s[..n] + [s[n]];
    SumAppend(s[..n], s[n], f);
  }

  /** The whole sum is the sum of the first `n` rows and of the remaining ones. */
  lemma {:induction false} SumSlice<T>(s: seq<T>, n: nat, f: T -> int)
    requires n <= |s|
    ensures Sum(s, f) == Sum(s[..n], f) + Sum(s[n..], f)
  {
    assert s[..n] + s[n..] == s;
    SumConcat(s[..n], s[n..], f);
  }

  /** Replacing one row changes the sum by the difference of that row. */
  lemma {:induction false} SumUpdate<T>(s: seq<T>, i: nat, x: T, f: T -> int)
    requires i < |s|
    ensures Sum(s[i := x], f) == Sum(s, f) - f(s[i]) + f(x)
  {
    assert s == s[..i] + [s[i]] + s[i + 1..];
    assert s[i := x] == s[..i] + [x] + s[i + 1..];
    SumAppend(s[..i], s[i], f);
    SumAppend(s[..i], x, f);
    SumConcat(s[..i] + [s[i]], s[i + 1..], f);
    SumConcat(s[..i] + [x], s[i + 1..], f);
  }

  /** If every row of `s` weighs as much as the matching rows of `t` and `u` together, so do the sums. */
  lemma {:induction false} SumSplit<S, T, U>(s: seq<S>, f: S -> int, t: seq<T>, g: T -> int, u: seq<U>, h: U -> int)
    requires |s| == |t| == |u|
    requires forall i :: 0 <= i < |s| ==> f(s[i]) == g(t[i]) + h(u[i])
    ensures Sum(s, f) == Sum(t, g) + Sum(u, h)
  {
    if s != [] {
      var n := |s| - 1;
      SumSplit(s[..n], f, t[..n], g, u[..n], h);
    }
  }

  lemma {:induction false} SumSame<S, T>(s: seq<S>, f: S -> int, t: seq<T>, g: T -> int)
    requires |s| == |t|
    requires forall i :: 0 <= i < |s| ==> f(s[i]) == g(t[i])
    ensures Sum(s, f) == Sum(t, g)
  {
    if s != [] {
      var n := |s| - 1;
      SumSame(s[..n], f, t[..n], g);
    }
  }

  lemma {:induction false} SumZero<T>(s: seq<T>, f: T -> int)
    requires forall i :: 0 <= i < |s| ==> f(s[i]) == 0
    ensures Sum(s, f) == 0
  {
    if s != [] {
      SumZero(s[..|s| - 1], f);
    }
  }

  lemma {:induction false} SumNonNegative<T>(s: seq<T>, f: T -> int)
    requires forall i :: 0 <= i < |s| ==> 0 <= f(s[i])
    ensures 0 <= Sum(s, f)
  {
    if s != [] {
      SumNonNegative(s[..|s| - 1], f);
    }
  }

  /** One row never outweighs a sum of non-negative rows. */
  lemma {:induction false} SumAtLeastRow<T>(s: seq<T>, i: nat, f: T -> int)
    requires i < |s|
    requires forall j :: 0 <= j < |s| ==> 0 <= f(s[j])
    ensures f(s[i]) <= Sum(s, f)
  {
    SumSlice(s, i, f);
    SumSlice(s[i..], 1, f);
    assert s[i..][..1] == [s[i]];
    SumAppend([], s[i], f);
    assert [] + [s[i]] == [s[i]];
    SumNonNegative(s[..i], f);
    SumNonNegative(s[i..][1..], f);
  }

  /** If only row `i` can weigh anything, the sum is that row. */
  lemma {:induction false} SumSingle<T>(s: seq<T>, i: nat, f: T -> int)
    requires i < |s|
    requires forall j :: 0 <= j < |s| && j != i ==> f(s[j]) == 0
    ensures Sum(s, f) == f(s[i])
  {
    SumSlice(s, i, f);
    SumSlice(s[i..], 1, f);
    assert s[i..][..1] == [s[i]];
    SumAppend([], s[i], f);
    assert [] + [s[i]] == [s[i]];
    SumZero(s[..i], f);
    SumZero(s[i..][1..], f);
  }

  lemma {:induction false} SumInsert<T>(a: seq<T>, x: T, b: seq<T>, f: T -> int)
    ensures Sum(a + [x] + b, f) == Sum(a + b, f) + f(x)
  {
    SumConcat(a + [x], b, f);
    SumAppend(a, x, f);
    SumConcat(a, b, f);
  }

  lemma {:induction false} SplitAround<T>(t: seq<T>, x: T) returns (a: seq<T>, b: seq<T>)
    requires x in t
    ensures t == a + [x] + b
  {
    var i :| 0 <= i < |t| && t[i] == x;
    a, b := t[..i], t[i + 1..];
  }

  lemma {:induction false} BagsWithout<T>(init: seq<T>, x: T, a: seq<T>, b: seq<T>)
    requires multiset(init + [x]) == multiset(a + [x] + b)
    ensures multiset(init) == multiset(a + b)
  {
    assert multiset(init) == multiset(init + [x]) - multiset{x};
    assert multiset(a + b) == multiset(a + [x] + b) - multiset{x};
  }

  lemma {:induction false} LastInBag<T>(init: seq<T>, x: T, t: seq<T>)
    requires multiset(init + [x]) == multiset(t)
    ensures x in t
  {
    assert x in multiset(init + [x]);
  }

  /** A sum depends on the bag of rows, not on their order. */
  lemma {:induction false} SumBag<T>(s: seq<T>, t: seq<T>, f: T -> int)
    requires multiset(s) == multiset(t)
    ensures Sum(s, f) == Sum(t, f)
    decreases |s|
  {
    if s == [] {
      assert |multiset(t)| == 0;
      assert t == [];
    } else {
      var init, x := s[..|s| - 1], s[|s| - 1];
      assert s == init + [x];
      LastInBag(init, x, t);
      var a, b := SplitAround(t, x);
      BagsWithout(init, x, a, b);
      SumBag(init, a + b, f);
      SumInsert(a, x, b, f);
    }
  }
}
