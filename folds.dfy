/**
 * Left folds over sequences: `reduce((sum, x) => sum + f(x), 0)` and
 * `filter(p)`, with the facts the model needs about them.
 */
module Folds {

  /** `s.reduce((sum, x) => sum + f(x), 0)`, accumulated from the left. */
  function Sum<T>(s: seq<T>, f: T -> real): real {
    if s == [] then 0.0 else Sum(s[..|s| - 1], f) + f(s[|s| - 1])
  }

  /** `s.reduce((sum, x) => sum + f(x), 0)` over integers. */
  function SumInt<T>(s: seq<T>, f: T -> int): int {
    if s == [] then 0 else SumInt(s[..|s| - 1], f) + f(s[|s| - 1])
  }

  /** `s.filter(p)`, keeping order. */
  function Filter<T>(s: seq<T>, p: T -> bool): (r: seq<T>)
    ensures |r| <= |s|
    ensures forall i :: 0 <= i < |r| ==> p(r[i]) && r[i] in s
    ensures forall i :: 0 <= i < |s| && p(s[i]) ==> s[i] in r
  {
    if s == [] then []
    else
      var init := Filter(s[..|s| - 1], p);
      assert forall i :: 0 <= i < |s| - 1 ==> s[..|s| - 1][i] == s[i];
      if p(s[|s| - 1]) then init + [s[|s| - 1]] else init
  }

  lemma {:induction false} SumAppend<T>(a: seq<T>, b: seq<T>, f: T -> real)
    ensures Sum(a + b, f) == Sum(a, f) + Sum(b, f)
  {
    if b == [] {
      assert a + b == a;
    } else {
      assert (a + b)[..|a + b| - 1] == a + b[..|b| - 1];
      SumAppend(a, b[..|b| - 1], f);
    }
  }

  lemma {:induction false} SumIntAppend<T>(a: seq<T>, b: seq<T>, f: T -> int)
    ensures SumInt(a + b, f) == SumInt(a, f) + SumInt(b, f)
  {
    if b == [] {
      assert a + b == a;
    } else {
      assert (a + b)[..|a + b| - 1] == a + b[..|b| - 1];
      SumIntAppend(a, b[..|b| - 1], f);
    }
  }

  /** A sum does not depend on the order of its terms. */
  lemma {:induction false} SumPermutation<T>(a: seq<T>, b: seq<T>, f: T -> real)
    requires multiset(a) == multiset(b)
    ensures Sum(a, f) == Sum(b, f)
  {
    if a != [] {
      var x := a[|a| - 1];
      assert x in multiset(b);
      var k :| 0 <= k < |b| && b[k] == x;
      var rest := b[..k] + b[k + 1..];
      assert b == b[..k] + [x] + b[k + 1..];
      assert a == a[..|a| - 1] + [x];
      assert multiset(b) == multiset(b[..k]) + multiset{x} + multiset(b[k + 1..]);
      assert multiset(a) == multiset(a[..|a| - 1]) + multiset{x};
      assert multiset(rest) == multiset(b[..k]) + multiset(b[k + 1..]);
      calc {
        multiset(a[..|a| - 1]);
        multiset(a) - multiset{x};
        multiset(b) - multiset{x};
        multiset(rest);
      }
      SumPermutation(a[..|a| - 1], rest, f);
      SumAppend(b[..k] + [x], b[k + 1..], f);
      SumAppend(b[..k], [x], f);
      SumAppend(b[..k], b[k + 1..], f);
      assert Sum([x], f) == f(x) by { assert [x][..0] == []; }
    }
  }

  /** An integer sum does not depend on the order of its terms. */
  lemma {:induction false} SumIntPermutation<T>(a: seq<T>, b: seq<T>, f: T -> int)
    requires multiset(a) == multiset(b)
    ensures SumInt(a, f) == SumInt(b, f)
  {
    if a != [] {
      var x := a[|a| - 1];
      assert x in multiset(b);
      var k :| 0 <= k < |b| && b[k] == x;
      var rest := b[..k] + b[k + 1..];
      assert b == b[..k] + [x] + b[k + 1..];
      assert a == a[..|a| - 1] + [x];
      assert multiset(b) == multiset(b[..k]) + multiset{x} + multiset(b[k + 1..]);
      assert multiset(a) == multiset(a[..|a| - 1]) + multiset{x};
      assert multiset(rest) == multiset(b[..k]) + multiset(b[k + 1..]);
      calc {
        multiset(a[..|a| - 1]);
        multiset(a) - multiset{x};
        multiset(b) - multiset{x};
        multiset(rest);
      }
      SumIntPermutation(a[..|a| - 1], rest, f);
      SumIntAppend(b[..k] + [x], b[k + 1..], f);
      SumIntAppend(b[..k], [x], f);
      SumIntAppend(b[..k], b[k + 1..], f);
      assert SumInt([x], f) == f(x) by { assert [x][..0] == []; }
    }
  }

  lemma {:induction false} SumFilterSplit<T>(s: seq<T>, p: T -> bool, f: T -> real)
    ensures Sum(Filter(s, p), f) == Sum(s, x => if p(x) then f(x) else 0.0)
  {
    if s != [] {
      SumFilterSplit(s[..|s| - 1], p, f);
      var init := Filter(s[..|s| - 1], p);
      if p(s[|s| - 1]) {
        SumAppend(init, [s[|s| - 1]], f);
        assert Sum([s[|s| - 1]], f) == f(s[|s| - 1]) by { assert [s[|s| - 1]][..0] == []; }
      }
    }
  }

  /** Sums of two functions agreeing on every element agree. */
  lemma {:induction false} SumCongruent<T>(s: seq<T>, f: T -> real, g: T -> real)
    requires forall i :: 0 <= i < |s| ==> f(s[i]) == g(s[i])
    ensures Sum(s, f) == Sum(s, g)
  {
    if s != [] {
      SumCongruent(s[..|s| - 1], f, g);
    }
  }

  /** One more step of a running sum over a prefix. */
  lemma SumPrefixStep<T>(s: seq<T>, i: nat, f: T -> real)
    requires i < |s|
    ensures Sum(s[..i + 1], f) == Sum(s[..i], f) + f(s[i])
  {
    assert s[..i + 1][..i] == s[..i];
  }

  lemma SumIntPrefixStep<T>(s: seq<T>, i: nat, f: T -> int)
    requires i < |s|
    ensures SumInt(s[..i + 1], f) == SumInt(s[..i], f) + f(s[i])
  {
    assert s[..i + 1][..i] == s[..i];
  }

  /** Replacing one term changes the sum by the difference. */
  lemma {:induction false} SumUpdate<T>(s: seq<T>, i: nat, x: T, f: T -> real)
    requires i < |s|
    ensures Sum(s[i := x], f) == Sum(s, f) - f(s[i]) + f(x)
  {
    var t := s[i := x];
    assert t[..|t| - 1] == if i == |s| - 1 then s[..|s| - 1] else s[..|s| - 1][i := x];
    if i < |s| - 1 {
      SumUpdate(s[..|s| - 1], i, x, f);
    }
  }

  lemma {:induction false} SumIntUpdate<T>(s: seq<T>, i: nat, x: T, f: T -> int)
    requires i < |s|
    ensures SumInt(s[i := x], f) == SumInt(s, f) - f(s[i]) + f(x)
  {
    var t := s[i := x];
    assert t[..|t| - 1] == if i == |s| - 1 then s[..|s| - 1] else s[..|s| - 1][i := x];
    if i < |s| - 1 {
      SumIntUpdate(s[..|s| - 1], i, x, f);
    }
  }

  /** A filter that every element passes keeps the sequence. */
  lemma {:induction false} FilterAll<T>(s: seq<T>, p: T -> bool)
    requires forall i :: 0 <= i < |s| ==> p(s[i])
    ensures Filter(s, p) == s
  {
    if s != [] {
      FilterAll(s[..|s| - 1], p);
      assert s == s[..|s| - 1] + [s[|s| - 1]];
    }
  }

  /** Filtering distributes over concatenation, so the kept elements keep their order. */
  lemma {:induction false} FilterAppend<T>(a: seq<T>, b: seq<T>, p: T -> bool)
    ensures Filter(a + b, p) == Filter(a, p) + Filter(b, p)
  {
    if b != [] {
      var ab := a + b;
      assert ab[..|ab| - 1] == a + b[..|b| - 1] && ab[|ab| - 1] == b[|b| - 1];
      FilterAppend(a, b[..|b| - 1], p);
    } else {
      assert a + b == a;
    }
  }

  /** Taking one term out of a sequence takes it out of the sum. */
  lemma SumRemove<T>(s: seq<T>, i: nat, f: T -> real)
    requires i < |s|
    ensures Sum(s[..i] + s[i + 1..], f) == Sum(s, f) - f(s[i])
  {
    var pre, post := s[..i], s[i + 1..];
    assert s == pre + ([s[i]] + post);
    SumAppend(pre, [s[i]] + post, f);
    SumAppend([s[i]], post, f);
    SumAppend(pre, post, f);
    SumSingle(s[i], f);
  }

  lemma SumSingle<T>(x: T, f: T -> real)
    ensures Sum([x], f) == f(x)
  {
    assert [x][..0] == [];
  }

  lemma SumIntRemove<T>(s: seq<T>, i: nat, f: T -> int)
    requires i < |s|
    ensures SumInt(s[..i] + s[i + 1..], f) == SumInt(s, f) - f(s[i])
  {
    var pre, post := s[..i], s[i + 1..];
    assert s == pre + ([s[i]] + post);
    SumIntAppend(pre, [s[i]] + post, f);
    SumIntAppend([s[i]], post, f);
    SumIntAppend(pre, post, f);
    SumIntSingle(s[i], f);
  }

  lemma SumIntSingle<T>(x: T, f: T -> int)
    ensures SumInt([x], f) == f(x)
  {
    assert [x][..0] == [];
  }
}
