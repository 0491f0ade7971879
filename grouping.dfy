/**
 * Summing values into groups held in an insertion-ordered dictionary,
 * `m.set(key, (m.get(key) || 0) + value)` over a sequence.
 */
module Grouping {
  import opened Wrappers
  import opened Records
  import opened Folds

  /** Adds `v` to the group `k`, opening it at the end when it is new. */
  function AddTo(g: Dict<real>, k: string, v: real): Dict<real> {
    Put(g, k, Get(g, k).GetOr(0.0) + v)
  }

  /** The kept elements' values, summed per key, keys in order of first appearance. */
  function GroupSums<T>(xs: seq<T>, keep: T -> bool, key: T -> string, val: T -> real): Dict<real> {
    if xs == [] then []
    else
      var g := GroupSums(xs[..|xs| - 1], keep, key, val);
      var x := xs[|xs| - 1];
      if keep(x) then AddTo(g, key(x), val(x)) else g
  }

  function EntryValue(e: Entry<real>): real { e.value }

  /** The function summed into group `k`. */
  function ValueFor<T>(keep: T -> bool, key: T -> string, val: T -> real, k: string): T -> real {
    x => if keep(x) && key(x) == k then val(x) else 0.0
  }

  function KeptValue<T>(keep: T -> bool, val: T -> real): T -> real {
    x => if keep(x) then val(x) else 0.0
  }

  lemma {:induction false} GroupSumsUnique<T>(xs: seq<T>, keep: T -> bool, key: T -> string, val: T -> real)
    ensures UniqueKeys(GroupSums(xs, keep, key, val))
  {
    if xs != [] {
      var g := GroupSums(xs[..|xs| - 1], keep, key, val);
      GroupSumsUnique(xs[..|xs| - 1], keep, key, val);
      var x := xs[|xs| - 1];
      if keep(x) {
        PutKeepsUnique(g, key(x), Get(g, key(x)).GetOr(0.0) + val(x));
      }
    }
  }

  /** After one step, group `k` has grown by `v` if it is the group stepped, and is unchanged otherwise. */
  lemma AddToGet(g: Dict<real>, k': string, v: real, k: string)
    ensures k == k' ==> Get(AddTo(g, k', v), k) == Some(Get(g, k).GetOr(0.0) + v)
    ensures k != k' ==> Get(AddTo(g, k', v), k) == Get(g, k)
  {
    var nv := Get(g, k').GetOr(0.0) + v;
    assert AddTo(g, k', v) == Put(g, k', nv);
    PutGet(g, k', nv, k);
  }

  /** One step opens the group stepped and keeps the others. */
  lemma AddToHasKey(g: Dict<real>, k': string, v: real, k: string)
    ensures HasKey(AddTo(g, k', v), k) <==> HasKey(g, k) || k == k'
  {
    var nv := Get(g, k').GetOr(0.0) + v;
    assert AddTo(g, k', v) == Put(g, k', nv);
    PutGet(g, k', nv, k);
  }

  /** One step adds `v` to the total of the groups. */
  lemma AddToTotal(g: Dict<real>, k: string, v: real)
    ensures Sum(AddTo(g, k, v), EntryValue) == Sum(g, EntryValue) + v
  {
    var e := Entry(k, Get(g, k).GetOr(0.0) + v);
    assert AddTo(g, k, v) == Put(g, k, e.value);
    if HasKey(g, k) {
      var idx := IndexOf(g, k);
      assert Put(g, k, e.value) == g[idx := e];
      SumUpdate(g, idx, e, EntryValue);
    } else {
      SumAppend(g, [e], EntryValue);
      assert Sum([e], EntryValue) == e.value by { assert [e][..0] == []; }
    }
  }

  /** A group exists only for the key of some kept element. */
  lemma {:induction false} GroupSumsKeysSound<T>(xs: seq<T>, keep: T -> bool, key: T -> string, val: T -> real, k: string)
    requires HasKey(GroupSums(xs, keep, key, val), k)
    ensures exists i :: 0 <= i < |xs| && keep(xs[i]) && key(xs[i]) == k
  {
    var init := xs[..|xs| - 1];
    var x := xs[|xs| - 1];
    var g := GroupSums(init, keep, key, val);
    if !(keep(x) && key(x) == k) {
      if keep(x) {
        AddToHasKey(g, key(x), val(x), k);
      }
      GroupSumsKeysSound(init, keep, key, val, k);
      var i :| 0 <= i < |init| && keep(init[i]) && key(init[i]) == k;
      assert xs[i] == init[i];
    }
  }

  /** Every kept element's key has a group. */
  lemma {:induction false} GroupSumsKeysComplete<T>(xs: seq<T>, keep: T -> bool, key: T -> string, val: T -> real, i: nat)
    requires i < |xs| && keep(xs[i])
    ensures HasKey(GroupSums(xs, keep, key, val), key(xs[i]))
  {
    var init := xs[..|xs| - 1];
    var x := xs[|xs| - 1];
    var g := GroupSums(init, keep, key, val);
    if i < |init| {
      assert init[i] == xs[i];
      GroupSumsKeysComplete(init, keep, key, val, i);
    }
    if keep(x) {
      AddToHasKey(g, key(x), val(x), key(xs[i]));
    }
  }

  /** Group `k` holds the sum of the values of exactly the kept elements with key `k`. */
  lemma {:induction false} GroupSumsGet<T>(xs: seq<T>, keep: T -> bool, key: T -> string, val: T -> real, k: string)
    ensures Get(GroupSums(xs, keep, key, val), k).GetOr(0.0) == Sum(xs, ValueFor(keep, key, val, k))
  {
    if xs != [] {
      var init := xs[..|xs| - 1];
      var x := xs[|xs| - 1];
      var g := GroupSums(init, keep, key, val);
      GroupSumsGet(init, keep, key, val, k);
      if keep(x) {
        AddToGet(g, key(x), val(x), k);
      }
    }
  }

  /** Grouping neither creates nor loses value: the groups add up to the kept elements' total. */
  lemma {:induction false} GroupSumsTotal<T>(xs: seq<T>, keep: T -> bool, key: T -> string, val: T -> real)
    ensures Sum(GroupSums(xs, keep, key, val), EntryValue) == Sum(xs, KeptValue(keep, val))
  {
    if xs != [] {
      var init := xs[..|xs| - 1];
      var x := xs[|xs| - 1];
      GroupSumsTotal(init, keep, key, val);
      if keep(x) {
        AddToTotal(GroupSums(init, keep, key, val), key(x), val(x));
      }
    }
  }
}
