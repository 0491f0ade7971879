/**
 * Insertion-ordered dictionaries: the model of a JavaScript object used as a
 * `Record<string, T>` and of a JavaScript `Map`. Both keep their keys in
 * insertion order; writing an existing key keeps its position.
 */
module Records {
  import opened Wrappers

  datatype Entry<T> = Entry(key: string, value: T)

  type Dict<T> = seq<Entry<T>>

  function Keys<T>(d: Dict<T>): (ks: seq<string>)
    ensures |ks| == |d|
    ensures forall i :: 0 <= i < |d| ==> ks[i] == d[i].key
  {
    if d == [] then [] else [d[0].key] + Keys(d[1..])
  }

  function Values<T>(d: Dict<T>): (vs: seq<T>)
    ensures |vs| == |d|
    ensures forall i :: 0 <= i < |d| ==> vs[i] == d[i].value
  {
    if d == [] then [] else [d[0].value] + Values(d[1..])
  }

  predicate HasKey<T>(d: Dict<T>, k: string) {
    exists i :: 0 <= i < |d| && d[i].key == k
  }

  /** No key occurs twice. */
  predicate UniqueKeys<T>(d: Dict<T>) {
    forall i, j :: 0 <= i < j < |d| ==> d[i].key != d[j].key
  }

  /** Position of the first entry under `k`, or -1. */
  function IndexOf<T>(d: Dict<T>, k: string): (i: int)
    ensures -1 <= i < |d|
    ensures i == -1 <==> !HasKey(d, k)
    ensures 0 <= i ==> d[i].key == k && forall j :: 0 <= j < i ==> d[j].key != k
  {
    if d == [] then -1
    else if d[0].key == k then 0
    else
      var i := IndexOf(d[1..], k);
      assert forall j :: 1 <= j < |d| ==> d[1..][j - 1] == d[j];
      if i == -1 then -1 else i + 1
  }

  /** `d[k]`: the value stored under `k`, if any. */
  function Get<T>(d: Dict<T>, k: string): (r: Option<T>)
    ensures r.None? <==> !HasKey(d, k)
    ensures r.Some? ==> Entry(k, r.value) in d
    ensures UniqueKeys(d) ==> forall i :: 0 <= i < |d| && d[i].key == k ==> r == Some(d[i].value)
  {
    var i := IndexOf(d, k);
    if i < 0 then None else Some(d[i].value)
  }

  /** `{ ...d, [k]: v }`: overwrite in place when `k` is present, append otherwise. */
  function Put<T>(d: Dict<T>, k: string, v: T): (r: Dict<T>)
    ensures HasKey(d, k) ==> |r| == |d| && r[IndexOf(d, k)] == Entry(k, v)
    ensures HasKey(d, k) ==> forall j :: 0 <= j < |d| && j != IndexOf(d, k) ==> r[j] == d[j]
    ensures !HasKey(d, k) ==> r == d + [Entry(k, v)]
  {
    var i := IndexOf(d, k);
    if i < 0 then d + [Entry(k, v)] else d[i := Entry(k, v)]
  }

  lemma PutKeys<T>(d: Dict<T>, k: string, v: T)
    ensures HasKey(d, k) ==> Keys(Put(d, k, v)) == Keys(d)
    ensures !HasKey(d, k) ==> Keys(Put(d, k, v)) == Keys(d) + [k]
  {
  }

  /** Reading back after a write: the new value under `k`, every other key untouched. */
  lemma PutGet<T>(d: Dict<T>, k: string, v: T, k': string)
    ensures Get(Put(d, k, v), k') == if k' == k then Some(v) else Get(d, k')
  {
    var r := Put(d, k, v);
    var a, b := IndexOf(r, k'), IndexOf(d, k');
    var i := IndexOf(d, k);
    if k' == k {
      if i < 0 {
        assert r[|d|].key == k;
        assert a == |d|;
      } else {
        assert r[i].key == k;
        assert a == i;
      }
    } else {
      assert b >= 0 ==> r[b].key == k';
      assert a >= 0 && a < |d| ==> d[a].key == k';
      assert a == b;
    }
  }

  lemma PutKeepsUnique<T>(d: Dict<T>, k: string, v: T)
    requires UniqueKeys(d)
    ensures UniqueKeys(Put(d, k, v))
  {
    var r := Put(d, k, v);
    forall i, j | 0 <= i < j < |r| ensures r[i].key != r[j].key {
      if !HasKey(d, k) && j == |d| {
        assert r[i].key == d[i].key;
      }
    }
  }

  /** A second write under the same key overrides the first. */
  lemma PutPut<T>(d: Dict<T>, k: string, v: T, v': T)
    ensures Put(Put(d, k, v), k, v') == Put(d, k, v')
  {
    var r := Put(d, k, v);
    if HasKey(d, k) {
      IndexOfSameKeys(r, d, k);
    } else {
      assert r[|d|].key == k;
      assert IndexOf(r, k) == |d|;
    }
  }

  /** Lookups depend on the keys alone. */
  lemma {:induction false} IndexOfSameKeys<T, U>(d: Dict<T>, e: Dict<U>, k: string)
    requires |d| == |e| && forall i :: 0 <= i < |d| ==> d[i].key == e[i].key
    ensures IndexOf(d, k) == IndexOf(e, k)
  {
    if d != [] && d[0].key != k {
      assert forall i :: 0 <= i < |d| - 1 ==> d[1..][i] == d[i + 1] && e[1..][i] == e[i + 1];
      IndexOfSameKeys(d[1..], e[1..], k);
    }
  }

  /** `const { [k]: _, ...rest } = d`: every entry except those under `k`, in order. */
  function Remove<T>(d: Dict<T>, k: string): (r: Dict<T>)
    ensures forall i :: 0 <= i < |r| ==> r[i] in d && r[i].key != k
    ensures forall i :: 0 <= i < |d| && d[i].key != k ==> d[i] in r
    ensures |r| <= |d|
    ensures !HasKey(d, k) ==> r == d
  {
    if d == [] then []
    else
      var rest := Remove(d[1..], k);
      assert !HasKey(d, k) ==> !HasKey(d[1..], k);
      if d[0].key == k then rest else [d[0]] + rest
  }

  /** Removal distributes over concatenation, so the surviving entries keep their order. */
  lemma {:induction false} RemoveAppend<T>(a: Dict<T>, b: Dict<T>, k: string)
    ensures Remove(a + b, k) == Remove(a, k) + Remove(b, k)
  {
    if a != [] {
      var ab := a + b;
      assert ab != [] && ab[0] == a[0] && ab[1..] == a[1..] + b;
      RemoveAppend(a[1..], b, k);
      var tail := Remove(a[1..], k) + Remove(b, k);
      assert Remove(ab[1..], k) == tail;
      if a[0].key == k {
        assert Remove(ab, k) == tail;
        assert Remove(a, k) == Remove(a[1..], k);
      } else {
        assert Remove(ab, k) == [a[0]] + tail;
        assert Remove(a, k) == [a[0]] + Remove(a[1..], k);
      }
    } else {
      assert a + b == b;
    }
  }

  lemma {:induction false} RemoveKeepsUnique<T>(d: Dict<T>, k: string)
    requires UniqueKeys(d)
    ensures UniqueKeys(Remove(d, k))
  {
    if d != [] {
      RemoveKeepsUnique(d[1..], k);
      var rest := Remove(d[1..], k);
      forall i | 0 <= i < |rest| ensures rest[i].key != d[0].key {
        assert rest[i] in d[1..];
      }
    }
  }

  lemma RemoveGet<T>(d: Dict<T>, k: string, k': string)
    requires UniqueKeys(d)
    ensures Get(Remove(d, k), k') == if k' == k then None else Get(d, k')
  {
    RemoveKeepsUnique(d, k);
    var r := Remove(d, k);
    var g := Get(r, k');
    if k' != k {
      assert UniqueKeys(r);
      var h := Get(d, k');
      if g.Some? { assert Entry(k', g.value) in d; }
      if h.Some? { assert Entry(k', h.value) in r; }
    }
  }
}
