/**
 * Ordering records by date. JavaScript's `Array.prototype.sort` is stable, so
 * sorting by a date comparator yields exactly the stable insertion sort below.
 * The as-of-date walk over the sorted records is then characterised directly
 * on the original (insertion) order: the latest-dated record on or before the
 * target, the later insertion winning ties; when every record is later than
 * the target, the earliest-dated record, the earlier insertion winning ties.
 */
module DateOrder {
  import opened Wrappers

  predicate Sorted<T>(s: seq<T>, date: T -> int) {
    forall i, j :: 0 <= i < j < |s| ==> date(s[i]) <= date(s[j])
  }

  /** Places `x` after every element dated on or before it. */
  function Insert<T>(s: seq<T>, x: T, date: T -> int): (r: seq<T>)
    ensures |r| == |s| + 1
    ensures forall i :: 0 <= i < |r| ==> r[i] in s || r[i] == x
    ensures Sorted(s, date) ==> Sorted(r, date)
  {
    if s == [] || date(s[|s| - 1]) <= date(x) then
      assert s == [] ==> s + [x] == [x];
      assert Sorted(s, date) ==> Sorted(s + [x], date) by {
        if Sorted(s, date) {
          SnocSorted(s, x, date);
        }
      }
      s + [x]
    else
      var init := s[..|s| - 1];
      var last := s[|s| - 1];
      var r := Insert(init, x, date);
      SnocMembers(s, r, x, r + [last]);
      assert Sorted(s, date) ==> Sorted(r + [last], date) by {
        if Sorted(s, date) {
          assert Sorted(init, date);
          LastBoundsInit(s, r, x, date);
          SnocSorted(r, last, date);
        }
      }
      r + [last]
  }

  /** `Insert` adds `x` and loses nothing. */
  lemma {:induction false} InsertPermutes<T>(s: seq<T>, x: T, date: T -> int)
    ensures multiset(Insert(s, x, date)) == multiset(s) + multiset{x}
  {
    if s != [] && date(s[|s| - 1]) > date(x) {
      var init := s[..|s| - 1];
      InsertPermutes(init, x, date);
      assert s == init + [s[|s| - 1]];
    }
  }

  /** Appending an element dated no earlier than the rest keeps a sorted list sorted. */
  lemma SnocSorted<T>(r: seq<T>, last: T, date: T -> int)
    requires Sorted(r, date)
    requires forall i :: 0 <= i < |r| ==> date(r[i]) <= date(last)
    ensures Sorted(r + [last], date)
  {
  }

  /** The elements of `t`, that is `r` and then the last of `s`, come from `s` or are `x`, when those of `r` come from the front of `s` or are `x`. */
  lemma SnocMembers<T>(s: seq<T>, r: seq<T>, x: T, t: seq<T>)
    requires s != [] && t == r + [s[|s| - 1]]
    requires forall i :: 0 <= i < |r| ==> r[i] in s[..|s| - 1] || r[i] == x
    ensures forall i :: 0 <= i < |t| ==> t[i] in s || t[i] == x
  {
    forall i | 0 <= i < |r| && r[i] in s[..|s| - 1]
      ensures r[i] in s
    {
      var k :| 0 <= k < |s| - 1 && s[..|s| - 1][k] == r[i];
      assert s[k] == r[i];
    }
  }

  /** In the recursive case of `Insert`, every element placed before `s`'s last is dated no later than it. */
  lemma LastBoundsInit<T>(s: seq<T>, r: seq<T>, x: T, date: T -> int)
    requires s != [] && Sorted(s, date) && date(x) < date(s[|s| - 1])
    requires forall i :: 0 <= i < |r| ==> r[i] in s[..|s| - 1] || r[i] == x
    ensures forall i :: 0 <= i < |r| ==> date(r[i]) <= date(s[|s| - 1])
  {
    forall i | 0 <= i < |r|
      ensures date(r[i]) <= date(s[|s| - 1])
    {
      if r[i] != x {
        var k :| 0 <= k < |s| - 1 && s[..|s| - 1][k] == r[i];
        assert s[k] == r[i];
      }
    }
  }

  /** `[...s].sort((a, b) => date(a) - date(b))`. */
  function SortByDate<T>(s: seq<T>, date: T -> int): (r: seq<T>)
    ensures |r| == |s|
    ensures multiset(r) == multiset(s)
    ensures Sorted(r, date)
  {
    if s == [] then []
    else
      assert s == s[..|s| - 1] + [s[|s| - 1]];
      InsertPermutes(SortByDate(s[..|s| - 1], date), s[|s| - 1], date);
      Insert(SortByDate(s[..|s| - 1], date), s[|s| - 1], date)
  }

  /** The last element dated on or before `t`, searching from the end. */
  function LastAtOrBefore<T>(s: seq<T>, t: int, date: T -> int): (r: Option<T>)
    ensures r.None? <==> forall j :: 0 <= j < |s| ==> date(s[j]) > t
    ensures r.Some? ==> r.value in s && date(r.value) <= t
  {
    if s == [] then None
    else if date(s[|s| - 1]) <= t then Some(s[|s| - 1])
    else
      var r := LastAtOrBefore(s[..|s| - 1], t, date);
      assert forall j :: 0 <= j < |s| - 1 ==> s[..|s| - 1][j] == s[j];
      r
  }

  /**
   * Insertion-order specification of the as-of-date choice: the index of the
   * latest-dated element on or before `t`, the latest such index among equal
   * dates; -1 when every element is later than `t`.
   */
  function LatestAsOfIndex<T>(s: seq<T>, t: int, date: T -> int): (i: int)
    ensures -1 <= i < |s|
    ensures i == -1 <==> forall j :: 0 <= j < |s| ==> date(s[j]) > t
    ensures 0 <= i ==> date(s[i]) <= t
    ensures 0 <= i ==> forall j :: 0 <= j < |s| && date(s[j]) <= t ==> date(s[j]) <= date(s[i])
    ensures 0 <= i ==> forall j :: i < j < |s| && date(s[j]) <= t ==> date(s[j]) < date(s[i])
  {
    if s == [] then -1
    else
      var p := LatestAsOfIndex(s[..|s| - 1], t, date);
      assert forall j :: 0 <= j < |s| - 1 ==> s[..|s| - 1][j] == s[j];
      if date(s[|s| - 1]) <= t && (p == -1 || date(s[p]) <= date(s[|s| - 1])) then |s| - 1 else p
  }

  /**
   * Insertion-order specification of the fallback: the index of the
   * earliest-dated element, the first such index among equal dates.
   */
  function EarliestIndex<T>(s: seq<T>, date: T -> int): (i: int)
    ensures -1 <= i < |s|
    ensures i == -1 <==> s == []
    ensures 0 <= i ==> forall j :: 0 <= j < |s| ==> date(s[i]) <= date(s[j])
    ensures 0 <= i ==> forall j :: 0 <= j < i ==> date(s[j]) > date(s[i])
  {
    if s == [] then -1
    else
      var p := EarliestIndex(s[..|s| - 1], date);
      assert forall j :: 0 <= j < |s| - 1 ==> s[..|s| - 1][j] == s[j];
      if p == -1 || date(s[|s| - 1]) < date(s[p]) then |s| - 1 else p
  }

  function At<T>(s: seq<T>, i: int): Option<T> {
    if 0 <= i < |s| then Some(s[i]) else None
  }

  /**
   * The record an as-of-date lookup settles on: the latest-dated one on or
   * before `t`; failing that, the earliest-dated one; none only for no records.
   */
  function AsOfOrEarliest<T>(s: seq<T>, t: int, date: T -> int): (r: Option<T>)
    ensures r.None? <==> s == []
    ensures r.Some? ==> r.value in s
    ensures r.Some? && (exists j :: 0 <= j < |s| && date(s[j]) <= t) ==>
      date(r.value) <= t && forall j :: 0 <= j < |s| && date(s[j]) <= t ==> date(s[j]) <= date(r.value)
    ensures r.Some? && (forall j :: 0 <= j < |s| ==> date(s[j]) > t) ==>
      forall j :: 0 <= j < |s| ==> date(r.value) <= date(s[j])
  {
    var i := LatestAsOfIndex(s, t, date);
    if i >= 0 then Some(s[i]) else At(s, EarliestIndex(s, date))
  }

  /** One step of the insertion-order specification, as a value. */
  function Pick<T>(acc: Option<T>, x: T, t: int, date: T -> int): Option<T> {
    if date(x) <= t && (acc.None? || date(acc.value) <= date(x)) then Some(x) else acc
  }

  lemma {:induction false} LastAtOrBeforeInsert<T>(s: seq<T>, x: T, t: int, date: T -> int)
    requires Sorted(s, date)
    ensures LastAtOrBefore(Insert(s, x, date), t, date) == Pick(LastAtOrBefore(s, t, date), x, t, date)
  {
    if s == [] || date(s[|s| - 1]) <= date(x) {
      var r := s + [x];
      assert r[..|r| - 1] == s;
      var l := LastAtOrBefore(s, t, date);
      if l.Some? {
        var k :| 0 <= k < |s| && s[k] == l.value;
        assert date(s[k]) <= date(s[|s| - 1]);
      }
    } else {
      var init := s[..|s| - 1];
      var y := s[|s| - 1];
      assert Sorted(init, date);
      LastAtOrBeforeInsert(init, x, t, date);
      var r := Insert(init, x, date) + [y];
      assert r[..|r| - 1] == Insert(init, x, date);
      assert init == s[..|s| - 1];
    }
  }

  /** The walk over the stably sorted records finds the insertion-order choice. */
  lemma {:induction false} LastOfSortedIsLatestAsOf<T>(s: seq<T>, t: int, date: T -> int)
    ensures LastAtOrBefore(SortByDate(s, date), t, date) == At(s, LatestAsOfIndex(s, t, date))
  {
    if s != [] {
      var init := s[..|s| - 1];
      LastOfSortedIsLatestAsOf(init, t, date);
      LastAtOrBeforeInsert(SortByDate(init, date), s[|s| - 1], t, date);
      var p := LatestAsOfIndex(init, t, date);
      assert p >= 0 ==> s[p] == init[p];
    }
  }

  lemma {:induction false} FirstOfInsert<T>(s: seq<T>, x: T, date: T -> int)
    requires Sorted(s, date)
    ensures Insert(s, x, date)[0] == if s == [] || date(x) < date(s[0]) then x else s[0]
  {
    if s != [] && date(s[|s| - 1]) > date(x) {
      var init := s[..|s| - 1];
      assert Sorted(init, date);
      if init != [] {
        FirstOfInsert(init, x, date);
        assert init[0] == s[0];
      }
    }
  }

  /** The first element of the stably sorted records is the earliest-dated, first-inserted one. */
  lemma {:induction false} FirstOfSortedIsEarliest<T>(s: seq<T>, date: T -> int)
    requires s != []
    ensures SortByDate(s, date)[0] == s[EarliestIndex(s, date)]
  {
    var init := s[..|s| - 1];
    FirstOfInsert(SortByDate(init, date), s[|s| - 1], date);
    if init != [] {
      FirstOfSortedIsEarliest(init, date);
      var p := EarliestIndex(init, date);
      assert s[p] == init[p];
    }
  }

  /** Elements after the first one later than `t` (in sorted order) are all later than `t`. */
  lemma LastAtOrBeforeStops<T>(s: seq<T>, i: nat, t: int, date: T -> int)
    requires Sorted(s, date) && i < |s| && date(s[i]) > t
    ensures LastAtOrBefore(s, t, date) == LastAtOrBefore(s[..i], t, date)
    decreases |s|
  {
    if |s| - 1 > i {
      assert s[..|s| - 1][..i] == s[..i];
      LastAtOrBeforeStops(s[..|s| - 1], i, t, date);
    } else {
      assert s[..|s| - 1] == s[..i];
    }
  }
}
