/**
 * The stable ascending sort by date that both the transaction history
 * (`sort_values(..., kind='stable')`) and the list of open lots (`sorted`)
 * go through: an insertion sort that puts each element after every element
 * whose date is not later.
 */
module Sorting {
  import opened Transactions

  /** Ascending by date. */
  predicate SortedBy<T>(s: seq<T>, date: T -> DateTime)
  {
    forall i, j :: 0 <= i < j < |s| ==> AtOrBefore(date(s[i]), date(s[j]))
  }

  /** `x` placed after every element of `s` whose date is not later than its own. */
  function Insert<T>(x: T, s: seq<T>, date: T -> DateTime): seq<T>
  {
    if s == [] then [x]
    else if AtOrBefore(date(s[|s| - 1]), date(x)) then s + [x]
    else Insert(x, s[..|s| - 1], date) + [s[|s| - 1]]
  }

  /** The sort: ascending by date and a permutation of its input. */
  function SortBy<T>(s: seq<T>, date: T -> DateTime): (r: seq<T>)
    ensures SortedBy(r, date)
    ensures multiset(r) == multiset(s)
  {
    if s == [] then []
    else
      var init := s[..|s| - 1];
      var x := s[|s| - 1];
      InsertSorted(x, SortBy(init, date), date);
      InsertPermutes(x, SortBy(init, date), date);
      assert s == init + [x];
      Insert(x, SortBy(init, date), date)
  }

  /** The elements with one given date, in order. */
  function WithDate<T>(s: seq<T>, date: T -> DateTime, d: DateTime): seq<T>
  {
    if s == [] then []
    else WithDate(s[..|s| - 1], date, d) + (if date(s[|s| - 1]) == d then [s[|s| - 1]] else [])
  }

  lemma WithDateAppend<T>(a: seq<T>, b: seq<T>, date: T -> DateTime, d: DateTime)
    ensures WithDate(a + b, date, d) == WithDate(a, date, d) + WithDate(b, date, d)
    decreases |b|
  {
    if b == [] {
      assert a + b == a;
    } else {
      assert (a + b)[..|a + b| - 1] == a + b[..|b| - 1];
      WithDateAppend(a, b[..|b| - 1], date, d);
    }
  }

  lemma {:induction false} InsertPermutes<T>(x: T, s: seq<T>, date: T -> DateTime)
    ensures multiset(Insert(x, s, date)) == multiset(s) + multiset{x}
  {
    if s != [] && !AtOrBefore(date(s[|s| - 1]), date(x)) {
      InsertPermutes(x, s[..|s| - 1], date);
      assert s == s[..|s| - 1] + [s[|s| - 1]];
    }
  }

  lemma {:induction false} InsertSorted<T>(x: T, s: seq<T>, date: T -> DateTime)
    requires SortedBy(s, date)
    ensures SortedBy(Insert(x, s, date), date)
    ensures |Insert(x, s, date)| == |s| + 1
    ensures forall i :: 0 <= i < |Insert(x, s, date)| ==>
      Insert(x, s, date)[i] == x || Insert(x, s, date)[i] in s
  {
    if s != [] && !AtOrBefore(date(s[|s| - 1]), date(x)) {
      var init := s[..|s| - 1];
      var last := s[|s| - 1];
      assert SortedBy(init, date);
      InsertSorted(x, init, date);
      var r := Insert(x, init, date);
      forall i | 0 <= i < |r|
        ensures AtOrBefore(date(r[i]), date(last))
      {
        if r[i] != x {
          var j :| 0 <= j < |init| && init[j] == r[i];
          assert s[j] == init[j];
        }
      }
      forall i | 0 <= i < |r|
        ensures r[i] == x || r[i] in s
      {
        if r[i] != x {
          var j :| 0 <= j < |init| && init[j] == r[i];
          assert s[j] == init[j];
        }
      }
    }
  }

  /** Inserting `x` adds it to its own date's elements at the end and leaves the other dates alone. */
  lemma {:induction false} InsertStable<T>(x: T, s: seq<T>, date: T -> DateTime, d: DateTime)
    requires SortedBy(s, date)
    ensures WithDate(Insert(x, s, date), date, d) == WithDate(s, date, d) + (if date(x) == d then [x] else [])
  {
    if s == [] {
      assert WithDate([x], date, d) == WithDate([], date, d) + (if date(x) == d then [x] else []);
    } else if AtOrBefore(date(s[|s| - 1]), date(x)) {
      WithDateAppend(s, [x], date, d);
      assert WithDate([x], date, d) == WithDate([], date, d) + (if date(x) == d then [x] else []);
    } else {
      var init := s[..|s| - 1];
      var last := s[|s| - 1];
      assert SortedBy(init, date);
      InsertStable(x, init, date, d);
      WithDateAppend(Insert(x, init, date), [last], date, d);
      assert WithDate([last], date, d) == WithDate([], date, d) + (if date(last) == d then [last] else []);
      assert s == init + [last];
      WithDateAppend(init, [last], date, d);
      // `last` is strictly later than `x`, so both cannot have date d.
      assert date(x) == d ==> date(last) != d;
      if date(x) == d {
        assert WithDate(Insert(x, s, date), date, d) == WithDate(init, date, d) + [x];
        assert WithDate(s, date, d) == WithDate(init, date, d);
      }
    }
  }

  /** Stability: the elements that share a date keep their input order. */
  lemma {:induction false} SortByIsStable<T>(s: seq<T>, date: T -> DateTime, d: DateTime)
    ensures WithDate(SortBy(s, date), date, d) == WithDate(s, date, d)
  {
    if s != [] {
      var init := s[..|s| - 1];
      SortByIsStable(init, date, d);
      InsertStable(s[|s| - 1], SortBy(init, date), date, d);
    }
  }

  /** Input already in date order is left as it is. */
  lemma {:induction false} SortByKeepsSorted<T>(s: seq<T>, date: T -> DateTime)
    requires SortedBy(s, date)
    ensures SortBy(s, date) == s
  {
    if s != [] {
      var init := s[..|s| - 1];
      var x := s[|s| - 1];
      assert SortedBy(init, date) by {
        forall i, j | 0 <= i < j < |init|
          ensures AtOrBefore(date(init[i]), date(init[j]))
        {
          assert init[i] == s[i] && init[j] == s[j];
        }
      }
      SortByKeepsSorted(init, date);
      assert SortBy(s, date) == Insert(x, init, date);
      if |init| > 0 {
        assert AtOrBefore(date(init[|init| - 1]), date(x)) by {
          assert init[|init| - 1] == s[|s| - 2];
        }
      }
      assert s == init + [x];
    }
  }
}
