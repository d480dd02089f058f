/**
 * The stable sort `processes.sort((a, b) => a.arrival - b.arrival)` of Round
 * Robin, modelled as an insertion sort.
 */
module ArrivalSort {
  import opened Processes

  /** Arrival times never decrease along the sequence. */
  predicate SortedByArrival(s: seq<Process>)
  {
    forall i, j :: 0 <= i < j < |s| ==> s[i].arrival <= s[j].arrival
  }

  /** Inserts `x` after every trailing element that arrives no later than it. */
  function Insert(s: seq<Process>, x: Process): (r: seq<Process>)
    ensures |r| == |s| + 1
  {
    if s == [] || s[|s| - 1].arrival <= x.arrival then s + [x]
    else Insert(s[..|s| - 1], x) + [s[|s| - 1]]
  }

  /** Insertion adds exactly `x`. */
  lemma {:induction false} InsertMultiset(s: seq<Process>, x: Process)
    ensures multiset(Insert(s, x)) == multiset(s) + multiset{x}
  {
    if s != [] && s[|s| - 1].arrival > x.arrival {
      InsertMultiset(s[..|s| - 1], x);
      assert s == s[..|s| - 1] + [s[|s| - 1]];
    }
  }

  /** Insertion into a sorted sequence keeps it sorted. */
  lemma {:induction false} InsertSorted(s: seq<Process>, x: Process)
    requires SortedByArrival(s)
    ensures SortedByArrival(Insert(s, x))
  {
    if s != [] && s[|s| - 1].arrival > x.arrival {
      var front := s[..|s| - 1];
      var last := s[|s| - 1];
      InsertSorted(front, x);
      InsertMultiset(front, x);
      var r := Insert(front, x);
      forall k | 0 <= k < |r|
        ensures r[k].arrival <= last.arrival
      {
        assert r[k] in multiset(front) + multiset{x};
      }
      SortedSnoc(r, last);
      assert Insert(s, x) == r + [last];
    }
  }

  /** Appending an element no earlier than every element keeps the order. */
  lemma SortedSnoc(r: seq<Process>, last: Process)
    requires SortedByArrival(r)
    requires forall k :: 0 <= k < |r| ==> r[k].arrival <= last.arrival
    ensures SortedByArrival(r + [last])
  {
    var t := r + [last];
    forall i, j | 0 <= i < j < |t|
      ensures t[i].arrival <= t[j].arrival
    {
      if j < |r| {
        assert t[i] == r[i] && t[j] == r[j];
      } else {
        assert t[i] == r[i];
      }
    }
  }

  /** Insertion sort by arrival. */
  function SortByArrival(s: seq<Process>): (r: seq<Process>)
    ensures |r| == |s|
    ensures SortedByArrival(r)
    ensures multiset(r) == multiset(s)
  {
    if s == [] then []
    else
      var front := SortByArrival(s[..|s| - 1]);
      InsertSorted(front, s[|s| - 1]);
      InsertMultiset(front, s[|s| - 1]);
      assert s == s[..|s| - 1] + [s[|s| - 1]];
      Insert(front, s[|s| - 1])
  }

  /** The records that arrive at time `a`, in order. */
  function WithArrival(s: seq<Process>, a: nat): seq<Process>
  {
    if s == [] then []
    else WithArrival(s[..|s| - 1], a) + (if s[|s| - 1].arrival == a then [s[|s| - 1]] else [])
  }

  lemma {:induction false} WithArrivalAppend(s: seq<Process>, t: seq<Process>, a: nat)
    ensures WithArrival(s + t, a) == WithArrival(s, a) + WithArrival(t, a)
    decreases |t|
  {
    if t == [] {
      assert s + t == s;
    } else {
      assert (s + t)[..|s + t| - 1] == s + t[..|t| - 1];
      WithArrivalAppend(s, t[..|t| - 1], a);
    }
  }

  lemma WithArrivalSingle(x: Process, a: nat)
    ensures WithArrival([x], a) == if x.arrival == a then [x] else []
  {
    assert [x][..0] == [];
    assert WithArrival([x], a) == WithArrival([], a) + (if x.arrival == a then [x] else []);
  }

  lemma {:induction false} InsertStable(s: seq<Process>, x: Process, a: nat)
    ensures WithArrival(Insert(s, x), a) == WithArrival(s, a) + (if x.arrival == a then [x] else [])
  {
    WithArrivalSingle(x, a);
    if s == [] || s[|s| - 1].arrival <= x.arrival {
      WithArrivalAppend(s, [x], a);
    } else {
      var front := s[..|s| - 1];
      var last := s[|s| - 1];
      var r := Insert(front, x);
      InsertStable(front, x, a);
      WithArrivalAppend(r, [last], a);
      WithArrivalAppend(front, [last], a);
      WithArrivalSingle(last, a);
      InsertStableStep(s, front, last, x, r, a);
    }
  }

  /** The sequence identity behind the step of InsertStable where `x` passes `last`. */
  lemma InsertStableStep(s: seq<Process>, front: seq<Process>, last: Process, x: Process, r: seq<Process>, a: nat)
    requires s == front + [last] && x.arrival < last.arrival
    requires WithArrival(r, a) == WithArrival(front, a) + (if x.arrival == a then [x] else [])
    requires WithArrival(r + [last], a) == WithArrival(r, a) + WithArrival([last], a)
    requires WithArrival(front + [last], a) == WithArrival(front, a) + WithArrival([last], a)
    requires WithArrival([last], a) == if last.arrival == a then [last] else []
    ensures WithArrival(r + [last], a) == WithArrival(s, a) + (if x.arrival == a then [x] else [])
  {
  }

  /** Stability: records with equal arrival keep their input order. */
  lemma {:induction false} SortByArrivalStable(s: seq<Process>, a: nat)
    ensures WithArrival(SortByArrival(s), a) == WithArrival(s, a)
  {
    if s != [] {
      var front := s[..|s| - 1];
      var x := s[|s| - 1];
      var sf := SortByArrival(front);
      SortByArrivalUnfold(s);
      SortByArrivalStable(front, a);
      InsertStable(sf, x, a);
      SortStableStep(s, front, x, sf, Insert(sf, x), a);
    }
  }

  lemma SortByArrivalUnfold(s: seq<Process>)
    requires s != []
    ensures SortByArrival(s) == Insert(SortByArrival(s[..|s| - 1]), s[|s| - 1])
  {
  }

  /** The sequence identity behind the step of SortByArrivalStable. */
  lemma SortStableStep(s: seq<Process>, front: seq<Process>, x: Process, sf: seq<Process>, r: seq<Process>, a: nat)
    requires WithArrival(s, a) == WithArrival(front, a) + (if x.arrival == a then [x] else [])
    requires WithArrival(sf, a) == WithArrival(front, a)
    requires WithArrival(r, a) == WithArrival(sf, a) + (if x.arrival == a then [x] else [])
    ensures WithArrival(r, a) == WithArrival(s, a)
  {
  }

  lemma {:induction false} InsertDistinctIds(s: seq<Process>, x: Process)
    requires DistinctIds(s)
    requires forall y :: y in s ==> y.id != x.id
    ensures DistinctIds(Insert(s, x))
  {
    if s != [] && s[|s| - 1].arrival > x.arrival {
      var front := s[..|s| - 1];
      var last := s[|s| - 1];
      assert forall y :: y in front ==> y in s;
      InsertDistinctIds(front, x);
      InsertMultiset(front, x);
      var r := Insert(front, x);
      assert forall k :: 0 <= k < |front| ==> front[k].id != last.id;
      forall y | y in r
        ensures y.id != last.id
      {
        assert y in multiset(front) + multiset{x};
      }
      assert Insert(s, x) == r + [last];
    }
  }

  /** Sorting keeps ids distinct. */
  lemma {:induction false} SortByArrivalDistinctIds(s: seq<Process>)
    requires DistinctIds(s)
    ensures DistinctIds(SortByArrival(s))
  {
    if s != [] {
      var front := s[..|s| - 1];
      SortByArrivalDistinctIds(front);
      var r := SortByArrival(front);
      assert forall y :: y in r ==> y in multiset(front);
      assert forall k :: 0 <= k < |front| ==> front[k].id != s[|s| - 1].id;
      InsertDistinctIds(r, s[|s| - 1]);
    }
  }

  /** Sorting keeps bursts positive and ids distinct. */
  lemma SortByArrivalRunnable(s: seq<Process>)
    requires Runnable(s)
    ensures Runnable(SortByArrival(s))
  {
    SortByArrivalDistinctIds(s);
    var r := SortByArrival(s);
    forall i | 0 <= i < |r|
      ensures r[i].burst > 0
    {
      assert r[i] in multiset(s);
    }
  }
}
