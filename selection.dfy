/**
 * The selection `available.reduce((a, b) => (a.priority < b.priority ? a : b))`
 * used by both priority schedulers of script.js.
 */
module Selection {

  /** Strictly increasing: the order in which `filter` returns indices of the input. */
  predicate Ascending(s: seq<nat>)
  {
    forall i, j :: 0 <= i < j < |s| ==> s[i] < s[j]
  }

  /** Every candidate index has a priority. */
  predicate InBounds(pri: seq<int>, avail: seq<nat>)
  {
    forall k :: 0 <= k < |avail| ==> avail[k] < |pri|
  }

  /**
   * The reduction as the source writes it: a left fold that keeps the
   * accumulator only when its priority is strictly smaller than the next
   * candidate's.
   */
  function ReduceMin(pri: seq<int>, avail: seq<nat>): (r: nat)
    requires |avail| > 0 && InBounds(pri, avail)
    ensures r in avail
  {
    if |avail| == 1 then avail[0]
    else
      var a := ReduceMin(pri, avail[..|avail| - 1]);
      var b := avail[|avail| - 1];
      if pri[a] < pri[b] then a else b
  }

  /**
   * The reference definition of the choice: a candidate of minimal priority
   * such that every later candidate has a strictly larger priority, that
   * is, the LAST minimal one in iteration order.
   */
  predicate IsLastMin(pri: seq<int>, avail: seq<nat>, r: nat)
    requires InBounds(pri, avail)
  {
    && r in avail
    && (forall k :: 0 <= k < |avail| ==> pri[r] <= pri[avail[k]])
    && (forall k :: 0 <= k < |avail| && avail[k] > r ==> pri[r] < pri[avail[k]])
  }

  /** The fold picks the last candidate of minimal priority. */
  lemma {:induction false} ReduceMinIsLastMin(pri: seq<int>, avail: seq<nat>)
    requires |avail| > 0 && InBounds(pri, avail) && Ascending(avail)
    ensures IsLastMin(pri, avail, ReduceMin(pri, avail))
  {
    if |avail| > 1 {
      var front := avail[..|avail| - 1];
      ReduceMinIsLastMin(pri, front);
      var a := ReduceMin(pri, front);
      var b := avail[|avail| - 1];
      assert forall k :: 0 <= k < |avail| - 1 ==> avail[k] == front[k] && avail[k] < b;
    }
  }

  /** The reference definition determines the choice uniquely. */
  lemma LastMinUnique(pri: seq<int>, avail: seq<nat>, r: nat, r': nat)
    requires InBounds(pri, avail) && IsLastMin(pri, avail, r) && IsLastMin(pri, avail, r')
    ensures r == r'
  {
    var k :| 0 <= k < |avail| && avail[k] == r;
    var k' :| 0 <= k' < |avail| && avail[k'] == r';
    assert pri[r] <= pri[r'] && pri[r'] <= pri[r];
  }

  /** Both directions: a candidate is the fold's choice exactly when it is the last minimal one. */
  lemma ReduceMinCharacterized(pri: seq<int>, avail: seq<nat>, r: nat)
    requires |avail| > 0 && InBounds(pri, avail) && Ascending(avail)
    ensures r == ReduceMin(pri, avail) <==> IsLastMin(pri, avail, r)
  {
    ReduceMinIsLastMin(pri, avail);
    if IsLastMin(pri, avail, r) {
      LastMinUnique(pri, avail, r, ReduceMin(pri, avail));
    }
  }

  /** Two candidates of equal priority: the fold keeps the later one. */
  lemma ReduceMinTie(p: int)
    ensures ReduceMin([p, p], [0, 1]) == 1
  {
    assert ReduceMin([p, p], [0]) == 0;
  }
}
