/**
 * What `priorityPreemptive` promises, proved about the loop specification
 * of module PriorityPreemptive: an invariant `Inv` kept by every iteration,
 * the choice each iteration makes, and the theorems about the returned
 * schedule.
 */
module PriorityPreemptiveFacts {
  import opened Wrappers
  import opened Processes
  import opened Selection
  import opened PriorityPreemptive

  /** A job has no work left exactly when it is in `completed`, where it occurs once. */
  predicate Marks(s: State)
  {
    && Distinct(s.completed)
    && (forall k :: 0 <= k < |s.completed| ==> s.completed[k] < |s.jobs|)
    && (forall i :: 0 <= i < |s.jobs| ==> (s.jobs[i].remaining == 0 <==> i in s.completed))
  }

  /** A job that has received work arrived early enough to receive it by now. */
  predicate Progress(s: State)
  {
    forall i :: 0 <= i < |s.jobs| && s.jobs[i].remaining < s.jobs[i].proc.burst ==>
      s.jobs[i].proc.arrival + (s.jobs[i].proc.burst - s.jobs[i].remaining) <= s.time
  }

  /** Completed jobs carry their metrics, completed no later than now, in completion order. */
  predicate Done(s: State)
  {
    && (forall k :: 0 <= k < |s.completed| && s.completed[k] < |s.jobs| ==>
          CompletedAt(s.jobs[s.completed[k]], CompletionOf(s.jobs[s.completed[k]]))
          && CompletionOf(s.jobs[s.completed[k]]) <= s.time)
    && (forall k, k' :: 0 <= k < k' < |s.completed| && s.completed[k] < |s.jobs| && s.completed[k'] < |s.jobs| ==>
          CompletionOf(s.jobs[s.completed[k]]) <= CompletionOf(s.jobs[s.completed[k']]))
  }

  /** The timeline gives every job exactly the units it has received. */
  predicate Accounts(s: State)
  {
    forall i :: 0 <= i < |s.jobs| ==>
      Served(s.timeline, s.jobs[i].proc.id, s.time) == s.jobs[i].proc.burst - s.jobs[i].remaining
  }

  /** Neighbouring entries belong to different processes. */
  predicate Alternating(tl: seq<Entry>)
  {
    forall k :: 0 <= k < |tl| - 1 ==> tl[k].id != tl[k + 1].id
  }

  /** Every entry names a job. */
  predicate Owners(s: State)
  {
    forall k :: 0 <= k < |s.timeline| ==> s.timeline[k].id in Ids(s.jobs)
  }

  /** An entry with an end belongs to a completed job, and ends at its completion. */
  predicate Closed(s: State)
  {
    forall k, i ::
      0 <= k < |s.timeline| && 0 <= i < |s.jobs| && s.timeline[k].end.Some? && s.timeline[k].id == s.jobs[i].proc.id ==>
        s.jobs[i].remaining == 0 && CompletionOf(s.jobs[i]) == s.timeline[k].end.value
  }

  /** While the last entry is open its owner is available. */
  predicate Running(s: State)
  {
    s.timeline != [] && s.timeline[|s.timeline| - 1].end.None? ==>
      forall i :: 0 <= i < |s.jobs| && s.jobs[i].proc.id == s.timeline[|s.timeline| - 1].id ==>
        Ready(s.jobs[i], s.time)
  }

  /** The (owner, end) pairs of the closed entries. */
  function Closings(tl: seq<Entry>): set<(nat, nat)>
  {
    set k | 0 <= k < |tl| && tl[k].end.Some? :: (tl[k].id, tl[k].end.value)
  }

  /** Every completed job has an entry closed at its completion. */
  predicate Closes(s: State)
  {
    forall k :: 0 <= k < |s.completed| && s.completed[k] < |s.jobs| ==>
      (s.jobs[s.completed[k]].proc.id, CompletionOf(s.jobs[s.completed[k]])) in Closings(s.timeline)
  }

  /** The jobs are the input records, in input order. */
  predicate Copied(s: State, ps: seq<Process>)
  {
    && Runnable(ps)
    && |s.jobs| == |ps|
    && (forall i :: 0 <= i < |s.jobs| ==> s.jobs[i].proc == ps[i])
  }

  /** The loop invariant. */
  predicate Inv(s: State, ps: seq<Process>)
  {
    && Copied(s, ps)
    && Wf(s)
    && Marks(s)
    && Progress(s)
    && Done(s)
    && Accounts(s)
    && Gantt(s.timeline, s.time)
    && Alternating(s.timeline)
    && Owners(s)
    && Closed(s)
    && Running(s)
    && Closes(s)
  }

  lemma InitInv(ps: seq<Process>)
    requires Runnable(ps)
    ensures Inv(Init(ps), ps)
  {
    InitWf(ps);
  }
  /** Ids are distinct, so a job is determined by its id. */
  lemma SameId(s: State, ps: seq<Process>, i: nat, i': nat)
    requires Copied(s, ps) && i < |s.jobs| && i' < |s.jobs| && s.jobs[i].proc.id == s.jobs[i'].proc.id
    ensures i == i'
  {
  }

  /** With nothing available, the last entry cannot be open. */
  lemma IdleClosed(s: State, ps: seq<Process>)
    requires Inv(s, ps) && Available(s) == []
    ensures s.timeline == [] || s.timeline[|s.timeline| - 1].end.Some?
  {
  }

  /** An idle iteration keeps the timeline accounts and order. */
  lemma IdleTimeline(s: State, ps: seq<Process>)
    requires Inv(s, ps) && Available(s) == []
    ensures Accounts(s.(time := s.time + 1)) && Gantt(s.timeline, s.time + 1)
  {
    IdleClosed(s, ps);
    forall i | 0 <= i < |s.jobs|
      ensures Served(s.timeline, s.jobs[i].proc.id, s.time + 1) == Served(s.timeline, s.jobs[i].proc.id, s.time)
    {
      ServedClosed(s.timeline, s.jobs[i].proc.id, s.time + 1, s.time);
    }
    var now := s.time + 1;
    forall k | 0 <= k < |s.timeline|
      ensures Placed(s.timeline, k, now)
    {
      assert Placed(s.timeline, k, s.time);
    }
  }

  /** An idle iteration keeps the invariant. */
  lemma IdleInv(s: State, ps: seq<Process>)
    requires Inv(s, ps) && Available(s) == []
    ensures Inv(Step(s), ps)
  {
    var s' := s.(time := s.time + 1);
    IdleClosed(s, ps);
    IdleTimeline(s, ps);
    IdleLater(s, ps);
    IdleBounds(s);
    assert Step(s) == s';
  }

  /** The conjuncts that do not mention the clock survive one unit of idling. */
  lemma IdleLater(s: State, ps: seq<Process>)
    requires Copied(s, ps) && Wf(s) && Marks(s) && Owners(s) && Closed(s) && Closes(s)
    ensures var s' := s.(time := s.time + 1);
      Copied(s', ps) && Wf(s') && Marks(s') && Owners(s') && Closed(s') && Closes(s')
  {
  }

  /** Progress and completions stay bounded by a later clock, and nothing is left running. */
  lemma IdleBounds(s: State)
    requires Progress(s) && Done(s)
    requires s.timeline == [] || s.timeline[|s.timeline| - 1].end.Some?
    ensures var s' := s.(time := s.time + 1); Progress(s') && Done(s') && Running(s')
  {
  }

  /** The owner of the last entry, when it is the chosen job, is still running it. */
  lemma SameOwnerOpen(s: State, ps: seq<Process>)
    requires Inv(s, ps) && Available(s) != []
    requires s.timeline != [] && s.timeline[|s.timeline| - 1].id == s.jobs[Pick(s)].proc.id
    ensures s.timeline[|s.timeline| - 1].end.None?
  {
    var c := Pick(s);
    assert Ready(s.jobs[c], s.time);
  }

  /** An open entry started when the last one ended extends a well-ordered timeline. */
  lemma GanttOpen(tl: seq<Entry>, e: Entry, now: nat)
    requires Gantt(tl, e.start) && e.end.None? && e.start < now
    ensures Gantt(tl + [e], now)
  {
    var tl' := tl + [e];
    assert tl'[|tl|] == e;
    forall k | 0 <= k < |tl'|
      ensures Placed(tl', k, now)
    {
      if k < |tl| {
        assert Placed(tl, k, e.start);
        assert tl'[k] == tl[k];
        assert k + 1 < |tl| ==> tl'[k + 1] == tl[k + 1];
        assert EffectiveEnd(tl', k, now) == EffectiveEnd(tl, k, e.start);
      }
    }
  }

  /** What the timeline after script.js:143-148 looks like one unit later. */
  ghost predicate Opened(tl: seq<Entry>, tl1: seq<Entry>, id: nat, time: nat)
  {
    && |tl| <= |tl1| <= |tl| + 1 && tl1 != []
    && (forall k :: 0 <= k < |tl| ==> tl1[k] == tl[k])
    && tl1[|tl1| - 1].end.None? && tl1[|tl1| - 1].start <= time && tl1[|tl1| - 1].id == id
    && (forall x :: Served(tl1, x, time + 1) == Served(tl, x, time) + (if x == id then 1 else 0))
    && Gantt(tl1, time + 1)
    && Alternating(tl1)
  }

  /** A new entry is pushed when the last one belongs to someone else. */
  lemma OpenNew(tl: seq<Entry>, id: nat, time: nat)
    requires Gantt(tl, time) && Alternating(tl)
    requires tl == [] || tl[|tl| - 1].id != id
    ensures Opened(tl, Open(tl, id, time), id, time)
  {
    var e := Entry(id, time, None);
    var tl1 := Open(tl, id, time);
    assert tl1 == tl + [e];
    forall x
      ensures Served(tl1, x, time + 1) == Served(tl, x, time) + (if x == id then 1 else 0)
    {
      ServedAppend(tl, e, x, time + 1);
    }
    GanttOpen(tl, e, time + 1);
    forall k | 0 <= k < |tl1| - 1
      ensures tl1[k].id != tl1[k + 1].id
    {
      assert tl1[k] == tl[k];
    }
  }

  /** The open last entry of the chosen process just goes on. */
  lemma OpenSame(tl: seq<Entry>, id: nat, time: nat)
    requires Gantt(tl, time) && Alternating(tl)
    requires tl != [] && tl[|tl| - 1].id == id && tl[|tl| - 1].end.None?
    ensures Opened(tl, Open(tl, id, time), id, time)
  {
    assert Placed(tl, |tl| - 1, time);
    forall x
      ensures Served(tl, x, time + 1) == Served(tl, x, time) + (if x == id then 1 else 0)
    {
      ServedOpenLast(tl, x, time, time + 1);
    }
    var now := time + 1;
    forall k | 0 <= k < |tl|
      ensures Placed(tl, k, now)
    {
      assert Placed(tl, k, time);
    }
  }

  /** The timeline after script.js:143-148, observed one unit later. */
  lemma OpenFacts(s: State, ps: seq<Process>)
    requires Inv(s, ps) && Available(s) != []
    ensures Opened(s.timeline, Open(s.timeline, s.jobs[Pick(s)].proc.id, s.time), s.jobs[Pick(s)].proc.id, s.time)
  {
    var id := s.jobs[Pick(s)].proc.id;
    var tl := s.timeline;
    if tl == [] || tl[|tl| - 1].id != id {
      OpenNew(tl, id, s.time);
    } else {
      SameOwnerOpen(s, ps);
      OpenSame(tl, id, s.time);
    }
  }
  /** The job after its unit, as Step stores it. */
  function Served1(s: State): Job
    requires Available(s) != []
  {
    var j := s.jobs[Pick(s)];
    if j.remaining == 1 then Complete(j, s.time + 1) else j.(remaining := j.remaining - 1)
  }

  /** What Step does when a job is available, spelled out. */
  lemma UnitShape(s: State)
    requires Available(s) != []
    ensures var c := Pick(s);
      var j := s.jobs[c];
      var tl1 := Open(s.timeline, j.proc.id, s.time);
      && Step(s).time == s.time + 1
      && Step(s).jobs == s.jobs[c := Served1(s)]
      && Served1(s).proc == j.proc && Served1(s).remaining == j.remaining - 1
      && (j.remaining == 1 ==> Step(s).completed == s.completed + [c] && Step(s).timeline == Close(tl1, s.time + 1))
      && (j.remaining != 1 ==> Served1(s).metrics == j.metrics)
      && (j.remaining != 1 ==> Step(s).completed == s.completed && Step(s).timeline == tl1)
  {
  }

  /** Only the chosen job changes; it is not completed yet, and is afterwards exactly when it has no work left. */
  lemma UnitMarks(s: State, ps: seq<Process>)
    requires Inv(s, ps) && Available(s) != []
    ensures Marks(Step(s)) && Pick(s) !in s.completed
  {
    UnitShape(s);
    var c := Pick(s);
    var s' := Step(s);
    assert c !in s.completed;
    if s.jobs[c].remaining == 1 {
      DistinctAppend(s.completed, c);
      forall i | 0 <= i < |s'.jobs|
        ensures s'.jobs[i].remaining == 0 <==> i in s'.completed
      {
        if i != c {
          assert i in s'.completed <==> i in s.completed;
        }
      }
    }
  }

  /** The chosen job has arrived, so the unit it receives is not early. */
  lemma UnitProgress(s: State, ps: seq<Process>)
    requires Inv(s, ps) && Available(s) != []
    ensures Progress(Step(s))
  {
    UnitShape(s);
    var c := Pick(s);
    assert Ready(s.jobs[c], s.time);
  }

  /** A job that completes now completes after all earlier ones, with the metric formulas. */
  lemma UnitDone(s: State, ps: seq<Process>)
    requires Copied(s, ps) && Marks(s) && Progress(s) && Done(s) && Available(s) != []
    ensures Done(Step(s))
  {
    UnitKeepsDone(s, ps);
    var c := Pick(s);
    var s' := Step(s);
    var n := |s.completed|;
    if s.jobs[c].remaining == 1 {
      UnitLast(s, ps);
    }
    forall k | 0 <= k < |s'.completed| && s'.completed[k] < |s'.jobs|
      ensures CompletedAt(s'.jobs[s'.completed[k]], CompletionOf(s'.jobs[s'.completed[k]]))
      ensures CompletionOf(s'.jobs[s'.completed[k]]) <= s'.time
    {
      if k < n {
        assert CompletionOf(s.jobs[s.completed[k]]) <= s.time;
      }
    }
    forall k, k' | 0 <= k < k' < |s'.completed| && s'.completed[k] < |s'.jobs| && s'.completed[k'] < |s'.jobs|
      ensures CompletionOf(s'.jobs[s'.completed[k]]) <= CompletionOf(s'.jobs[s'.completed[k']])
    {
      if k' < n {
        assert CompletionOf(s.jobs[s.completed[k]]) <= CompletionOf(s.jobs[s.completed[k']]);
      } else {
        assert CompletionOf(s.jobs[s.completed[k]]) <= s.time;
      }
    }
  }

  /** The jobs completed before the unit keep their records and their place. */
  lemma UnitKeepsDone(s: State, ps: seq<Process>)
    requires Copied(s, ps) && Marks(s) && Progress(s) && Done(s) && Available(s) != []
    ensures var s' := Step(s);
      && |s.completed| <= |s'.completed| <= |s.completed| + 1
      && |s'.jobs| == |s.jobs| && s'.time == s.time + 1
      && (|s'.completed| == |s.completed| + 1 ==> s'.completed[|s.completed|] == Pick(s) && s.jobs[Pick(s)].remaining == 1)
      && (forall k :: 0 <= k < |s.completed| ==> s'.completed[k] == s.completed[k] && s'.jobs[s.completed[k]] == s.jobs[s.completed[k]])
  {
    UnitShape(s);
    var c := Pick(s);
    var s' := Step(s);
    assert c !in s.completed;
    forall k | 0 <= k < |s.completed|
      ensures s'.completed[k] == s.completed[k] && s'.jobs[s.completed[k]] == s.jobs[s.completed[k]]
    {
      assert s.completed[k] != c;
    }
  }

  /** The job that receives its last unit completes when the unit ends. */
  lemma UnitLast(s: State, ps: seq<Process>)
    requires Copied(s, ps) && Marks(s) && Progress(s) && Done(s) && Available(s) != [] && s.jobs[Pick(s)].remaining == 1
    ensures CompletedAt(Step(s).jobs[Pick(s)], s.time + 1)
  {
    UnitShape(s);
    var c := Pick(s);
    assert ps[c].burst > 0;
    assert Step(s).jobs[c] == Complete(s.jobs[c], s.time + 1);
  }

  /** The chosen job gains one unit on the timeline, nobody else gains anything. */
  lemma UnitAccounts(s: State, ps: seq<Process>)
    requires Inv(s, ps) && Available(s) != []
    ensures Accounts(Step(s))
  {
    UnitShape(s);
    OpenFacts(s, ps);
    var c := Pick(s);
    var s' := Step(s);
    var id := s.jobs[c].proc.id;
    var tl1 := Open(s.timeline, id, s.time);
    forall i | 0 <= i < |s'.jobs|
      ensures Served(s'.timeline, s'.jobs[i].proc.id, s'.time) == s'.jobs[i].proc.burst - s'.jobs[i].remaining
    {
      var x := s.jobs[i].proc.id;
      if s.jobs[c].remaining == 1 {
        ServedCloseLast(tl1, x, s'.time);
      }
      assert Served(s'.timeline, x, s'.time) == Served(s.timeline, x, s.time) + (if x == id then 1 else 0);
      if x == id {
        SameId(s, ps, i, c);
      }
    }
  }
  /** Closing the open last entry at `now` keeps the timeline well ordered. */
  lemma GanttClose(tl: seq<Entry>, now: nat)
    requires tl != [] && tl[|tl| - 1].end.None? && Gantt(tl, now)
    ensures Gantt(Close(tl, now), now)
  {
    var tl' := Close(tl, now);
    forall k | 0 <= k < |tl'|
      ensures Placed(tl', k, now)
    {
      assert Placed(tl, k, now);
      assert k + 1 < |tl| ==> tl'[k + 1].start == tl[k + 1].start;
    }
  }

  /** Changing a job without changing its record keeps the set of ids. */
  lemma IdsUpdate(jobs: seq<Job>, c: nat, x: Job)
    requires c < |jobs| && x.proc == jobs[c].proc
    ensures Ids(jobs[c := x]) == Ids(jobs)
  {
    var jobs' := jobs[c := x];
    forall y
      ensures y in Ids(jobs') <==> y in Ids(jobs)
    {
      if y in Ids(jobs') {
        var i :| 0 <= i < |jobs'| && jobs'[i].proc.id == y;
        assert jobs[i].proc.id == y;
      }
      if y in Ids(jobs) {
        var i :| 0 <= i < |jobs| && jobs[i].proc.id == y;
        assert jobs'[i].proc.id == y;
      }
    }
  }

  /** The unit keeps the timeline well ordered and alternating. */
  lemma UnitTimeline(s: State, ps: seq<Process>)
    requires Inv(s, ps) && Available(s) != []
    ensures Gantt(Step(s).timeline, Step(s).time) && Alternating(Step(s).timeline)
  {
    UnitShape(s);
    OpenFacts(s, ps);
    var c := Pick(s);
    var tl1 := Open(s.timeline, s.jobs[c].proc.id, s.time);
    if s.jobs[c].remaining == 1 {
      GanttClose(tl1, s.time + 1);
    }
  }

  /** The unit keeps every entry owned by a job. */
  lemma UnitOwners(s: State, ps: seq<Process>)
    requires Inv(s, ps) && Available(s) != []
    ensures Owners(Step(s))
  {
    UnitShape(s);
    var c := Pick(s);
    var id := s.jobs[c].proc.id;
    var ids := Ids(s.jobs);
    assert id in ids;
    IdsUpdate(s.jobs, c, Served1(s));
    OpenOwned(s.timeline, id, s.time, ids);
    if s.jobs[c].remaining == 1 {
      CloseOwned(Open(s.timeline, id, s.time), s.time + 1, ids);
    }
  }

  /** Opening an entry for an owner in `ids` keeps every entry owned by `ids`. */
  lemma OpenOwned(tl: seq<Entry>, id: nat, time: nat, ids: set<nat>)
    requires forall k :: 0 <= k < |tl| ==> tl[k].id in ids
    requires id in ids
    ensures forall k :: 0 <= k < |Open(tl, id, time)| ==> Open(tl, id, time)[k].id in ids
  {
  }

  /** Closing the last entry keeps every entry's owner. */
  lemma CloseOwned(tl: seq<Entry>, time: nat, ids: set<nat>)
    requires tl != [] && forall k :: 0 <= k < |tl| ==> tl[k].id in ids
    ensures forall k :: 0 <= k < |Close(tl, time)| ==> Close(tl, time)[k].id in ids
  {
    var r := Close(tl, time);
    forall k | 0 <= k < |r|
      ensures r[k].id in ids
    {
      if k < |tl| - 1 {
        assert r[k] == tl[k];
      }
    }
  }

  /** A closed entry contributes its pair. */
  lemma ClosingIn(tl: seq<Entry>, k: nat)
    requires k < |tl| && tl[k].end.Some?
    ensures (tl[k].id, tl[k].end.value) in Closings(tl)
  {
  }

  /** Keeping every closed entry in place keeps every pair. */
  lemma ClosingsKept(tl: seq<Entry>, tl': seq<Entry>)
    requires forall k :: 0 <= k < |tl| && tl[k].end.Some? ==> k < |tl'| && tl'[k] == tl[k]
    ensures Closings(tl) <= Closings(tl')
  {
    forall p | p in Closings(tl)
      ensures p in Closings(tl')
    {
      var k :| 0 <= k < |tl| && tl[k].end.Some? && p == (tl[k].id, tl[k].end.value);
      ClosingIn(tl', k);
    }
  }

  /** The closed entries of the old timeline are still there, unchanged. */
  lemma UnitKeepsClosed(s: State, ps: seq<Process>)
    requires Inv(s, ps) && Available(s) != []
    ensures forall k :: 0 <= k < |s.timeline| && s.timeline[k].end.Some? ==>
      k < |Step(s).timeline| - 1 && Step(s).timeline[k] == s.timeline[k]
  {
    UnitShape(s);
    OpenFacts(s, ps);
    var c := Pick(s);
    var tl1 := Open(s.timeline, s.jobs[c].proc.id, s.time);
    forall k | 0 <= k < |s.timeline| && s.timeline[k].end.Some?
      ensures k < |Step(s).timeline| - 1 && Step(s).timeline[k] == s.timeline[k]
    {
      assert tl1[k] == s.timeline[k];
    }
  }

  /** The unit closes an entry exactly when its job completes, at the completion. */
  lemma UnitClosed(s: State, ps: seq<Process>)
    requires Inv(s, ps) && Available(s) != []
    ensures Closed(Step(s)) && Running(Step(s)) && Closes(Step(s))
  {
    UnitClosedEnds(s, ps);
    UnitRunning(s, ps);
    UnitCloses(s, ps);
  }

  /** Every closed entry still ends at its owner's completion. */
  lemma UnitClosedEnds(s: State, ps: seq<Process>)
    requires Inv(s, ps) && Available(s) != []
    ensures Closed(Step(s))
  {
    UnitShape(s);
    OpenPrefix(s, ps);
    var c := Pick(s);
    var s' := Step(s);
    var tl := s.timeline;
    var tl1 := Open(tl, s.jobs[c].proc.id, s.time);
    var last := |s'.timeline| - 1;
    assert |s'.timeline| == |tl1|;
    assert Ready(s.jobs[c], s.time);
    forall k, i | 0 <= k < |s'.timeline| && 0 <= i < |s'.jobs| && s'.timeline[k].end.Some? && s'.timeline[k].id == s'.jobs[i].proc.id
      ensures s'.jobs[i].remaining == 0 && CompletionOf(s'.jobs[i]) == s'.timeline[k].end.value
    {
      if k == last {
        SameId(s, ps, i, c);
      } else {
        assert s'.timeline[k] == tl1[k] == tl[k];
        if i == c {
          assert false;
        }
      }
    }
  }

  /** Opening keeps the old entries, adds at most one, and leaves the last one open. */
  lemma OpenPrefix(s: State, ps: seq<Process>)
    requires Inv(s, ps) && Available(s) != []
    ensures var tl1 := Open(s.timeline, s.jobs[Pick(s)].proc.id, s.time);
      && |s.timeline| <= |tl1| <= |s.timeline| + 1
      && (forall k :: 0 <= k < |s.timeline| ==> tl1[k] == s.timeline[k])
      && tl1[|tl1| - 1].end.None?
  {
    OpenFacts(s, ps);
  }

  /** An open last entry still belongs to an available job. */
  lemma UnitRunning(s: State, ps: seq<Process>)
    requires Inv(s, ps) && Available(s) != []
    ensures Running(Step(s))
  {
    UnitShape(s);
    var c := Pick(s);
    var s' := Step(s);
    var tl1 := Open(s.timeline, s.jobs[c].proc.id, s.time);
    if s.jobs[c].remaining != 1 {
      var last := |s'.timeline| - 1;
      assert s'.timeline == tl1 && s'.timeline[last].id == s.jobs[c].proc.id;
      forall i | 0 <= i < |s'.jobs| && s'.jobs[i].proc.id == s'.timeline[last].id
        ensures Ready(s'.jobs[i], s'.time)
      {
        SameId(s, ps, i, c);
      }
    }
  }

  /** Every completed job still has its closing entry, and the job completed now gains one. */
  lemma UnitCloses(s: State, ps: seq<Process>)
    requires Inv(s, ps) && Available(s) != []
    ensures Closes(Step(s))
  {
    UnitShape(s);
    UnitKeepsClosed(s, ps);
    var c := Pick(s);
    var s' := Step(s);
    ClosingsKept(s.timeline, s'.timeline);
    if s.jobs[c].remaining == 1 {
      ClosingIn(s'.timeline, |s'.timeline| - 1);
    }
  }

  /** Every iteration keeps the invariant. */
  lemma StepInv(s: State, ps: seq<Process>)
    requires Inv(s, ps) && |s.completed| < |s.jobs|
    ensures Inv(Step(s), ps)
  {
    if Available(s) == [] {
      IdleInv(s, ps);
    } else {
      UnitInv(s, ps);
    }
  }

  /** A unit of work keeps the invariant. */
  lemma UnitInv(s: State, ps: seq<Process>)
    requires Inv(s, ps) && Available(s) != [] && |s.completed| < |s.jobs|
    ensures Inv(Step(s), ps)
  {
    StepWf(s);
    UnitCopied(s, ps);
    UnitMarks(s, ps);
    UnitProgress(s, ps);
    UnitDone(s, ps);
    UnitAccounts(s, ps);
    UnitTimeline(s, ps);
    UnitOwners(s, ps);
    UnitClosed(s, ps);
  }

  /** The unit leaves every job's record as it was. */
  lemma UnitCopied(s: State, ps: seq<Process>)
    requires Copied(s, ps) && Available(s) != []
    ensures Copied(Step(s), ps)
  {
    UnitShape(s);
  }

  /** The invariant holds when the loop ends. */
  lemma {:induction false} RunInv(s: State, ps: seq<Process>)
    requires Inv(s, ps)
    ensures Inv(Run(s), ps)
    decreases SumRemaining(s.jobs), Gap(s)
  {
    if |s.completed| < |s.jobs| {
      StepWf(s);
      StepInv(s, ps);
      RunInv(Step(s), ps);
    }
  }
  /** The state the loop ends in satisfies the invariant. */
  lemma FinalState(ps: seq<Process>)
    requires Runnable(ps)
    ensures Inv(Final(ps), ps)
  {
    InitWf(ps);
    InitInv(ps);
    RunInv(Init(ps), ps);
  }

  /** In the final state every job is completed, once. */
  lemma FinalMarks(ps: seq<Process>)
    requires Runnable(ps)
    ensures var f := Final(ps);
      && Copied(f, ps) && Marks(f) && |f.completed| == |ps|
      && (forall i :: 0 <= i < |ps| ==> i in f.completed && f.jobs[i].remaining == 0)
  {
    FinalState(ps);
    CountFinishedAll(Final(ps).jobs);
  }

  /** In the final state the completed jobs carry their metrics, in completion order. */
  lemma FinalDone(ps: seq<Process>)
    requires Runnable(ps)
    ensures Done(Final(ps)) && Marks(Final(ps))
  {
    FinalState(ps);
  }

  /** In the final state the timeline is well ordered and its last entry is closed. */
  lemma FinalTimeline(ps: seq<Process>)
    requires Runnable(ps)
    ensures var f := Final(ps);
      && Gantt(f.timeline, f.time) && Alternating(f.timeline) && Owners(f)
      && (f.timeline == [] || f.timeline[|f.timeline| - 1].end.Some?)
  {
    FinalState(ps);
    FinalMarks(ps);
  }

  /** In the final state the timeline accounts for every job and closes an entry at every completion. */
  lemma FinalAccounts(ps: seq<Process>)
    requires Runnable(ps)
    ensures var f := Final(ps);
      && Copied(f, ps) && Accounts(f) && Closed(f) && Closes(f) && Marks(f)
      && (f.timeline == [] || f.timeline[|f.timeline| - 1].end.Some?)
  {
    FinalState(ps);
    FinalTimeline(ps);
  }

  /** Every input record is returned exactly once; the copies leave the input as it was. */
  lemma PreemptiveEachOnce(ps: seq<Process>)
    requires Runnable(ps)
    ensures EachOnce(PriorityPreemptiveSchedule(ps).processes, ps)
  {
    FinalMarks(ps);
    var f := Final(ps);
    var out := PriorityPreemptiveSchedule(ps).processes;
    assert out == Output(f).processes;
    forall j | 0 <= j < |out|
      ensures out[j].proc == ps[f.completed[j]]
    {
    }
    EachOnceByIndex(out, f.completed, ps, ps);
  }

  /**
   * Every returned record has `turnaround = completion - arrival`,
   * `waiting = turnaround - burst >= 0` and no start field; the records are
   * in completion order.
   */
  lemma PreemptiveMetrics(ps: seq<Process>)
    requires Runnable(ps)
    ensures var out := PriorityPreemptiveSchedule(ps).processes;
      && (forall j :: 0 <= j < |out| ==> MetricsHold(out[j]) && out[j].start.None?)
      && InCompletionOrder(out)
  {
    FinalDone(ps);
    var f := Final(ps);
    var out := PriorityPreemptiveSchedule(ps).processes;
    assert out == Output(f).processes;
    forall j | 0 <= j < |out|
      ensures MetricsHold(out[j])
    {
      assert CompletedAt(f.jobs[f.completed[j]], CompletionOf(f.jobs[f.completed[j]]));
    }
    forall j, j' | 0 <= j < j' < |out|
      ensures out[j].completion <= out[j'].completion
    {
      assert out[j].completion == CompletionOf(f.jobs[f.completed[j]]);
      assert out[j'].completion == CompletionOf(f.jobs[f.completed[j']]);
    }
  }

  /**
   * The timeline is a Gantt chart whose neighbouring entries belong to
   * different processes and whose entries all name input processes.
   */
  lemma PreemptiveChart(ps: seq<Process>)
    requires Runnable(ps)
    ensures var tl := PriorityPreemptiveSchedule(ps).timeline;
      && Chart(tl)
      && Alternating(tl)
      && (forall k :: 0 <= k < |tl| ==> exists i :: 0 <= i < |ps| && ps[i].id == tl[k].id)
  {
    FinalTimeline(ps);
    FinalMarks(ps);
    var f := Final(ps);
    var tl := PriorityPreemptiveSchedule(ps).timeline;
    assert tl == f.timeline;
    if tl != [] {
      var last := tl[|tl| - 1].end.value;
      assert Placed(tl, |tl| - 1, f.time);
      forall k | 0 <= k < |tl|
        ensures Placed(tl, k, last)
      {
        assert Placed(tl, k, f.time);
      }
    }
    forall k | 0 <= k < |tl|
      ensures exists i :: 0 <= i < |ps| && ps[i].id == tl[k].id
    {
      assert tl[k].id in Ids(f.jobs);
      var i :| 0 <= i < |f.jobs| && f.jobs[i].proc.id == tl[k].id;
      assert ps[i].id == tl[k].id;
    }
  }

  /**
   * An entry gets an end only when its process completes, and that end is
   * the completion; every returned process has such an entry.
   */
  lemma PreemptiveEnds(ps: seq<Process>)
    requires Runnable(ps)
    ensures var r := PriorityPreemptiveSchedule(ps);
      && (forall k, j ::
            0 <= k < |r.timeline| && 0 <= j < |r.processes| && r.timeline[k].end.Some? && r.timeline[k].id == r.processes[j].proc.id ==>
              r.timeline[k].end.value == r.processes[j].completion)
      && (forall j :: 0 <= j < |r.processes| ==>
            exists k :: 0 <= k < |r.timeline| && r.timeline[k] == Entry(r.processes[j].proc.id, r.timeline[k].start, Some(r.processes[j].completion)))
  {
    FinalAccounts(ps);
    var f := Final(ps);
    var r := PriorityPreemptiveSchedule(ps);
    assert r == Output(f);
    forall j | 0 <= j < |r.processes|
      ensures exists k :: 0 <= k < |r.timeline| && r.timeline[k] == Entry(r.processes[j].proc.id, r.timeline[k].start, Some(r.processes[j].completion))
    {
      var c := f.completed[j];
      assert (f.jobs[c].proc.id, CompletionOf(f.jobs[c])) in Closings(f.timeline);
      var k :| 0 <= k < |f.timeline| && f.timeline[k].end.Some? && (f.timeline[k].id, f.timeline[k].end.value) == (f.jobs[c].proc.id, CompletionOf(f.jobs[c]));
      assert r.timeline[k] == Entry(r.processes[j].proc.id, r.timeline[k].start, Some(r.processes[j].completion));
    }
  }

  /** The timeline gives every process exactly its burst. */
  lemma PreemptiveBusy(ps: seq<Process>)
    requires Runnable(ps)
    ensures var tl := PriorityPreemptiveSchedule(ps).timeline;
      forall i :: 0 <= i < |ps| ==> Busy(tl, ps[i].id) == ps[i].burst
  {
    FinalAccounts(ps);
    FinalMarks(ps);
    var f := Final(ps);
    var tl := PriorityPreemptiveSchedule(ps).timeline;
    assert tl == f.timeline;
    forall i | 0 <= i < |ps|
      ensures Busy(tl, ps[i].id) == ps[i].burst
    {
      ServedClosed(tl, ps[i].id, 0, f.time);
    }
  }
  /**
   * The reference definition of the choice: job `c` has arrived and has
   * work left, no such job has a smaller priority, and every later such job
   * has a larger one.
   */
  predicate ChosenAt(s: State, c: nat)
  {
    && c < |s.jobs|
    && Ready(s.jobs[c], s.time)
    && (forall i :: 0 <= i < |s.jobs| && Ready(s.jobs[i], s.time) ==>
          s.jobs[c].proc.priority <= s.jobs[i].proc.priority)
    && (forall i :: c < i < |s.jobs| && Ready(s.jobs[i], s.time) ==>
          s.jobs[c].proc.priority < s.jobs[i].proc.priority)
  }

  /**
   * When some job is available, the unit goes to exactly the last one of
   * minimal priority: its remaining time drops by one, the clock by one,
   * and no other job changes.
   */
  lemma PreemptiveChoice(s: State, c: nat)
    requires Available(s) != []
    ensures Pick(s) == c <==> ChosenAt(s, c)
    ensures ChosenAt(s, c) ==>
      && |Step(s).jobs| == |s.jobs|
      && Step(s).jobs[c].remaining == s.jobs[c].remaining - 1
      && (forall i :: 0 <= i < |s.jobs| && i != c ==> Step(s).jobs[i] == s.jobs[i])
      && Step(s).time == s.time + 1
  {
    var pri := Priorities(s.jobs);
    var avail := Available(s);
    var p := Pick(s);
    UnitShape(s);
    ReduceMinIsLastMin(pri, avail);
    if ChosenAt(s, c) {
      forall k | 0 <= k < |avail|
        ensures pri[c] <= pri[avail[k]] && (avail[k] > c ==> pri[c] < pri[avail[k]])
      {
        assert Ready(s.jobs[avail[k]], s.time);
      }
      assert IsLastMin(pri, avail, c);
      LastMinUnique(pri, avail, c, p);
    }
    if p == c {
      forall i | 0 <= i < |s.jobs| && Ready(s.jobs[i], s.time)
        ensures pri[c] <= pri[i] && (i > c ==> pri[c] < pri[i])
      {
        var k :| 0 <= k < |avail| && avail[k] == i;
      }
    }
  }

  /** The chosen job opens a new entry exactly when it does not own the last one. */
  lemma PreemptiveOpens(s: State, ps: seq<Process>)
    requires Inv(s, ps) && Available(s) != []
    ensures var id := s.jobs[Pick(s)].proc.id;
      var tl1 := Open(s.timeline, id, s.time);
      && (|tl1| == |s.timeline| + 1 <==> s.timeline == [] || s.timeline[|s.timeline| - 1].id != id)
      && tl1[|tl1| - 1].id == id && tl1[|tl1| - 1].end.None?
  {
    OpenFacts(s, ps);
  }

  /**
   * When nothing is available the iteration only advances the clock by one
   * unit; otherwise it gives one unit of work.
   */
  lemma PreemptiveIdle(s: State)
    requires Wf(s)
    ensures Available(s) == [] <==> forall i :: 0 <= i < |s.jobs| ==> !Ready(s.jobs[i], s.time)
    ensures Available(s) == [] ==> Step(s) == s.(time := s.time + 1)
    ensures Available(s) != [] ==> SumRemaining(Step(s).jobs) == SumRemaining(s.jobs) - 1
  {
    if Available(s) != [] {
      assert Available(s)[0] in Available(s);
      UnitShape(s);
      SumRemainingUpdate(s.jobs, Pick(s), Served1(s));
    }
  }
}
