/**
 * What `priorityNonPreemptive` promises, proved about the loop specification
 * of module PriorityNonPreemptive: an invariant `Inv` kept by every iteration,
 * the choice each iteration makes, and the theorems about the returned
 * schedule.
 */
module PriorityNonPreemptiveFacts {
  import opened Wrappers
  import opened Processes
  import opened Selection
  import opened PriorityNonPreemptive

  /** The start recorded on a candidate, 0 while it has none. */
  function StartOf(c: Cand): nat
  {
    if c.start.Some? then c.start.value else 0
  }

  /** The fields of a candidate that ran from `st` to completion. */
  predicate ServedAt(c: Cand, st: nat)
  {
    && c.done
    && c.start == Some(st)
    && c.proc.arrival <= st
    && c.metrics == Some(Metrics(st + c.proc.burst, st + c.proc.burst - c.proc.arrival,
                                 st + c.proc.burst - c.proc.arrival - c.proc.burst))
  }

  /** A candidate is marked exactly when it is in `completed`, and it is there once. */
  predicate Marks(s: State)
  {
    && Distinct(s.completed)
    && (forall k :: 0 <= k < |s.completed| ==> s.completed[k] < |s.cands|)
    && (forall i :: 0 <= i < |s.cands| ==> (s.cands[i].done <==> i in s.completed))
  }

  /** Every completed candidate ran, from a start no earlier than its arrival, for its burst. */
  predicate Runs(s: State)
  {
    forall k :: 0 <= k < |s.completed| && s.completed[k] < |s.cands| ==>
      ServedAt(s.cands[s.completed[k]], StartOf(s.cands[s.completed[k]]))
  }

  /** Entry `k` of the timeline is the run of the `k`-th completed candidate. */
  predicate Entries(s: State)
  {
    && |s.timeline| == |s.completed|
    && (forall k :: 0 <= k < |s.completed| && s.completed[k] < |s.cands| ==>
          s.timeline[k] == Entry(s.cands[s.completed[k]].proc.id, StartOf(s.cands[s.completed[k]]),
                                 Some(StartOf(s.cands[s.completed[k]]) + s.cands[s.completed[k]].proc.burst)))
  }

  /** The end of the `k`-th run, assuming it exists. */
  function EndOf(s: State, k: nat): nat
  {
    if k < |s.completed| && s.completed[k] < |s.cands| then
      StartOf(s.cands[s.completed[k]]) + s.cands[s.completed[k]].proc.burst
    else 0
  }

  /** Each run ends no later than the next one starts, and the last no later than now. */
  predicate Sequential(s: State)
  {
    forall k :: 0 <= k < |s.completed| ==>
      EndOf(s, k) <= (if k + 1 < |s.completed| && s.completed[k + 1] < |s.cands|
                      then StartOf(s.cands[s.completed[k + 1]]) else s.time)
  }

  /**
   * The loop invariant: the candidates are the input records, the marks
   * match `completed`, every completed candidate ran from its start for its
   * burst, and the timeline holds one entry per completed candidate, in order.
   */
  predicate Inv(s: State, ps: seq<Process>)
  {
    && |s.cands| == |ps|
    && (forall i :: 0 <= i < |s.cands| ==> s.cands[i].proc == ps[i])
    && Wf(s)
    && Marks(s)
    && Runs(s)
    && Entries(s)
    && Sequential(s)
  }

  lemma InitInv(ps: seq<Process>)
    ensures Inv(Init(ps), ps)
  {
    InitWf(ps);
  }

  /** The chosen candidate is not completed yet; afterwards it is, once. */
  lemma ServeMarks(s: State)
    requires Wf(s) && Marks(s) && Available(s) != []
    ensures Marks(Step(s)) && Pick(s) !in s.completed
  {
    var c := Pick(s);
    var s' := Step(s);
    assert c !in s.completed;
    DistinctAppend(s.completed, c);
    forall i | 0 <= i < |s'.cands|
      ensures s'.cands[i].done <==> i in s'.completed
    {
      if i != c {
        assert i in s'.completed <==> i in s.completed;
      }
    }
  }

  /** The chosen candidate runs from now; the earlier runs are untouched. */
  lemma ServeRuns(s: State)
    requires Wf(s) && Marks(s) && Runs(s) && Entries(s) && Sequential(s) && Available(s) != []
    ensures Runs(Step(s)) && Entries(Step(s)) && Sequential(Step(s))
  {
    ServeShape(s);
    ServeKeepsRuns(s);
    ServeEntries(s);
    ServeSequential(s);
  }

  /** What one serving iteration does: the chosen candidate runs from now for its burst. */
  lemma ServeShape(s: State)
    requires Wf(s) && Marks(s) && Available(s) != []
    ensures var c := Pick(s); var s' := Step(s);
      && c !in s.completed
      && |s'.cands| == |s.cands|
      && s'.completed == s.completed + [c]
      && s'.time == s.time + s.cands[c].proc.burst
      && s'.cands[c].proc == s.cands[c].proc
      && ServedAt(s'.cands[c], s.time) && StartOf(s'.cands[c]) == s.time
      && s'.timeline == s.timeline + [Entry(s.cands[c].proc.id, s.time, Some(s.time + s.cands[c].proc.burst))]
      && (forall k :: 0 <= k < |s.completed| ==> s'.cands[s.completed[k]] == s.cands[s.completed[k]])
  {
    var c := Pick(s);
    var s' := Step(s);
    assert c !in s.completed;
    forall k | 0 <= k < |s.completed|
      ensures s'.cands[s.completed[k]] == s.cands[s.completed[k]]
    {
      assert s.completed[k] != c;
    }
  }

  lemma ServeKeepsRuns(s: State)
    requires Wf(s) && Marks(s) && Runs(s) && Available(s) != []
    ensures Runs(Step(s))
  {
    ServeShape(s);
    var s' := Step(s);
    forall k | 0 <= k < |s'.completed| && s'.completed[k] < |s'.cands|
      ensures ServedAt(s'.cands[s'.completed[k]], StartOf(s'.cands[s'.completed[k]]))
    {
      if k < |s.completed| {
        assert s'.completed[k] == s.completed[k];
      }
    }
  }

  lemma ServeEntries(s: State)
    requires Wf(s) && Marks(s) && Entries(s) && Available(s) != []
    ensures Entries(Step(s))
  {
    ServeShape(s);
    var s' := Step(s);
    forall k | 0 <= k < |s'.completed| && s'.completed[k] < |s'.cands|
      ensures s'.timeline[k] == Entry(s'.cands[s'.completed[k]].proc.id, StartOf(s'.cands[s'.completed[k]]),
                                      Some(StartOf(s'.cands[s'.completed[k]]) + s'.cands[s'.completed[k]].proc.burst))
    {
      if k < |s.completed| {
        assert s'.completed[k] == s.completed[k] && s'.timeline[k] == s.timeline[k];
      }
    }
  }

  lemma ServeSequential(s: State)
    requires Wf(s) && Marks(s) && Sequential(s) && Available(s) != []
    ensures Sequential(Step(s))
  {
    ServeShape(s);
    var s' := Step(s);
    var n := |s.completed|;
    forall k | 0 <= k < |s'.completed|
      ensures EndOf(s', k) <= (if k + 1 < |s'.completed| && s'.completed[k + 1] < |s'.cands|
                               then StartOf(s'.cands[s'.completed[k + 1]]) else s'.time)
    {
      if k < n {
        assert s'.completed[k] == s.completed[k];
        assert EndOf(s', k) == EndOf(s, k);
        if k + 1 < n {
          assert s'.completed[k + 1] == s.completed[k + 1];
        }
      }
    }
  }

  /** Every iteration keeps the invariant. */
  lemma StepInv(s: State, ps: seq<Process>)
    requires Inv(s, ps) && |s.completed| < |s.cands|
    ensures Inv(Step(s), ps)
  {
    StepWf(s);
    if Available(s) != [] {
      ServeMarks(s);
      ServeRuns(s);
    } else {
      var s' := Step(s);
      forall k | 0 <= k < |s'.completed|
        ensures EndOf(s', k) == EndOf(s, k)
      {
      }
    }
  }

  /** The invariant holds when the loop ends. */
  lemma {:induction false} RunInv(s: State, ps: seq<Process>)
    requires Inv(s, ps) && |s.completed| <= |s.cands|
    ensures Inv(Run(s), ps)
    decreases |s.cands| - |s.completed|, Gap(s)
  {
    if |s.completed| < |s.cands| {
      StepWf(s);
      StepInv(s, ps);
      RunInv(Step(s), ps);
    }
  }

  /** When every candidate is counted, every candidate is marked. */
  lemma {:induction false} CountDoneAll(cands: seq<Cand>)
    requires CountDone(cands) == |cands|
    ensures forall i :: 0 <= i < |cands| ==> cands[i].done
  {
    forall i | 0 <= i < |cands|
      ensures cands[i].done
    {
      if !cands[i].done {
        CountDoneBelow(cands, i);
      }
    }
  }

  /** The state the loop ends in satisfies the invariant with every candidate completed. */
  lemma FinalState(ps: seq<Process>)
    ensures var f := Final(ps);
      && Inv(f, ps)
      && |f.completed| == |ps|
      && (forall i :: 0 <= i < |ps| ==> i in f.completed)
  {
    InitWf(ps);
    InitInv(ps);
    RunInv(Init(ps), ps);
    var f := Final(ps);
    CountDoneAll(f.cands);
  }

  /** Every input record is returned exactly once; the copies leave the input as it was. */
  lemma NonPreemptiveEachOnce(ps: seq<Process>)
    requires DistinctIds(ps)
    ensures EachOnce(PriorityNonPreemptiveSchedule(ps).processes, ps)
  {
    FinalState(ps);
    var f := Final(ps);
    var out := PriorityNonPreemptiveSchedule(ps).processes;
    assert out == Output(f).processes;
    forall j | 0 <= j < |out|
      ensures out[j].proc == ps[f.completed[j]]
    {
    }
    EachOnceByIndex(out, f.completed, ps, ps);
  }

  /**
   * Every returned record has a start no earlier than its arrival,
   * `completion = start + burst`, `turnaround = completion - arrival` and
   * `waiting = turnaround - burst >= 0`; the records are in completion order.
   */
  lemma NonPreemptiveMetrics(ps: seq<Process>)
    ensures var out := PriorityNonPreemptiveSchedule(ps).processes;
      && (forall j :: 0 <= j < |out| ==>
            && MetricsHold(out[j])
            && out[j].start.Some? && out[j].proc.arrival <= out[j].start.value
            && out[j].completion == out[j].start.value + out[j].proc.burst)
      && InCompletionOrder(out)
  {
    var out := PriorityNonPreemptiveSchedule(ps).processes;
    forall j | 0 <= j < |out|
      ensures && MetricsHold(out[j])
              && out[j].start.Some? && out[j].proc.arrival <= out[j].start.value
              && out[j].completion == out[j].start.value + out[j].proc.burst
              && (j + 1 < |out| ==> out[j].completion <= out[j + 1].completion)
    {
      RecordAt(ps, j);
    }
    forall j, j' | 0 <= j < j' < |out|
      ensures out[j].completion <= out[j'].completion
    {
      InOrder(out, j, j');
    }
  }

  /** The `j`-th returned record, read off the final state. */
  lemma RecordAt(ps: seq<Process>, j: nat)
    requires j < |PriorityNonPreemptiveSchedule(ps).processes|
    ensures var out := PriorityNonPreemptiveSchedule(ps).processes;
      && MetricsHold(out[j])
      && out[j].start.Some? && out[j].proc.arrival <= out[j].start.value
      && out[j].completion == out[j].start.value + out[j].proc.burst
      && (j + 1 < |out| ==> out[j].completion <= out[j + 1].completion)
  {
    FinalState(ps);
    var f := Final(ps);
    var out := PriorityNonPreemptiveSchedule(ps).processes;
    assert out[j] == Record(f.cands[f.completed[j]]);
    assert ServedAt(f.cands[f.completed[j]], StartOf(f.cands[f.completed[j]]));
    if j + 1 < |out| {
      assert out[j + 1] == Record(f.cands[f.completed[j + 1]]);
      assert ServedAt(f.cands[f.completed[j + 1]], StartOf(f.cands[f.completed[j + 1]]));
      assert EndOf(f, j) <= StartOf(f.cands[f.completed[j + 1]]);
    }
  }

  /** A sequence whose neighbours are ordered is ordered. */
  lemma {:induction false} InOrder(out: seq<Finished>, j: nat, j': nat)
    requires forall k :: 0 <= k < |out| - 1 ==> out[k].completion <= out[k + 1].completion
    requires j <= j' < |out|
    ensures out[j].completion <= out[j'].completion
    decreases j' - j
  {
    if j < j' {
      InOrder(out, j + 1, j');
    }
  }

  /**
   * The timeline has exactly one entry per returned record, `[start, completion)`
   * of that record, and each entry ends no later than the next one starts.
   */
  lemma NonPreemptiveTimeline(ps: seq<Process>)
    ensures var r := PriorityNonPreemptiveSchedule(ps);
      && |r.timeline| == |r.processes|
      && (forall k :: 0 <= k < |r.timeline| ==>
            r.processes[k].start.Some?
            && r.timeline[k] == Entry(r.processes[k].proc.id, r.processes[k].start.value, Some(r.processes[k].completion)))
      && (forall k :: 0 <= k < |r.timeline| - 1 ==>
            r.timeline[k].end.Some? && r.timeline[k].end.value <= r.timeline[k + 1].start)
  {
    FinalState(ps);
    var f := Final(ps);
    var r := PriorityNonPreemptiveSchedule(ps);
    assert r == Output(f);
    forall k | 0 <= k < |r.timeline|
      ensures r.processes[k].start == Some(StartOf(f.cands[f.completed[k]]))
      ensures r.processes[k].completion == EndOf(f, k)
    {
      assert ServedAt(f.cands[f.completed[k]], StartOf(f.cands[f.completed[k]]));
    }
  }
  /**
   * The reference definition of the choice: candidate `c` has arrived and is
   * not completed, no such candidate has a smaller priority, and every later
   * such candidate has a larger one.
   */
  predicate ChosenAt(s: State, c: nat)
  {
    && c < |s.cands|
    && Ready(s.cands[c], s.time)
    && (forall i :: 0 <= i < |s.cands| && Ready(s.cands[i], s.time) ==>
          s.cands[c].proc.priority <= s.cands[i].proc.priority)
    && (forall i :: c < i < |s.cands| && Ready(s.cands[i], s.time) ==>
          s.cands[c].proc.priority < s.cands[i].proc.priority)
  }

  /**
   * When some candidate has arrived, the iteration runs exactly the last one
   * of minimal priority, from now until now plus its burst, and nothing
   * else changes among the candidates.
   */
  lemma NonPreemptiveChoice(s: State, c: nat)
    requires Wf(s) && Available(s) != []
    ensures Step(s).completed == s.completed + [c] <==> ChosenAt(s, c)
    ensures ChosenAt(s, c) ==>
      && Step(s).cands == s.cands[c := Serve(s.cands[c], s.time)]
      && Step(s).cands[c].start == Some(s.time)
      && Step(s).time == s.time + s.cands[c].proc.burst
      && Step(s).timeline == s.timeline + [Entry(s.cands[c].proc.id, s.time, Some(Step(s).time))]
  {
    var pri := Priorities(s.cands);
    var avail := Available(s);
    var p := Pick(s);
    assert Step(s).completed == s.completed + [p];
    ReduceMinIsLastMin(pri, avail);
    if ChosenAt(s, c) {
      forall k | 0 <= k < |avail|
        ensures pri[c] <= pri[avail[k]] && (avail[k] > c ==> pri[c] < pri[avail[k]])
      {
        assert Ready(s.cands[avail[k]], s.time);
      }
      assert IsLastMin(pri, avail, c);
      LastMinUnique(pri, avail, c, p);
    }
    if Step(s).completed == s.completed + [c] {
      assert c == (s.completed + [c])[|s.completed|] == p;
      forall i | 0 <= i < |s.cands| && Ready(s.cands[i], s.time)
        ensures pri[c] <= pri[i] && (i > c ==> pri[c] < pri[i])
      {
        var k :| 0 <= k < |avail| && avail[k] == i;
      }
    }
  }

  /**
   * When nothing has arrived, or everything arrived is completed, the
   * iteration only advances the clock by one unit.
   */
  lemma NonPreemptiveIdle(s: State)
    requires Wf(s)
    ensures Available(s) == [] <==> forall i :: 0 <= i < |s.cands| ==> !Ready(s.cands[i], s.time)
    ensures Available(s) == [] ==> Step(s) == s.(time := s.time + 1)
    ensures Available(s) != [] ==> |Step(s).completed| == |s.completed| + 1
  {
    if Available(s) != [] {
      assert Available(s)[0] in Available(s);
    }
  }
}
