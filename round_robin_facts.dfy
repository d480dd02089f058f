/**
 * What `roundRobin` promises, proved about the loop specification of module
 * RoundRobin: an invariant `Inv` kept by every iteration, and the theorems
 * about the returned schedule that follow from it once the loop ends.
 */
module RoundRobinFacts {
  import opened Wrappers
  import opened Processes
  import opened ArrivalSort
  import opened RoundRobin

  /** The jobs are the sorted records, each owing at most its burst. */
  predicate Heap(s: State, sorted: seq<Process>)
  {
    |s.jobs| == |sorted|
    && forall i :: 0 <= i < |s.jobs| ==> s.jobs[i].proc == sorted[i] && s.jobs[i].remaining <= sorted[i].burst
  }

  /** Jobs still in the backlog have not run. */
  predicate Backlog(s: State)
  {
    forall i :: 0 <= |s.jobs| - |s.ready| <= i < |s.jobs| ==> s.jobs[i].remaining == s.jobs[i].proc.burst
  }

  /**
   * Every admitted job is exactly one of: waiting in the queue, completed, or
   * in `hand` (taken from the queue and not yet put back or retired).
   */
  predicate Partition(s: State, hand: seq<nat>)
  {
    var m := |s.jobs| - |s.ready|;
    && |s.ready| <= |s.jobs|
    && Distinct(s.completed)
    && (forall k :: 0 <= k < |s.completed| ==> s.completed[k] < m)
    && (forall k :: 0 <= k < |hand| ==> hand[k] < m && hand[k] !in s.completed && hand[k] !in s.queue)
    && |s.queue| + |s.completed| + |hand| == m
    && (forall i :: 0 <= i < m ==> i in s.queue || i in s.completed || i in hand)
  }

  /** An admitted job has arrived, and the work it received fits between its arrival and now. */
  predicate Progress(s: State)
  {
    forall i :: 0 <= i < |s.jobs| - |s.ready| ==>
      s.jobs[i].proc.arrival + (s.jobs[i].proc.burst - s.jobs[i].remaining) <= s.time
  }

  /** Completed jobs carry their metrics, completed no later than now, in completion order. */
  predicate Done(s: State)
  {
    && (forall k :: 0 <= k < |s.completed| && s.completed[k] < |s.jobs| ==>
          CompletedAt(s.jobs[s.completed[k]], CompletionOf(s.jobs[s.completed[k]]))
          && CompletionOf(s.jobs[s.completed[k]]) <= s.time)
    && (forall k, k' :: 0 <= k < k' < |s.completed| && s.completed[k] < |s.jobs| && s.completed[k'] < |s.jobs| ==>
          CompletionOf(s.jobs[s.completed[k]]) <= CompletionOf(s.jobs[s.completed[k']]))
  }

  /**
   * Every entry is a closed slice of at most one quantum, each ends no later
   * than the next starts, the last no later than now, and each belongs to a job.
   */
  predicate Slices(tl: seq<Entry>, now: nat, quantum: nat)
  {
    forall k :: 0 <= k < |tl| ==> Sliced(tl, k, now, quantum)
  }

  /** Entry `k` is a closed slice of at most one quantum, ending before the next one or `now`. */
  predicate Sliced(tl: seq<Entry>, k: nat, now: nat, quantum: nat)
    requires k < |tl|
  {
    && tl[k].end.Some?
    && tl[k].start < tl[k].end.value <= tl[k].start + quantum
    && tl[k].end.value <= (if k + 1 < |tl| then tl[k + 1].start else now)
  }

  /** Every entry names a job. */
  predicate Owners(s: State)
  {
    forall k :: 0 <= k < |s.timeline| ==> s.timeline[k].id in Ids(s.jobs)
  }

  /** The timeline gives every job exactly the work it has received. */
  predicate Accounts(s: State)
  {
    forall i :: 0 <= i < |s.jobs| ==>
      Served(s.timeline, s.jobs[i].proc.id, s.time) == s.jobs[i].proc.burst - s.jobs[i].remaining
  }

  predicate Core(s: State, sorted: seq<Process>, hand: seq<nat>, quantum: nat)
  {
    && Wf(s, quantum)
    && Heap(s, sorted)
    && Backlog(s)
    && Partition(s, hand)
    && Progress(s)
    && Done(s)
    && Slices(s.timeline, s.time, quantum)
    && Owners(s)
    && Accounts(s)
  }

  /** The loop invariant of `roundRobin`, relative to the sorted copy of the input. */
  predicate Inv(s: State, sorted: seq<Process>, quantum: nat)
  {
    Core(s, sorted, [], quantum)
  }

  lemma InitInv(ps: seq<Process>, quantum: nat)
    requires Runnable(ps) && quantum > 0
    ensures Inv(Init(ps), SortByArrival(ps), quantum)
  {
    InitWf(ps, quantum);
  }

  /** Admission keeps the invariant whatever is in hand. */
  lemma AdmitCore(s: State, sorted: seq<Process>, hand: seq<nat>, quantum: nat)
    requires Core(s, sorted, hand, quantum)
    ensures Core(Admit(s), sorted, hand, quantum)
  {
    AdmitWf(s, quantum);
    AdmitPartition(s, hand, quantum);
    AdmitProgress(s, quantum);
  }

  /** The admitted jobs move from the backlog into the queue. */
  lemma AdmitPartition(s: State, hand: seq<nat>, quantum: nat)
    requires Wf(s, quantum) && Partition(s, hand)
    ensures Partition(Admit(s), hand)
  {
    AdmitWf(s, quantum);
    var a := Admit(s);
    var m := |s.jobs| - |s.ready|;
    var k := Admitted(s.jobs, s.ready, s.time);
    assert a.queue == s.queue + s.ready[..k];
    forall i | 0 <= i < m + k
      ensures i in a.queue || i in a.completed || i in hand
    {
      if i >= m {
        assert s.ready[i - m] == i;
        assert a.queue[|s.queue| + (i - m)] == i;
      } else if i in s.queue {
        var j :| 0 <= j < |s.queue| && s.queue[j] == i;
        assert a.queue[j] == i;
      }
    }
    forall j | 0 <= j < |hand|
      ensures hand[j] !in a.queue
    {
      assert hand[j] < m;
    }
  }

  /** The admitted jobs have arrived and have not run. */
  lemma AdmitProgress(s: State, quantum: nat)
    requires Wf(s, quantum) && Backlog(s) && Progress(s)
    ensures Progress(Admit(s)) && Backlog(Admit(s))
  {
    AdmitWf(s, quantum);
    var m := |s.jobs| - |s.ready|;
    var k := Admitted(s.jobs, s.ready, s.time);
    forall i | 0 <= i < m + k
      ensures s.jobs[i].proc.arrival + (s.jobs[i].proc.burst - s.jobs[i].remaining) <= s.time
    {
      if i >= m {
        assert s.ready[i - m] == i;
      }
    }
  }

  /** Appending a closed slice of one job adds its length to that job's account only. */
  lemma SliceAccounts(s: State, quantum: nat)
    requires Wf(s, quantum) && s.queue != [] && Accounts(s) && Slices(s.timeline, s.time, quantum)
    requires forall i, j :: 0 <= i < j < |s.jobs| ==> s.jobs[i].proc.id != s.jobs[j].proc.id
    ensures Accounts(RunSlice(s, quantum))
  {
    var c := s.queue[0];
    var mid := RunSlice(s, quantum);
    var e := mid.timeline[|mid.timeline| - 1];
    assert mid.timeline == s.timeline + [e];
    forall i | 0 <= i < |mid.jobs|
      ensures Served(mid.timeline, mid.jobs[i].proc.id, mid.time) == mid.jobs[i].proc.burst - mid.jobs[i].remaining
    {
      ServedAppend(s.timeline, e, mid.jobs[i].proc.id, mid.time);
      assert mid.jobs[i].proc == s.jobs[i].proc;
      if i != c {
        assert e.id == s.jobs[c].proc.id != s.jobs[i].proc.id;
      }
    }
  }

  /** Appending a slice that starts now and lasts at most one quantum keeps the timeline ordered. */
  lemma SliceSlices(tl: seq<Entry>, now: nat, e: Entry, quantum: nat)
    requires Slices(tl, now, quantum)
    requires e.start == now && e.end.Some? && now < e.end.value <= now + quantum
    ensures Slices(tl + [e], e.end.value, quantum)
  {
    var tl' := tl + [e];
    assert tl'[|tl|] == e;
    var end := e.end.value;
    forall k | 0 <= k < |tl'|
      ensures Sliced(tl', k, end, quantum)
    {
      if k < |tl| {
        assert Sliced(tl, k, now, quantum);
        assert tl'[k] == tl[k];
        assert k + 1 < |tl| ==> tl'[k + 1] == tl[k + 1];
      }
    }
  }

  /** After the slice the job that ran is in hand, every other admitted job where it was. */
  lemma SlicePartition(s: State, quantum: nat)
    requires Wf(s, quantum) && s.queue != [] && Partition(s, []) && Done(s)
    ensures Partition(RunSlice(s, quantum), [s.queue[0]])
  {
    var c := s.queue[0];
    var mid := RunSlice(s, quantum);
    RunSliceWf(s, quantum);
    assert mid.queue == s.queue[1..];
    assert c !in s.completed;
    forall i | 0 <= i < |mid.jobs| - |mid.ready|
      ensures i in mid.queue || i in mid.completed || i in [c]
    {
      if i in s.queue && i != c {
        var j :| 0 <= j < |s.queue| && s.queue[j] == i;
        assert mid.queue[j - 1] == i;
      }
    }
  }

  /** The new entry names the job that ran. */
  lemma SliceOwners(s: State, quantum: nat)
    requires Wf(s, quantum) && s.queue != [] && Owners(s)
    ensures Owners(RunSlice(s, quantum))
  {
    var c := s.queue[0];
    var mid := RunSlice(s, quantum);
    assert Ids(mid.jobs) == Ids(s.jobs) by {
      forall i | 0 <= i < |s.jobs|
        ensures mid.jobs[i].proc.id == s.jobs[i].proc.id
      {
      }
    }
    assert s.jobs[c].proc.id in Ids(s.jobs);
  }

  /** The slice keeps the per-job facts: the job that ran owes less and has worked no earlier than it arrived. */
  lemma SliceJobs(s: State, sorted: seq<Process>, quantum: nat)
    requires Wf(s, quantum) && s.queue != []
    requires Heap(s, sorted) && Backlog(s) && Progress(s) && Done(s) && Partition(s, [])
    ensures Heap(RunSlice(s, quantum), sorted) && Backlog(RunSlice(s, quantum))
    ensures Progress(RunSlice(s, quantum)) && Done(RunSlice(s, quantum))
  {
    SliceWork(s, sorted, quantum);
    SliceDone(s, quantum);
  }

  /** The job that ran owes less, was admitted, and has worked no earlier than it arrived. */
  lemma SliceWork(s: State, sorted: seq<Process>, quantum: nat)
    requires Wf(s, quantum) && s.queue != []
    requires Heap(s, sorted) && Backlog(s) && Progress(s)
    ensures Heap(RunSlice(s, quantum), sorted) && Backlog(RunSlice(s, quantum))
    ensures Progress(RunSlice(s, quantum))
  {
    RunSliceWf(s, quantum);
  }

  /** The slice leaves the completed jobs alone and only moves the clock forward. */
  lemma SliceDone(s: State, quantum: nat)
    requires Wf(s, quantum) && s.queue != [] && Done(s) && Partition(s, [])
    ensures Done(RunSlice(s, quantum))
  {
    var c := s.queue[0];
    var mid := RunSlice(s, quantum);
    assert c !in s.completed;
    assert mid.completed == s.completed && mid.time >= s.time && |mid.jobs| == |s.jobs|;
    forall k | 0 <= k < |s.completed|
      ensures mid.jobs[s.completed[k]] == s.jobs[s.completed[k]]
    {
      assert s.completed[k] != c;
    }
  }

  /** Taking the head of the queue and running its slice: the invariant holds with that job in hand. */
  lemma SliceCore(s: State, sorted: seq<Process>, quantum: nat)
    requires Inv(s, sorted, quantum) && s.queue != [] && DistinctIds(sorted)
    ensures Core(RunSlice(s, quantum), sorted, [s.queue[0]], quantum)
    ensures RunSlice(s, quantum).time > s.time
  {
    RunSliceWf(s, quantum);
    HeapIds(s, sorted);
    SliceAccounts(s, quantum);
    SliceTimeline(s, quantum);
    SlicePartition(s, quantum);
    SliceOwners(s, quantum);
    SliceJobs(s, sorted, quantum);
  }

  /** The jobs of a heap over records with distinct ids have distinct ids. */
  lemma HeapIds(s: State, sorted: seq<Process>)
    requires Heap(s, sorted) && DistinctIds(sorted)
    ensures forall i, j :: 0 <= i < j < |s.jobs| ==> s.jobs[i].proc.id != s.jobs[j].proc.id
  {
    forall i, j | 0 <= i < j < |s.jobs|
      ensures s.jobs[i].proc.id != s.jobs[j].proc.id
    {
      assert s.jobs[i].proc == sorted[i] && s.jobs[j].proc == sorted[j];
    }
  }

  /** The slice appends one closed entry of at most a quantum, ending at the new time. */
  lemma SliceTimeline(s: State, quantum: nat)
    requires Wf(s, quantum) && s.queue != [] && Slices(s.timeline, s.time, quantum)
    ensures Slices(RunSlice(s, quantum).timeline, RunSlice(s, quantum).time, quantum)
    ensures RunSlice(s, quantum).time > s.time
  {
    var mid := RunSlice(s, quantum);
    var e := mid.timeline[|mid.timeline| - 1];
    assert mid.timeline == s.timeline + [e];
    SliceSlices(s.timeline, s.time, e, quantum);
  }

  /** Putting the preempted job back at the end of the queue. */
  lemma EnqueueInv(s: State, sorted: seq<Process>, c: nat, quantum: nat)
    requires Core(s, sorted, [c], quantum) && c < |s.jobs| && s.jobs[c].remaining > 0
    ensures Inv(s.(queue := s.queue + [c]), sorted, quantum)
  {
    assert [c][0] == c;
    EnqueueWf(s, quantum, c);
    var s' := s.(queue := s.queue + [c]);
    forall i | 0 <= i < |s.jobs| - |s.ready|
      ensures i in s'.queue || i in s'.completed
    {
      if i in s.queue {
        var j :| 0 <= j < |s.queue| && s.queue[j] == i;
        assert s'.queue[j] == i;
      } else if i == c {
        assert s'.queue[|s.queue|] == c;
      }
    }
  }

  /** The state after retiring job `c` at the current time. */
  function Retired(s: State, c: nat): State
    requires c < |s.jobs|
  {
    s.(jobs := s.jobs[c := Complete(s.jobs[c], s.time)], completed := s.completed + [c])
  }

  /** The retired job completes now, after every job completed before it. */
  lemma RetireDone(s: State, c: nat, quantum: nat)
    requires Wf(s, quantum) && Done(s) && Progress(s) && Partition(s, [c]) && c < |s.jobs| && s.jobs[c].remaining == 0
    ensures Done(Retired(s, c))
  {
    assert [c][0] == c;
    var s' := Retired(s, c);
    assert CompletedAt(s'.jobs[c], s.time);
    forall k | 0 <= k < |s.completed|
      ensures s'.jobs[s.completed[k]] == s.jobs[s.completed[k]]
    {
    }
    forall k | 0 <= k < |s'.completed| && s'.completed[k] < |s'.jobs|
      ensures CompletedAt(s'.jobs[s'.completed[k]], CompletionOf(s'.jobs[s'.completed[k]]))
      ensures CompletionOf(s'.jobs[s'.completed[k]]) <= s'.time
    {
      if k < |s.completed| {
        assert s'.completed[k] == s.completed[k];
      }
    }
    forall k, k' | 0 <= k < k' < |s'.completed| && s'.completed[k] < |s'.jobs| && s'.completed[k'] < |s'.jobs|
      ensures CompletionOf(s'.jobs[s'.completed[k]]) <= CompletionOf(s'.jobs[s'.completed[k']])
    {
      assert s'.completed[k] == s.completed[k];
      if k' < |s.completed| {
        assert s'.completed[k'] == s.completed[k'];
      }
    }
  }

  /** The retired job leaves the hand for `completed`. */
  lemma RetirePartition(s: State, c: nat)
    requires Partition(s, [c]) && c < |s.jobs|
    ensures Partition(Retired(s, c), [])
  {
    assert [c][0] == c;
    var s' := Retired(s, c);
    DistinctAppend(s.completed, c);
    forall i | 0 <= i < |s.jobs| - |s.ready|
      ensures i in s'.queue || i in s'.completed
    {
      if i in s.completed {
        var j :| 0 <= j < |s.completed| && s.completed[j] == i;
        assert s'.completed[j] == i;
      } else if i == c {
        assert s'.completed[|s.completed|] == c;
      }
    }
  }

  /** Retiring a finished job: its metrics are set at the current time and it joins `completed`. */
  lemma RetireInv(s: State, sorted: seq<Process>, c: nat, quantum: nat)
    requires Core(s, sorted, [c], quantum) && c < |s.jobs| && s.jobs[c].remaining == 0
    ensures Inv(Retired(s, c), sorted, quantum)
  {
    assert [c][0] == c;
    RetireWf(s, quantum, c, s.time);
    RetireDone(s, c, quantum);
    RetirePartition(s, c);
    var s' := Retired(s, c);
    assert Ids(s'.jobs) == Ids(s.jobs) by {
      forall i | 0 <= i < |s.jobs|
        ensures s'.jobs[i].proc.id == s.jobs[i].proc.id
      {
      }
    }
  }

  /** A dispatch keeps the invariant and does not move the clock back. */
  lemma DispatchInv(s: State, sorted: seq<Process>, quantum: nat)
    requires Inv(s, sorted, quantum) && s.queue != [] && DistinctIds(sorted)
    ensures Inv(Dispatch(s, quantum), sorted, quantum) && Dispatch(s, quantum).time > s.time
  {
    var c := s.queue[0];
    SliceAdmitCore(s, sorted, quantum);
    RunSliceWf(s, quantum);
    var s2 := Admit(RunSlice(s, quantum));
    DispatchCases(s, quantum);
    if s2.jobs[c].remaining > 0 {
      EnqueueInv(s2, sorted, c, quantum);
    } else {
      RetireInv(s2, sorted, c, quantum);
    }
  }

  /** A dispatch re-enqueues the job when it still has work and retires it otherwise. */
  lemma DispatchCases(s: State, quantum: nat)
    requires Wf(s, quantum) && s.queue != []
    ensures RunSlice.requires(s, quantum) && s.queue[0] < |Admit(RunSlice(s, quantum)).jobs|
    ensures var c := s.queue[0]; var s2 := Admit(RunSlice(s, quantum));
      && (s2.jobs[c].remaining > 0 ==> Dispatch(s, quantum) == s2.(queue := s2.queue + [c]))
      && (s2.jobs[c].remaining == 0 ==> Dispatch(s, quantum) == Retired(s2, c))
  {
    RunSliceWf(s, quantum);
    AdmitWf(RunSlice(s, quantum), quantum);
  }

  /** After the slice and the admissions it allows, the invariant holds with the job in hand. */
  lemma SliceAdmitCore(s: State, sorted: seq<Process>, quantum: nat)
    requires Inv(s, sorted, quantum) && s.queue != [] && DistinctIds(sorted)
    ensures RunSlice.requires(s, quantum)
    ensures var s2 := Admit(RunSlice(s, quantum));
      && Core(s2, sorted, [s.queue[0]], quantum) && s2.time > s.time && s.queue[0] < |s2.jobs|
  {
    var c := s.queue[0];
    SliceCore(s, sorted, quantum);
    RunSliceWf(s, quantum);
    var mid := RunSlice(s, quantum);
    AdmitCore(mid, sorted, [c], quantum);
    assert [c][0] == c;
  }

  /** Moving the clock forward while nothing is queued keeps the invariant. */
  lemma JumpInv(s: State, sorted: seq<Process>, quantum: nat, t: nat)
    requires Inv(s, sorted, quantum) && s.time <= t
    ensures Inv(s.(time := t), sorted, quantum)
  {
    var s' := s.(time := t);
    forall k | 0 <= k < |s.timeline|
      ensures Sliced(s.timeline, k, t, quantum)
    {
      assert Sliced(s.timeline, k, s.time, quantum);
    }
    if s.timeline != [] {
      assert Sliced(s.timeline, |s.timeline| - 1, s.time, quantum);
    }
    forall i | 0 <= i < |s.jobs|
      ensures Served(s.timeline, s.jobs[i].proc.id, t) == Served(s.timeline, s.jobs[i].proc.id, s.time)
    {
      ServedClosed(s.timeline, s.jobs[i].proc.id, t, s.time);
    }
  }

  /** Every iteration keeps the invariant and does not move the clock back. */
  lemma StepInv(s: State, sorted: seq<Process>, quantum: nat)
    requires Inv(s, sorted, quantum) && (s.ready != [] || s.queue != []) && DistinctIds(sorted)
    ensures Inv(Step(s, quantum), sorted, quantum) && Step(s, quantum).time >= s.time
  {
    AdmitCore(s, sorted, [], quantum);
    AdmitWf(s, quantum);
    var s1 := Admit(s);
    if s1.queue == [] {
      JumpInv(s1, sorted, quantum, s1.jobs[s1.ready[0]].proc.arrival);
    } else {
      DispatchInv(s1, sorted, quantum);
    }
  }

  /** The invariant holds when the loop ends. */
  lemma {:induction false} RunInv(s: State, sorted: seq<Process>, quantum: nat)
    requires Inv(s, sorted, quantum) && DistinctIds(sorted)
    ensures Inv(Run(s, quantum), sorted, quantum)
    decreases SumRemaining(s.jobs), Idle(s)
  {
    if s.ready != [] || s.queue != [] {
      StepWf(s, quantum);
      StepInv(s, sorted, quantum);
      RunInv(Step(s, quantum), sorted, quantum);
    }
  }

  /** The state the loop ends in satisfies the invariant with every job completed. */
  lemma FinalState(ps: seq<Process>, quantum: nat)
    requires Runnable(ps) && quantum > 0
    ensures var f := Final(ps, quantum);
      && Inv(f, SortByArrival(ps), quantum)
      && |f.completed| == |ps| == |f.jobs|
      && (forall x :: 0 <= x < |ps| ==> x in f.completed)
      && f.ready == [] && f.queue == []
  {
    InitWf(ps, quantum);
    InitInv(ps, quantum);
    SortByArrivalRunnable(ps);
    RunInv(Init(ps), SortByArrival(ps), quantum);
  }

  /** Every input record is returned exactly once; the JavaScript copies leave the input as it was. */
  lemma RoundRobinEachOnce(ps: seq<Process>, quantum: nat)
    requires Runnable(ps) && quantum > 0
    ensures EachOnce(RoundRobinSchedule(ps, quantum).processes, ps)
  {
    var f := Final(ps, quantum);
    var sorted := SortByArrival(ps);
    var out := RoundRobinSchedule(ps, quantum).processes;
    FinalOrder(ps, quantum);
    SortByArrivalRunnable(ps);
    EachOnceByIndex(out, f.completed, sorted, ps);
  }

  /** The returned records are the sorted copies, in the order `completed` lists them. */
  lemma FinalOrder(ps: seq<Process>, quantum: nat)
    requires Runnable(ps) && quantum > 0
    ensures var f := Final(ps, quantum); var out := RoundRobinSchedule(ps, quantum).processes;
      && |out| == |f.completed| == |ps|
      && Distinct(f.completed)
      && (forall k :: 0 <= k < |f.completed| ==> f.completed[k] < |ps| && out[k].proc == SortByArrival(ps)[f.completed[k]])
      && (forall x :: 0 <= x < |ps| ==> x in f.completed)
  {
    FinalState(ps, quantum);
    var f := Final(ps, quantum);
    assert RoundRobinSchedule(ps, quantum).processes == Output(f).processes;
  }

  /**
   * Every returned record has `turnaround = completion - arrival`,
   * `waiting = turnaround - burst >= 0`, and the records are in completion order.
   */
  lemma RoundRobinMetrics(ps: seq<Process>, quantum: nat)
    requires Runnable(ps) && quantum > 0
    ensures forall j :: 0 <= j < |RoundRobinSchedule(ps, quantum).processes| ==>
      MetricsHold(RoundRobinSchedule(ps, quantum).processes[j])
    ensures InCompletionOrder(RoundRobinSchedule(ps, quantum).processes)
  {
    FinalState(ps, quantum);
    var f := Final(ps, quantum);
    var out := RoundRobinSchedule(ps, quantum).processes;
    assert out == Output(f).processes;
    forall j | 0 <= j < |out|
      ensures MetricsHold(out[j])
    {
      assert CompletedAt(f.jobs[f.completed[j]], CompletionOf(f.jobs[f.completed[j]]));
    }
    forall j, j' | 0 <= j < j' < |out|
      ensures out[j].completion <= out[j'].completion
    {
      assert out[j].completion == CompletionOf(f.jobs[f.completed[j]]);
      assert out[j'].completion == CompletionOf(f.jobs[f.completed[j']]);
    }
  }

  /**
   * The timeline is a Gantt chart of closed slices, each with
   * `0 < end - start <= quantum`, in order and without overlap.
   */
  lemma RoundRobinSlices(ps: seq<Process>, quantum: nat)
    requires Runnable(ps) && quantum > 0
    ensures var tl := RoundRobinSchedule(ps, quantum).timeline;
      && (forall k :: 0 <= k < |tl| ==>
            tl[k].end.Some? && tl[k].start < tl[k].end.value <= tl[k].start + quantum)
      && Chart(tl)
  {
    FinalState(ps, quantum);
    var f := Final(ps, quantum);
    var tl := RoundRobinSchedule(ps, quantum).timeline;
    assert tl == f.timeline;
    forall k | 0 <= k < |tl|
      ensures tl[k].end.Some? && tl[k].start < tl[k].end.value <= tl[k].start + quantum
    {
      assert Sliced(tl, k, f.time, quantum);
    }
    if tl != [] {
      var last := tl[|tl| - 1].end.value;
      forall k | 0 <= k < |tl|
        ensures Placed(tl, k, last)
      {
        assert Sliced(tl, k, f.time, quantum);
      }
    }
  }

  /** Every timeline entry names an input process. */
  lemma RoundRobinOwners(ps: seq<Process>, quantum: nat)
    requires Runnable(ps) && quantum > 0
    ensures var tl := RoundRobinSchedule(ps, quantum).timeline;
      forall k :: 0 <= k < |tl| ==> exists i :: 0 <= i < |ps| && ps[i].id == tl[k].id
  {
    FinalState(ps, quantum);
    var f := Final(ps, quantum);
    var sorted := SortByArrival(ps);
    var tl := RoundRobinSchedule(ps, quantum).timeline;
    assert tl == f.timeline;
    forall k | 0 <= k < |tl|
      ensures exists i :: 0 <= i < |ps| && ps[i].id == tl[k].id
    {
      assert tl[k].id in Ids(f.jobs);
      var x :| 0 <= x < |f.jobs| && f.jobs[x].proc.id == tl[k].id;
      assert sorted[x] in multiset(ps);
      var i :| 0 <= i < |ps| && ps[i] == sorted[x];
    }
  }

  /** The slices of each process add up to its burst. */
  lemma RoundRobinBusy(ps: seq<Process>, quantum: nat)
    requires Runnable(ps) && quantum > 0
    ensures var tl := RoundRobinSchedule(ps, quantum).timeline;
      forall i :: 0 <= i < |ps| ==> Busy(tl, ps[i].id) == ps[i].burst
  {
    FinalWork(ps, quantum);
    var f := Final(ps, quantum);
    var sorted := SortByArrival(ps);
    var tl := RoundRobinSchedule(ps, quantum).timeline;
    forall i | 0 <= i < |ps|
      ensures Busy(tl, ps[i].id) == ps[i].burst
    {
      assert ps[i] in multiset(sorted);
      var x :| 0 <= x < |sorted| && sorted[x] == ps[i];
      ServedClosed(tl, ps[i].id, 0, f.time);
    }
  }

  /** When the loop ends the last slice is closed and every sorted record has received its burst. */
  lemma FinalWork(ps: seq<Process>, quantum: nat)
    requires Runnable(ps) && quantum > 0
    ensures var f := Final(ps, quantum); var sorted := SortByArrival(ps);
      && RoundRobinSchedule(ps, quantum).timeline == f.timeline
      && (f.timeline == [] || f.timeline[|f.timeline| - 1].end.Some?)
      && |sorted| == |ps|
      && (forall x :: 0 <= x < |sorted| ==> Served(f.timeline, sorted[x].id, f.time) == sorted[x].burst)
  {
    FinalState(ps, quantum);
    var f := Final(ps, quantum);
    var sorted := SortByArrival(ps);
    var tl := f.timeline;
    if tl != [] {
      assert Sliced(tl, |tl| - 1, f.time, quantum);
    }
    forall x | 0 <= x < |sorted|
      ensures Served(f.timeline, sorted[x].id, f.time) == sorted[x].burst
    {
      assert x in f.completed;
      var j :| 0 <= j < |f.completed| && f.completed[j] == x;
      assert CompletedAt(f.jobs[f.completed[j]], CompletionOf(f.jobs[f.completed[j]]));
      assert f.jobs[x].proc == sorted[x];
    }
  }

  /** After a slice, the jobs left in the backlog are exactly those that have not arrived (script.js:83). */
  lemma SliceLeavesUnarrived(s: State, sorted: seq<Process>, quantum: nat)
    requires Wf(s, quantum) && Heap(s, sorted) && SortedByArrival(sorted) && s.queue != []
    ensures var d := Dispatch(s, quantum);
      && d.time == s.time + Min(s.jobs[s.queue[0]].remaining, quantum)
      && (forall k :: 0 <= k < |s.ready| ==>
            (s.ready[k] in d.ready <==> s.jobs[s.ready[k]].proc.arrival > d.time))
  {
    var c := s.queue[0];
    RunSliceWf(s, quantum);
    var mid := RunSlice(s, quantum);
    var t := mid.time;
    var kk := Admitted(mid.jobs, mid.ready, t);
    var s2 := Admit(mid);
    var m := |s.jobs| - |s.ready|;
    var d := Dispatch(s, quantum);
    assert d.ready == s2.ready == s.ready[kk..];
    forall k | 0 <= k < |s.ready|
      ensures s.ready[k] in d.ready <==> s.jobs[s.ready[k]].proc.arrival > t
    {
      assert s.ready[k] == m + k && mid.jobs[m + k] == s.jobs[m + k];
      if k >= kk {
        assert d.ready[k - kk] == s.ready[k];
        if k > kk {
          assert sorted[m + kk].arrival <= sorted[m + k].arrival;
          assert mid.jobs[s.ready[kk]].proc.arrival > t;
        }
      }
    }
  }

  /**
   * The order of script.js:83-86: a preempted process goes back to the end of
   * the queue, behind every process admitted during its slice.
   */
  lemma PreemptedAfterArrivals(s: State, quantum: nat)
    requires Wf(s, quantum) && s.queue != []
    ensures var c := s.queue[0];
      var d := Dispatch(s, quantum);
      d.jobs[c].remaining > 0 ==>
        && d.queue[|d.queue| - 1] == c
        && forall k :: 0 <= k < |s.ready| && s.ready[k] !in d.ready ==> s.ready[k] in d.queue[..|d.queue| - 1]
  {
    var c := s.queue[0];
    RunSliceWf(s, quantum);
    var mid := RunSlice(s, quantum);
    var kk := Admitted(mid.jobs, mid.ready, mid.time);
    var s2 := Admit(mid);
    var d := Dispatch(s, quantum);
    var m := |s.jobs| - |s.ready|;
    if s2.jobs[c].remaining > 0 {
      assert d.queue == s2.queue + [c];
      assert d.queue[..|d.queue| - 1] == s2.queue;
      forall k | 0 <= k < |s.ready| && s.ready[k] !in d.ready
        ensures s.ready[k] in s2.queue
      {
        assert s.ready[k] == m + k;
        assert s2.queue[|mid.queue| + k] == s.ready[k];
      }
    }
  }

  /**
   * When nothing is queued after admission, the loop moves the clock forward to
   * the arrival of the next process in the backlog and changes nothing else
   * (script.js:70-73).
   */
  lemma IdleJump(s: State, quantum: nat)
    requires Wf(s, quantum) && (s.ready != [] || s.queue != []) && s.queue == []
    requires s.jobs[s.ready[0]].proc.arrival > s.time
    ensures Step(s, quantum) == s.(time := s.jobs[s.ready[0]].proc.arrival)
  {
    assert Admitted(s.jobs, s.ready, s.time) == 0;
    assert s.ready[..0] == [] && s.ready[0..] == s.ready;
  }

  /**
   * There are no gaps in the timeline except idle jumps: as soon as the queue
   * or an arrived backlog job is waiting, the iteration runs one slice that
   * starts at the current time (script.js:68, 75-81).
   */
  lemma SliceAtNow(s: State, quantum: nat)
    requires Wf(s, quantum) && (s.ready != [] || s.queue != []) && Indices(s.jobs, s.ready)
    ensures Admit(s).queue != [] <==> s.queue != [] || s.jobs[s.ready[0]].proc.arrival <= s.time
    ensures Admit(s).queue != [] ==>
      var c := Admit(s).queue[0];
      && c < |s.jobs|
      && var t := s.time + Min(s.jobs[c].remaining, quantum);
      && Step(s, quantum).time == t
      && Step(s, quantum).timeline == s.timeline + [Entry(s.jobs[c].proc.id, s.time, Some(t))]
  {
    AdmitNonEmpty(s, quantum);
    AdmitWf(s, quantum);
    if Admit(s).queue != [] {
      DispatchTimeline(Admit(s), quantum);
    }
  }

  /** Admission leaves the queue non-empty exactly when it was, or the head of the backlog has arrived. */
  lemma AdmitNonEmpty(s: State, quantum: nat)
    requires Wf(s, quantum) && (s.ready != [] || s.queue != []) && Indices(s.jobs, s.ready)
    ensures Admit(s).queue != [] <==> s.queue != [] || s.jobs[s.ready[0]].proc.arrival <= s.time
  {
    var k := Admitted(s.jobs, s.ready, s.time);
    assert |Admit(s).queue| == |s.queue| + k;
  }

  /** A dispatch runs one slice of the head of the queue, starting now. */
  lemma DispatchTimeline(a: State, quantum: nat)
    requires Wf(a, quantum) && a.queue != []
    ensures var c := a.queue[0]; var t := a.time + Min(a.jobs[c].remaining, quantum);
      && Dispatch(a, quantum).time == t
      && Dispatch(a, quantum).timeline == a.timeline + [Entry(a.jobs[c].proc.id, a.time, Some(t))]
  {
    RunSliceWf(a, quantum);
    var mid := RunSlice(a, quantum);
    AdmitWf(mid, quantum);
  }
}
