/**
 * Round Robin (`roundRobin`, script.js): the records are copied, stably
 * sorted by arrival and admitted from a `ready` backlog into a FIFO `queue`;
 * the head of the queue runs for `min(remaining, quantum)` units, processes
 * that arrived meanwhile are admitted, and only then is the preempted
 * process re-enqueued.
 *
 * The copies live in `jobs`; `ready`, `queue` and `completed` hold indices
 * into it, as the JavaScript arrays hold references to the same objects.
 */
module RoundRobin {
  import opened Wrappers
  import opened Processes
  import opened ArrivalSort

  /** The local variables of one iteration of the outer loop. */
  datatype State = State(time: nat, jobs: seq<Job>, ready: seq<nat>, queue: seq<nat>, completed: seq<nat>, timeline: seq<Entry>)

  /** Every index in `xs` addresses a job. */
  predicate Indices(jobs: seq<Job>, xs: seq<nat>)
  {
    forall k :: 0 <= k < |xs| ==> xs[k] < |jobs|
  }

  /** The state before the loop: sorted copies, everything in the backlog. */
  function Init(ps: seq<Process>): State
  {
    var sorted := SortByArrival(ps);
    State(0, Copies(sorted), Range(0, |sorted|), [], [], [])
  }

  /**
   * How many backlog entries `while (ready.length && ready[0].arrival <= time)`
   * moves: the longest prefix of `ready` that has arrived by `time`.
   */
  function Admitted(jobs: seq<Job>, ready: seq<nat>, time: nat): (k: nat)
    requires Indices(jobs, ready)
    ensures k <= |ready|
    ensures forall j :: 0 <= j < k ==> jobs[ready[j]].proc.arrival <= time
    ensures k < |ready| ==> jobs[ready[k]].proc.arrival > time
  {
    if ready != [] && jobs[ready[0]].proc.arrival <= time then 1 + Admitted(jobs, ready[1..], time) else 0
  }

  /** The admission loop: the arrived prefix of the backlog joins the end of the queue. */
  function Admit(s: State): State
    requires Indices(s.jobs, s.ready)
  {
    var k := Admitted(s.jobs, s.ready, s.time);
    s.(queue := s.queue + s.ready[..k], ready := s.ready[k..])
  }

  /** The record fields assigned when a job completes at `t`. */
  function Complete(j: Job, t: nat): (r: Job)
    ensures r.proc == j.proc && r.remaining == j.remaining
  {
    j.(metrics := Some(Metrics(t, t - j.proc.arrival, (t - j.proc.arrival) - j.proc.burst)))
  }

  function Min(a: nat, b: nat): nat
  {
    if a < b then a else b
  }

  /** What the loop needs to terminate and to stay within bounds. */
  predicate Wf(s: State, quantum: nat)
  {
    && quantum > 0
    && |s.ready| <= |s.jobs|
    && s.ready == Range(|s.jobs| - |s.ready|, |s.jobs|)
    && Distinct(s.queue)
    && (forall k :: 0 <= k < |s.queue| ==> s.queue[k] < |s.jobs| - |s.ready|)
    && (forall k :: 0 <= k < |s.ready| ==> s.jobs[s.ready[k]].remaining > 0)
    && (forall k :: 0 <= k < |s.queue| ==> s.jobs[s.queue[k]].remaining > 0)
    && Indices(s.jobs, s.completed)
    && (forall k :: 0 <= k < |s.completed| ==> s.jobs[s.completed[k]].metrics.Some?)
  }

  /**
   * The head of the queue runs for `min(remaining, quantum)` units
   * (script.js:75-81); it is out of the queue until it is re-enqueued.
   */
  function RunSlice(s: State, quantum: nat): State
    requires Wf(s, quantum) && s.queue != []
  {
    var c := s.queue[0];
    var job := s.jobs[c];
    var t := s.time + Min(job.remaining, quantum);
    State(t, s.jobs[c := job.(remaining := job.remaining - Min(job.remaining, quantum))], s.ready, s.queue[1..],
          s.completed, s.timeline + [Entry(job.proc.id, s.time, Some(t))])
  }

  /**
   * A whole dispatch: run the slice, admit what arrived meanwhile
   * (script.js:83), then re-enqueue the job or retire it (script.js:85-91).
   */
  function Dispatch(s: State, quantum: nat): State
    requires Wf(s, quantum) && s.queue != []
  {
    var c := s.queue[0];
    RunSliceWf(s, quantum);
    var s2 := Admit(RunSlice(s, quantum));
    if s2.jobs[c].remaining > 0 then s2.(queue := s2.queue + [c])
    else s2.(jobs := s2.jobs[c := Complete(s2.jobs[c], s2.time)], completed := s2.completed + [c])
  }

  /** One iteration of the outer loop of script.js:67-92. */
  function Step(s: State, quantum: nat): State
    requires Wf(s, quantum) && (s.ready != [] || s.queue != [])
  {
    AdmitWf(s, quantum);
    var s1 := Admit(s);
    if s1.queue == [] then s1.(time := s1.jobs[s1.ready[0]].proc.arrival)
    else Dispatch(s1, quantum)
  }

  /** 1 exactly when the next iteration is an idle jump of the clock. */
  function Idle(s: State): nat
  {
    if s.queue == [] && s.ready != [] && s.ready[0] < |s.jobs| && s.jobs[s.ready[0]].proc.arrival > s.time then 1 else 0
  }

  lemma DistinctExtend(q: seq<nat>, lo: nat, hi: nat)
    requires Distinct(q) && lo <= hi
    requires forall k :: 0 <= k < |q| ==> q[k] < lo
    ensures Distinct(q + Range(lo, hi))
    ensures forall k :: 0 <= k < |q + Range(lo, hi)| ==> (q + Range(lo, hi))[k] < hi
  {
    var r := q + Range(lo, hi);
    forall i, j | 0 <= i < j < |r|
      ensures r[i] != r[j]
    {
      if j < |q| {
      } else if i < |q| {
        assert r[i] == q[i] && r[j] == lo + (j - |q|);
      } else {
        assert r[i] == lo + (i - |q|) && r[j] == lo + (j - |q|);
      }
    }
  }

  /** Admission keeps the state well formed. */
  lemma AdmitWf(s: State, quantum: nat)
    requires Wf(s, quantum)
    ensures Wf(Admit(s), quantum)
    ensures Admit(s).jobs == s.jobs && Admit(s).time == s.time && Admit(s).completed == s.completed
    ensures |Admit(s).ready| + |Admit(s).queue| == |s.ready| + |s.queue|
    ensures forall x :: x in Admit(s).queue ==> x in s.queue || |s.jobs| - |s.ready| <= x
    ensures |Admit(s).ready| <= |s.ready|
  {
    AdmitShape(s, quantum);
    MoveWf(s, quantum, Admitted(s.jobs, s.ready, s.time));
  }

  /** Admission moves the next `Admitted` indices of the backlog range to the queue. */
  lemma AdmitShape(s: State, quantum: nat)
    requires Wf(s, quantum)
    ensures Admit(s) == Move(s, Admitted(s.jobs, s.ready, s.time))
  {
    RangeSplit(|s.jobs| - |s.ready|, Admitted(s.jobs, s.ready, s.time), |s.jobs|);
  }

  /** The state with the first `k` indices of the backlog range moved to the queue. */
  function Move(s: State, k: nat): State
    requires k <= |s.ready| <= |s.jobs|
  {
    var m := |s.jobs| - |s.ready|;
    s.(queue := s.queue + Range(m, m + k), ready := Range(m + k, |s.jobs|))
  }

  /** Moving a prefix of the backlog range to the queue keeps the state well formed. */
  lemma MoveWf(s: State, quantum: nat, k: nat)
    requires Wf(s, quantum) && k <= |s.ready|
    ensures Wf(Move(s, k), quantum)
    ensures forall x :: x in Move(s, k).queue ==> x in s.queue || |s.jobs| - |s.ready| <= x
  {
    var n := |s.jobs|;
    var m := n - |s.ready|;
    var a := Move(s, k);
    DistinctExtend(s.queue, m, m + k);
    forall i | 0 <= i < |a.queue|
      ensures a.jobs[a.queue[i]].remaining > 0
    {
      if i >= |s.queue| {
        assert a.queue[i] == s.ready[i - |s.queue|];
      }
    }
    forall i | 0 <= i < |a.ready|
      ensures a.jobs[a.ready[i]].remaining > 0
    {
      assert a.ready[i] == s.ready[i + k];
    }
  }

  /** Splitting a range at offset `k` gives two ranges. */
  lemma RangeSplit(m: nat, k: nat, n: nat)
    requires m + k <= n
    ensures Range(m, n)[..k] == Range(m, m + k)
    ensures Range(m, n)[k..] == Range(m + k, n)
  {
  }

  /** The slice keeps the state well formed, away from the job it runs, and consumes work. */
  lemma RunSliceWf(s: State, quantum: nat)
    requires Wf(s, quantum) && s.queue != []
    ensures Wf(RunSlice(s, quantum), quantum)
    ensures s.queue[0] !in RunSlice(s, quantum).queue
    ensures s.queue[0] < |s.jobs| - |s.ready|
    ensures SumRemaining(RunSlice(s, quantum).jobs) < SumRemaining(s.jobs)
  {
    var c := s.queue[0];
    var job := s.jobs[c];
    var mid := RunSlice(s, quantum);
    assert mid.queue == s.queue[1..];
    forall k | 0 <= k < |mid.queue|
      ensures mid.queue[k] != c
    {
      assert mid.queue[k] == s.queue[k + 1];
    }
    SumRemainingUpdate(s.jobs, c, job.(remaining := job.remaining - Min(job.remaining, quantum)));
  }

  /** Re-enqueueing a job that is in neither list and still has work. */
  lemma EnqueueWf(s: State, quantum: nat, c: nat)
    requires Wf(s, quantum) && c !in s.queue && c < |s.jobs| - |s.ready| && s.jobs[c].remaining > 0
    ensures Wf(s.(queue := s.queue + [c]), quantum)
  {
    DistinctAppend(s.queue, c);
  }

  /** Retiring a job that is in neither list. */
  lemma RetireWf(s: State, quantum: nat, c: nat, t: nat)
    requires Wf(s, quantum) && c !in s.queue && c < |s.jobs| - |s.ready|
    ensures Wf(s.(jobs := s.jobs[c := Complete(s.jobs[c], t)], completed := s.completed + [c]), quantum)
  {
    var s' := s.(jobs := s.jobs[c := Complete(s.jobs[c], t)], completed := s.completed + [c]);
    forall k | 0 <= k < |s.ready|
      ensures s'.jobs[s.ready[k]].remaining > 0
    {
      assert s.ready[k] == |s.jobs| - |s.ready| + k;
    }
    forall k | 0 <= k < |s.queue|
      ensures s'.jobs[s.queue[k]].remaining > 0
    {
      assert s.queue[k] != c;
    }
  }

  /** A dispatch keeps the state well formed and consumes work. */
  lemma DispatchWf(s: State, quantum: nat)
    requires Wf(s, quantum) && s.queue != []
    ensures Wf(Dispatch(s, quantum), quantum)
    ensures SumRemaining(Dispatch(s, quantum).jobs) < SumRemaining(s.jobs)
  {
    var c := s.queue[0];
    RunSliceWf(s, quantum);
    var mid := RunSlice(s, quantum);
    AdmitWf(mid, quantum);
    var s2 := Admit(mid);
    assert c !in s2.queue;
    if s2.jobs[c].remaining > 0 {
      EnqueueWf(s2, quantum, c);
    } else {
      RetireWf(s2, quantum, c, s2.time);
      SumRemainingUpdate(s2.jobs, c, Complete(s2.jobs[c], s2.time));
    }
  }

  /** Each iteration keeps the state well formed and lowers (total remaining, idle flag). */
  lemma StepWf(s: State, quantum: nat)
    requires Wf(s, quantum) && (s.ready != [] || s.queue != [])
    ensures Wf(Step(s, quantum), quantum)
    ensures SumRemaining(Step(s, quantum).jobs) < SumRemaining(s.jobs)
      || (SumRemaining(Step(s, quantum).jobs) == SumRemaining(s.jobs) && Idle(Step(s, quantum)) < Idle(s))
  {
    AdmitWf(s, quantum);
    var s1 := Admit(s);
    if s1.queue == [] {
      assert Admitted(s.jobs, s.ready, s.time) == 0;
    } else {
      DispatchWf(s1, quantum);
    }
  }

  /** The loop run to its end: the specification of `roundRobin`. */
  function Run(s: State, quantum: nat): (r: State)
    requires Wf(s, quantum)
    ensures Wf(r, quantum) && r.ready == [] && r.queue == []
    decreases SumRemaining(s.jobs), Idle(s)
  {
    if s.ready == [] && s.queue == [] then s
    else
      StepWf(s, quantum);
      Run(Step(s, quantum), quantum)
  }

  /** The returned `{ processes: completed, timeline }`. */
  function Output(s: State): Schedule
    requires Indices(s.jobs, s.completed)
    requires forall k :: 0 <= k < |s.completed| ==> s.jobs[s.completed[k]].metrics.Some?
  {
    Schedule(seq(|s.completed|, k requires 0 <= k < |s.completed| => FinishedOf(s.jobs[s.completed[k]])), s.timeline)
  }

  lemma InitWf(ps: seq<Process>, quantum: nat)
    requires Runnable(ps) && quantum > 0
    ensures Wf(Init(ps), quantum)
  {
    SortByArrivalRunnable(ps);
  }

  /** The state in which the loop of `roundRobin(processes, quantum)` ends. */
  function Final(ps: seq<Process>, quantum: nat): (r: State)
    requires Runnable(ps) && quantum > 0
    ensures Wf(r, quantum) && r.ready == [] && r.queue == []
  {
    InitWf(ps, quantum);
    Run(Init(ps), quantum)
  }

  /** `roundRobin(processes, quantum)` as a value. */
  function RoundRobinSchedule(ps: seq<Process>, quantum: nat): Schedule
    requires Runnable(ps) && quantum > 0
  {
    Output(Final(ps, quantum))
  }

  /** A state with work left runs to the same end as its successor. */
  lemma RunUnfold(s: State, quantum: nat)
    requires Wf(s, quantum) && (s.ready != [] || s.queue != [])
    ensures Wf(Step(s, quantum), quantum) && Run(s, quantum) == Run(Step(s, quantum), quantum)
  {
    StepWf(s, quantum);
  }

  /** `roundRobin(processes, quantum)` as the loop script.js:61-95 runs it. */
  method RoundRobin(processes: seq<Process>, quantum: nat) returns (result: Schedule)
    requires Runnable(processes) && quantum > 0
    ensures result == RoundRobinSchedule(processes, quantum)
  {
    var time: nat, queue: seq<nat>, timeline: seq<Entry>, completed: seq<nat> := 0, [], [], [];
    var sorted := SortByArrival(processes);
    var jobs := Copies(sorted);
    var ready := Range(0, |jobs|);
    InitWf(processes, quantum);
    assert State(time, jobs, ready, queue, completed, timeline) == Init(processes);
    while ready != [] || queue != []
      invariant Wf(State(time, jobs, ready, queue, completed, timeline), quantum)
      invariant Run(State(time, jobs, ready, queue, completed, timeline), quantum) == Final(processes, quantum)
      decreases SumRemaining(jobs), Idle(State(time, jobs, ready, queue, completed, timeline))
    {
      ghost var before := State(time, jobs, ready, queue, completed, timeline);
      RunUnfold(before, quantum);
      StepWf(before, quantum);
      time, jobs, ready, queue, completed, timeline := Tick(time, jobs, ready, queue, completed, timeline, quantum);
    }
    RunEnd(State(time, jobs, ready, queue, completed, timeline), quantum);
    result := Output(State(time, jobs, ready, queue, completed, timeline));
  }

  /** A state with nothing left to admit or dispatch is where the run ends. */
  lemma RunEnd(s: State, quantum: nat)
    requires Wf(s, quantum) && s.ready == [] && s.queue == []
    ensures Run(s, quantum) == s
  {
  }

  /** One pass of the loop body: admit the arrived processes, then either jump to the next arrival or dispatch. */
  method Tick(time0: nat, jobs0: seq<Job>, ready0: seq<nat>, queue0: seq<nat>, completed0: seq<nat>, timeline0: seq<Entry>, quantum: nat)
    returns (time: nat, jobs: seq<Job>, ready: seq<nat>, queue: seq<nat>, completed: seq<nat>, timeline: seq<Entry>)
    requires Wf(State(time0, jobs0, ready0, queue0, completed0, timeline0), quantum) && (ready0 != [] || queue0 != [])
    ensures State(time, jobs, ready, queue, completed, timeline)
         == Step(State(time0, jobs0, ready0, queue0, completed0, timeline0), quantum)
  {
    ghost var before := State(time0, jobs0, ready0, queue0, completed0, timeline0);
    AdmitWf(before, quantum);
    time, jobs, completed, timeline := time0, jobs0, completed0, timeline0;
    ready, queue := AdmitLoop(jobs, ready0, queue0, time);
    assert State(time, jobs, ready, queue, completed, timeline) == Admit(before);
    if queue == [] {
      time := jobs[ready[0]].proc.arrival;
    } else {
      time, jobs, ready, queue, completed, timeline := RunHead(time, jobs, ready, queue, completed, timeline, quantum);
    }
  }

  /** One dispatch of the loop body: run the head of the queue for one slice, admit, then re-enqueue or retire it. */
  method RunHead(time0: nat, jobs0: seq<Job>, ready0: seq<nat>, queue0: seq<nat>, completed0: seq<nat>, timeline0: seq<Entry>, quantum: nat)
    returns (time: nat, jobs: seq<Job>, ready: seq<nat>, queue: seq<nat>, completed: seq<nat>, timeline: seq<Entry>)
    requires Wf(State(time0, jobs0, ready0, queue0, completed0, timeline0), quantum) && queue0 != []
    ensures State(time, jobs, ready, queue, completed, timeline)
         == Dispatch(State(time0, jobs0, ready0, queue0, completed0, timeline0), quantum)
  {
    ghost var admitted := State(time0, jobs0, ready0, queue0, completed0, timeline0);
    time, jobs, ready, queue, completed, timeline := time0, jobs0, ready0, queue0, completed0, timeline0;
    var curr := queue[0];
    queue := queue[1..];
    var start := time;
    var exec := Min(jobs[curr].remaining, quantum);
    time := time + exec;
    jobs := jobs[curr := jobs[curr].(remaining := jobs[curr].remaining - exec)];
    timeline := timeline + [Entry(jobs[curr].proc.id, start, Some(time))];
    assert State(time, jobs, ready, queue, completed, timeline) == RunSlice(admitted, quantum);
    RunSliceWf(admitted, quantum);
    ready, queue := AdmitLoop(jobs, ready, queue, time);
    if jobs[curr].remaining > 0 {
      queue := queue + [curr];
    } else {
      jobs := jobs[curr := Complete(jobs[curr], time)];
      completed := completed + [curr];
    }
  }

  /** `while (ready.length && ready[0].arrival <= time) queue.push(ready.shift())`. */
  method AdmitLoop(jobs: seq<Job>, ready0: seq<nat>, queue0: seq<nat>, time: nat) returns (ready: seq<nat>, queue: seq<nat>)
    requires Indices(jobs, ready0)
    ensures var k := Admitted(jobs, ready0, time); ready == ready0[k..] && queue == queue0 + ready0[..k]
  {
    ready, queue := ready0, queue0;
    ghost var n := 0;
    while ready != [] && jobs[ready[0]].proc.arrival <= time
      invariant n <= |ready0| && ready == ready0[n..]
      invariant queue == queue0 + ready0[..n]
      invariant Indices(jobs, ready)
      invariant Admitted(jobs, ready, time) + n == Admitted(jobs, ready0, time)
      decreases |ready|
    {
      AdmitNext(jobs, ready0, n, time);
      queue := queue + [ready[0]];
      ready := ready[1..];
      n := n + 1;
    }
    AdmittedStop(jobs, ready, time);
  }

  /** One pass of the admission loop, stated on positions of the original backlog. */
  lemma AdmitNext(jobs: seq<Job>, ready0: seq<nat>, n: nat, time: nat)
    requires n < |ready0| && Indices(jobs, ready0[n..]) && jobs[ready0[n]].proc.arrival <= time
    ensures Indices(jobs, ready0[n + 1..])
    ensures Admitted(jobs, ready0[n..], time) == 1 + Admitted(jobs, ready0[n + 1..], time)
    ensures ready0[..n + 1] == ready0[..n] + [ready0[n]] && ready0[n..][1..] == ready0[n + 1..]
  {
    assert ready0[n..][1..] == ready0[n + 1..];
    AdmittedShift(jobs, ready0[n..], time);
  }

  /** An arrived head counts once more than the rest of the backlog. */
  lemma AdmittedShift(jobs: seq<Job>, ready: seq<nat>, time: nat)
    requires Indices(jobs, ready) && ready != [] && jobs[ready[0]].proc.arrival <= time
    ensures Indices(jobs, ready[1..])
    ensures Admitted(jobs, ready, time) == 1 + Admitted(jobs, ready[1..], time)
  {
  }

  /** An empty backlog, or one whose head has not arrived, admits nothing. */
  lemma AdmittedStop(jobs: seq<Job>, ready: seq<nat>, time: nat)
    requires Indices(jobs, ready) && (ready == [] || jobs[ready[0]].proc.arrival > time)
    ensures Admitted(jobs, ready, time) == 0
  {
  }
}
