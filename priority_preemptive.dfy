/**
 * Preemptive priority scheduling (`priorityPreemptive`, script.js): every
 * iteration either advances the clock by one unit, when nothing is
 * available, or gives one unit to the chosen process. A Gantt entry is
 * opened whenever the chosen process differs from the owner of the last
 * entry, and closed only when its owner completes.
 *
 * The copies `{ ...p, remaining: p.burst }` live in `jobs`, in input order;
 * `completed` holds indices into it.
 */
module PriorityPreemptive {
  import opened Wrappers
  import opened Processes
  import opened Selection

  /** The local variables of the loop. */
  datatype State = State(time: nat, jobs: seq<Job>, completed: seq<nat>, timeline: seq<Entry>)

  /** The state before the loop. */
  function Init(ps: seq<Process>): State
  {
    State(0, Copies(ps), [], [])
  }

  /** Whether job `j` may be chosen at `time`: it has arrived and still has work. */
  predicate Ready(j: Job, time: nat)
  {
    j.proc.arrival <= time && j.remaining > 0
  }

  // AvailableUpTo, Priorities and MaxArrival have counterparts in
  // PriorityNonPreemptive. They are kept separate because the two loops keep
  // different records (`Job` with `remaining` here, `Cand` with `completed`
  // there) and filter on different tests (script.js:132 against script.js:103).

  /** The indices among the first `n` jobs that `filter` keeps, in input order. */
  function AvailableUpTo(jobs: seq<Job>, time: nat, n: nat): (r: seq<nat>)
    requires n <= |jobs|
    ensures Ascending(r)
    ensures forall k :: 0 <= k < |r| ==> r[k] < n
    ensures forall i :: 0 <= i < n ==> (i in r <==> Ready(jobs[i], time))
  {
    if n == 0 then []
    else
      var r := AvailableUpTo(jobs, time, n - 1);
      if Ready(jobs[n - 1], time) then r + [n - 1] else r
  }

  /** `processes.filter(p => p.arrival <= time && p.remaining > 0)`. */
  function Available(s: State): (r: seq<nat>)
    ensures Ascending(r)
    ensures forall k :: 0 <= k < |r| ==> r[k] < |s.jobs|
    ensures forall i :: 0 <= i < |s.jobs| ==> (i in r <==> Ready(s.jobs[i], s.time))
  {
    AvailableUpTo(s.jobs, s.time, |s.jobs|)
  }

  /** The priority of every job, by index. */
  function Priorities(jobs: seq<Job>): (r: seq<int>)
    ensures |r| == |jobs|
    ensures forall i :: 0 <= i < |jobs| ==> r[i] == jobs[i].proc.priority
  {
    seq(|jobs|, i requires 0 <= i < |jobs| => jobs[i].proc.priority)
  }

  /** The job `reduce` chooses among the available ones. */
  function Pick(s: State): (c: nat)
    requires Available(s) != []
    ensures c in Available(s) && c < |s.jobs| && Ready(s.jobs[c], s.time)
  {
    ReduceMin(Priorities(s.jobs), Available(s))
  }

  /** The timeline after script.js:143-148: a new open entry unless `id` owns the last one. */
  function Open(tl: seq<Entry>, id: nat, time: nat): (r: seq<Entry>)
    ensures r != [] && r[|r| - 1].id == id
  {
    if tl == [] || tl[|tl| - 1].id != id then tl + [Entry(id, time, None)] else tl
  }

  /** The timeline after `timeline[timeline.length - 1].end = time`. */
  function Close(tl: seq<Entry>, time: nat): (r: seq<Entry>)
    requires tl != []
    ensures |r| == |tl| && r[|r| - 1] == tl[|tl| - 1].(end := Some(time))
    ensures forall k :: 0 <= k < |tl| - 1 ==> r[k] == tl[k]
  {
    tl[|tl| - 1 := tl[|tl| - 1].(end := Some(time))]
  }

  /** The job after its last unit, completed at `time` with its metrics. */
  function Complete(j: Job, time: nat): Job
  {
    j.(remaining := 0, metrics := Some(Metrics(time, time - j.proc.arrival, time - j.proc.arrival - j.proc.burst)))
  }

  /** One iteration of the loop of script.js:131-158. */
  function Step(s: State): State
  {
    if Available(s) == [] then s.(time := s.time + 1)
    else
      var c := Pick(s);
      var j := s.jobs[c];
      var tl := Open(s.timeline, j.proc.id, s.time);
      var time := s.time + 1;
      if j.remaining == 1 then
        State(time, s.jobs[c := Complete(j, time)], s.completed + [c], Close(tl, time))
      else
        State(time, s.jobs[c := j.(remaining := j.remaining - 1)], s.completed, tl)
  }

  /** The latest arrival of any job. */
  function MaxArrival(jobs: seq<Job>): (r: nat)
    ensures forall i :: 0 <= i < |jobs| ==> jobs[i].proc.arrival <= r
  {
    if jobs == [] then 0
    else
      var m := MaxArrival(jobs[..|jobs| - 1]);
      var a := jobs[|jobs| - 1].proc.arrival;
      if m < a then a else m
  }

  /** How long the clock can still idle before the last arrival. */
  function Gap(s: State): nat
  {
    var m := MaxArrival(s.jobs);
    if m > s.time then m - s.time else 0
  }

  /** Every completed job has its metrics assigned. */
  predicate Assigned(s: State)
  {
    forall k :: 0 <= k < |s.completed| ==> s.completed[k] < |s.jobs| && s.jobs[s.completed[k]].metrics.Some?
  }

  /** What the loop needs: completed jobs are assigned, one per job without remaining work. */
  predicate Wf(s: State)
  {
    Assigned(s) && |s.completed| == CountFinished(s.jobs)
  }

  /** Each iteration keeps the state well formed and lowers (work left, idle gap). */
  lemma StepWf(s: State)
    requires Wf(s) && |s.completed| < |s.jobs|
    ensures Wf(Step(s))
    ensures |Step(s).jobs| == |s.jobs|
    ensures SumRemaining(Step(s).jobs) < SumRemaining(s.jobs)
      || (SumRemaining(Step(s).jobs) == SumRemaining(s.jobs) && Gap(Step(s)) < Gap(s))
  {
    if Available(s) == [] {
      IdleGap(s);
    } else {
      UnitWf(s);
    }
  }

  /** An idle iteration happens before the last arrival, so it shortens the gap. */
  lemma IdleGap(s: State)
    requires Wf(s) && |s.completed| < |s.jobs| && Available(s) == []
    ensures Step(s) == s.(time := s.time + 1) && Gap(Step(s)) < Gap(s)
  {
    var i :| 0 <= i < |s.jobs| && s.jobs[i].remaining > 0 by {
      if forall i :: 0 <= i < |s.jobs| ==> s.jobs[i].remaining == 0 {
        CountFinishedFull(s.jobs);
      }
    }
    assert !Ready(s.jobs[i], s.time);
  }

  /** A unit of work keeps the state well formed and lowers the work left by one. */
  lemma UnitWf(s: State)
    requires Wf(s) && Available(s) != []
    ensures Wf(Step(s)) && |Step(s).jobs| == |s.jobs|
    ensures SumRemaining(Step(s).jobs) == SumRemaining(s.jobs) - 1
  {
    if s.jobs[Pick(s)].remaining == 1 {
      LastUnitWf(s);
    } else {
      OtherUnitWf(s);
    }
  }

  /** The last unit of a job completes it and appends it to the completed list. */
  lemma LastUnitWf(s: State)
    requires Wf(s) && Available(s) != [] && s.jobs[Pick(s)].remaining == 1
    ensures Wf(Step(s)) && |Step(s).jobs| == |s.jobs|
    ensures SumRemaining(Step(s).jobs) == SumRemaining(s.jobs) - 1
  {
    var c := Pick(s);
    var j' := Complete(s.jobs[c], s.time + 1);
    var s' := Step(s);
    assert s'.jobs == s.jobs[c := j'] && s'.completed == s.completed + [c];
    CountFinishedUpdate(s.jobs, c, j');
    SumRemainingUpdate(s.jobs, c, j');
    forall k | 0 <= k < |s'.completed|
      ensures s'.completed[k] < |s'.jobs| && s'.jobs[s'.completed[k]].metrics.Some?
    {
      if k < |s.completed| && s.completed[k] != c {
        assert s'.completed[k] == s.completed[k];
      }
    }
  }

  /** A unit that leaves work keeps the completed list and every record. */
  lemma OtherUnitWf(s: State)
    requires Wf(s) && Available(s) != [] && s.jobs[Pick(s)].remaining != 1
    ensures Wf(Step(s)) && |Step(s).jobs| == |s.jobs|
    ensures SumRemaining(Step(s).jobs) == SumRemaining(s.jobs) - 1
  {
    var c := Pick(s);
    var j' := s.jobs[c].(remaining := s.jobs[c].remaining - 1);
    var s' := Step(s);
    assert s'.jobs == s.jobs[c := j'] && s'.completed == s.completed;
    CountFinishedKeep(s.jobs, c, j');
    SumRemainingUpdate(s.jobs, c, j');
    forall k | 0 <= k < |s'.completed|
      ensures s'.completed[k] < |s'.jobs| && s'.jobs[s'.completed[k]].metrics.Some?
    {
      assert s'.completed[k] == s.completed[k];
    }
  }

  lemma InitWf(ps: seq<Process>)
    requires Runnable(ps)
    ensures Wf(Init(ps))
  {
    CountFinishedNone(Init(ps).jobs);
  }

  /** The loop run to its end: the specification of `priorityPreemptive`. */
  function Run(s: State): (r: State)
    requires Wf(s)
    ensures Wf(r) && |r.completed| == |r.jobs| == |s.jobs|
    decreases SumRemaining(s.jobs), Gap(s)
  {
    if |s.completed| >= |s.jobs| then s
    else
      StepWf(s);
      Run(Step(s))
  }

  /** The returned `{ processes: completed, timeline }`. */
  function Output(s: State): Schedule
    requires Assigned(s)
  {
    Schedule(seq(|s.completed|, k requires 0 <= k < |s.completed| => FinishedOf(s.jobs[s.completed[k]])), s.timeline)
  }

  /** The state in which the loop of `priorityPreemptive(processes)` ends. */
  function Final(ps: seq<Process>): (r: State)
    requires Runnable(ps)
    ensures Wf(r) && |r.completed| == |r.jobs| == |ps|
  {
    InitWf(ps);
    Run(Init(ps))
  }

  /** `priorityPreemptive(processes)` as a value. */
  function PriorityPreemptiveSchedule(ps: seq<Process>): Schedule
    requires Runnable(ps)
  {
    Output(Final(ps))
  }

  /** A state with work left runs to the same end as its successor. */
  lemma RunUnfold(s: State)
    requires Wf(s) && |s.completed| < |s.jobs|
    ensures Wf(Step(s)) && |Step(s).completed| <= |Step(s).jobs| && Run(s) == Run(Step(s))
  {
    StepWf(s);
  }

  /** A state with every job completed is where the run ends. */
  lemma RunEnd(s: State)
    requires Wf(s) && |s.completed| >= |s.jobs|
    ensures Run(s) == s
  {
  }

  /** One iteration of the loop body, script.js:132-157. */
  method Tick(time0: nat, jobs0: seq<Job>, completed0: seq<nat>, timeline0: seq<Entry>)
    returns (time: nat, jobs: seq<Job>, completed: seq<nat>, timeline: seq<Entry>)
    ensures State(time, jobs, completed, timeline) == Step(State(time0, jobs0, completed0, timeline0))
  {
    time, jobs, completed, timeline := time0, jobs0, completed0, timeline0;
    var available := AvailableUpTo(jobs, time, |jobs|);
    if available == [] {
      time := time + 1;
    } else {
      var current := ReduceMin(Priorities(jobs), available);
      time, jobs, completed, timeline := RunUnit(time, jobs, completed, timeline, current);
    }
  }

  /** The chosen job `current` runs for one unit, script.js:143-157. */
  method RunUnit(time0: nat, jobs0: seq<Job>, completed0: seq<nat>, timeline0: seq<Entry>, current: nat)
    returns (time: nat, jobs: seq<Job>, completed: seq<nat>, timeline: seq<Entry>)
    requires Available(State(time0, jobs0, completed0, timeline0)) != []
    requires current == Pick(State(time0, jobs0, completed0, timeline0))
    ensures State(time, jobs, completed, timeline) == Step(State(time0, jobs0, completed0, timeline0))
  {
    time, jobs, completed, timeline := time0, jobs0, completed0, timeline0;
    var j := jobs[current];
    if timeline == [] || timeline[|timeline| - 1].id != jobs[current].proc.id {
      timeline := timeline + [Entry(jobs[current].proc.id, time, None)];
    }
    assert timeline == Open(timeline0, j.proc.id, time0);
    jobs := jobs[current := jobs[current].(remaining := jobs[current].remaining - 1)];
    time := time + 1;
    if jobs[current].remaining == 0 {
      var p := jobs[current].proc;
      jobs := jobs[current := jobs[current].(metrics := Some(Metrics(time, time - p.arrival, time - p.arrival - p.burst)))];
      completed := completed + [current];
      timeline := timeline[|timeline| - 1 := timeline[|timeline| - 1].(end := Some(time))];
      assert jobs == jobs0[current := Complete(j, time)];
    }
  }

  /** `priorityPreemptive(processes)` as the loop script.js:127-161 runs it. */
  method PriorityPreemptive(processes: seq<Process>) returns (result: Schedule)
    requires Runnable(processes)
    ensures result == PriorityPreemptiveSchedule(processes)
  {
    var time: nat, timeline: seq<Entry>, completed: seq<nat> := 0, [], [];
    var jobs := Copies(processes);
    InitWf(processes);
    assert State(time, jobs, completed, timeline) == Init(processes);
    while |completed| < |processes|
      invariant |jobs| == |processes| && Wf(State(time, jobs, completed, timeline))
      invariant Run(State(time, jobs, completed, timeline)) == Final(processes)
      decreases SumRemaining(jobs), Gap(State(time, jobs, completed, timeline))
    {
      ghost var before := State(time, jobs, completed, timeline);
      time, jobs, completed, timeline := Tick(time, jobs, completed, timeline);
      StepWf(before);
      RunUnfold(before);
    }
    RunEnd(State(time, jobs, completed, timeline));
    result := Output(State(time, jobs, completed, timeline));
  }
}
