/**
 * Non-preemptive priority scheduling (`priorityNonPreemptive`, script.js):
 * every iteration either advances the clock by one unit, when nothing has
 * arrived, or runs the chosen process to completion in one go.
 *
 * The copies `{ ...p, completed: false }` live in `cands`; `completed` holds
 * indices into it, as the JavaScript array holds references to the copies.
 * The records are not sorted: candidates are considered in input order.
 */
module PriorityNonPreemptive {
  import opened Wrappers
  import opened Processes
  import opened Selection

  /** A copy of an input record with the fields the loop assigns. */
  datatype Cand = Cand(proc: Process, done: bool, start: Option<nat>, metrics: Option<Metrics>)

  /** The local variables of the loop. */
  datatype State = State(time: nat, cands: seq<Cand>, completed: seq<nat>, timeline: seq<Entry>)

  /** The copies `processes.map(p => ({ ...p, completed: false }))`. */
  function Fresh(ps: seq<Process>): (r: seq<Cand>)
    ensures |r| == |ps|
    ensures forall i :: 0 <= i < |ps| ==> r[i] == Cand(ps[i], false, None, None)
  {
    seq(|ps|, i requires 0 <= i < |ps| => Cand(ps[i], false, None, None))
  }

  /** The state before the loop. */
  function Init(ps: seq<Process>): State
  {
    State(0, Fresh(ps), [], [])
  }

  /** Whether candidate `c` may be chosen at `time`: it has arrived and is not completed. */
  predicate Ready(c: Cand, time: nat)
  {
    c.proc.arrival <= time && !c.done
  }

  /** The indices among the first `n` candidates that `filter` keeps, in input order. */
  function AvailableUpTo(cands: seq<Cand>, time: nat, n: nat): (r: seq<nat>)
    requires n <= |cands|
    ensures Ascending(r)
    ensures forall k :: 0 <= k < |r| ==> r[k] < n
    ensures forall i :: 0 <= i < n ==> (i in r <==> Ready(cands[i], time))
  {
    if n == 0 then []
    else
      var r := AvailableUpTo(cands, time, n - 1);
      if Ready(cands[n - 1], time) then r + [n - 1] else r
  }

  /** `ready.filter(p => p.arrival <= time && !p.completed)`. */
  function Available(s: State): (r: seq<nat>)
    ensures Ascending(r)
    ensures forall k :: 0 <= k < |r| ==> r[k] < |s.cands|
    ensures forall i :: 0 <= i < |s.cands| ==> (i in r <==> Ready(s.cands[i], s.time))
  {
    AvailableUpTo(s.cands, s.time, |s.cands|)
  }

  /** The priority of every candidate, by index. */
  function Priorities(cands: seq<Cand>): (r: seq<int>)
    ensures |r| == |cands|
    ensures forall i :: 0 <= i < |cands| ==> r[i] == cands[i].proc.priority
  {
    seq(|cands|, i requires 0 <= i < |cands| => cands[i].proc.priority)
  }

  /** The number of candidates marked completed. */
  function CountDone(cands: seq<Cand>): (r: nat)
    ensures r <= |cands|
  {
    if cands == [] then 0 else CountDone(cands[..|cands| - 1]) + (if cands[|cands| - 1].done then 1 else 0)
  }

  /** Marking one more candidate raises the count by one. */
  lemma {:induction false} CountDoneUpdate(cands: seq<Cand>, c: nat, x: Cand)
    requires c < |cands| && !cands[c].done && x.done
    ensures CountDone(cands[c := x]) == CountDone(cands) + 1
  {
    var n := |cands|;
    if c < n - 1 {
      assert cands[c := x][..n - 1] == cands[..n - 1][c := x];
      CountDoneUpdate(cands[..n - 1], c, x);
    } else {
      assert cands[c := x][..n - 1] == cands[..n - 1];
    }
  }

  /** While some candidate is not completed the count is below the number of candidates. */
  lemma {:induction false} CountDoneBelow(cands: seq<Cand>, i: nat)
    requires i < |cands| && !cands[i].done
    ensures CountDone(cands) < |cands|
  {
    var n := |cands|;
    if i < n - 1 {
      CountDoneBelow(cands[..n - 1], i);
    }
  }

  /** The latest arrival of any candidate. */
  function MaxArrival(cands: seq<Cand>): (r: nat)
    ensures forall i :: 0 <= i < |cands| ==> cands[i].proc.arrival <= r
  {
    if cands == [] then 0
    else
      var m := MaxArrival(cands[..|cands| - 1]);
      var a := cands[|cands| - 1].proc.arrival;
      if m < a then a else m
  }

  /** Every completed candidate has its fields assigned. */
  predicate Assigned(s: State)
  {
    forall k :: 0 <= k < |s.completed| ==> s.completed[k] < |s.cands| && s.cands[s.completed[k]].metrics.Some?
  }

  /** What the loop needs: `completed` addresses assigned candidates, one per completed mark. */
  predicate Wf(s: State)
  {
    Assigned(s) && |s.completed| == CountDone(s.cands)
  }

  /** The fields script.js:111-119 assign to the chosen candidate at `time`. */
  function Serve(c: Cand, time: nat): (r: Cand)
    ensures r.proc == c.proc && r.done
  {
    var completion := time + c.proc.burst;
    var turnaround := completion - c.proc.arrival;
    c.(done := true, start := Some(time), metrics := Some(Metrics(completion, turnaround, turnaround - c.proc.burst)))
  }

  /** The candidate `reduce` chooses among the available ones. */
  function Pick(s: State): (c: nat)
    requires Available(s) != []
    ensures c in Available(s) && c < |s.cands| && Ready(s.cands[c], s.time)
  {
    ReduceMin(Priorities(s.cands), Available(s))
  }

  /** One iteration of the loop of script.js:104-120. */
  function Step(s: State): State
    requires Wf(s)
  {
    if Available(s) == [] then s.(time := s.time + 1)
    else
      var c := Pick(s);
      var completion := s.time + s.cands[c].proc.burst;
      State(completion, s.cands[c := Serve(s.cands[c], s.time)], s.completed + [c],
            s.timeline + [Entry(s.cands[c].proc.id, s.time, Some(completion))])
  }

  /** How long the clock can still idle before the last arrival. */
  function Gap(s: State): nat
  {
    var m := MaxArrival(s.cands);
    if m > s.time then m - s.time else 0
  }

  /** Each iteration keeps the state well formed and lowers (candidates left, idle gap). */
  lemma StepWf(s: State)
    requires Wf(s) && |s.completed| < |s.cands|
    ensures Wf(Step(s))
    ensures |Step(s).cands| == |s.cands|
    ensures |Step(s).completed| > |s.completed|
      || (|Step(s).completed| == |s.completed| && Gap(Step(s)) < Gap(s))
  {
    if Available(s) == [] {
      var i :| 0 <= i < |s.cands| && !s.cands[i].done by {
        if forall i :: 0 <= i < |s.cands| ==> s.cands[i].done {
          CountDoneAllMarked(s.cands);
        }
      }
      assert !Ready(s.cands[i], s.time);
    } else {
      var c := Pick(s);
      CountDoneUpdate(s.cands, c, Serve(s.cands[c], s.time));
    }
  }

  /** When every candidate is marked the count is the number of candidates. */
  lemma {:induction false} CountDoneAllMarked(cands: seq<Cand>)
    requires forall i :: 0 <= i < |cands| ==> cands[i].done
    ensures CountDone(cands) == |cands|
  {
    if cands != [] {
      CountDoneAllMarked(cands[..|cands| - 1]);
    }
  }

  /** When no candidate is marked the count is zero. */
  lemma {:induction false} CountDoneNoneMarked(cands: seq<Cand>)
    requires forall i :: 0 <= i < |cands| ==> !cands[i].done
    ensures CountDone(cands) == 0
  {
    if cands != [] {
      CountDoneNoneMarked(cands[..|cands| - 1]);
    }
  }

  lemma InitWf(ps: seq<Process>)
    ensures Wf(Init(ps))
  {
    CountDoneNoneMarked(Init(ps).cands);
  }

  /** The loop run to its end: the specification of `priorityNonPreemptive`. */
  function Run(s: State): (r: State)
    requires Wf(s) && |s.completed| <= |s.cands|
    ensures Wf(r) && |r.completed| == |r.cands| == |s.cands|
    decreases |s.cands| - |s.completed|, Gap(s)
  {
    if |s.completed| >= |s.cands| then s
    else
      StepWf(s);
      Run(Step(s))
  }

  /** A returned record: the copy with its start and metrics. */
  function Record(c: Cand): (f: Finished)
    requires c.metrics.Some?
    ensures f.proc == c.proc && f.start == c.start
  {
    Finished(c.proc, c.start, c.metrics.value.completion, c.metrics.value.turnaround, c.metrics.value.waiting)
  }

  /** The returned `{ processes: completed, timeline }`. */
  function Output(s: State): Schedule
    requires Assigned(s)
  {
    Schedule(seq(|s.completed|, k requires 0 <= k < |s.completed| => Record(s.cands[s.completed[k]])), s.timeline)
  }

  /** The state in which the loop of `priorityNonPreemptive(processes)` ends. */
  function Final(ps: seq<Process>): (r: State)
    ensures Wf(r) && |r.completed| == |r.cands| == |ps|
  {
    InitWf(ps);
    Run(Init(ps))
  }

  /** `priorityNonPreemptive(processes)` as a value. */
  function PriorityNonPreemptiveSchedule(ps: seq<Process>): Schedule
  {
    Output(Final(ps))
  }

  /** A state with work left runs to the same end as its successor. */
  lemma RunUnfold(s: State)
    requires Wf(s) && |s.completed| < |s.cands|
    ensures Wf(Step(s)) && |Step(s).completed| <= |Step(s).cands| && Run(s) == Run(Step(s))
  {
    StepWf(s);
  }

  /** A state with every candidate completed is where the run ends. */
  lemma RunEnd(s: State)
    requires Wf(s) && |s.completed| == |s.cands|
    ensures Run(s) == s
  {
  }

  /** `priorityNonPreemptive(processes)` as the loop script.js:98-124 runs it. */
  method PriorityNonPreemptive(processes: seq<Process>) returns (result: Schedule)
    ensures result == PriorityNonPreemptiveSchedule(processes)
  {
    var time: nat, completed: seq<nat>, timeline: seq<Entry> := 0, [], [];
    var ready := Fresh(processes);
    InitWf(processes);
    assert State(time, ready, completed, timeline) == Init(processes);
    while |completed| < |processes|
      invariant |ready| == |processes| && Wf(State(time, ready, completed, timeline))
      invariant |completed| <= |ready|
      invariant Run(State(time, ready, completed, timeline)) == Final(processes)
      decreases |processes| - |completed|, Gap(State(time, ready, completed, timeline))
    {
      ghost var before := State(time, ready, completed, timeline);
      time, ready, completed, timeline := Tick(time, ready, completed, timeline);
      StepWf(before);
      RunUnfold(before);
    }
    RunEnd(State(time, ready, completed, timeline));
    result := Output(State(time, ready, completed, timeline));
  }

  /** One pass of the loop body, script.js:104-120: serve the chosen candidate, or let the clock idle. */
  method Tick(time0: nat, ready0: seq<Cand>, completed0: seq<nat>, timeline0: seq<Entry>)
    returns (time: nat, ready: seq<Cand>, completed: seq<nat>, timeline: seq<Entry>)
    requires Wf(State(time0, ready0, completed0, timeline0))
    ensures State(time, ready, completed, timeline) == Step(State(time0, ready0, completed0, timeline0))
  {
    time, ready, completed, timeline := time0, ready0, completed0, timeline0;
    var available := AvailableUpTo(ready, time, |ready|);
    if available == [] {
      time := time + 1;
    } else {
      var current := ReduceMin(Priorities(ready), available);
      var completion := time + ready[current].proc.burst;
      ready := ready[current := Serve(ready[current], time)];
      timeline := timeline + [Entry(ready[current].proc.id, time, Some(completion))];
      time := completion;
      completed := completed + [current];
    }
  }
}
