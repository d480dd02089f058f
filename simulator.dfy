/**
 * The calculate handler of script.js: it checks the parsed input fields,
 * builds one record per process and hands the records to the selected
 * scheduler. Reading the form, parsing the text fields and drawing the
 * results are not part of this model; the parsed numbers are parameters.
 */
module Simulator {
  import opened Wrappers
  import opened Processes
  import RoundRobin
  import RoundRobinFacts
  import PriorityNonPreemptive
  import PriorityNonPreemptiveFacts
  import PriorityPreemptive
  import PriorityPreemptiveFacts

  /** The values of the algorithm selector. */
  datatype Algorithm = RR | PriorityNP | PriorityP

  /** The two alerts of the handler. */
  datatype InputError =
    | MissingTimes    // "Arrival and Burst times must be entered for all processes."
    | InvalidQuantum  // "Please enter a valid Time Quantum."

  /**
   * The records `{ id: P<i+1>, arrival, burst, priority }`: record `i` is
   * labelled `P<i+1>`, so no label occurs twice, and takes the `i`-th
   * priority, or 0 when fewer priorities were entered.
   */
  function MakeProcesses(at: seq<nat>, bt: seq<nat>, pt: seq<int>): (r: seq<Process>)
    requires |at| == |bt|
    ensures |r| == |at|
    ensures forall i :: 0 <= i < |r| ==> r[i].id == i + 1 && r[i].arrival == at[i] && r[i].burst == bt[i]
    ensures forall i :: 0 <= i < |r| && i < |pt| ==> r[i].priority == pt[i]
    ensures forall i :: |pt| <= i < |r| ==> r[i].priority == 0
    ensures DistinctIds(r)
  {
    seq(|at|, i requires 0 <= i < |at| => Process(i + 1, at[i], bt[i], if i < |pt| then pt[i] else 0))
  }

  /** What every scheduler promises of the records it returns. */
  predicate Sound(r: Schedule, ps: seq<Process>)
  {
    && EachOnce(r.processes, ps)
    && (forall j :: 0 <= j < |r.processes| ==> MetricsHold(r.processes[j]))
    && InCompletionOrder(r.processes)
  }

  /**
   * The handler after parsing: arrival times `at`, burst times `bt`,
   * priorities `pt` (possibly fewer) and the quantum (`None` when
   * `parseInt` gives NaN).
   */
  function Solve(alg: Algorithm, at: seq<nat>, bt: seq<nat>, pt: seq<int>, quantum: Option<int>): (r: Result<Schedule, InputError>)
    requires forall i :: 0 <= i < |bt| ==> bt[i] > 0
    ensures r == Failure(MissingTimes) <==> |at| != |bt| || |at| == 0
    ensures r == Failure(InvalidQuantum) <==>
      |at| == |bt| && |at| > 0 && alg == RR && (quantum.None? || quantum.value <= 0)
    ensures r.Success? ==> |at| == |bt| && Sound(r.value, MakeProcesses(at, bt, pt))
    ensures r.Success? && alg == RR ==>
      && quantum.Some? && quantum.value > 0
      && r.value == RoundRobin.RoundRobinSchedule(MakeProcesses(at, bt, pt), quantum.value)
    ensures r.Success? && alg == PriorityNP ==>
      r.value == PriorityNonPreemptive.PriorityNonPreemptiveSchedule(MakeProcesses(at, bt, pt))
    ensures r.Success? && alg == PriorityP ==>
      r.value == PriorityPreemptive.PriorityPreemptiveSchedule(MakeProcesses(at, bt, pt))
  {
    if |at| != |bt| || |at| == 0 then Failure(MissingTimes)
    else
      var ps := MakeProcesses(at, bt, pt);
      match alg
      case RR =>
        if quantum.None? || quantum.value <= 0 then Failure(InvalidQuantum)
        else
          RoundRobinFacts.RoundRobinEachOnce(ps, quantum.value);
          RoundRobinFacts.RoundRobinMetrics(ps, quantum.value);
          Success(RoundRobin.RoundRobinSchedule(ps, quantum.value))
      case PriorityNP =>
        PriorityNonPreemptiveFacts.NonPreemptiveEachOnce(ps);
        PriorityNonPreemptiveFacts.NonPreemptiveMetrics(ps);
        Success(PriorityNonPreemptive.PriorityNonPreemptiveSchedule(ps))
      case PriorityP =>
        PriorityPreemptiveFacts.PreemptiveEachOnce(ps);
        PriorityPreemptiveFacts.PreemptiveMetrics(ps);
        Success(PriorityPreemptive.PriorityPreemptiveSchedule(ps))
  }
}
