/**
 * The worked examples of the calculator, computed by the specifications one
 * loop iteration at a time.
 */
module RoundRobinScenarios {
  import opened Wrappers
  import opened Processes
  import opened ArrivalSort
  import RoundRobin

  // ---------------------------------------------------------------------
  // Round Robin: arrivals 0, 1, 2, bursts 5, 3, 1, quantum 2.
  // RrS<k> is the state at the head of the loop after k iterations, RrR<k>
  // the state right after the slice of iteration k.

  function RrInput(): seq<Process>
  {
    [Process(1, 0, 5, 0), Process(2, 1, 3, 0), Process(3, 2, 1, 0)]
  }

  function RrS0(): RoundRobin.State
  {
    RoundRobin.State(0, [Job(Process(1, 0, 5, 0), 5, None), Job(Process(2, 1, 3, 0), 3, None), Job(Process(3, 2, 1, 0), 1, None)], [0, 1, 2], [], [], [])
  }

  function RrS1(): RoundRobin.State
  {
    RoundRobin.State(2, [Job(Process(1, 0, 5, 0), 3, None), Job(Process(2, 1, 3, 0), 3, None), Job(Process(3, 2, 1, 0), 1, None)], [], [1, 2, 0], [], [Entry(1, 0, Some(2))])
  }

  function RrS2(): RoundRobin.State
  {
    RoundRobin.State(4, [Job(Process(1, 0, 5, 0), 3, None), Job(Process(2, 1, 3, 0), 1, None), Job(Process(3, 2, 1, 0), 1, None)], [], [2, 0, 1], [], [Entry(1, 0, Some(2)), Entry(2, 2, Some(4))])
  }

  function RrS3(): RoundRobin.State
  {
    RoundRobin.State(5, [Job(Process(1, 0, 5, 0), 3, None), Job(Process(2, 1, 3, 0), 1, None), Job(Process(3, 2, 1, 0), 0, Some(Metrics(5, 3, 2)))], [], [0, 1], [2], [Entry(1, 0, Some(2)), Entry(2, 2, Some(4)), Entry(3, 4, Some(5))])
  }

  function RrS4(): RoundRobin.State
  {
    RoundRobin.State(7, [Job(Process(1, 0, 5, 0), 1, None), Job(Process(2, 1, 3, 0), 1, None), Job(Process(3, 2, 1, 0), 0, Some(Metrics(5, 3, 2)))], [], [1, 0], [2], [Entry(1, 0, Some(2)), Entry(2, 2, Some(4)), Entry(3, 4, Some(5)), Entry(1, 5, Some(7))])
  }

  function RrS5(): RoundRobin.State
  {
    RoundRobin.State(8, [Job(Process(1, 0, 5, 0), 1, None), Job(Process(2, 1, 3, 0), 0, Some(Metrics(8, 7, 4))), Job(Process(3, 2, 1, 0), 0, Some(Metrics(5, 3, 2)))], [], [0], [2, 1], [Entry(1, 0, Some(2)), Entry(2, 2, Some(4)), Entry(3, 4, Some(5)), Entry(1, 5, Some(7)), Entry(2, 7, Some(8))])
  }

  function RrS6(): RoundRobin.State
  {
    RoundRobin.State(9, [Job(Process(1, 0, 5, 0), 0, Some(Metrics(9, 9, 4))), Job(Process(2, 1, 3, 0), 0, Some(Metrics(8, 7, 4))), Job(Process(3, 2, 1, 0), 0, Some(Metrics(5, 3, 2)))], [], [], [2, 1, 0], [Entry(1, 0, Some(2)), Entry(2, 2, Some(4)), Entry(3, 4, Some(5)), Entry(1, 5, Some(7)), Entry(2, 7, Some(8)), Entry(1, 8, Some(9))])
  }

  function RrA0(): RoundRobin.State
  {
    RoundRobin.State(0, [Job(Process(1, 0, 5, 0), 5, None), Job(Process(2, 1, 3, 0), 3, None), Job(Process(3, 2, 1, 0), 1, None)], [1, 2], [0], [], [])
  }

  function RrR0(): RoundRobin.State
  {
    RoundRobin.State(2, [Job(Process(1, 0, 5, 0), 3, None), Job(Process(2, 1, 3, 0), 3, None), Job(Process(3, 2, 1, 0), 1, None)], [1, 2], [], [], [Entry(1, 0, Some(2))])
  }

  function RrB0(): RoundRobin.State
  {
    RoundRobin.State(2, [Job(Process(1, 0, 5, 0), 3, None), Job(Process(2, 1, 3, 0), 3, None), Job(Process(3, 2, 1, 0), 1, None)], [], [1, 2], [], [Entry(1, 0, Some(2))])
  }

  function RrR1(): RoundRobin.State
  {
    RoundRobin.State(4, [Job(Process(1, 0, 5, 0), 3, None), Job(Process(2, 1, 3, 0), 1, None), Job(Process(3, 2, 1, 0), 1, None)], [], [2, 0], [], [Entry(1, 0, Some(2)), Entry(2, 2, Some(4))])
  }

  function RrR2(): RoundRobin.State
  {
    RoundRobin.State(5, [Job(Process(1, 0, 5, 0), 3, None), Job(Process(2, 1, 3, 0), 1, None), Job(Process(3, 2, 1, 0), 0, None)], [], [0, 1], [], [Entry(1, 0, Some(2)), Entry(2, 2, Some(4)), Entry(3, 4, Some(5))])
  }

  function RrR3(): RoundRobin.State
  {
    RoundRobin.State(7, [Job(Process(1, 0, 5, 0), 1, None), Job(Process(2, 1, 3, 0), 1, None), Job(Process(3, 2, 1, 0), 0, Some(Metrics(5, 3, 2)))], [], [1], [2], [Entry(1, 0, Some(2)), Entry(2, 2, Some(4)), Entry(3, 4, Some(5)), Entry(1, 5, Some(7))])
  }

  function RrR4(): RoundRobin.State
  {
    RoundRobin.State(8, [Job(Process(1, 0, 5, 0), 1, None), Job(Process(2, 1, 3, 0), 0, None), Job(Process(3, 2, 1, 0), 0, Some(Metrics(5, 3, 2)))], [], [0], [2], [Entry(1, 0, Some(2)), Entry(2, 2, Some(4)), Entry(3, 4, Some(5)), Entry(1, 5, Some(7)), Entry(2, 7, Some(8))])
  }

  function RrR5(): RoundRobin.State
  {
    RoundRobin.State(9, [Job(Process(1, 0, 5, 0), 0, None), Job(Process(2, 1, 3, 0), 0, Some(Metrics(8, 7, 4))), Job(Process(3, 2, 1, 0), 0, Some(Metrics(5, 3, 2)))], [], [], [2, 1], [Entry(1, 0, Some(2)), Entry(2, 2, Some(4)), Entry(3, 4, Some(5)), Entry(1, 5, Some(7)), Entry(2, 7, Some(8)), Entry(1, 8, Some(9))])
  }

  /** With an empty backlog admission changes nothing. */
  lemma AdmitNothing(s: RoundRobin.State)
    requires s.ready == []
    ensures RoundRobin.Admit(s) == s
  {
    assert RoundRobin.Admitted(s.jobs, s.ready, s.time) == 0;
  }

  lemma RrSorted()
    ensures SortByArrival(RrInput()) == RrInput()
  {
    var ps := RrInput();
    assert SortByArrival(ps[..0]) == [];
    assert SortByArrival(ps[..1]) == ps[..1];
    assert SortByArrival(ps[..2]) == ps[..2];
  }

  lemma RrInit()
    ensures RoundRobin.Init(RrInput()) == RrS0()
  {
    RrSorted();
    RrCopies();
    RrRange();
  }

  lemma RrCopies()
    ensures Copies(RrInput()) == RrS0().jobs
  {
    var c := Copies(RrInput());
    assert c[0] == RrS0().jobs[0] && c[1] == RrS0().jobs[1] && c[2] == RrS0().jobs[2];
  }

  lemma RrRange()
    ensures Range(0, 3) == [0, 1, 2]
  {
    var r := Range(0, 3);
    assert r[0] == 0 && r[1] == 1 && r[2] == 2;
  }

  lemma RrWf0()
    ensures RoundRobin.Wf(RrS0(), 2)
  {
    assert RrS0().ready == Range(0, 3);
  }

  lemma RrAdmitted0()
    ensures RoundRobin.Admitted(RrS0().jobs, [0, 1, 2], 0) == 1
  {
    assert RoundRobin.Admitted(RrS0().jobs, [2], 0) == 0;
    assert RoundRobin.Admitted(RrS0().jobs, [1, 2], 0) == 0;
  }

  lemma RrAdmit0()
    ensures RoundRobin.Indices(RrS0().jobs, RrS0().ready) && RoundRobin.Admit(RrS0()) == RrA0()
  {
    RrAdmitted0();
    var r := RrS0().ready;
    assert r[..1] == [0] && r[1..] == [1, 2];
  }

  lemma RrWfA0()
    ensures RoundRobin.Wf(RrA0(), 2)
  {
    assert RrA0().ready == Range(1, 3);
  }

  lemma RrSlice0()
    ensures RoundRobin.Wf(RrA0(), 2) && RoundRobin.RunSlice(RrA0(), 2) == RrR0()
  {
    RrWfA0();
  }

  lemma RrAdmitR0()
    ensures RoundRobin.Admit(RrR0()) == RrB0()
  {
    assert RoundRobin.Admitted(RrR0().jobs, RrR0().ready, 2) == 2;
  }

  lemma RrDispatch0()
    ensures RoundRobin.Wf(RrA0(), 2) && RoundRobin.Dispatch(RrA0(), 2) == RrS1()
  {
    RrSlice0();
    RrAdmitR0();
  }

  lemma RrStep0()
    ensures RoundRobin.Wf(RrS0(), 2) && RoundRobin.Step(RrS0(), 2) == RrS1()
  {
    RrWf0();
    RrAdmit0();
    RrDispatch0();
  }

  lemma RrWf1()
    ensures RoundRobin.Wf(RrS1(), 2)
  {
    assert RrS1().ready == Range(3, 3);
  }

  lemma RrSlice1()
    ensures RoundRobin.Wf(RrS1(), 2) && RoundRobin.RunSlice(RrS1(), 2) == RrR1()
  {
    RrWf1();
  }

  lemma RrDispatch1()
    ensures RoundRobin.Wf(RrS1(), 2) && RoundRobin.Dispatch(RrS1(), 2) == RrS2()
  {
    RrSlice1();
    AdmitNothing(RrR1());
  }

  lemma RrStep1()
    ensures RoundRobin.Wf(RrS1(), 2) && RoundRobin.Step(RrS1(), 2) == RrS2()
  {
    RrWf1();
    AdmitNothing(RrS1());
    RrDispatch1();
  }

  lemma RrWf2()
    ensures RoundRobin.Wf(RrS2(), 2)
  {
    assert RrS2().ready == Range(3, 3);
  }

  lemma RrSlice2()
    ensures RoundRobin.Wf(RrS2(), 2) && RoundRobin.RunSlice(RrS2(), 2) == RrR2()
  {
    RrWf2();
  }

  lemma RrDispatch2()
    ensures RoundRobin.Wf(RrS2(), 2) && RoundRobin.Dispatch(RrS2(), 2) == RrS3()
  {
    RrSlice2();
    AdmitNothing(RrR2());
    assert RoundRobin.Complete(RrR2().jobs[2], 5) == Job(Process(3, 2, 1, 0), 0, Some(Metrics(5, 3, 2)));
    assert RrR2().jobs[2 := Job(Process(3, 2, 1, 0), 0, Some(Metrics(5, 3, 2)))] == RrS3().jobs;
  }

  lemma RrStep2()
    ensures RoundRobin.Wf(RrS2(), 2) && RoundRobin.Step(RrS2(), 2) == RrS3()
  {
    RrWf2();
    AdmitNothing(RrS2());
    RrDispatch2();
  }

  lemma RrWf3()
    ensures RoundRobin.Wf(RrS3(), 2)
  {
    assert RrS3().ready == Range(3, 3);
  }

  lemma RrSlice3()
    ensures RoundRobin.Wf(RrS3(), 2) && RoundRobin.RunSlice(RrS3(), 2) == RrR3()
  {
    RrWf3();
  }

  lemma RrDispatch3()
    ensures RoundRobin.Wf(RrS3(), 2) && RoundRobin.Dispatch(RrS3(), 2) == RrS4()
  {
    RrSlice3();
    AdmitNothing(RrR3());
  }

  lemma RrStep3()
    ensures RoundRobin.Wf(RrS3(), 2) && RoundRobin.Step(RrS3(), 2) == RrS4()
  {
    RrWf3();
    AdmitNothing(RrS3());
    RrDispatch3();
  }

  lemma RrWf4()
    ensures RoundRobin.Wf(RrS4(), 2)
  {
    assert RrS4().ready == Range(3, 3);
  }

  lemma RrSlice4()
    ensures RoundRobin.Wf(RrS4(), 2) && RoundRobin.RunSlice(RrS4(), 2) == RrR4()
  {
    RrWf4();
  }

  lemma RrDispatch4()
    ensures RoundRobin.Wf(RrS4(), 2) && RoundRobin.Dispatch(RrS4(), 2) == RrS5()
  {
    RrSlice4();
    AdmitNothing(RrR4());
  }

  lemma RrStep4()
    ensures RoundRobin.Wf(RrS4(), 2) && RoundRobin.Step(RrS4(), 2) == RrS5()
  {
    RrWf4();
    AdmitNothing(RrS4());
    RrDispatch4();
  }

  lemma RrWf5()
    ensures RoundRobin.Wf(RrS5(), 2)
  {
    assert RrS5().ready == Range(3, 3);
  }

  lemma RrSlice5()
    ensures RoundRobin.Wf(RrS5(), 2) && RoundRobin.RunSlice(RrS5(), 2) == RrR5()
  {
    RrWf5();
  }

  /** A dispatch whose slice finishes the job and admits nobody retires the job. */
  lemma DispatchRetire(s: RoundRobin.State, quantum: nat, r: RoundRobin.State)
    requires RoundRobin.Wf(s, quantum) && s.queue != [] && RoundRobin.RunSlice(s, quantum) == r
    requires r.ready == [] && r.jobs[s.queue[0]].remaining == 0
    ensures RoundRobin.Dispatch(s, quantum)
      == r.(jobs := r.jobs[s.queue[0] := RoundRobin.Complete(r.jobs[s.queue[0]], r.time)], completed := r.completed + [s.queue[0]])
  {
    AdmitNothing(r);
  }

  lemma RrRetire5()
    ensures RrR5().(jobs := RrR5().jobs[0 := RoundRobin.Complete(RrR5().jobs[0], 9)], completed := RrR5().completed + [0]) == RrS6()
  {
    assert RoundRobin.Complete(RrR5().jobs[0], 9) == Job(Process(1, 0, 5, 0), 0, Some(Metrics(9, 9, 4)));
  }

  lemma RrDispatch5()
    ensures RoundRobin.Wf(RrS5(), 2) && RoundRobin.Dispatch(RrS5(), 2) == RrS6()
  {
    RrSlice5();
    DispatchRetire(RrS5(), 2, RrR5());
    RrRetire5();
  }

  lemma RrStep5()
    ensures RoundRobin.Wf(RrS5(), 2) && RoundRobin.Step(RrS5(), 2) == RrS6()
  {
    RrWf5();
    AdmitNothing(RrS5());
    RrDispatch5();
  }

  lemma RrWf6()
    ensures RoundRobin.Wf(RrS6(), 2)
  {
    assert RrS6().ready == Range(3, 3);
  }

  /** Running the loop from a state is running it from the state one iteration later. */
  lemma RunUnroll(s: RoundRobin.State, quantum: nat)
    requires RoundRobin.Wf(s, quantum) && (s.ready != [] || s.queue != [])
    ensures RoundRobin.Wf(RoundRobin.Step(s, quantum), quantum)
    ensures RoundRobin.Run(s, quantum) == RoundRobin.Run(RoundRobin.Step(s, quantum), quantum)
  {
    RoundRobin.StepWf(s, quantum);
  }

  lemma RrRun6()
    ensures RoundRobin.Wf(RrS6(), 2) && RoundRobin.Run(RrS6(), 2) == RrS6()
  {
    RrWf6();
  }

  lemma RrRun5()
    ensures RoundRobin.Wf(RrS5(), 2) && RoundRobin.Run(RrS5(), 2) == RrS6()
  {
    RrStep5();
    RunUnroll(RrS5(), 2);
    RrRun6();
  }

  lemma RrRun4()
    ensures RoundRobin.Wf(RrS4(), 2) && RoundRobin.Run(RrS4(), 2) == RrS6()
  {
    RrStep4();
    RunUnroll(RrS4(), 2);
    RrRun5();
  }

  lemma RrRun3()
    ensures RoundRobin.Wf(RrS3(), 2) && RoundRobin.Run(RrS3(), 2) == RrS6()
  {
    RrStep3();
    RunUnroll(RrS3(), 2);
    RrRun4();
  }

  lemma RrRun2()
    ensures RoundRobin.Wf(RrS2(), 2) && RoundRobin.Run(RrS2(), 2) == RrS6()
  {
    RrStep2();
    RunUnroll(RrS2(), 2);
    RrRun3();
  }

  lemma RrRun1()
    ensures RoundRobin.Wf(RrS1(), 2) && RoundRobin.Run(RrS1(), 2) == RrS6()
  {
    RrStep1();
    RunUnroll(RrS1(), 2);
    RrRun2();
  }

  lemma RrRun0()
    ensures RoundRobin.Wf(RrS0(), 2) && RoundRobin.Run(RrS0(), 2) == RrS6()
  {
    RrStep0();
    RunUnroll(RrS0(), 2);
    RrRun1();
  }

  lemma RrRunnable()
    ensures Runnable(RrInput())
  {
  }

  lemma RrFinal()
    ensures Runnable(RrInput()) && RoundRobin.Final(RrInput(), 2) == RrS6()
  {
    RrRunnable();
    RrInit();
    RrRun0();
    var s0 := RoundRobin.Init(RrInput());
    assert RoundRobin.Run(s0, 2) == RrS6();
  }

  /** The returned records: the completed jobs in completion order, and the timeline. */
  function RrExpected(): Schedule
  {
    var ps := RrInput();
    Schedule(
      [Finished(ps[2], None, 5, 3, 2), Finished(ps[1], None, 8, 7, 4), Finished(ps[0], None, 9, 9, 4)],
      [Entry(1, 0, Some(2)), Entry(2, 2, Some(4)), Entry(3, 4, Some(5)),
       Entry(1, 5, Some(7)), Entry(2, 7, Some(8)), Entry(1, 8, Some(9))])
  }

  lemma RrOutput()
    ensures RoundRobin.Output(RrS6()) == RrExpected()
  {
    var out := RoundRobin.Output(RrS6()).processes;
    assert out[0] == RrExpected().processes[0];
    assert out[1] == RrExpected().processes[1];
    assert out[2] == RrExpected().processes[2];
  }

  /**
   * Arrivals 0, 1, 2, bursts 5, 3, 1 and quantum 2: the Gantt chart is
   * P1 [0,2) P2 [2,4) P3 [4,5) P1 [5,7) P2 [7,8) P1 [8,9), and the processes
   * complete in the order P3 at 5, P2 at 8, P1 at 9.
   */
  lemma RoundRobinScenario()
    ensures Runnable(RrInput()) && RoundRobin.RoundRobinSchedule(RrInput(), 2) == RrExpected()
  {
    RrFinal();
    RrOutput();
  }

  // ---------------------------------------------------------------------
  // Round Robin with an idle start: one process arriving at 3 with burst 2,
  // quantum 2. RiS<k> is the state at the head of the loop after k iterations.

  function RiInput(): seq<Process>
  {
    [Process(1, 3, 2, 0)]
  }

  function RiS0(): RoundRobin.State
  {
    RoundRobin.State(0, [Job(Process(1, 3, 2, 0), 2, None)], [0], [], [], [])
  }

  function RiS1(): RoundRobin.State
  {
    RoundRobin.State(3, [Job(Process(1, 3, 2, 0), 2, None)], [0], [], [], [])
  }

  /** The state of iteration 1 after admission. */
  function RiA1(): RoundRobin.State
  {
    RoundRobin.State(3, [Job(Process(1, 3, 2, 0), 2, None)], [], [0], [], [])
  }

  /** The state of iteration 1 after its slice. */
  function RiR1(): RoundRobin.State
  {
    RoundRobin.State(5, [Job(Process(1, 3, 2, 0), 0, None)], [], [], [], [Entry(1, 3, Some(5))])
  }

  function RiS2(): RoundRobin.State
  {
    RoundRobin.State(5, [Job(Process(1, 3, 2, 0), 0, Some(Metrics(5, 2, 0)))], [], [], [0], [Entry(1, 3, Some(5))])
  }

  lemma RiInit()
    ensures RoundRobin.Init(RiInput()) == RiS0()
  {
    var ps := RiInput();
    assert SortByArrival(ps[..0]) == [];
    assert SortByArrival(ps) == ps;
    var r := Range(0, 1);
    assert r[0] == 0;
    var c := Copies(ps);
    assert c[0] == RiS0().jobs[0];
  }

  lemma RiWf0()
    ensures RoundRobin.Wf(RiS0(), 2)
  {
    assert RiS0().ready == Range(0, 1);
  }

  /** Nothing has arrived at 0, so the clock jumps to the arrival at 3. */
  lemma RiStep0()
    ensures RoundRobin.Wf(RiS0(), 2) && RoundRobin.Step(RiS0(), 2) == RiS1()
  {
    RiWf0();
    assert RoundRobin.Admitted(RiS0().jobs, [0], 0) == 0;
    var r := RiS0().ready;
    assert r[..0] == [] && r[0..] == r;
  }

  lemma RiWf1()
    ensures RoundRobin.Wf(RiS1(), 2)
  {
    assert RiS1().ready == Range(0, 1);
  }

  lemma RiAdmit1()
    ensures RoundRobin.Indices(RiS1().jobs, RiS1().ready) && RoundRobin.Admit(RiS1()) == RiA1()
  {
    assert RoundRobin.Admitted(RiS1().jobs, [], 3) == 0;
    assert RoundRobin.Admitted(RiS1().jobs, [0], 3) == 1;
    var r := RiS1().ready;
    assert r[..1] == [0] && r[1..] == [];
  }

  lemma RiWfA1()
    ensures RoundRobin.Wf(RiA1(), 2)
  {
    assert RiA1().ready == Range(1, 1);
  }

  lemma RiSlice1()
    ensures RoundRobin.Wf(RiA1(), 2) && RoundRobin.RunSlice(RiA1(), 2) == RiR1()
  {
    RiWfA1();
  }

  lemma RiDispatch1()
    ensures RoundRobin.Wf(RiA1(), 2) && RoundRobin.Dispatch(RiA1(), 2) == RiS2()
  {
    RiSlice1();
    DispatchRetire(RiA1(), 2, RiR1());
    RiRetire1();
  }

  lemma RiRetire1()
    ensures RiR1().(jobs := RiR1().jobs[0 := RoundRobin.Complete(RiR1().jobs[0], 5)], completed := RiR1().completed + [0]) == RiS2()
  {
    assert RoundRobin.Complete(RiR1().jobs[0], 5) == Job(Process(1, 3, 2, 0), 0, Some(Metrics(5, 2, 0)));
  }

  lemma RiStep1()
    ensures RoundRobin.Wf(RiS1(), 2) && RoundRobin.Step(RiS1(), 2) == RiS2()
  {
    RiWf1();
    RiAdmit1();
    RiDispatch1();
  }

  lemma RiRun2()
    ensures RoundRobin.Wf(RiS2(), 2) && RoundRobin.Run(RiS2(), 2) == RiS2()
  {
    assert RiS2().ready == Range(1, 1);
  }

  lemma RiRun1()
    ensures RoundRobin.Wf(RiS1(), 2) && RoundRobin.Run(RiS1(), 2) == RiS2()
  {
    RiStep1();
    RunUnroll(RiS1(), 2);
    RiRun2();
  }

  lemma RiRun0()
    ensures RoundRobin.Wf(RiS0(), 2) && RoundRobin.Run(RiS0(), 2) == RiS2()
  {
    RiStep0();
    RunUnroll(RiS0(), 2);
    RiRun1();
  }

  lemma RiRunnable()
    ensures Runnable(RiInput())
  {
  }

  lemma RiFinal()
    ensures Runnable(RiInput()) && RoundRobin.Final(RiInput(), 2) == RiS2()
  {
    RiRunnable();
    RiInit();
    RiRun0();
    var s0 := RoundRobin.Init(RiInput());
    assert RoundRobin.Run(s0, 2) == RiS2();
  }

  lemma RiOutput()
    ensures RoundRobin.Output(RiS2()) == Schedule([Finished(Process(1, 3, 2, 0), None, 5, 2, 0)], [Entry(1, 3, Some(5))])
  {
    var out := RoundRobin.Output(RiS2()).processes;
    assert |out| == 1;
    assert out[0] == FinishedOf(RiS2().jobs[0]);
  }

  /**
   * A process arriving at 3 with burst 2: the clock jumps from 0 to 3, the
   * process runs [3,5) and waits 0.
   */
  lemma RoundRobinIdleScenario()
    ensures Runnable(RiInput())
    ensures RoundRobin.RoundRobinSchedule(RiInput(), 2)
      == Schedule([Finished(Process(1, 3, 2, 0), None, 5, 2, 0)], [Entry(1, 3, Some(5))])
  {
    RiFinal();
    RiOutput();
  }
}
