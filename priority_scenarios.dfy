/**
 * The worked examples of the two priority schedulers, computed by their
 * specifications one loop iteration at a time.
 */
module PriorityScenarios {
  import opened Wrappers
  import opened Processes
  import opened Selection
  import NP = PriorityNonPreemptive
  import PP = PriorityPreemptive

  // ---------------------------------------------------------------------
  // Non-preemptive priority: arrivals 0, 0, 0, bursts 4, 2, 6, priorities
  // 2, 1, 3. NpS<k> is the state at the head of the loop after k iterations.

  function NpInput(): seq<Process>
  {
    [Process(1, 0, 4, 2), Process(2, 0, 2, 1), Process(3, 0, 6, 3)]
  }

  function NpS0(): NP.State
  {
    NP.State(0, [NP.Cand(Process(1, 0, 4, 2), false, None, None), NP.Cand(Process(2, 0, 2, 1), false, None, None), NP.Cand(Process(3, 0, 6, 3), false, None, None)], [], [])
  }

  function NpS1(): NP.State
  {
    NP.State(2, [NP.Cand(Process(1, 0, 4, 2), false, None, None), NP.Cand(Process(2, 0, 2, 1), true, Some(0), Some(Metrics(2, 2, 0))), NP.Cand(Process(3, 0, 6, 3), false, None, None)], [1], [Entry(2, 0, Some(2))])
  }

  function NpS2(): NP.State
  {
    NP.State(6, [NP.Cand(Process(1, 0, 4, 2), true, Some(2), Some(Metrics(6, 6, 2))), NP.Cand(Process(2, 0, 2, 1), true, Some(0), Some(Metrics(2, 2, 0))), NP.Cand(Process(3, 0, 6, 3), false, None, None)], [1, 0], [Entry(2, 0, Some(2)), Entry(1, 2, Some(6))])
  }

  function NpS3(): NP.State
  {
    NP.State(12, [NP.Cand(Process(1, 0, 4, 2), true, Some(2), Some(Metrics(6, 6, 2))), NP.Cand(Process(2, 0, 2, 1), true, Some(0), Some(Metrics(2, 2, 0))), NP.Cand(Process(3, 0, 6, 3), true, Some(6), Some(Metrics(12, 12, 6)))], [1, 0, 2], [Entry(2, 0, Some(2)), Entry(1, 2, Some(6)), Entry(3, 6, Some(12))])
  }

  lemma NpInit()
    ensures NP.Init(NpInput()) == NpS0()
  {
  }

  lemma NpWf0()
    ensures NP.Wf(NpS0())
  {
  }

  lemma NpStep0()
    ensures NP.Wf(NpS0()) && NP.Step(NpS0()) == NpS1()
  {
    NpWf0();
    NpAvail0();
    NpPick0();
  }

  lemma NpAvail0()
    ensures NP.Available(NpS0()) == [0, 1, 2]
  {
    NpUpTo03();
  }

  lemma NpUpTo01()
    ensures NP.AvailableUpTo(NpS0().cands, NpS0().time, 1) == [0]
  {
    UpToNext(NpS0().cands, NpS0().time, 0);
  }

  lemma NpUpTo02()
    ensures NP.AvailableUpTo(NpS0().cands, NpS0().time, 2) == [0, 1]
  {
    NpUpTo01();
    UpToNext(NpS0().cands, NpS0().time, 1);
  }

  lemma NpUpTo03()
    ensures NP.AvailableUpTo(NpS0().cands, NpS0().time, 3) == [0, 1, 2]
  {
    NpUpTo02();
    UpToNext(NpS0().cands, NpS0().time, 2);
  }

  lemma NpPick0()
    ensures NP.Available(NpS0()) == [0, 1, 2] && NP.Pick(NpS0()) == 1
  {
    NpAvail0();
    NpPriorities();
    NpReduce0();
  }

  lemma NpPriorities()
    ensures NP.Priorities(NpS0().cands) == [2, 1, 3]
  {
  }

  lemma NpReduce0()
    ensures ReduceMin([2, 1, 3], [0, 1, 2]) == 1
  {
    assert ReduceMin([2, 1, 3], [0, 1]) == 1;
  }

  lemma NpWf1()
    ensures NP.Wf(NpS1())
  {
  }

  lemma NpStep1()
    ensures NP.Wf(NpS1()) && NP.Step(NpS1()) == NpS2()
  {
    NpWf1();
    NpAvail1();
    NpPick1();
  }

  lemma NpAvail1()
    ensures NP.Available(NpS1()) == [0, 2]
  {
    NpUpTo13();
  }

  lemma NpUpTo11()
    ensures NP.AvailableUpTo(NpS1().cands, NpS1().time, 1) == [0]
  {
    UpToNext(NpS1().cands, NpS1().time, 0);
  }

  lemma NpUpTo12()
    ensures NP.AvailableUpTo(NpS1().cands, NpS1().time, 2) == [0]
  {
    NpUpTo11();
    UpToNext(NpS1().cands, NpS1().time, 1);
  }

  lemma NpUpTo13()
    ensures NP.AvailableUpTo(NpS1().cands, NpS1().time, 3) == [0, 2]
  {
    NpUpTo12();
    UpToNext(NpS1().cands, NpS1().time, 2);
  }

  lemma NpPick1()
    ensures NP.Available(NpS1()) == [0, 2] && NP.Pick(NpS1()) == 0
  {
    NpAvail1();
    assert NP.Priorities(NpS1().cands) == [2, 1, 3];
  }

  lemma NpWf2()
    ensures NP.Wf(NpS2())
  {
  }

  lemma NpStep2()
    ensures NP.Wf(NpS2()) && NP.Step(NpS2()) == NpS3()
  {
    NpWf2();
    NpAvail2();
    NpPick2();
  }

  lemma NpAvail2()
    ensures NP.Available(NpS2()) == [2]
  {
    NpUpTo23();
  }

  lemma NpUpTo21()
    ensures NP.AvailableUpTo(NpS2().cands, NpS2().time, 1) == []
  {
    UpToNext(NpS2().cands, NpS2().time, 0);
  }

  lemma NpUpTo22()
    ensures NP.AvailableUpTo(NpS2().cands, NpS2().time, 2) == []
  {
    NpUpTo21();
    UpToNext(NpS2().cands, NpS2().time, 1);
  }

  lemma NpUpTo23()
    ensures NP.AvailableUpTo(NpS2().cands, NpS2().time, 3) == [2]
  {
    NpUpTo22();
    UpToNext(NpS2().cands, NpS2().time, 2);
  }

  lemma NpPick2()
    ensures NP.Available(NpS2()) == [2] && NP.Pick(NpS2()) == 2
  {
    NpAvail2();
    assert NP.Priorities(NpS2().cands) == [2, 1, 3];
  }

  lemma NpWf3()
    ensures NP.Wf(NpS3()) && |NpS3().completed| == |NpS3().cands|
  {
  }

  /** The filter over one more candidate keeps it exactly when it is ready. */
  lemma UpToNext(cands: seq<NP.Cand>, time: nat, n: nat)
    requires n < |cands|
    ensures NP.AvailableUpTo(cands, time, n + 1)
      == NP.AvailableUpTo(cands, time, n) + (if NP.Ready(cands[n], time) then [n] else [])
  {
  }

  /** One loop iteration, when there is still a candidate to complete. */
  lemma NpUnroll(s: NP.State)
    requires NP.Wf(s) && |s.completed| < |s.cands|
    ensures NP.Wf(NP.Step(s)) && |NP.Step(s).completed| <= |NP.Step(s).cands|
    ensures NP.Run(s) == NP.Run(NP.Step(s))
  {
    NP.StepWf(s);
  }

  lemma NpRun()
    ensures NP.Final(NpInput()) == NpS3()
  {
    NpInit();
    NpStep0();
    NpUnroll(NpS0());
    NpStep1();
    NpUnroll(NpS1());
    NpStep2();
    NpUnroll(NpS2());
    NpWf3();
  }

  /** The returned records, in completion order, and the timeline. */
  function NpExpected(): Schedule
  {
    var ps := NpInput();
    Schedule(
      [Finished(ps[1], Some(0), 2, 2, 0), Finished(ps[0], Some(2), 6, 6, 2), Finished(ps[2], Some(6), 12, 12, 6)],
      [Entry(2, 0, Some(2)), Entry(1, 2, Some(6)), Entry(3, 6, Some(12))])
  }

  lemma NpOutput()
    ensures NP.Output(NpS3()) == NpExpected()
  {
    var out := NP.Output(NpS3()).processes;
    assert out[0] == NpExpected().processes[0];
    assert out[1] == NpExpected().processes[1];
    assert out[2] == NpExpected().processes[2];
  }

  /**
   * Three processes arriving together with priorities 2, 1, 3: P2 runs
   * [0,2), P1 [2,6) and P3 [6,12), and they complete at 2, 6 and 12.
   */
  lemma NonPreemptiveScenario()
    ensures NP.PriorityNonPreemptiveSchedule(NpInput()) == NpExpected()
  {
    NpRun();
    NpOutput();
  }

  // ---------------------------------------------------------------------
  // Non-preemptive priority with an idle start: a single process arriving
  // at 3 with burst 2. NiS<t> is the state at time t before it arrives.

  function NiInput(): seq<Process>
  {
    [Process(1, 3, 2, 0)]
  }

  function NiS(t: nat): NP.State
  {
    NP.State(t, [NP.Cand(Process(1, 3, 2, 0), false, None, None)], [], [])
  }

  function NiDone(): NP.State
  {
    NP.State(5, [NP.Cand(Process(1, 3, 2, 0), true, Some(3), Some(Metrics(5, 2, 0)))], [0], [Entry(1, 3, Some(5))])
  }

  /** Before the arrival nothing is available and the clock advances by one. */
  lemma NiIdle(t: nat)
    requires t < 3
    ensures NP.Wf(NiS(t)) && NP.Step(NiS(t)) == NiS(t + 1)
  {
    assert NP.Available(NiS(t)) == [];
  }

  lemma NiServe()
    ensures NP.Wf(NiS(3)) && NP.Step(NiS(3)) == NiDone()
  {
    NiPick();
  }

  lemma NiAvail()
    ensures NP.Available(NiS(3)) == [0]
  {
    assert NP.Ready(NiS(3).cands[0], 3);
    assert NP.AvailableUpTo(NiS(3).cands, 3, 1) == NP.AvailableUpTo(NiS(3).cands, 3, 0) + [0];
  }

  lemma NiPick()
    ensures NP.Available(NiS(3)) == [0] && NP.Pick(NiS(3)) == 0
  {
    NiAvail();
  }

  /** The runs from the idle states before the arrival. */
  lemma NiRun2()
    ensures NP.Wf(NiS(2)) && NP.Run(NiS(2)) == NiDone()
  {
    NiIdle(2);
    NpUnroll(NiS(2));
    NiRunServe();
  }

  lemma NiRun1()
    ensures NP.Wf(NiS(1)) && NP.Run(NiS(1)) == NiDone()
  {
    NiIdle(1);
    NpUnroll(NiS(1));
    NiRun2();
  }

  lemma NiRun0()
    ensures NP.Wf(NiS(0)) && NP.Run(NiS(0)) == NiDone()
  {
    NiIdle(0);
    NpUnroll(NiS(0));
    NiRun1();
  }

  lemma NiRunServe()
    ensures NP.Wf(NiS(3)) && NP.Run(NiS(3)) == NiDone()
  {
    NiServe();
    NpUnroll(NiS(3));
    NiFinished();
  }

  lemma NiFinished()
    ensures NP.Wf(NiDone()) && |NiDone().completed| == |NiDone().cands| && NP.Run(NiDone()) == NiDone()
  {
  }

  lemma NiRun()
    ensures NP.Final(NiInput()) == NiDone()
  {
    assert NP.Init(NiInput()) == NiS(0);
    NiRun0();
  }

  /** A process arriving at 3 with burst 2 runs [3,5) after three idle units, and waits 0. */
  lemma NonPreemptiveIdleScenario()
    ensures NP.PriorityNonPreemptiveSchedule(NiInput())
      == Schedule([Finished(Process(1, 3, 2, 0), Some(3), 5, 2, 0)], [Entry(1, 3, Some(5))])
  {
    NiRun();
    NiOutput();
  }

  lemma NiOutput()
    ensures NP.Output(NiDone())
      == Schedule([Finished(Process(1, 3, 2, 0), Some(3), 5, 2, 0)], [Entry(1, 3, Some(5))])
  {
    var out := NP.Output(NiDone()).processes;
    assert |out| == 1;
    assert out[0] == NP.Record(NiDone().cands[0]);
  }
  // ---------------------------------------------------------------------
  // Preemptive priority: arrivals 0, 1, bursts 5, 3, priorities 2, 1.
  // PcS<k> is the state at the head of the loop after k iterations.

  function PcInput(): seq<Process>
  {
    [Process(1, 0, 5, 2), Process(2, 1, 3, 1)]
  }

  /** One loop iteration, when there is still work to do. */
  lemma PpUnroll(s: PP.State)
    requires PP.Wf(s) && |s.completed| < |s.jobs|
    ensures PP.Wf(PP.Step(s))
    ensures PP.Run(s) == PP.Run(PP.Step(s))
  {
    PP.StepWf(s);
  }

  function PcS0(): PP.State
  {
    PP.State(0, [Job(Process(1, 0, 5, 2), 5, None), Job(Process(2, 1, 3, 1), 3, None)], [], [])
  }

  function PcS1(): PP.State
  {
    PP.State(1, [Job(Process(1, 0, 5, 2), 4, None), Job(Process(2, 1, 3, 1), 3, None)], [], [Entry(1, 0, None)])
  }

  function PcS2(): PP.State
  {
    PP.State(2, [Job(Process(1, 0, 5, 2), 4, None), Job(Process(2, 1, 3, 1), 2, None)], [], [Entry(1, 0, None), Entry(2, 1, None)])
  }

  function PcS3(): PP.State
  {
    PP.State(3, [Job(Process(1, 0, 5, 2), 4, None), Job(Process(2, 1, 3, 1), 1, None)], [], [Entry(1, 0, None), Entry(2, 1, None)])
  }

  function PcS4(): PP.State
  {
    PP.State(4, [Job(Process(1, 0, 5, 2), 4, None), Job(Process(2, 1, 3, 1), 0, Some(Metrics(4, 3, 0)))], [1], [Entry(1, 0, None), Entry(2, 1, Some(4))])
  }

  function PcS5(): PP.State
  {
    PP.State(5, [Job(Process(1, 0, 5, 2), 3, None), Job(Process(2, 1, 3, 1), 0, Some(Metrics(4, 3, 0)))], [1], [Entry(1, 0, None), Entry(2, 1, Some(4)), Entry(1, 4, None)])
  }

  function PcS6(): PP.State
  {
    PP.State(6, [Job(Process(1, 0, 5, 2), 2, None), Job(Process(2, 1, 3, 1), 0, Some(Metrics(4, 3, 0)))], [1], [Entry(1, 0, None), Entry(2, 1, Some(4)), Entry(1, 4, None)])
  }

  function PcS7(): PP.State
  {
    PP.State(7, [Job(Process(1, 0, 5, 2), 1, None), Job(Process(2, 1, 3, 1), 0, Some(Metrics(4, 3, 0)))], [1], [Entry(1, 0, None), Entry(2, 1, Some(4)), Entry(1, 4, None)])
  }

  function PcS8(): PP.State
  {
    PP.State(8, [Job(Process(1, 0, 5, 2), 0, Some(Metrics(8, 8, 3))), Job(Process(2, 1, 3, 1), 0, Some(Metrics(4, 3, 0)))], [1, 0], [Entry(1, 0, None), Entry(2, 1, Some(4)), Entry(1, 4, Some(8))])
  }

  lemma PcWf0()
    ensures PP.Wf(PcS0())
  {
  }

  lemma PcStep0()
    ensures PP.Wf(PcS0()) && PP.Step(PcS0()) == PcS1()
  {
    PcWf0();
    assert PP.Available(PcS0()) == [0];
    assert PP.Pick(PcS0()) == 0;
  }

  lemma PcWf1()
    ensures PP.Wf(PcS1())
  {
  }

  lemma PcStep1()
    ensures PP.Wf(PcS1()) && PP.Step(PcS1()) == PcS2()
  {
    PcWf1();
    assert PP.Available(PcS1()) == [0, 1];
    assert PP.Pick(PcS1()) == 1;
  }

  lemma PcWf2()
    ensures PP.Wf(PcS2())
  {
  }

  lemma PcStep2()
    ensures PP.Wf(PcS2()) && PP.Step(PcS2()) == PcS3()
  {
    PcWf2();
    assert PP.Available(PcS2()) == [0, 1];
    assert PP.Pick(PcS2()) == 1;
  }

  lemma PcWf3()
    ensures PP.Wf(PcS3())
  {
  }

  lemma PcStep3()
    ensures PP.Wf(PcS3()) && PP.Step(PcS3()) == PcS4()
  {
    PcWf3();
    assert PP.Available(PcS3()) == [0, 1];
    assert PP.Pick(PcS3()) == 1;
  }

  lemma PcWf4()
    ensures PP.Wf(PcS4())
  {
  }

  lemma PcStep4()
    ensures PP.Wf(PcS4()) && PP.Step(PcS4()) == PcS5()
  {
    PcWf4();
    assert PP.Available(PcS4()) == [0];
    assert PP.Pick(PcS4()) == 0;
  }

  lemma PcWf5()
    ensures PP.Wf(PcS5())
  {
  }

  lemma PcStep5()
    ensures PP.Wf(PcS5()) && PP.Step(PcS5()) == PcS6()
  {
    PcWf5();
    assert PP.Available(PcS5()) == [0];
    assert PP.Pick(PcS5()) == 0;
  }

  lemma PcWf6()
    ensures PP.Wf(PcS6())
  {
  }

  lemma PcStep6()
    ensures PP.Wf(PcS6()) && PP.Step(PcS6()) == PcS7()
  {
    PcWf6();
    assert PP.Available(PcS6()) == [0];
    assert PP.Pick(PcS6()) == 0;
  }

  lemma PcWf7()
    ensures PP.Wf(PcS7())
  {
  }

  lemma PcStep7()
    ensures PP.Wf(PcS7()) && PP.Step(PcS7()) == PcS8()
  {
    PcWf7();
    assert PP.Available(PcS7()) == [0];
    assert PP.Pick(PcS7()) == 0;
  }

  lemma PcWf8()
    ensures PP.Wf(PcS8()) && |PcS8().completed| == |PcS8().jobs|
  {
  }

  lemma PcRun8()
    ensures PP.Wf(PcS8()) && PP.Run(PcS8()) == PcS8()
  {
    PcWf8();
  }

  lemma PcRun7()
    ensures PP.Wf(PcS7()) && PP.Run(PcS7()) == PcS8()
  {
    PcStep7();
    PpUnroll(PcS7());
    PcRun8();
  }

  lemma PcRun6()
    ensures PP.Wf(PcS6()) && PP.Run(PcS6()) == PcS8()
  {
    PcStep6();
    PpUnroll(PcS6());
    PcRun7();
  }

  lemma PcRun5()
    ensures PP.Wf(PcS5()) && PP.Run(PcS5()) == PcS8()
  {
    PcStep5();
    PpUnroll(PcS5());
    PcRun6();
  }

  lemma PcRun4()
    ensures PP.Wf(PcS4()) && PP.Run(PcS4()) == PcS8()
  {
    PcStep4();
    PpUnroll(PcS4());
    PcRun5();
  }

  lemma PcRun3()
    ensures PP.Wf(PcS3()) && PP.Run(PcS3()) == PcS8()
  {
    PcStep3();
    PpUnroll(PcS3());
    PcRun4();
  }

  lemma PcRun2()
    ensures PP.Wf(PcS2()) && PP.Run(PcS2()) == PcS8()
  {
    PcStep2();
    PpUnroll(PcS2());
    PcRun3();
  }

  lemma PcRun1()
    ensures PP.Wf(PcS1()) && PP.Run(PcS1()) == PcS8()
  {
    PcStep1();
    PpUnroll(PcS1());
    PcRun2();
  }

  lemma PcRun0()
    ensures PP.Wf(PcS0()) && PP.Run(PcS0()) == PcS8()
  {
    PcStep0();
    PpUnroll(PcS0());
    PcRun1();
  }

  lemma PcRun()
    ensures Runnable(PcInput()) && PP.Final(PcInput()) == PcS8()
  {
    assert Runnable(PcInput());
    assert PP.Init(PcInput()) == PcS0();
    PcRun0();
  }


  /** The returned records, in completion order, and the timeline. */
  function PcExpected(): Schedule
  {
    var ps := PcInput();
    Schedule(
      [Finished(ps[1], None, 4, 3, 0), Finished(ps[0], None, 8, 8, 3)],
      [Entry(1, 0, None), Entry(2, 1, Some(4)), Entry(1, 4, Some(8))])
  }

  lemma PcOutput()
    ensures PP.Output(PcS8()) == PcExpected()
  {
    var out := PP.Output(PcS8()).processes;
    assert out[0] == PcExpected().processes[0];
    assert out[1] == PcExpected().processes[1];
  }

  /**
   * P1 (arrival 0, burst 5, priority 2) is preempted at 1 by P2 (arrival 1,
   * burst 3, priority 1): the timeline is P1 from 0 with no end, P2 [1,4)
   * and P1 [4,8), and P2 completes at 4, P1 at 8.
   */
  lemma PreemptiveScenario()
    ensures Runnable(PcInput()) && PP.PriorityPreemptiveSchedule(PcInput()) == PcExpected()
  {
    PcRun();
    PcOutput();
  }

  // ---------------------------------------------------------------------
  // Preemptive priority with an idle start: a single process arriving at 3
  // with burst 2.

  function PiInput(): seq<Process>
  {
    [Process(1, 3, 2, 0)]
  }

  function PiS0(): PP.State
  {
    PP.State(0, [Job(Process(1, 3, 2, 0), 2, None)], [], [])
  }

  function PiS1(): PP.State
  {
    PP.State(1, [Job(Process(1, 3, 2, 0), 2, None)], [], [])
  }

  function PiS2(): PP.State
  {
    PP.State(2, [Job(Process(1, 3, 2, 0), 2, None)], [], [])
  }

  function PiS3(): PP.State
  {
    PP.State(3, [Job(Process(1, 3, 2, 0), 2, None)], [], [])
  }

  function PiS4(): PP.State
  {
    PP.State(4, [Job(Process(1, 3, 2, 0), 1, None)], [], [Entry(1, 3, None)])
  }

  function PiS5(): PP.State
  {
    PP.State(5, [Job(Process(1, 3, 2, 0), 0, Some(Metrics(5, 2, 0)))], [0], [Entry(1, 3, Some(5))])
  }

  lemma PiWf0()
    ensures PP.Wf(PiS0())
  {
  }

  lemma PiStep0()
    ensures PP.Wf(PiS0()) && PP.Step(PiS0()) == PiS1()
  {
    PiWf0();
    assert PP.Available(PiS0()) == [];
  }

  lemma PiWf1()
    ensures PP.Wf(PiS1())
  {
  }

  lemma PiStep1()
    ensures PP.Wf(PiS1()) && PP.Step(PiS1()) == PiS2()
  {
    PiWf1();
    assert PP.Available(PiS1()) == [];
  }

  lemma PiWf2()
    ensures PP.Wf(PiS2())
  {
  }

  lemma PiStep2()
    ensures PP.Wf(PiS2()) && PP.Step(PiS2()) == PiS3()
  {
    PiWf2();
    assert PP.Available(PiS2()) == [];
  }

  lemma PiWf3()
    ensures PP.Wf(PiS3())
  {
  }

  lemma PiStep3()
    ensures PP.Wf(PiS3()) && PP.Step(PiS3()) == PiS4()
  {
    PiWf3();
    assert PP.Available(PiS3()) == [0];
    assert PP.Pick(PiS3()) == 0;
  }

  lemma PiWf4()
    ensures PP.Wf(PiS4())
  {
  }

  lemma PiStep4()
    ensures PP.Wf(PiS4()) && PP.Step(PiS4()) == PiS5()
  {
    PiWf4();
    assert PP.Available(PiS4()) == [0];
    assert PP.Pick(PiS4()) == 0;
  }

  lemma PiWf5()
    ensures PP.Wf(PiS5()) && |PiS5().completed| == |PiS5().jobs|
  {
  }

  lemma PiRun5()
    ensures PP.Wf(PiS5()) && PP.Run(PiS5()) == PiS5()
  {
    PiWf5();
  }

  lemma PiRun4()
    ensures PP.Wf(PiS4()) && PP.Run(PiS4()) == PiS5()
  {
    PiStep4();
    PpUnroll(PiS4());
    PiRun5();
  }

  lemma PiRun3()
    ensures PP.Wf(PiS3()) && PP.Run(PiS3()) == PiS5()
  {
    PiStep3();
    PpUnroll(PiS3());
    PiRun4();
  }

  lemma PiRun2()
    ensures PP.Wf(PiS2()) && PP.Run(PiS2()) == PiS5()
  {
    PiStep2();
    PpUnroll(PiS2());
    PiRun3();
  }

  lemma PiRun1()
    ensures PP.Wf(PiS1()) && PP.Run(PiS1()) == PiS5()
  {
    PiStep1();
    PpUnroll(PiS1());
    PiRun2();
  }

  lemma PiRun0()
    ensures PP.Wf(PiS0()) && PP.Run(PiS0()) == PiS5()
  {
    PiStep0();
    PpUnroll(PiS0());
    PiRun1();
  }

  lemma PiRun()
    ensures Runnable(PiInput()) && PP.Final(PiInput()) == PiS5()
  {
    assert Runnable(PiInput());
    assert PP.Init(PiInput()) == PiS0();
    PiRun0();
  }


  lemma PiOutput()
    ensures PP.Output(PiS5()) == Schedule([Finished(Process(1, 3, 2, 0), None, 5, 2, 0)], [Entry(1, 3, Some(5))])
  {
    var out := PP.Output(PiS5()).processes;
    assert out[0] == Finished(Process(1, 3, 2, 0), None, 5, 2, 0);
  }

  /** A process arriving at 3 with burst 2 runs [3,5) after three idle units, and waits 0. */
  lemma PreemptiveIdleScenario()
    ensures Runnable(PiInput())
    ensures PP.PriorityPreemptiveSchedule(PiInput())
      == Schedule([Finished(Process(1, 3, 2, 0), None, 5, 2, 0)], [Entry(1, 3, Some(5))])
  {
    PiRun();
    PiOutput();
  }
}
