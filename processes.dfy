/**
 * Process records, timeline entries and the facts shared by the three
 * schedulers of script.js.
 *
 * A process label `P<k>` is represented by the number `k`.
 */
module Processes {
  import opened Wrappers

  /** The input fields of one process record. */
  datatype Process = Process(id: nat, arrival: nat, burst: nat, priority: int)

  /** The metric fields a scheduler assigns when a process completes. */
  datatype Metrics = Metrics(completion: nat, turnaround: int, waiting: int)

  /**
   * The private copy `{ ...p, remaining: p.burst }` that Round Robin and
   * Preemptive Priority mutate; `metrics` stays `None` until completion.
   */
  datatype Job = Job(proc: Process, remaining: nat, metrics: Option<Metrics>)

  /** One Gantt entry; Preemptive Priority leaves `end` unset on a preempted entry. */
  datatype Entry = Entry(id: nat, start: nat, end: Option<nat>)

  /**
   * A returned process record: the input fields, the `start` field (only the
   * non-preemptive scheduler assigns one) and the metrics.
   */
  datatype Finished = Finished(proc: Process, start: Option<nat>, completion: nat, turnaround: int, waiting: int)

  /** The `{ processes, timeline }` value every scheduler returns. */
  datatype Schedule = Schedule(processes: seq<Finished>, timeline: seq<Entry>)

  // ---------------------------------------------------------------------
  // Sequences of indices

  /** The indices `lo, lo+1, ..., hi-1`. */
  function Range(lo: nat, hi: nat): (r: seq<nat>)
    requires lo <= hi
    ensures |r| == hi - lo
    ensures forall k :: 0 <= k < |r| ==> r[k] == lo + k
  {
    seq(hi - lo, k requires 0 <= k < hi - lo => lo + k)
  }

  /** No element occurs twice. */
  predicate Distinct(s: seq<nat>)
  {
    forall i, j :: 0 <= i < j < |s| ==> s[i] != s[j]
  }

  /** Appending an element that does not occur keeps a sequence duplicate-free. */
  lemma DistinctAppend(s: seq<nat>, x: nat)
    requires Distinct(s) && x !in s
    ensures Distinct(s + [x])
  {
    forall i, j | 0 <= i < j < |s + [x]|
      ensures (s + [x])[i] != (s + [x])[j]
    {
      if j == |s| {
        assert (s + [x])[i] == s[i];
      } else {
        assert (s + [x])[i] == s[i] && (s + [x])[j] == s[j];
      }
    }
  }

  // ---------------------------------------------------------------------
  // Input records

  /** Process ids are pairwise different. */
  predicate DistinctIds(ps: seq<Process>)
  {
    forall i, j :: 0 <= i < j < |ps| ==> ps[i].id != ps[j].id
  }

  /**
   * What the schedulers need of their input: distinct ids and positive bursts
   * (a zero burst never becomes available to the preemptive scheduler).
   */
  predicate Runnable(ps: seq<Process>)
  {
    DistinctIds(ps) && forall i :: 0 <= i < |ps| ==> ps[i].burst > 0
  }

  /** The copies `processes.map(p => ({ ...p, remaining: p.burst }))`. */
  function Copies(ps: seq<Process>): (r: seq<Job>)
    ensures |r| == |ps|
    ensures forall i :: 0 <= i < |ps| ==> r[i].proc == ps[i] && r[i].remaining == ps[i].burst && r[i].metrics.None?
  {
    seq(|ps|, i requires 0 <= i < |ps| => Job(ps[i], ps[i].burst, None))
  }

  /** The total work still owed to the jobs. */
  function SumRemaining(jobs: seq<Job>): nat
  {
    if jobs == [] then 0 else SumRemaining(jobs[..|jobs| - 1]) + jobs[|jobs| - 1].remaining
  }

  /** Replacing one job changes the total by the difference of the two remainders. */
  lemma {:induction false} SumRemainingUpdate(jobs: seq<Job>, c: nat, j: Job)
    requires c < |jobs|
    ensures SumRemaining(jobs[c := j]) == SumRemaining(jobs) - jobs[c].remaining + j.remaining
  {
    var n := |jobs|;
    if c < n - 1 {
      assert jobs[c := j][..n - 1] == jobs[..n - 1][c := j];
      SumRemainingUpdate(jobs[..n - 1], c, j);
    } else {
      assert jobs[c := j][..n - 1] == jobs[..n - 1];
    }
  }

  /** The number of jobs whose remaining time is zero. */
  function CountFinished(jobs: seq<Job>): (r: nat)
    ensures r <= |jobs|
  {
    if jobs == [] then 0 else CountFinished(jobs[..|jobs| - 1]) + (if jobs[|jobs| - 1].remaining == 0 then 1 else 0)
  }

  /** Finishing one unfinished job raises the count by one. */
  lemma {:induction false} CountFinishedUpdate(jobs: seq<Job>, c: nat, j: Job)
    requires c < |jobs| && jobs[c].remaining > 0 && j.remaining == 0
    ensures CountFinished(jobs[c := j]) == CountFinished(jobs) + 1
  {
    var n := |jobs|;
    if c < n - 1 {
      assert jobs[c := j][..n - 1] == jobs[..n - 1][c := j];
      CountFinishedUpdate(jobs[..n - 1], c, j);
    } else {
      assert jobs[c := j][..n - 1] == jobs[..n - 1];
    }
  }

  /** Changing a job without finishing it leaves the count alone. */
  lemma {:induction false} CountFinishedKeep(jobs: seq<Job>, c: nat, j: Job)
    requires c < |jobs| && (jobs[c].remaining == 0 <==> j.remaining == 0)
    ensures CountFinished(jobs[c := j]) == CountFinished(jobs)
  {
    var n := |jobs|;
    if c < n - 1 {
      assert jobs[c := j][..n - 1] == jobs[..n - 1][c := j];
      CountFinishedKeep(jobs[..n - 1], c, j);
    } else {
      assert jobs[c := j][..n - 1] == jobs[..n - 1];
    }
  }

  /** While some job still has work the count is below the number of jobs. */
  lemma {:induction false} CountFinishedBelow(jobs: seq<Job>, i: nat)
    requires i < |jobs| && jobs[i].remaining > 0
    ensures CountFinished(jobs) < |jobs|
  {
    var n := |jobs|;
    if i < n - 1 {
      CountFinishedBelow(jobs[..n - 1], i);
    }
  }

  /** When the count reaches the number of jobs every job is done. */
  lemma {:induction false} CountFinishedAll(jobs: seq<Job>)
    requires CountFinished(jobs) == |jobs|
    ensures forall i :: 0 <= i < |jobs| ==> jobs[i].remaining == 0
  {
    forall i | 0 <= i < |jobs|
      ensures jobs[i].remaining == 0
    {
      if jobs[i].remaining > 0 {
        CountFinishedBelow(jobs, i);
      }
    }
  }

  /** When no job is done the count is zero. */
  lemma {:induction false} CountFinishedNone(jobs: seq<Job>)
    requires forall i :: 0 <= i < |jobs| ==> jobs[i].remaining > 0
    ensures CountFinished(jobs) == 0
  {
    if jobs != [] {
      CountFinishedNone(jobs[..|jobs| - 1]);
    }
  }

  /** When every job is done the count is the number of jobs. */
  lemma {:induction false} CountFinishedFull(jobs: seq<Job>)
    requires forall i :: 0 <= i < |jobs| ==> jobs[i].remaining == 0
    ensures CountFinished(jobs) == |jobs|
  {
    if jobs != [] {
      CountFinishedFull(jobs[..|jobs| - 1]);
    }
  }

  // ---------------------------------------------------------------------
  // Timelines

  /** The end of an entry, or `now` while it is still open. */
  function EndAt(e: Entry, now: nat): nat
  {
    if e.end.Some? then e.end.value else now
  }

  /**
   * The time units the timeline gives to `id`. An entry without an end runs
   * until the next entry starts, and the last one until `now`.
   */
  function Served(tl: seq<Entry>, id: nat, now: nat): int
  {
    if tl == [] then 0
    else
      var e := tl[|tl| - 1];
      Served(tl[..|tl| - 1], id, e.start) + (if e.id == id then EndAt(e, now) - e.start else 0)
  }

  /** Appending an entry adds its own duration to its process and nothing to the others. */
  lemma ServedAppend(tl: seq<Entry>, e: Entry, id: nat, now: nat)
    ensures Served(tl + [e], id, now) == Served(tl, id, e.start) + (if e.id == id then EndAt(e, now) - e.start else 0)
  {
    assert (tl + [e])[..|tl|] == tl;
  }

  /** Once the last entry is closed, the moment of observation does not matter. */
  lemma ServedClosed(tl: seq<Entry>, id: nat, now: nat, now': nat)
    requires tl == [] || tl[|tl| - 1].end.Some?
    ensures Served(tl, id, now) == Served(tl, id, now')
  {
  }

  /** Closing the open last entry at `now` keeps every account. */
  lemma ServedCloseLast(tl: seq<Entry>, id: nat, now: nat)
    requires tl != [] && tl[|tl| - 1].end.None?
    ensures Served(tl[|tl| - 1 := tl[|tl| - 1].(end := Some(now))], id, now) == Served(tl, id, now)
  {
    var tl' := tl[|tl| - 1 := tl[|tl| - 1].(end := Some(now))];
    assert tl'[..|tl'| - 1] == tl[..|tl| - 1];
  }

  /** While the last entry is open, its owner gains the time that passes and nobody else does. */
  lemma ServedOpenLast(tl: seq<Entry>, id: nat, now: nat, now': nat)
    requires tl != [] && tl[|tl| - 1].end.None? && tl[|tl| - 1].start <= now <= now'
    ensures Served(tl, id, now') == Served(tl, id, now) + (if tl[|tl| - 1].id == id then now' - now else 0)
  {
  }

  /** The time at which entry `k` ends: its own end, the next start, or `now`. */
  function EffectiveEnd(tl: seq<Entry>, k: nat, now: nat): nat
    requires k < |tl|
  {
    EndAt(tl[k], if k + 1 < |tl| then tl[k + 1].start else now)
  }

  /**
   * Every entry is non-empty and ends no later than the next one starts; the
   * last ends no later than `now`. Hence starts strictly increase and entries
   * never overlap.
   */
  predicate Gantt(tl: seq<Entry>, now: nat)
  {
    forall k :: 0 <= k < |tl| ==> Placed(tl, k, now)
  }

  /** Entry `k` is non-empty and ends no later than the next one starts, or than `now`. */
  predicate Placed(tl: seq<Entry>, k: nat, now: nat)
    requires k < |tl|
  {
    tl[k].start < EffectiveEnd(tl, k, now) <= (if k + 1 < |tl| then tl[k + 1].start else now)
  }

  /** A finished timeline: its last entry has an end, and it is well ordered up to that end. */
  predicate Chart(tl: seq<Entry>)
  {
    tl == [] || (tl[|tl| - 1].end.Some? && Gantt(tl, tl[|tl| - 1].end.value))
  }

  /** The total time a finished timeline gives to `id`. */
  function Busy(tl: seq<Entry>, id: nat): int
  {
    Served(tl, id, 0)
  }

  // ---------------------------------------------------------------------
  // Results

  /** A completed record from a job whose metrics are set. */
  function FinishedOf(j: Job): (f: Finished)
    requires j.metrics.Some?
    ensures f.proc == j.proc && f.start.None? && f.completion == j.metrics.value.completion
  {
    Finished(j.proc, None, j.metrics.value.completion, j.metrics.value.turnaround, j.metrics.value.waiting)
  }

  /** The completion time recorded on a job, 0 while it has none. */
  function CompletionOf(j: Job): nat
  {
    if j.metrics.Some? then j.metrics.value.completion else 0
  }

  /** The ids of the jobs. */
  function Ids(jobs: seq<Job>): set<nat>
  {
    set i | 0 <= i < |jobs| :: jobs[i].proc.id
  }

  /** The metric formulas of script.js, including that no process waits a negative time. */
  predicate MetricsHold(f: Finished)
  {
    f.turnaround == f.completion - f.proc.arrival
    && f.waiting == f.turnaround - f.proc.burst
    && f.waiting >= 0
  }

  /** The metrics a job owns when it completes at `t`. */
  predicate CompletedAt(j: Job, t: nat)
  {
    j.remaining == 0
    && j.metrics == Some(Metrics(t, t - j.proc.arrival, t - j.proc.arrival - j.proc.burst))
    && j.proc.arrival + j.proc.burst <= t
  }

  /**
   * Each input record appears exactly once among the returned ones: as many
   * records, each one an input record, every input record present, no id twice.
   */
  predicate EachOnce(out: seq<Finished>, ps: seq<Process>)
  {
    |out| == |ps|
    && (forall j :: 0 <= j < |out| ==> out[j].proc in ps)
    && (forall i :: 0 <= i < |ps| ==> exists j :: 0 <= j < |out| && out[j].proc == ps[i])
    && (forall j, j' :: 0 <= j < j' < |out| ==> out[j].proc.id != out[j'].proc.id)
  }

  /**
   * Records taken from `src` in the order `order`, where `order` lists every
   * index of `src` once and `src` is a rearrangement of `ps` with distinct ids,
   * return each record of `ps` exactly once.
   */
  lemma EachOnceByIndex(out: seq<Finished>, order: seq<nat>, src: seq<Process>, ps: seq<Process>)
    requires |out| == |order| == |src| == |ps|
    requires multiset(src) == multiset(ps) && DistinctIds(src) && Distinct(order)
    requires forall k :: 0 <= k < |order| ==> order[k] < |src| && out[k].proc == src[order[k]]
    requires forall x :: 0 <= x < |src| ==> x in order
    ensures EachOnce(out, ps)
  {
    forall j | 0 <= j < |out|
      ensures out[j].proc in ps
    {
      assert src[order[j]] in multiset(src);
    }
    forall i | 0 <= i < |ps|
      ensures exists j :: 0 <= j < |out| && out[j].proc == ps[i]
    {
      assert ps[i] in multiset(src);
      var x :| 0 <= x < |src| && src[x] == ps[i];
      assert x in order;
      var j :| 0 <= j < |order| && order[j] == x;
      assert out[j].proc == ps[i];
    }
    forall j, j' | 0 <= j < j' < |out|
      ensures out[j].proc.id != out[j'].proc.id
    {
      assert order[j] != order[j'];
    }
  }

  /** Records are returned in completion order. */
  predicate InCompletionOrder(out: seq<Finished>)
  {
    forall j, j' :: 0 <= j < j' < |out| ==> out[j].completion <= out[j'].completion
  }
}
