/**
  Round Robin on concrete inputs, and the case in which it degenerates to
  first-come-first-served: when every process arrives at 0 and fits in one
  quantum, each runs once, to completion, in input order.
*/
module RoundRobinScenarios {
  import opened Wrappers
  import opened Shapes
  import opened Colors
  import opened FcfsModel
  import opened RoundRobinModel
  import opened RoundRobinInvariants

  // ---------------------------------------------------------------------
  // Degeneracy to FCFS
  // ---------------------------------------------------------------------

  /** Indices `k, k+1, ..., n-1`. */
  function Range(k: nat, n: nat): (r: seq<nat>)
    requires k <= n
    ensures |r| == n - k && forall j :: 0 <= j < |r| ==> r[j] == k + j
  {
    seq(n - k, j requires 0 <= j < n - k => k + j)
  }

  lemma RangeMembers(k: nat, n: nat)
    requires k <= n
    ensures forall j :: j in Range(k, n) <==> k <= j < n
  {
    forall j | k <= j < n
      ensures j in Range(k, n)
    {
      assert Range(k, n)[j - k] == j;
    }
  }

  /** Every process arrives at 0 and needs at least one unit and at most a quantum. */
  predicate Degenerate(ps: seq<Process>, quantum: nat) {
    forall i :: 0 <= i < |ps| ==> ps[i].arrival == 0 && 1 <= ps[i].burst <= quantum
  }

  /** After admission from an empty queue, with every process unfinished and
      arrived, the queue is every index in input order. */
  lemma {:induction false} AdmitAll(ps: seq<Process>, rem: seq<nat>, time: nat, i: nat)
    requires |rem| == |ps| && i <= |ps|
    requires forall j :: 0 <= j < |ps| ==> rem[j] > 0 && ps[j].arrival <= time
    ensures Admit(ps, rem, Range(0, i), time, i) == Range(0, |ps|)
    decreases |ps| - i
  {
    if i < |ps| {
      RangeMembers(0, i);
      assert Range(0, i) + [i] == Range(0, i + 1);
      AdmitAll(ps, rem, time, i + 1);
    }
  }

  /** When every unfinished process is already queued, admission adds nothing. */
  lemma {:induction false} AdmitNone(ps: seq<Process>, rem: seq<nat>, queue: seq<nat>, time: nat, i: nat)
    requires |rem| == |ps| && i <= |ps|
    requires forall j :: 0 <= j < |ps| && rem[j] > 0 ==> j in queue
    ensures Admit(ps, rem, queue, time, i) == queue
    decreases |ps| - i
  {
    if i < |ps| {
      AdmitNone(ps, rem, queue, time, i + 1);
    }
  }

  /** The counters, queue, clock and timeline after the first `k` processes
      have run to completion, one after another, each in a single slice ... */
  ghost predicate PhaseCounters(ps: seq<Process>, s: State, k: nat) {
    && k <= |ps| == |s.remaining|
    && (forall j :: 0 <= j < |ps| ==> s.remaining[j] == if j < k then 0 else ps[j].burst)
    && (s.queue == Range(k, |ps|) || (k == 0 && s.queue == []))
    && s.time == TotalBurst(ps[..k])
    && |s.gantt| == k && (forall j :: 0 <= j < k ==> s.gantt[j] == FcfsItem(ps, j))
  }

  /** ... and their records, as FCFS would have left them. */
  ghost predicate PhaseWaiting(ps: seq<Process>, s: State, k: nat)
    requires k <= |ps|
  {
    && s.waiting.Keys == Ids(ps)
    && (forall j :: 0 <= j < k ==> s.waiting[ps[j].id] == TotalBurst(ps[..j]))
  }

  ghost predicate PhaseTurnaround(ps: seq<Process>, s: State, k: nat)
    requires k <= |ps|
  {
    s.turnaround == FcfsTurnaround(ps, k)
  }

  ghost predicate PhaseRecords(ps: seq<Process>, s: State, k: nat)
    requires k <= |ps|
  {
    PhaseWaiting(ps, s, k) && PhaseTurnaround(ps, s, k)
  }

  ghost predicate Phase(ps: seq<Process>, s: State, k: nat) {
    PhaseCounters(ps, s, k) && PhaseRecords(ps, s, k)
  }

  lemma RangeTail(k: nat, n: nat)
    requires k < n
    ensures Range(k, n)[1..] == Range(k + 1, n)
  {
  }

  lemma PhaseWf(ps: seq<Process>, quantum: nat, s: State, k: nat)
    requires Phase(ps, s, k) && Degenerate(ps, quantum)
    ensures Wf(ps, s)
    ensures Done(s) <==> k == |ps|
  {
    if k < |ps| {
      assert s.remaining[k] > 0;
    }
  }

  /** Admission in a phase queues exactly the processes not yet run. */
  lemma PhaseAdmit(ps: seq<Process>, quantum: nat, s: State, k: nat)
    requires Phase(ps, s, k) && Degenerate(ps, quantum)
    ensures Admit(ps, s.remaining, s.queue, s.time, 0) == Range(k, |ps|)
  {
    if s.queue == [] && k == 0 {
      AdmitAll(ps, s.remaining, s.time, 0);
    } else {
      RangeMembers(k, |ps|);
      AdmitNone(ps, s.remaining, s.queue, s.time, 0);
    }
  }

  /** The slice that completes process `k` appends its FCFS slice ... */
  lemma SliceNextCounters(ps: seq<Process>, quantum: nat, a: State, r: State, k: nat)
    requires Degenerate(ps, quantum) && k < |ps|
    requires PhaseCounters(ps, a, k) && a.queue == Range(k, |ps|)
    requires SliceCore(ps, quantum, a, r) && SliceQueue(ps, a, r)
    ensures PhaseCounters(ps, r, k + 1)
  {
    TotalBurstPrefix(ps, k);
    assert a.queue[0] == k && a.remaining[k] == ps[k].burst <= quantum;
    assert r.remaining[k] == 0;
    RangeTail(k, |ps|);
  }

  /** ... records its waiting time, touching no other process's ... */
  lemma SliceNextWaiting(ps: seq<Process>, a: State, r: State, k: nat)
    requires UniqueIds(ps) && k < |ps| && |r.remaining| == |ps|
    requires PhaseWaiting(ps, a, k) && a.queue != [] && a.queue[0] == k
    requires (forall j :: 0 <= j <= k ==> r.remaining[j] == 0) && r.time == TotalBurst(ps[..k]) + ps[k].burst
    requires forall i :: 0 <= i < |ps| ==> SliceWaitingFor(ps, a, r, i)
    requires r.waiting.Keys == Ids(ps)
    ensures PhaseWaiting(ps, r, k + 1)
  {
    forall j | 0 <= j < k
      ensures r.waiting[ps[j].id] == TotalBurst(ps[..j])
    {
      assert SliceWaitingFor(ps, a, r, j) && r.remaining[j] == 0;
      assert ps[j].id != ps[k].id;
    }
    assert SliceWaitingFor(ps, a, r, k);
  }

  /** The slice dispatched from a phase's queue completes process `k`. */
  lemma PhaseDispatch(ps: seq<Process>, quantum: nat, a: State, k: nat)
    requires quantum >= 1 && Degenerate(ps, quantum) && UniqueIds(ps) && k < |ps|
    requires Phase(ps, a, k) && a.queue == Range(k, |ps|) && Wf(ps, a)
    ensures Phase(ps, Dispatch(ps, quantum, a), k + 1)
  {
    DispatchIsSliceStep(ps, quantum, a);
    var r := Dispatch(ps, quantum, a);
    SliceNextCounters(ps, quantum, a, r, k);
    TotalBurstPrefix(ps, k);
    SliceNextWaiting(ps, a, r, k);
    assert r.turnaround == a.turnaround[ps[k].id := r.time];
  }

  lemma PhaseStep(ps: seq<Process>, quantum: nat, s: State, k: nat)
    requires quantum >= 1 && Degenerate(ps, quantum) && UniqueIds(ps) && Phase(ps, s, k) && k < |ps|
    ensures Wf(ps, s) && !Done(s)
    ensures Phase(ps, Step(ps, quantum, s), k + 1)
  {
    PhaseWf(ps, quantum, s, k);
    PhaseAdmit(ps, quantum, s, k);
    var a := s.(queue := Range(k, |ps|));
    assert Step(ps, quantum, s) == Dispatch(ps, quantum, a);
    assert Phase(ps, a, k);
    PhaseWf(ps, quantum, a, k);
    PhaseDispatch(ps, quantum, a, k);
  }

  lemma {:induction false} PhaseRun(ps: seq<Process>, quantum: nat, s: State, k: nat)
    requires quantum >= 1 && Degenerate(ps, quantum) && UniqueIds(ps) && Phase(ps, s, k)
    ensures Wf(ps, s)
    ensures Phase(ps, Run(ps, quantum, s), |ps|)
    decreases |ps| - k
  {
    PhaseWf(ps, quantum, s, k);
    if k < |ps| {
      PhaseStep(ps, quantum, s, k);
      PhaseRun(ps, quantum, Step(ps, quantum, s), k + 1);
    }
  }

  lemma PhaseInit(ps: seq<Process>)
    ensures Phase(ps, Init(ps), 0)
  {
    assert ps[..0] == [];
  }

  lemma PhaseFinalTurnaround(ps: seq<Process>, s: State)
    requires UniqueIds(ps) && PhaseTurnaround(ps, s, |ps|)
    ensures s.turnaround.Keys == Ids(ps)
    ensures forall i :: 0 <= i < |ps| ==> s.turnaround[ps[i].id] == TotalBurst(ps[..i]) + ps[i].burst
  {
    assert ps[..|ps|] == ps;
    FcfsRecordKeys(ps, |ps|);
    FcfsTurnaroundValues(ps, |ps|);
  }

  /** After the last phase the loop state reads as the FCFS result. */
  lemma PhaseFinal(ps: seq<Process>, s: State)
    requires UniqueIds(ps) && Phase(ps, s, |ps|)
    ensures IsFcfsResult(ps, SchedulerResult(s.gantt, s.waiting, s.turnaround, Mean(SumValues(s.waiting), |ps|)))
  {
    PhaseFinalTurnaround(ps, s);
  }

  /** With every arrival at 0 and every burst between 1 and the quantum, Round
      Robin produces exactly the FCFS result. */
  lemma RoundRobinDegeneratesToFcfs(ps: seq<Process>, quantum: nat)
    requires quantum >= 1 && UniqueIds(ps) && Degenerate(ps, quantum)
    ensures IsFcfsResult(ps, RoundRobinSpec(ps, quantum))
  {
    PhaseInit(ps);
    PhaseRun(ps, quantum, Init(ps), 0);
    PhaseFinal(ps, Run(ps, quantum, Init(ps)));
  }

  /** A process with nothing to run gets a zero-length FCFS slice, but no
      Round Robin slice and no turnaround record, so the degeneracy needs
      bursts of at least 1. */
  lemma ZeroBurstNotDegenerate(r: SchedulerResult)
    requires r == RoundRobinSpec([Process("P1", "A", 0, 0)], 1)
    ensures r.gantt == [] && r.turnaroundTimes == map[]
    ensures !IsFcfsResult([Process("P1", "A", 0, 0)], r)
  {
    var ps := [Process("P1", "A", 0, 0)];
    assert Done(Init(ps));
  }

  // ---------------------------------------------------------------------
  // A concrete run
  // ---------------------------------------------------------------------

  lemma StepIs(ps: seq<Process>, quantum: nat, s: State, q: seq<nat>)
    requires quantum >= 1 && Wf(ps, s) && !Done(s)
    requires Admit(ps, s.remaining, s.queue, s.time, 0) == q && q != []
    ensures Wf(ps, s.(queue := q)) && Step(ps, quantum, s) == Dispatch(ps, quantum, s.(queue := q))
  {
    AdmitQueueOk(ps, s.remaining, s.queue, s.time, 0);
  }

  lemma RunSlice(ps: seq<Process>, quantum: nat, s: State, q: seq<nat>, r: State)
    requires quantum >= 1 && Wf(ps, s) && !Done(s)
    requires Admit(ps, s.remaining, s.queue, s.time, 0) == q && q != []
    requires SliceTo(ps, quantum, s.(queue := q), r)
    ensures Wf(ps, r) && Run(ps, quantum, s) == Run(ps, quantum, r)
  {
    StepIs(ps, quantum, s, q);
    DispatchIs(ps, quantum, s.(queue := q), r);
    DispatchWf(ps, quantum, s.(queue := q));
  }

  lemma RunDone(ps: seq<Process>, quantum: nat, s: State)
    requires quantum >= 1 && Wf(ps, s) && Done(s)
    ensures Run(ps, quantum, s) == s
  {
  }

  /** P1 needs 5 units and P2 needs 3, both arriving at 0. */
  predicate TwoProcesses(ps: seq<Process>) {
    ps == [Process("P1", "A", 5, 0), Process("P2", "B", 3, 0)]
  }

  lemma TwoProcessesFacts(ps: seq<Process>)
    requires TwoProcesses(ps)
    ensures |ps| == 2 && ps[0].id == "P1" && ps[1].id == "P2" && ps[0].burst == 5 && ps[1].burst == 3
    ensures Ids(ps) == {"P1", "P2"}
    ensures HashColor("P1") == 4 && HashColor("P2") == 5
  {
    assert CharCodeSum("P1") == 129 by { assert "P1"[..1] == "P"; }
    assert CharCodeSum("P2") == 130 by { assert "P2"[..1] == "P"; }
  }

  /** The loop states of the run with quantum 2, one per slice. */
  const Two0: State := State([5, 3], [], 0, [], map["P1" := 0, "P2" := 0], map[])
  const Two1: State := State([3, 3], [1, 0], 2, [GanttItem("P1", "A", 0, 2, 4)], map["P1" := 2, "P2" := 2], map[])
  const Two2: State := State([3, 1], [0, 1], 4, Two1.gantt + [GanttItem("P2", "B", 2, 4, 5)], map["P1" := 4, "P2" := 4], map[])
  const Two3: State := State([1, 1], [1, 0], 6, Two2.gantt + [GanttItem("P1", "A", 4, 6, 4)], map["P1" := 6, "P2" := 6], map[])
  const Two4: State :=
    State([1, 0], [0], 7, Two3.gantt + [GanttItem("P2", "B", 6, 7, 5)], map["P1" := 7, "P2" := 4], map["P2" := 7])
  const Two5: State :=
    State([0, 0], [], 8, Two4.gantt + [GanttItem("P1", "A", 7, 8, 4)], map["P1" := 3, "P2" := 4], map["P2" := 7, "P1" := 8])

  lemma TwoInit(ps: seq<Process>)
    requires TwoProcesses(ps)
    ensures Init(ps) == Two0
  {
    TwoProcessesFacts(ps);
    assert Init(ps).waiting == Two0.waiting;
  }

  lemma TwoAdmit1(ps: seq<Process>)
    requires TwoProcesses(ps)
    ensures Wf(ps, Two0) && !Done(Two0) && Admit(ps, [5, 3], [], 0, 0) == [0, 1]
  {
    TwoProcessesFacts(ps);
    assert [0] + [1] == [0, 1] && 1 !in [0];
    assert Admit(ps, [5, 3], [0], 0, 1) == [0, 1];
    assert [] + [0] == [0];
  }

  lemma TwoSlice1(ps: seq<Process>)
    requires TwoProcesses(ps)
    ensures SliceTo(ps, 2, Two0.(queue := [0, 1]), Two1)
  {
    TwoProcessesFacts(ps);
    var w := Two0.waiting;
    assert Accrue(ps, [3, 3], [1, 0], w[ "P2" := 2][ "P1" := 2], 2, 2) == Two1.waiting;
    assert Accrue(ps, [3, 3], [1, 0], w[ "P2" := 2], 2, 1) == Two1.waiting;
  }

  lemma TwoAdmit2(ps: seq<Process>)
    requires TwoProcesses(ps)
    ensures Wf(ps, Two1) && !Done(Two1) && Admit(ps, [3, 3], [1, 0], 2, 0) == [1, 0]
  {
    TwoProcessesFacts(ps);
    assert Admit(ps, [3, 3], [1, 0], 2, 1) == [1, 0];
  }

  lemma TwoSlice2(ps: seq<Process>)
    requires TwoProcesses(ps)
    ensures SliceTo(ps, 2, Two1, Two2)
  {
    TwoProcessesFacts(ps);
    var w := Two1.waiting;
    assert Accrue(ps, [3, 1], [0, 1], w[ "P1" := 4][ "P2" := 4], 2, 2) == Two2.waiting;
    assert Accrue(ps, [3, 1], [0, 1], w[ "P1" := 4], 2, 1) == Two2.waiting;
  }

  lemma TwoAdmit3(ps: seq<Process>)
    requires TwoProcesses(ps)
    ensures Wf(ps, Two2) && !Done(Two2) && Admit(ps, [3, 1], [0, 1], 4, 0) == [0, 1]
  {
    TwoProcessesFacts(ps);
    assert Admit(ps, [3, 1], [0, 1], 4, 1) == [0, 1];
  }

  lemma TwoSlice3(ps: seq<Process>)
    requires TwoProcesses(ps)
    ensures SliceTo(ps, 2, Two2, Two3)
  {
    TwoProcessesFacts(ps);
    var w := Two2.waiting;
    assert Accrue(ps, [1, 1], [1, 0], w[ "P2" := 6][ "P1" := 6], 2, 2) == Two3.waiting;
    assert Accrue(ps, [1, 1], [1, 0], w[ "P2" := 6], 2, 1) == Two3.waiting;
  }

  lemma TwoAdmit4(ps: seq<Process>)
    requires TwoProcesses(ps)
    ensures Wf(ps, Two3) && !Done(Two3) && Admit(ps, [1, 1], [1, 0], 6, 0) == [1, 0]
  {
    TwoProcessesFacts(ps);
    assert Admit(ps, [1, 1], [1, 0], 6, 1) == [1, 0];
  }

  lemma TwoSlice4(ps: seq<Process>)
    requires TwoProcesses(ps)
    ensures SliceTo(ps, 2, Two3, Two4)
  {
    TwoProcessesFacts(ps);
    var w := Two3.waiting[ "P2" := 4];
    assert Accrue(ps, [1, 0], [0], w[ "P1" := 7], 1, 1) == Two4.waiting;
  }

  lemma TwoAdmit5(ps: seq<Process>)
    requires TwoProcesses(ps)
    ensures Wf(ps, Two4) && !Done(Two4) && Admit(ps, [1, 0], [0], 7, 0) == [0]
  {
    TwoProcessesFacts(ps);
    assert Admit(ps, [1, 0], [0], 7, 1) == [0];
  }

  lemma TwoSlice5(ps: seq<Process>)
    requires TwoProcesses(ps)
    ensures SliceTo(ps, 2, Two4, Two5)
  {
    TwoProcessesFacts(ps);
  }

  lemma TwoRunFrom4(ps: seq<Process>)
    requires TwoProcesses(ps)
    ensures Wf(ps, Two4) && Run(ps, 2, Two4) == Two5
  {
    TwoAdmit5(ps);
    TwoSlice5(ps);
    RunSlice(ps, 2, Two4, [0], Two5);
    RunDone(ps, 2, Two5);
  }

  lemma TwoRunFrom2(ps: seq<Process>)
    requires TwoProcesses(ps)
    ensures Wf(ps, Two2) && Run(ps, 2, Two2) == Two5
  {
    TwoAdmit3(ps);
    TwoSlice3(ps);
    RunSlice(ps, 2, Two2, [0, 1], Two3);
    TwoAdmit4(ps);
    TwoSlice4(ps);
    RunSlice(ps, 2, Two3, [1, 0], Two4);
    TwoRunFrom4(ps);
  }

  /** The loop runs from `Two0` to `Two5`. */
  lemma TwoRun(ps: seq<Process>)
    requires TwoProcesses(ps)
    ensures Run(ps, 2, Init(ps)) == Two5
  {
    TwoInit(ps);
    TwoAdmit1(ps);
    TwoSlice1(ps);
    RunSlice(ps, 2, Two0, [0, 1], Two1);
    TwoAdmit2(ps);
    TwoSlice2(ps);
    RunSlice(ps, 2, Two1, [1, 0], Two2);
    TwoRunFrom2(ps);
  }

  lemma TwoFinal()
    ensures Two5.gantt == [GanttItem("P1", "A", 0, 2, 4), GanttItem("P2", "B", 2, 4, 5), GanttItem("P1", "A", 4, 6, 4),
                           GanttItem("P2", "B", 6, 7, 5), GanttItem("P1", "A", 7, 8, 4)]
    ensures Two5.waiting == map["P1" := 3, "P2" := 4] && Two5.turnaround == map["P1" := 8, "P2" := 7]
  {
  }

  /** With quantum 2 the processor alternates: P1 [0,2), P2 [2,4), P1 [4,6),
      P2 [6,7), P1 [7,8); P1 waits 3 and P2 waits 4 ... */
  lemma RoundRobinTwoProcesses(ps: seq<Process>, r: SchedulerResult)
    requires TwoProcesses(ps) && r == RoundRobinSpec(ps, 2)
    ensures r.gantt == [GanttItem("P1", "A", 0, 2, 4), GanttItem("P2", "B", 2, 4, 5), GanttItem("P1", "A", 4, 6, 4),
                        GanttItem("P2", "B", 6, 7, 5), GanttItem("P1", "A", 7, 8, 4)]
    ensures r.waitingTimes == map["P1" := 3, "P2" := 4]
    ensures r.turnaroundTimes == map["P1" := 8, "P2" := 7]
  {
    TwoRun(ps);
    TwoFinal();
  }

  /** ... and the average waiting time is 3.5. */
  lemma RoundRobinTwoProcessesAverage(ps: seq<Process>, r: SchedulerResult)
    requires TwoProcesses(ps) && r == RoundRobinSpec(ps, 2)
    ensures r.averageWaitingTime == Some(3.5)
  {
    RoundRobinTwoProcesses(ps, r);
    TwoSum();
  }

  lemma TwoSum()
    ensures SumValues(map["P1" := 3, "P2" := 4]) == 7
  {
    var w := map["P1" := 3, "P2" := 4];
    SumValuesRemove(w, "P1");
    assert w - {"P1"} == map["P2" := 4];
    SumValuesRemove(map["P2" := 4], "P2");
    assert map["P2" := 4] - {"P2"} == map[];
  }

  /** A single process P1 needing 4 units, arriving at 0. */
  predicate OneProcess(ps: seq<Process>) {
    ps == [Process("P1", "A", 4, 0)]
  }

  lemma OneProcessFacts(ps: seq<Process>)
    requires OneProcess(ps)
    ensures |ps| == 1 && ps[0].id == "P1" && ps[0].burst == 4 && Ids(ps) == {"P1"}
    ensures HashColor("P1") == 4
  {
    assert CharCodeSum("P1") == 129 by { assert "P1"[..1] == "P"; }
  }

  /** The loop states of the run with quantum 2. Between the slices P1 is
      charged its own slice, since it sits in the queue again; completion
      overwrites that with turnaround minus burst. */
  const One0: State := State([4], [], 0, [], map["P1" := 0], map[])
  const One1: State := State([2], [0], 2, [GanttItem("P1", "A", 0, 2, 4)], map["P1" := 2], map[])
  const One2: State :=
    State([0], [], 4, One1.gantt + [GanttItem("P1", "A", 2, 4, 4)], map["P1" := 0], map["P1" := 4])

  lemma OneInit(ps: seq<Process>)
    requires OneProcess(ps)
    ensures Init(ps) == One0
  {
    OneProcessFacts(ps);
    assert Init(ps).waiting == One0.waiting;
  }

  lemma OneAdmit1(ps: seq<Process>)
    requires OneProcess(ps)
    ensures Wf(ps, One0) && !Done(One0) && Admit(ps, [4], [], 0, 0) == [0]
  {
    OneProcessFacts(ps);
    assert Wf(ps, One0);
    assert 0 !in [] && [] + [0] == [0];
    assert Admit(ps, [4], [0], 0, 1) == [0];
    assert Admit(ps, [4], [], 0, 0) == Admit(ps, [4], [0], 0, 1);
  }

  lemma OneSlice1(ps: seq<Process>)
    requires OneProcess(ps)
    ensures SliceTo(ps, 2, One0.(queue := [0]), One1)
  {
    OneProcessFacts(ps);
    assert Accrue(ps, [2], [0], One0.waiting, 2, 0) == One1.waiting;
  }

  lemma OneAdmit2(ps: seq<Process>)
    requires OneProcess(ps)
    ensures Wf(ps, One1) && !Done(One1) && Admit(ps, [2], [0], 2, 0) == [0]
  {
    OneProcessFacts(ps);
  }

  lemma OneSlice2(ps: seq<Process>)
    requires OneProcess(ps)
    ensures SliceTo(ps, 2, One1, One2)
  {
    OneProcessFacts(ps);
  }

  lemma OneRunFrom1(ps: seq<Process>)
    requires OneProcess(ps)
    ensures Wf(ps, One1) && Run(ps, 2, One1) == One2
  {
    OneAdmit2(ps);
    OneSlice2(ps);
    RunSlice(ps, 2, One1, [0], One2);
    RunDone(ps, 2, One2);
  }

  /** The loop runs from `One0` to `One2`. */
  lemma OneRun(ps: seq<Process>)
    requires OneProcess(ps)
    ensures Run(ps, 2, Init(ps)) == One2
  {
    OneInit(ps);
    OneAdmit1(ps);
    OneSlice1(ps);
    RunSlice(ps, 2, One0, [0], One1);
    OneRunFrom1(ps);
  }

  lemma OneFinal()
    ensures One2.gantt == [GanttItem("P1", "A", 0, 2, 4), GanttItem("P1", "A", 2, 4, 4)]
    ensures One2.waiting == map["P1" := 0] && One2.turnaround == map["P1" := 4]
    ensures SumValues(One2.waiting) == 0
  {
    SumValuesRemove(map["P1" := 0], "P1");
    assert map["P1" := 0] - {"P1"} == map[];
  }

  /** A single process of burst 4 with quantum 2 runs in two slices, [0,2)
      and [2,4); it waits 0 and turns around at 4. */
  lemma RoundRobinOneProcess(ps: seq<Process>, r: SchedulerResult)
    requires OneProcess(ps) && r == RoundRobinSpec(ps, 2)
    ensures r.gantt == [GanttItem("P1", "A", 0, 2, 4), GanttItem("P1", "A", 2, 4, 4)]
    ensures r.waitingTimes == map["P1" := 0] && r.turnaroundTimes == map["P1" := 4]
  {
    OneRun(ps);
    OneFinal();
  }

  /** ... so the average waiting time is 0. */
  lemma RoundRobinOneProcessAverage(ps: seq<Process>, r: SchedulerResult)
    requires OneProcess(ps) && r == RoundRobinSpec(ps, 2)
    ensures r.averageWaitingTime == Some(0.0)
  {
    RoundRobinOneProcess(ps, r);
    OneFinal();
  }
}
