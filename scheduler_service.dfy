/**
  `SchedulerService`: the two scheduling algorithms as the loops that run
  them. Each method is proved to compute exactly the result its specification
  function describes, so every property proved of `IsFcfsResult` and of
  `RoundRobinSpec` holds of what the methods return.
*/
module SchedulerService {
  import opened Wrappers
  import opened Shapes
  import opened Colors
  import opened FcfsModel
  import opened RoundRobinModel
  import opened RoundRobinInvariants

  /** `Object.values(waiting).reduce((a, b) => a + b, 0) / count`, visiting
      the entries in whatever order the map yields them. */
  method AverageWaitingTime(waiting: map<string, int>, count: nat) returns (avg: Option<real>)
    ensures avg == Mean(SumValues(waiting), count)
  {
    var sum := 0;
    var rest := waiting;
    while rest != map[]
      invariant sum + SumValues(rest) == SumValues(waiting)
      decreases rest.Keys
    {
      var k :| k in rest;
      SumValuesRemove(rest, k);
      sum := sum + rest[k];
      rest := rest - {k};
    }
    avg := Mean(sum, count);
  }

  /** `fcfs`: run the processes one after another in input order. */
  method Fcfs(processes: seq<Process>) returns (r: SchedulerResult)
    ensures IsFcfsResult(processes, r)
  {
    var gantt: seq<GanttItem> := [];
    var waiting: map<string, int> := map[];
    var turnaround: map<string, int> := map[];
    var time := 0;
    for i := 0 to |processes|
      invariant time == TotalBurst(processes[..i])
      invariant |gantt| == i && forall j :: 0 <= j < i ==> gantt[j] == FcfsItem(processes, j)
      invariant waiting == FcfsWaiting(processes, i) && turnaround == FcfsTurnaround(processes, i)
    {
      var p := processes[i];
      var start := time;
      var end := start + p.burst;
      var color := ComputeHashColor(p.id);
      gantt := gantt + [GanttItem(p.id, p.name, start, end, color)];
      waiting := waiting[p.id := start];
      turnaround := turnaround[p.id := end];
      time := end;
      TotalBurstPrefix(processes, i);
    }
    assert processes[..|processes|] == processes;
    FcfsRecordKeys(processes, |processes|);
    if UniqueIds(processes) {
      FcfsWaitingValues(processes, |processes|);
      FcfsTurnaroundValues(processes, |processes|);
    }
    var avg := AverageWaitingTime(waiting, |processes|);
    r := SchedulerResult(gantt, waiting, turnaround, avg);
  }

  /** The admission pass: every unfinished process that has arrived by `time`
      and is not queued yet joins the tail, in input order. */
  method AdmitPass(processes: seq<Process>, remaining: array<nat>, queue: seq<nat>, time: nat)
    returns (queue': seq<nat>)
    requires remaining.Length == |processes|
    ensures queue' == Admit(processes, remaining[..], queue, time, 0)
  {
    queue' := queue;
    for i := 0 to |processes|
      invariant Admit(processes, remaining[..], queue', time, i) == Admit(processes, remaining[..], queue, time, 0)
    {
      if remaining[i] > 0 && processes[i].arrival <= time && i !in queue' {
        queue' := queue' + [i];
      }
    }
  }

  /** The accrual pass: add `exec` to the waiting time of every unfinished
      process in the queue. */
  method AccrueWaiting(processes: seq<Process>, remaining: array<nat>, queue: seq<nat>, waiting: map<string, int>, exec: nat)
    returns (waiting': map<string, int>)
    requires remaining.Length == |processes|
    requires forall j :: 0 <= j < |queue| ==> queue[j] < |processes| && processes[queue[j]].id in waiting
    ensures waiting' == Accrue(processes, remaining[..], queue, waiting, exec, 0)
  {
    waiting' := waiting;
    for k := 0 to |queue|
      invariant waiting'.Keys == waiting.Keys
      invariant Accrue(processes, remaining[..], queue, waiting', exec, k) == Accrue(processes, remaining[..], queue, waiting, exec, 0)
    {
      var other := queue[k];
      if remaining[other] > 0 {
        waiting' := waiting'[processes[other].id := waiting'[processes[other].id] + exec];
      }
    }
  }

  /** One slice: run the head of the queue for `min(quantum, remaining)`,
      record it, re-queue the process or record its completion, then charge
      the slice to every unfinished process in the queue. */
  method RunHead(processes: seq<Process>, quantum: nat, remaining: array<nat>, queue: seq<nat>, time: nat,
                 gantt: seq<GanttItem>, waiting: map<string, int>, turnaround: map<string, int>)
    returns (queue': seq<nat>, time': nat, gantt': seq<GanttItem>, waiting': map<string, int>, turnaround': map<string, int>)
    requires Wf(processes, State(remaining[..], queue, time, gantt, waiting, turnaround)) && queue != []
    modifies remaining
    ensures State(remaining[..], queue', time', gantt', waiting', turnaround')
         == Dispatch(processes, quantum, State(old(remaining[..]), queue, time, gantt, waiting, turnaround))
  {
    ghost var s := State(remaining[..], queue, time, gantt, waiting, turnaround);
    var p := queue[0];
    queue' := queue[1..];
    var exec := if quantum < remaining[p] then quantum else remaining[p];
    var start := time;
    time' := time + exec;
    remaining[p] := remaining[p] - exec;
    var end := time';
    var color := ComputeHashColor(processes[p].id);
    gantt' := gantt + [GanttItem(processes[p].id, processes[p].name, start, end, color)];
    waiting' := waiting;
    turnaround' := turnaround;
    if remaining[p] > 0 {
      queue' := queue' + [p];
    } else {
      turnaround' := turnaround'[processes[p].id := end];
      waiting' := waiting'[processes[p].id := turnaround'[processes[p].id] - processes[p].burst];
    }
    IdsMembers(processes);
    assert remaining[..] == s.remaining[p := s.remaining[p] - exec];
    waiting' := AccrueWaiting(processes, remaining, queue', waiting', exec);
  }

  /** One iteration of the loop of `roundRobin`: admit the arrived
      processes, then jump the clock to the next arrival when nothing is
      ready, or run the head of the queue for one slice. */
  method Iterate(processes: seq<Process>, quantum: nat, remaining: array<nat>, queue: seq<nat>, time: nat,
                 gantt: seq<GanttItem>, waiting: map<string, int>, turnaround: map<string, int>)
    returns (queue': seq<nat>, time': nat, gantt': seq<GanttItem>, waiting': map<string, int>, turnaround': map<string, int>)
    requires quantum >= 1
    requires Wf(processes, State(remaining[..], queue, time, gantt, waiting, turnaround))
    requires !Done(State(remaining[..], queue, time, gantt, waiting, turnaround))
    modifies remaining
    ensures State(remaining[..], queue', time', gantt', waiting', turnaround')
         == Step(processes, quantum, State(old(remaining[..]), queue, time, gantt, waiting, turnaround))
  {
    ghost var s := State(remaining[..], queue, time, gantt, waiting, turnaround);
    queue' := AdmitPass(processes, remaining, queue, time);
    AdmitExtends(processes, s.remaining, s.queue, time, 0);
    AdmitQueueOk(processes, s.remaining, s.queue, time, 0);
    AdmitComplete(processes, s.remaining, s.queue, time, 0);
    if |queue'| == 0 {
      // nothing is ready: jump to the next arrival
      time' := EarliestArrival(processes, remaining[..], remaining.Length).value;
      gantt', waiting', turnaround' := gantt, waiting, turnaround;
    } else {
      queue', time', gantt', waiting', turnaround' :=
        RunHead(processes, quantum, remaining, queue', time, gantt, waiting, turnaround);
    }
  }

  /** Every process starts with a waiting time of 0. */
  method ZeroWaiting(processes: seq<Process>) returns (waiting: map<string, int>)
    ensures waiting == Init(processes).waiting
  {
    waiting := map[];
    for i := 0 to |processes|
      invariant waiting.Keys == Ids(processes[..i]) && forall id :: id in waiting ==> waiting[id] == 0
    {
      waiting := waiting[processes[i].id := 0];
      assert processes[..i + 1] == processes[..i] + [processes[i]];
    }
    assert processes[..|processes|] == processes;
  }

  /** `roundRobin`: preemptive scheduling with a fixed quantum and arrival
      times. The counters live in a fresh array, updated in place. */
  method RoundRobin(processes: seq<Process>, quantum: nat) returns (r: SchedulerResult)
    requires quantum >= 1
    ensures r == RoundRobinSpec(processes, quantum)
    ensures UniqueIds(processes) ==> RoundRobinGuarantees(processes, quantum, r)
  {
    var n := |processes|;
    var remaining := new nat[n](i requires 0 <= i < n => processes[i].burst);
    var queue: seq<nat> := [];
    var gantt: seq<GanttItem> := [];
    var waiting := ZeroWaiting(processes);
    var turnaround: map<string, int> := map[];
    var time: nat := 0;
    ghost var init := Init(processes);
    assert remaining[..] == init.remaining;

    while (exists i | 0 <= i < n :: remaining[i] > 0) || |queue| > 0
      invariant remaining.Length == n
      invariant Wf(processes, State(remaining[..], queue, time, gantt, waiting, turnaround))
      invariant Run(processes, quantum, State(remaining[..], queue, time, gantt, waiting, turnaround))
             == Run(processes, quantum, init)
      decreases Total(remaining[..]), MaxArrival(processes) - time
    {
      queue, time, gantt, waiting, turnaround :=
        Iterate(processes, quantum, remaining, queue, time, gantt, waiting, turnaround);
    }

    ghost var last := State(remaining[..], queue, time, gantt, waiting, turnaround);
    assert Run(processes, quantum, last) == last;
    var avg := AverageWaitingTime(waiting, n);
    r := SchedulerResult(gantt, waiting, turnaround, avg);
    if UniqueIds(processes) {
      RoundRobinSpecGuarantees(processes, quantum);
    }
  }
}
