/**
  What every iteration of the Round Robin loop preserves, and what therefore
  holds of its result: slices are short, ordered and disjoint, each process
  receives exactly its burst and never before its arrival, the queue never
  holds a finished process, and the bookkeeping of a finished process is
  `turnaround = completion`, `waiting = completion - burst`.
*/
module RoundRobinInvariants {
  import opened Wrappers
  import opened Shapes
  import opened Colors
  import opened RoundRobinModel

  /** A process enters the queue only once it has arrived. */
  ghost predicate QueuedArrived(ps: seq<Process>, s: State) {
    forall k :: 0 <= k < |s.queue| ==> s.queue[k] < |ps| && ps[s.queue[k]].arrival <= s.time
  }

  /** Slices last between 1 and `quantum`, follow one another, and lie in the past. */
  ghost predicate TimelineShape(g: seq<GanttItem>, quantum: nat, time: nat) {
    && (forall k :: 0 <= k < |g| ==> 1 <= g[k].end - g[k].start <= quantum && g[k].end <= time)
    && (forall k :: 0 < k < |g| ==> g[k - 1].end <= g[k].start)
  }

  /** Every slice is a slice of an input process, labelled with its name and
      colour, and starts no earlier than that process's arrival. */
  ghost predicate SlicesOwned(ps: seq<Process>, g: seq<GanttItem>) {
    && (forall k :: 0 <= k < |g| ==> g[k].id in Ids(ps))
    && (forall k, i :: 0 <= k < |g| && 0 <= i < |ps| && g[k].id == ps[i].id ==>
          g[k].name == ps[i].name && g[k].colorIndex == HashColor(ps[i].id) && ps[i].arrival <= g[k].start)
  }

  /** The processor time given to process `i` is what it no longer needs. */
  ghost predicate ServedFor(ps: seq<Process>, s: State, i: nat)
    requires i < |ps| == |s.remaining|
  {
    s.remaining[i] <= ps[i].burst && Busy(SlicesOf(s.gantt, ps[i].id)) == ps[i].burst - s.remaining[i]
  }

  /** All slices of a process but its last are full quanta. */
  ghost predicate FullQuanta(sl: seq<GanttItem>, quantum: nat) {
    forall k :: 0 <= k < |sl| - 1 ==> sl[k].end - sl[k].start == quantum
  }

  /** ... and a last slice that is not a full quantum means the process is finished. */
  ghost predicate FullSlicesFor(ps: seq<Process>, quantum: nat, s: State, i: nat)
    requires i < |ps| == |s.remaining|
  {
    var sl := SlicesOf(s.gantt, ps[i].id);
    && FullQuanta(sl, quantum)
    && (sl != [] && sl[|sl| - 1].end - sl[|sl| - 1].start != quantum ==> s.remaining[i] == 0)
  }

  /** A process that has run has arrived and been served for its time. */
  ghost predicate Progress(ps: seq<Process>, s: State) {
    |s.remaining| == |ps| &&
    forall i :: 0 <= i < |ps| && s.remaining[i] < ps[i].burst ==>
      ps[i].arrival + (ps[i].burst - s.remaining[i]) <= s.time
  }

  ghost function FinishedIds(ps: seq<Process>, rem: seq<nat>): set<string>
    requires |rem| == |ps|
  {
    set i | 0 <= i < |ps| && ps[i].burst > 0 && rem[i] == 0 :: ps[i].id
  }

  /** The records of a completed process: its turnaround is the end of its
      last slice, its waiting time that minus its burst. */
  ghost predicate Completed(p: Process, g: seq<GanttItem>, waiting: map<string, int>, turnaround: map<string, int>) {
    var sl := SlicesOf(g, p.id);
    && sl != []
    && p.id in turnaround && p.id in waiting
    && turnaround[p.id] == sl[|sl| - 1].end
    && waiting[p.id] == turnaround[p.id] - p.burst
    && p.arrival + p.burst <= turnaround[p.id]
  }

  /** The records of process `i`: complete once it is finished, and a process
      with nothing to run keeps waiting time 0. */
  ghost predicate RecordsFor(ps: seq<Process>, s: State, i: nat)
    requires i < |ps| == |s.remaining|
  {
    && ps[i].id in s.waiting
    && (ps[i].burst > 0 && s.remaining[i] == 0 ==> Completed(ps[i], s.gantt, s.waiting, s.turnaround))
    && (ps[i].burst == 0 ==> s.waiting[ps[i].id] == 0)
  }

  /** What the invariant says of process `i`. */
  ghost predicate ProcessOk(ps: seq<Process>, quantum: nat, s: State, i: nat)
    requires i < |ps| == |s.remaining|
  {
    ServedFor(ps, s, i) && FullSlicesFor(ps, quantum, s, i) && RecordsFor(ps, s, i)
  }

  ghost predicate ProcessesOk(ps: seq<Process>, quantum: nat, s: State) {
    |s.remaining| == |ps| && forall i :: 0 <= i < |ps| ==> ProcessOk(ps, quantum, s, i)
  }

  /** The loop invariant. */
  ghost predicate Good(ps: seq<Process>, quantum: nat, s: State) {
    && Wf(ps, s)
    && QueuedArrived(ps, s)
    && TimelineShape(s.gantt, quantum, s.time)
    && SlicesOwned(ps, s.gantt)
    && Progress(ps, s)
    && s.turnaround.Keys == FinishedIds(ps, s.remaining)
    && ProcessesOk(ps, quantum, s)
  }

  lemma InitGood(ps: seq<Process>, quantum: nat)
    ensures Good(ps, quantum, Init(ps))
  {
    var s := Init(ps);
    assert FinishedIds(ps, s.remaining) == {};
    forall i | 0 <= i < |ps|
      ensures ps[i].id in Ids(ps)
    {
    }
  }

  /** Admission changes only the queue, and queues only processes that have arrived. */
  lemma AdmitGood(ps: seq<Process>, quantum: nat, s: State)
    requires Good(ps, quantum, s)
    ensures Good(ps, quantum, s.(queue := Admit(ps, s.remaining, s.queue, s.time, 0)))
  {
    AdmitExtends(ps, s.remaining, s.queue, s.time, 0);
    AdmitQueueOk(ps, s.remaining, s.queue, s.time, 0);
    AdmitArrived(ps, s.remaining, s.queue, s.time, 0);
    var r := s.(queue := Admit(ps, s.remaining, s.queue, s.time, 0));
    forall i | 0 <= i < |ps|
      ensures ProcessOk(ps, quantum, r, i)
    {
      assert ProcessOk(ps, quantum, s, i);
    }
  }

  /** An idle jump only moves the clock forward. */
  lemma IdleGood(ps: seq<Process>, quantum: nat, s: State, t: nat)
    requires Good(ps, quantum, s) && s.queue == [] && s.time <= t
    ensures Good(ps, quantum, s.(time := t))
  {
    var r := s.(time := t);
    forall i | 0 <= i < |ps|
      ensures ProcessOk(ps, quantum, r, i)
    {
      assert ProcessOk(ps, quantum, s, i);
    }
  }

  /** ... and the waiting time of every finished process. */
  ghost predicate SliceWaitingFor(ps: seq<Process>, s: State, r: State, i: nat)
    requires s.queue != [] && i < |ps| == |r.remaining|
  {
    var p := s.queue[0];
    r.remaining[i] == 0 ==>
      && ps[i].id in r.waiting && ps[i].id in s.waiting
      && r.waiting[ps[i].id] == (if i == p then r.time - ps[p].burst else s.waiting[ps[i].id])
  }

  ghost predicate SliceStep(ps: seq<Process>, quantum: nat, s: State, r: State) {
    && SliceCore(ps, quantum, s, r)
    && SliceQueue(ps, s, r)
    && forall i :: 0 <= i < |ps| ==> SliceWaitingFor(ps, s, r, i)
  }

  /** Accrual never touches a finished process. */
  lemma AccrueSkipsFinished(ps: seq<Process>, rem: seq<nat>, queue: seq<nat>, waiting: map<string, int>, exec: nat, i: nat)
    requires |rem| == |ps| && QueueOk(rem, queue) && UniqueIds(ps) && Ids(ps) <= waiting.Keys
    requires i < |ps| && rem[i] == 0
    ensures forall j :: 0 <= j < |queue| ==> queue[j] < |ps| && ps[queue[j]].id in waiting
    ensures ps[i].id in Accrue(ps, rem, queue, waiting, exec, 0)
    ensures Accrue(ps, rem, queue, waiting, exec, 0)[ps[i].id] == waiting[ps[i].id]
  {
    IdsMembers(ps);
    assert forall j :: 0 <= j < |queue| ==> queue[j] != i;
    AccrueFrame(ps, rem, queue, waiting, exec, 0, ps[i].id);
  }

  /** The waiting time of a finished process after a slice. */
  lemma SliceWaiting(ps: seq<Process>, quantum: nat, s: State, r: State)
    requires quantum >= 1 && Wf(ps, s) && s.queue != [] && UniqueIds(ps)
    requires SliceTo(ps, quantum, s, r) && Wf(ps, r)
    ensures forall i :: 0 <= i < |ps| ==> SliceWaitingFor(ps, s, r, i)
  {
    var p := s.queue[0];
    var waiting := if r.remaining[p] > 0 then s.waiting else s.waiting[ps[p].id := r.time - ps[p].burst];
    IdsMembers(ps);
    forall i | 0 <= i < |ps|
      ensures SliceWaitingFor(ps, s, r, i)
    {
      if r.remaining[i] == 0 {
        AccrueSkipsFinished(ps, r.remaining, r.queue, waiting, r.time - s.time, i);
      }
    }
  }

  lemma DispatchIsSliceStep(ps: seq<Process>, quantum: nat, s: State)
    requires quantum >= 1 && Wf(ps, s) && s.queue != [] && UniqueIds(ps)
    ensures Wf(ps, Dispatch(ps, quantum, s))
    ensures SliceStep(ps, quantum, s, Dispatch(ps, quantum, s))
  {
    DispatchSliceTo(ps, quantum, s);
    SliceToWf(ps, quantum, s, Dispatch(ps, quantum, s));
    SliceWaiting(ps, quantum, s, Dispatch(ps, quantum, s));
  }

  lemma DistinctIds(ps: seq<Process>, i: nat, j: nat)
    requires UniqueIds(ps) && i < |ps| && j < |ps| && i != j
    ensures ps[i].id != ps[j].id
  {
    if j < i {
      assert ps[j].id != ps[i].id;
    }
  }

  lemma SliceTimeline(ps: seq<Process>, quantum: nat, s: State, r: State)
    requires quantum >= 1 && TimelineShape(s.gantt, quantum, s.time) && SliceCore(ps, quantum, s, r)
    requires s.remaining[s.queue[0]] > 0
    ensures TimelineShape(r.gantt, quantum, r.time)
  {
  }

  lemma SliceOwned(ps: seq<Process>, quantum: nat, s: State, r: State)
    requires SlicesOwned(ps, s.gantt) && QueuedArrived(ps, s) && SliceCore(ps, quantum, s, r) && UniqueIds(ps)
    ensures SlicesOwned(ps, r.gantt)
  {
    IdsMembers(ps);
    var p := s.queue[0];
    forall i | 0 <= i < |ps| && i != p
      ensures ps[i].id != ps[p].id
    {
      DistinctIds(ps, i, p);
    }
  }

  /** The slice counts towards the process it ran and no other. */
  lemma SliceServedFor(ps: seq<Process>, quantum: nat, s: State, r: State, i: nat)
    requires SliceCore(ps, quantum, s, r) && i < |ps| && ServedFor(ps, s, i)
    requires i != s.queue[0] ==> ps[i].id != ps[s.queue[0]].id
    ensures ServedFor(ps, r, i)
  {
    var item := r.gantt[|r.gantt| - 1];
    assert r.gantt == s.gantt + [item];
    SlicesOfAppend(s.gantt, item, ps[i].id);
    var p := s.queue[0];
    if i == p {
      BusyAppend(SlicesOf(s.gantt, ps[i].id), item);
      assert item.end - item.start == s.remaining[p] - r.remaining[p];
    } else {
      assert item.id == ps[p].id;
      assert SlicesOf(r.gantt, ps[i].id) == SlicesOf(s.gantt, ps[i].id);
      assert r.remaining[i] == s.remaining[i];
    }
  }

  lemma SliceFullSlicesFor(ps: seq<Process>, quantum: nat, s: State, r: State, i: nat)
    requires SliceCore(ps, quantum, s, r) && i < |ps| && FullSlicesFor(ps, quantum, s, i)
    requires i != s.queue[0] ==> ps[i].id != ps[s.queue[0]].id
    requires s.remaining[s.queue[0]] > 0
    ensures FullSlicesFor(ps, quantum, r, i)
  {
    var item := r.gantt[|r.gantt| - 1];
    assert r.gantt == s.gantt + [item];
    SlicesOfAppend(s.gantt, item, ps[i].id);
  }

  lemma SliceRecordsFor(ps: seq<Process>, quantum: nat, s: State, r: State, i: nat)
    requires SliceCore(ps, quantum, s, r) && SliceQueue(ps, s, r) && i < |ps|
    requires SliceWaitingFor(ps, s, r, i) && RecordsFor(ps, s, i) && ServedFor(ps, s, i)
    requires Progress(ps, s) && QueuedArrived(ps, s)
    requires i != s.queue[0] ==> ps[i].id != ps[s.queue[0]].id
    requires s.remaining[s.queue[0]] > 0
    requires forall j :: 0 <= j < |ps| ==> ps[j].id in r.waiting
    ensures RecordsFor(ps, r, i)
  {
    var item := r.gantt[|r.gantt| - 1];
    assert r.gantt == s.gantt + [item];
    SlicesOfAppend(s.gantt, item, ps[i].id);
  }

  lemma SliceProgress(ps: seq<Process>, quantum: nat, s: State, r: State)
    requires Progress(ps, s) && QueuedArrived(ps, s) && SliceCore(ps, quantum, s, r)
    ensures Progress(ps, r)
  {
  }

  lemma SliceQueuedArrived(ps: seq<Process>, quantum: nat, s: State, r: State)
    requires QueuedArrived(ps, s) && SliceCore(ps, quantum, s, r) && SliceQueue(ps, s, r)
    ensures QueuedArrived(ps, r)
  {
  }

  /** A slice finishes at most the process it ran. */
  lemma FinishedAfterSlice(ps: seq<Process>, rem: seq<nat>, p: nat, v: nat)
    requires |rem| == |ps| && p < |ps| && 0 < rem[p] <= ps[p].burst
    ensures FinishedIds(ps, rem[p := v]) == FinishedIds(ps, rem) + (if v == 0 then {ps[p].id} else {})
  {
    var after := rem[p := v];
    forall x | x in FinishedIds(ps, after)
      ensures x in FinishedIds(ps, rem) + (if v == 0 then {ps[p].id} else {})
    {
      var i :| 0 <= i < |ps| && ps[i].burst > 0 && after[i] == 0 && ps[i].id == x;
      if i != p {
        assert rem[i] == 0;
      }
    }
    forall x | x in FinishedIds(ps, rem) + (if v == 0 then {ps[p].id} else {})
      ensures x in FinishedIds(ps, after)
    {
      if x in FinishedIds(ps, rem) {
        var i :| 0 <= i < |ps| && ps[i].burst > 0 && rem[i] == 0 && ps[i].id == x;
        assert after[i] == 0;
      } else {
        assert after[p] == 0;
      }
    }
  }

  /** One slice keeps what the invariant says of process `i`. */
  lemma SliceProcessOk(ps: seq<Process>, quantum: nat, s: State, r: State, i: nat)
    requires SliceCore(ps, quantum, s, r) && SliceQueue(ps, s, r) && i < |ps| && UniqueIds(ps)
    requires SliceWaitingFor(ps, s, r, i) && ProcessOk(ps, quantum, s, i)
    requires Progress(ps, s) && QueuedArrived(ps, s)
    requires s.remaining[s.queue[0]] > 0
    requires forall j :: 0 <= j < |ps| ==> ps[j].id in r.waiting
    ensures ProcessOk(ps, quantum, r, i)
  {
    if i != s.queue[0] {
      DistinctIds(ps, i, s.queue[0]);
    }
    SliceServedFor(ps, quantum, s, r, i);
    SliceFullSlicesFor(ps, quantum, s, r, i);
    SliceRecordsFor(ps, quantum, s, r, i);
  }

  lemma SliceProcessesOk(ps: seq<Process>, quantum: nat, s: State, r: State)
    requires SliceStep(ps, quantum, s, r) && UniqueIds(ps) && ProcessesOk(ps, quantum, s)
    requires Progress(ps, s) && QueuedArrived(ps, s)
    requires s.remaining[s.queue[0]] > 0
    requires forall j :: 0 <= j < |ps| ==> ps[j].id in r.waiting
    ensures ProcessesOk(ps, quantum, r)
  {
    forall i | 0 <= i < |ps|
      ensures ProcessOk(ps, quantum, r, i)
    {
      assert ProcessOk(ps, quantum, s, i) && SliceWaitingFor(ps, s, r, i);
      SliceProcessOk(ps, quantum, s, r, i);
    }
  }

  /** One slice preserves the invariant. */
  lemma DispatchGood(ps: seq<Process>, quantum: nat, s: State)
    requires quantum >= 1 && Good(ps, quantum, s) && s.queue != [] && UniqueIds(ps)
    ensures Good(ps, quantum, Dispatch(ps, quantum, s))
  {
    DispatchIsSliceStep(ps, quantum, s);
    var r := Dispatch(ps, quantum, s);
    var p := s.queue[0];
    assert s.remaining[p] > 0;
    SliceQueuedArrived(ps, quantum, s, r);
    SliceTimeline(ps, quantum, s, r);
    SliceOwned(ps, quantum, s, r);
    SliceProgress(ps, quantum, s, r);
    IdsMembers(ps);
    assert ProcessOk(ps, quantum, s, p);
    FinishedAfterSlice(ps, s.remaining, p, r.remaining[p]);
    SliceProcessesOk(ps, quantum, s, r);
  }

  /** Every iteration of the loop preserves the invariant. */
  lemma StepGood(ps: seq<Process>, quantum: nat, s: State)
    requires quantum >= 1 && Good(ps, quantum, s) && !Done(s) && UniqueIds(ps)
    ensures Good(ps, quantum, Step(ps, quantum, s))
  {
    var a := s.(queue := Admit(ps, s.remaining, s.queue, s.time, 0));
    AdmitGood(ps, quantum, s);
    if a.queue == [] {
      IdleGood(ps, quantum, a, Step(ps, quantum, s).time);
    } else {
      DispatchGood(ps, quantum, a);
    }
  }

  lemma {:induction false} RunGood(ps: seq<Process>, quantum: nat, s: State)
    requires quantum >= 1 && Good(ps, quantum, s) && UniqueIds(ps)
    ensures Good(ps, quantum, Run(ps, quantum, s))
    decreases Total(s.remaining), MaxArrival(ps) - s.time
  {
    if !Done(s) {
      StepGood(ps, quantum, s);
      RunGood(ps, quantum, Step(ps, quantum, s));
    }
  }

  /** What `roundRobin` promises of its result `r`. */
  ghost predicate RoundRobinGuarantees(ps: seq<Process>, quantum: nat, r: SchedulerResult) {
    var g := r.gantt;
    // every slice lasts between 1 and `quantum` units, and slices never overlap
    && (forall k :: 0 <= k < |g| ==> 1 <= g[k].end - g[k].start <= quantum)
    && (forall k, l :: 0 <= k < l < |g| ==> g[k].end <= g[l].start)
    // slices belong to input processes and start after their arrival
    && SlicesOwned(ps, g)
    // each process receives exactly its burst, in full quanta but the last
    && (forall i :: 0 <= i < |ps| ==> Busy(SlicesOf(g, ps[i].id)) == ps[i].burst)
    && (forall i :: 0 <= i < |ps| ==> FullQuanta(SlicesOf(g, ps[i].id), quantum))
    // bookkeeping
    && r.waitingTimes.Keys == Ids(ps)
    && r.turnaroundTimes.Keys == (set i | 0 <= i < |ps| && ps[i].burst > 0 :: ps[i].id)
    && (forall i :: 0 <= i < |ps| && ps[i].burst > 0 ==>
          Completed(ps[i], g, r.waitingTimes, r.turnaroundTimes))
    && (forall i :: 0 <= i < |ps| && ps[i].burst == 0 ==>
          SlicesOf(g, ps[i].id) == [] && r.waitingTimes[ps[i].id] == 0)
    && r.averageWaitingTime == Mean(SumAt(ps, r.waitingTimes), |ps|)
  }

  /** A finished process has received its burst, in full quanta but the last,
      and its records are complete. */
  lemma FinishedProcess(ps: seq<Process>, quantum: nat, s: State, i: nat)
    requires i < |ps| == |s.remaining| && s.remaining[i] == 0
    requires TimelineShape(s.gantt, quantum, s.time)
    requires ServedFor(ps, s, i) && FullSlicesFor(ps, quantum, s, i) && RecordsFor(ps, s, i)
    ensures Busy(SlicesOf(s.gantt, ps[i].id)) == ps[i].burst
    ensures FullQuanta(SlicesOf(s.gantt, ps[i].id), quantum)
    ensures ps[i].burst > 0 ==> Completed(ps[i], s.gantt, s.waiting, s.turnaround)
    ensures ps[i].burst == 0 ==> SlicesOf(s.gantt, ps[i].id) == [] && s.waiting[ps[i].id] == 0
  {
    var sl := SlicesOf(s.gantt, ps[i].id);
    SlicesOfMembers(s.gantt, ps[i].id);
    forall k | 0 <= k < |sl|
      ensures sl[k].end - sl[k].start >= 1
    {
      var j :| 0 <= j < |s.gantt| && s.gantt[j] == sl[k];
    }
    BusyCountsSlices(sl);
  }

  /** At the end of the loop every process is finished. */
  lemma AllFinished(ps: seq<Process>, quantum: nat, s: State)
    requires Good(ps, quantum, s) && Done(s)
    ensures forall i :: 0 <= i < |ps| ==> Busy(SlicesOf(s.gantt, ps[i].id)) == ps[i].burst
    ensures forall i :: 0 <= i < |ps| ==> FullQuanta(SlicesOf(s.gantt, ps[i].id), quantum)
    ensures forall i :: 0 <= i < |ps| && ps[i].burst > 0 ==> Completed(ps[i], s.gantt, s.waiting, s.turnaround)
    ensures forall i :: 0 <= i < |ps| && ps[i].burst == 0 ==>
              SlicesOf(s.gantt, ps[i].id) == [] && s.waiting[ps[i].id] == 0
  {
    forall i | 0 <= i < |ps|
      ensures Busy(SlicesOf(s.gantt, ps[i].id)) == ps[i].burst
      ensures FullQuanta(SlicesOf(s.gantt, ps[i].id), quantum)
      ensures ps[i].burst > 0 ==> Completed(ps[i], s.gantt, s.waiting, s.turnaround)
      ensures ps[i].burst == 0 ==> SlicesOf(s.gantt, ps[i].id) == [] && s.waiting[ps[i].id] == 0
    {
      assert ProcessOk(ps, quantum, s, i);
      FinishedProcess(ps, quantum, s, i);
    }
  }

  lemma TimelineDisjoint(g: seq<GanttItem>, quantum: nat, time: nat)
    requires TimelineShape(g, quantum, time)
    ensures forall k :: 0 <= k < |g| ==> 1 <= g[k].end - g[k].start <= quantum
    ensures forall k, l :: 0 <= k < l < |g| ==> g[k].end <= g[l].start
  {
    TimelineOrdered(g);
  }

  lemma DoneFinishedIds(ps: seq<Process>, s: State)
    requires |s.remaining| == |ps| && Done(s)
    ensures FinishedIds(ps, s.remaining) == (set i | 0 <= i < |ps| && ps[i].burst > 0 :: ps[i].id)
  {
  }

  /** The records of a finished loop, read as a result. */
  lemma FinalResult(ps: seq<Process>, quantum: nat, g: seq<GanttItem>, waiting: map<string, int>, turnaround: map<string, int>)
    requires UniqueIds(ps) && SlicesOwned(ps, g) && waiting.Keys == Ids(ps)
    requires forall k :: 0 <= k < |g| ==> 1 <= g[k].end - g[k].start <= quantum
    requires forall k, l :: 0 <= k < l < |g| ==> g[k].end <= g[l].start
    requires forall i :: 0 <= i < |ps| ==> Busy(SlicesOf(g, ps[i].id)) == ps[i].burst
    requires forall i :: 0 <= i < |ps| ==> FullQuanta(SlicesOf(g, ps[i].id), quantum)
    requires forall i :: 0 <= i < |ps| && ps[i].burst > 0 ==> Completed(ps[i], g, waiting, turnaround)
    requires forall i :: 0 <= i < |ps| && ps[i].burst == 0 ==> SlicesOf(g, ps[i].id) == [] && waiting[ps[i].id] == 0
    requires turnaround.Keys == (set i | 0 <= i < |ps| && ps[i].burst > 0 :: ps[i].id)
    ensures RoundRobinGuarantees(ps, quantum, SchedulerResult(g, waiting, turnaround, Mean(SumValues(waiting), |ps|)))
  {
    SumValuesByProcess(ps, waiting);
  }

  /** The final state of the loop, read as a result. */
  lemma FinalGuarantees(ps: seq<Process>, quantum: nat, s: State)
    requires quantum >= 1 && Good(ps, quantum, s) && Done(s) && UniqueIds(ps)
    ensures RoundRobinGuarantees(ps, quantum,
              SchedulerResult(s.gantt, s.waiting, s.turnaround, Mean(SumValues(s.waiting), |ps|)))
  {
    TimelineDisjoint(s.gantt, quantum, s.time);
    DoneFinishedIds(ps, s);
    AllFinished(ps, quantum, s);
    FinalResult(ps, quantum, s.gantt, s.waiting, s.turnaround);
  }

  /** With distinct ids, `roundRobin` keeps every promise above. */
  lemma RoundRobinSpecGuarantees(ps: seq<Process>, quantum: nat)
    requires quantum >= 1 && UniqueIds(ps)
    ensures RoundRobinGuarantees(ps, quantum, RoundRobinSpec(ps, quantum))
  {
    InitGood(ps, quantum);
    RunGood(ps, quantum, Init(ps));
    FinalGuarantees(ps, quantum, Run(ps, quantum, Init(ps)));
  }
}
