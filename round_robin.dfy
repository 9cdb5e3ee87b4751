/**
  Round Robin with arrival times, as the state machine that the loop of
  `roundRobin` runs. One loop iteration is `Step`: admit every process that
  has arrived, then either jump the clock to the next arrival (nothing is
  ready) or run the head of the queue for one slice (`Dispatch`).
*/
module RoundRobinModel {
  import opened Wrappers
  import opened Shapes
  import opened Colors

  /** The loop's variables: `remaining[i]` is the counter on the clone of
      process `i`, the queue holds indices of those clones, and the two maps
      are keyed by process id. */
  datatype State = State(
    remaining: seq<nat>,
    queue: seq<nat>,
    time: nat,
    gantt: seq<GanttItem>,
    waiting: map<string, int>,
    turnaround: map<string, int>)

  function Bursts(ps: seq<Process>): seq<nat> {
    seq(|ps|, i requires 0 <= i < |ps| => ps[i].burst)
  }

  /** Work still to be done. */
  function Total(rem: seq<nat>): nat {
    if rem == [] then 0 else Total(rem[..|rem| - 1]) + rem[|rem| - 1]
  }

  lemma {:induction false} TotalUpdate(rem: seq<nat>, p: nat, v: nat)
    requires p < |rem|
    ensures Total(rem[p := v]) == Total(rem) - rem[p] + v
    decreases |rem|
  {
    var n := |rem|;
    assert rem[p := v][..n - 1] == if p < n - 1 then rem[..n - 1][p := v] else rem[..n - 1];
    if p < n - 1 {
      TotalUpdate(rem[..n - 1], p, v);
    }
  }

  lemma {:induction false} TotalZero(rem: seq<nat>)
    requires forall i :: 0 <= i < |rem| ==> rem[i] == 0
    ensures Total(rem) == 0
  {
    if rem != [] {
      TotalZero(rem[..|rem| - 1]);
    }
  }

  /** The latest arrival of any process: the clock never jumps past it. */
  function MaxArrival(ps: seq<Process>): (m: nat)
    ensures forall i :: 0 <= i < |ps| ==> ps[i].arrival <= m
  {
    if ps == [] then 0
    else
      var m := MaxArrival(ps[..|ps| - 1]);
      assert forall i :: 0 <= i < |ps| - 1 ==> ps[i] == ps[..|ps| - 1][i];
      if m < ps[|ps| - 1].arrival then ps[|ps| - 1].arrival else m
  }

  /** The queue holds distinct indices of unfinished processes. */
  predicate QueueOk(rem: seq<nat>, queue: seq<nat>) {
    && (forall k :: 0 <= k < |queue| ==> queue[k] < |rem| && rem[queue[k]] > 0)
    && (forall k, l :: 0 <= k < l < |queue| ==> queue[k] != queue[l])
  }

  /** What the loop needs to be defined and to terminate. */
  predicate Wf(ps: seq<Process>, s: State) {
    |s.remaining| == |ps| && QueueOk(s.remaining, s.queue) && s.waiting.Keys == Ids(ps)
  }

  /** The admission pass over processes `i..`: each unfinished process that has
      arrived and is not queued yet joins the tail, in input order. */
  function Admit(ps: seq<Process>, rem: seq<nat>, queue: seq<nat>, time: nat, i: nat): seq<nat>
    requires |rem| == |ps| && i <= |ps|
    decreases |ps| - i
  {
    if i == |ps| then queue
    else Admit(ps, rem, if rem[i] > 0 && ps[i].arrival <= time && i !in queue then queue + [i] else queue, time, i + 1)
  }

  lemma QueueOkPush(rem: seq<nat>, queue: seq<nat>, i: nat)
    requires QueueOk(rem, queue) && i < |rem| && rem[i] > 0 && i !in queue
    ensures QueueOk(rem, queue + [i])
  {
  }

  /** Admission only appends to the queue. */
  lemma {:induction false} AdmitExtends(ps: seq<Process>, rem: seq<nat>, queue: seq<nat>, time: nat, i: nat)
    requires |rem| == |ps| && i <= |ps|
    ensures var r := Admit(ps, rem, queue, time, i);
      |queue| <= |r| && r[..|queue|] == queue
    decreases |ps| - i
  {
    if i < |ps| {
      var admit := rem[i] > 0 && ps[i].arrival <= time && i !in queue;
      var queue' := if admit then queue + [i] else queue;
      AdmitExtends(ps, rem, queue', time, i + 1);
      var r := Admit(ps, rem, queue', time, i + 1);
      assert r[..|queue|] == r[..|queue'|][..|queue|];
    }
  }

  /** Admission keeps the queue well formed: no duplicates, only unfinished
      processes. */
  lemma {:induction false} AdmitQueueOk(ps: seq<Process>, rem: seq<nat>, queue: seq<nat>, time: nat, i: nat)
    requires |rem| == |ps| && i <= |ps| && QueueOk(rem, queue)
    ensures QueueOk(rem, Admit(ps, rem, queue, time, i))
    decreases |ps| - i
  {
    if i < |ps| {
      if rem[i] > 0 && ps[i].arrival <= time && i !in queue {
        QueueOkPush(rem, queue, i);
        AdmitQueueOk(ps, rem, queue + [i], time, i + 1);
      } else {
        AdmitQueueOk(ps, rem, queue, time, i + 1);
      }
    }
  }

  /** What admission appends are processes from `i` on that have arrived. */
  lemma {:induction false} AdmitArrived(ps: seq<Process>, rem: seq<nat>, queue: seq<nat>, time: nat, i: nat)
    requires |rem| == |ps| && i <= |ps|
    ensures var r := Admit(ps, rem, queue, time, i);
      |queue| <= |r| && forall k :: |queue| <= k < |r| ==> i <= r[k] < |ps| && ps[r[k]].arrival <= time
    decreases |ps| - i
  {
    if i < |ps| {
      var admit := rem[i] > 0 && ps[i].arrival <= time && i !in queue;
      var queue' := if admit then queue + [i] else queue;
      AdmitArrived(ps, rem, queue', time, i + 1);
      AdmitExtends(ps, rem, queue', time, i + 1);
    }
  }

  /** After admission, every unfinished process from `i` on that has arrived
      is in the queue. */
  lemma {:induction false} AdmitComplete(ps: seq<Process>, rem: seq<nat>, queue: seq<nat>, time: nat, i: nat)
    requires |rem| == |ps| && i <= |ps|
    ensures var r := Admit(ps, rem, queue, time, i);
      forall j :: (i <= j < |ps| && rem[j] > 0 && ps[j].arrival <= time) || j in queue ==> j in r
    decreases |ps| - i
  {
    if i < |ps| {
      var admit := rem[i] > 0 && ps[i].arrival <= time && i !in queue;
      var queue' := if admit then queue + [i] else queue;
      AdmitComplete(ps, rem, queue', time, i + 1);
    }
  }

  /** The accrual pass after a slice: `exec` is added to the waiting time of
      every unfinished process in the queue, from position `k` on. */
  function Accrue(ps: seq<Process>, rem: seq<nat>, queue: seq<nat>, waiting: map<string, int>, exec: nat, k: nat)
    : map<string, int>
    requires |rem| == |ps| && k <= |queue|
    requires forall j :: 0 <= j < |queue| ==> queue[j] < |ps| && ps[queue[j]].id in waiting
    decreases |queue| - k
  {
    if k == |queue| then waiting
    else
      var id := ps[queue[k]].id;
      var waiting' := if rem[queue[k]] > 0 then waiting[id := waiting[id] + exec] else waiting;
      Accrue(ps, rem, queue, waiting', exec, k + 1)
  }

  /** Accrual adds no key and drops none. */
  lemma {:induction false} AccrueKeys(ps: seq<Process>, rem: seq<nat>, queue: seq<nat>, waiting: map<string, int>, exec: nat, k: nat)
    requires |rem| == |ps| && k <= |queue|
    requires forall j :: 0 <= j < |queue| ==> queue[j] < |ps| && ps[queue[j]].id in waiting
    ensures Accrue(ps, rem, queue, waiting, exec, k).Keys == waiting.Keys
    decreases |queue| - k
  {
    if k < |queue| {
      var id := ps[queue[k]].id;
      var waiting' := if rem[queue[k]] > 0 then waiting[id := waiting[id] + exec] else waiting;
      AccrueKeys(ps, rem, queue, waiting', exec, k + 1);
    }
  }

  /** Accrual leaves alone every process that is not in the queue. */
  lemma {:induction false} AccrueFrame(ps: seq<Process>, rem: seq<nat>, queue: seq<nat>, waiting: map<string, int>, exec: nat, k: nat, x: string)
    requires |rem| == |ps| && k <= |queue|
    requires forall j :: 0 <= j < |queue| ==> queue[j] < |ps| && ps[queue[j]].id in waiting
    requires x in waiting && forall j :: k <= j < |queue| ==> ps[queue[j]].id != x
    ensures x in Accrue(ps, rem, queue, waiting, exec, k)
    ensures Accrue(ps, rem, queue, waiting, exec, k)[x] == waiting[x]
    decreases |queue| - k
  {
    if k < |queue| {
      var id := ps[queue[k]].id;
      var waiting' := if rem[queue[k]] > 0 then waiting[id := waiting[id] + exec] else waiting;
      AccrueFrame(ps, rem, queue, waiting', exec, k + 1, x);
    }
  }

  /** When the queued ids are distinct, accrual charges `exec` exactly once to
      each unfinished process in the queue. */
  lemma {:induction false} AccrueCharges(ps: seq<Process>, rem: seq<nat>, queue: seq<nat>, waiting: map<string, int>, exec: nat, k: nat, j: nat)
    requires |rem| == |ps| && k <= j < |queue|
    requires forall l :: 0 <= l < |queue| ==> queue[l] < |ps| && ps[queue[l]].id in waiting
    requires forall l :: k <= l < |queue| && l != j ==> ps[queue[l]].id != ps[queue[j]].id
    requires rem[queue[j]] > 0
    ensures ps[queue[j]].id in Accrue(ps, rem, queue, waiting, exec, k)
    ensures Accrue(ps, rem, queue, waiting, exec, k)[ps[queue[j]].id] == waiting[ps[queue[j]].id] + exec
    decreases |queue| - k
  {
    var id := ps[queue[k]].id;
    var waiting' := if rem[queue[k]] > 0 then waiting[id := waiting[id] + exec] else waiting;
    if k == j {
      AccrueFrame(ps, rem, queue, waiting', exec, k + 1, id);
    } else {
      AccrueCharges(ps, rem, queue, waiting', exec, k + 1, j);
    }
  }

  /** `Math.min` over the arrivals of the unfinished processes among the first `n`. */
  function EarliestArrival(ps: seq<Process>, rem: seq<nat>, n: nat): (r: Option<nat>)
    requires |rem| == |ps| && n <= |ps|
    ensures r.Some? <==> exists i :: 0 <= i < n && rem[i] > 0
    ensures r.Some? ==> exists i :: 0 <= i < n && rem[i] > 0 && ps[i].arrival == r.value
    ensures r.Some? ==> forall i :: 0 <= i < n && rem[i] > 0 ==> r.value <= ps[i].arrival
  {
    if n == 0 then None
    else
      var earlier := EarliestArrival(ps, rem, n - 1);
      if rem[n - 1] == 0 then earlier
      else if earlier.Some? && earlier.value <= ps[n - 1].arrival then earlier
      else Some(ps[n - 1].arrival)
  }

  /** The loop runs while some process has work left or the queue is not empty. */
  predicate Done(s: State) {
    (forall i :: 0 <= i < |s.remaining| ==> s.remaining[i] == 0) && s.queue == []
  }

  /** Run the head of the queue for `min(quantum, remaining)`, record the slice,
      re-queue the process at the tail if it still has work (else record its
      completion), then charge the slice to everyone in the queue. */
  function Dispatch(ps: seq<Process>, quantum: nat, s: State): State
    requires Wf(ps, s) && s.queue != []
  {
    var p := s.queue[0];
    var exec := if quantum < s.remaining[p] then quantum else s.remaining[p];
    var end := s.time + exec;
    var rem := s.remaining[p := s.remaining[p] - exec];
    var item := GanttItem(ps[p].id, ps[p].name, s.time, end, HashColor(ps[p].id));
    var queue := if rem[p] > 0 then s.queue[1..] + [p] else s.queue[1..];
    var turnaround := if rem[p] > 0 then s.turnaround else s.turnaround[ps[p].id := end];
    var waiting := if rem[p] > 0 then s.waiting else s.waiting[ps[p].id := end - ps[p].burst];
    IdsMembers(ps);
    State(rem, queue, end, s.gantt + [item], Accrue(ps, rem, queue, waiting, exec, 0), turnaround)
  }

  lemma IdsMembers(ps: seq<Process>)
    ensures forall i :: 0 <= i < |ps| ==> ps[i].id in Ids(ps)
  {
  }

  /** Dropping the head and changing its counter leaves a well-formed queue. */
  lemma QueueOkTail(rem: seq<nat>, queue: seq<nat>, v: nat)
    requires QueueOk(rem, queue) && queue != []
    ensures QueueOk(rem[queue[0] := v], queue[1..])
  {
    var tail := queue[1..];
    assert forall k :: 0 <= k < |tail| ==> tail[k] == queue[k + 1] != queue[0];
  }

  /** The queue after a slice: the head leaves, and rejoins at the tail if
      it still has work. */
  lemma SliceQueueOk(rem: seq<nat>, queue: seq<nat>, v: nat)
    requires QueueOk(rem, queue) && queue != []
    ensures QueueOk(rem[queue[0] := v], if v > 0 then queue[1..] + [queue[0]] else queue[1..])
  {
    QueueOkTail(rem, queue, v);
    if v > 0 {
      QueueOkPush(rem[queue[0] := v], queue[1..], queue[0]);
    }
  }

  lemma UpdateKeys(m: map<string, int>, k: string, v: int)
    requires k in m
    ensures m[k := v].Keys == m.Keys
  {
  }

  /** `r` is `s` after one slice of the head `p` of its queue: the clock, the
      counters and the timeline. */
  ghost predicate SliceCore(ps: seq<Process>, quantum: nat, s: State, r: State) {
    && s.queue != [] && s.queue[0] < |ps| && |s.remaining| == |ps|
    && var p := s.queue[0];
       var exec := r.time - s.time;
       && exec == (if quantum < s.remaining[p] then quantum else s.remaining[p])
       && r.remaining == s.remaining[p := s.remaining[p] - exec]
       && r.gantt == s.gantt + [GanttItem(ps[p].id, ps[p].name, s.time, r.time, HashColor(ps[p].id))]
  }

  /** ... the queue and the turnaround record ... */
  ghost predicate SliceQueue(ps: seq<Process>, s: State, r: State)
    requires s.queue != [] && s.queue[0] < |ps| == |r.remaining|
  {
    var p := s.queue[0];
    && r.queue == (if r.remaining[p] > 0 then s.queue[1..] + [p] else s.queue[1..])
    && r.turnaround == (if r.remaining[p] > 0 then s.turnaround else s.turnaround[ps[p].id := r.time])
  }

  /** ... and the waiting times: the finished head's record, then the
      accrual pass over the new queue. Together, `r` is `Dispatch` of `s`. */
  ghost predicate SliceTo(ps: seq<Process>, quantum: nat, a: State, r: State) {
    && SliceCore(ps, quantum, a, r)
    && SliceQueue(ps, a, r)
    && var p := a.queue[0];
       var w := if r.remaining[p] > 0 then a.waiting else a.waiting[ps[p].id := r.time - ps[p].burst];
       && (forall j :: 0 <= j < |r.queue| ==> r.queue[j] < |ps| && ps[r.queue[j]].id in w)
       && r.waiting == Accrue(ps, r.remaining, r.queue, w, r.time - a.time, 0)
  }

  /** `Dispatch` of `s` is a slice of `s`. */
  lemma DispatchCore(ps: seq<Process>, quantum: nat, s: State)
    requires Wf(ps, s) && s.queue != []
    ensures SliceCore(ps, quantum, s, Dispatch(ps, quantum, s))
    ensures SliceQueue(ps, s, Dispatch(ps, quantum, s))
  {
  }

  /** A slice keeps the queue well formed and consumes work. */
  lemma SliceQueueWf(ps: seq<Process>, quantum: nat, s: State, r: State)
    requires quantum >= 1 && Wf(ps, s) && SliceCore(ps, quantum, s, r) && SliceQueue(ps, s, r)
    ensures QueueOk(r.remaining, r.queue) && Total(r.remaining) < Total(s.remaining)
  {
    var p := s.queue[0];
    var v := r.remaining[p];
    assert r.remaining == s.remaining[p := v];
    assert r.queue == if v > 0 then s.queue[1..] + [p] else s.queue[1..];
    SliceQueueOk(s.remaining, s.queue, v);
    TotalUpdate(s.remaining, p, v);
  }

  lemma DispatchSliceTo(ps: seq<Process>, quantum: nat, s: State)
    requires quantum >= 1 && Wf(ps, s) && s.queue != []
    ensures SliceTo(ps, quantum, s, Dispatch(ps, quantum, s))
  {
    var r := Dispatch(ps, quantum, s);
    DispatchCore(ps, quantum, s);
    SliceQueueWf(ps, quantum, s, r);
    IdsMembers(ps);
  }

  lemma SliceToWf(ps: seq<Process>, quantum: nat, s: State, r: State)
    requires quantum >= 1 && Wf(ps, s) && s.queue != [] && SliceTo(ps, quantum, s, r)
    ensures Wf(ps, r) && Total(r.remaining) < Total(s.remaining)
  {
    SliceQueueWf(ps, quantum, s, r);
    var p := s.queue[0];
    var w := if r.remaining[p] > 0 then s.waiting else s.waiting[ps[p].id := r.time - ps[p].burst];
    IdsMembers(ps);
    UpdateKeys(s.waiting, ps[p].id, r.time - ps[p].burst);
    assert w.Keys == s.waiting.Keys;
    AccrueKeys(ps, r.remaining, r.queue, w, r.time - s.time, 0);
  }

  /** A slice keeps the loop state well formed and consumes work. */
  lemma DispatchWf(ps: seq<Process>, quantum: nat, s: State)
    requires quantum >= 1 && Wf(ps, s) && s.queue != []
    ensures Wf(ps, Dispatch(ps, quantum, s))
    ensures Total(Dispatch(ps, quantum, s).remaining) < Total(s.remaining)
  {
    DispatchSliceTo(ps, quantum, s);
    SliceToWf(ps, quantum, s, Dispatch(ps, quantum, s));
  }

  /** ... and only `Dispatch` of `a` is. */
  lemma DispatchIs(ps: seq<Process>, quantum: nat, a: State, r: State)
    requires quantum >= 1 && Wf(ps, a) && a.queue != [] && SliceTo(ps, quantum, a, r)
    ensures Dispatch(ps, quantum, a) == r
  {
    DispatchSliceTo(ps, quantum, a);
    var d := Dispatch(ps, quantum, a);
    assert d.time == r.time;
    assert d.remaining == r.remaining;
    assert d.queue == r.queue && d.turnaround == r.turnaround;
    assert d.gantt == r.gantt;
    assert d.waiting == r.waiting;
  }

  /** One iteration of the loop. */
  function Step(ps: seq<Process>, quantum: nat, s: State): (r: State)
    requires quantum >= 1 && Wf(ps, s) && !Done(s)
    ensures Wf(ps, r)
    ensures || Total(r.remaining) < Total(s.remaining)
            || (Total(r.remaining) == Total(s.remaining) && s.time < r.time <= MaxArrival(ps))
  {
    var queue := Admit(ps, s.remaining, s.queue, s.time, 0);
    AdmitExtends(ps, s.remaining, s.queue, s.time, 0);
    AdmitQueueOk(ps, s.remaining, s.queue, s.time, 0);
    AdmitComplete(ps, s.remaining, s.queue, s.time, 0);
    if queue == [] then
      var next := EarliestArrival(ps, s.remaining, |ps|);
      assert next.Some? ==> s.time < next.value;
      s.(queue := queue, time := next.value)
    else
      DispatchWf(ps, quantum, s.(queue := queue));
      Dispatch(ps, quantum, s.(queue := queue))
  }

  /** The whole loop: iterate `Step` until `Done`. */
  function Run(ps: seq<Process>, quantum: nat, s: State): (r: State)
    requires quantum >= 1 && Wf(ps, s)
    ensures Wf(ps, r) && Done(r)
    decreases Total(s.remaining), MaxArrival(ps) - s.time
  {
    if Done(s) then s else Run(ps, quantum, Step(ps, quantum, s))
  }

  /** The state before the loop: fresh counters, every waiting time 0. */
  function Init(ps: seq<Process>): State {
    State(Bursts(ps), [], 0, [], map id | id in Ids(ps) :: 0, map[])
  }

  /** The result of `roundRobin(ps, quantum)`. */
  ghost function RoundRobinSpec(ps: seq<Process>, quantum: nat): SchedulerResult
    requires quantum >= 1
  {
    var s := Run(ps, quantum, Init(ps));
    SchedulerResult(s.gantt, s.waiting, s.turnaround, Mean(SumValues(s.waiting), |ps|))
  }
}
