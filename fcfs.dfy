/**
  First-come-first-served: the processes run one after another in input
  order, each to completion, and `arrival` is never consulted.
*/
module FcfsModel {
  import opened Wrappers
  import opened Shapes
  import opened Colors

  /** The single slice of process `i`: it starts once every earlier process
      has run to completion. */
  function FcfsItem(ps: seq<Process>, i: nat): GanttItem
    requires i < |ps|
  {
    GanttItem(ps[i].id, ps[i].name, TotalBurst(ps[..i]), TotalBurst(ps[..i]) + ps[i].burst, HashColor(ps[i].id))
  }

  /** The waiting times `fcfs` has recorded after its first `k` processes. */
  function FcfsWaiting(ps: seq<Process>, k: nat): map<string, int>
    requires k <= |ps|
  {
    if k == 0 then map[] else FcfsWaiting(ps, k - 1)[ps[k - 1].id := TotalBurst(ps[..k - 1])]
  }

  /** The turnaround times `fcfs` has recorded after its first `k` processes. */
  function FcfsTurnaround(ps: seq<Process>, k: nat): map<string, int>
    requires k <= |ps|
  {
    if k == 0 then map[] else FcfsTurnaround(ps, k - 1)[ps[k - 1].id := TotalBurst(ps[..k])]
  }

  /** Both record one entry per process seen so far ... */
  lemma {:induction false} FcfsRecordKeys(ps: seq<Process>, k: nat)
    requires k <= |ps|
    ensures FcfsWaiting(ps, k).Keys == Ids(ps[..k])
    ensures FcfsTurnaround(ps, k).Keys == Ids(ps[..k])
  {
    if k > 0 {
      FcfsRecordKeys(ps, k - 1);
      IdsPrefix(ps, k - 1);
    }
  }

  /** ... and, when ids are distinct, a process waits for every process
      before it ... */
  lemma {:induction false} FcfsWaitingValues(ps: seq<Process>, k: nat)
    requires k <= |ps| && UniqueIds(ps)
    ensures forall j {:trigger FcfsWaiting(ps, k)[ps[j].id]} :: 0 <= j < k ==>
              ps[j].id in FcfsWaiting(ps, k) && FcfsWaiting(ps, k)[ps[j].id] == TotalBurst(ps[..j])
  {
    if k > 0 {
      FcfsWaitingValues(ps, k - 1);
      assert FcfsWaiting(ps, k)[ps[k - 1].id] == TotalBurst(ps[..k - 1]);
      forall j | 0 <= j < k - 1
        ensures ps[j].id in FcfsWaiting(ps, k) && FcfsWaiting(ps, k)[ps[j].id] == TotalBurst(ps[..j])
      {
        assert ps[j].id != ps[k - 1].id;
      }
    }
  }

  /** ... and turns around once it has run too. */
  lemma {:induction false} FcfsTurnaroundValues(ps: seq<Process>, k: nat)
    requires k <= |ps| && UniqueIds(ps)
    ensures forall j {:trigger FcfsTurnaround(ps, k)[ps[j].id]} :: 0 <= j < k ==>
              ps[j].id in FcfsTurnaround(ps, k) && FcfsTurnaround(ps, k)[ps[j].id] == TotalBurst(ps[..j]) + ps[j].burst
  {
    if k > 0 {
      FcfsTurnaroundValues(ps, k - 1);
      TotalBurstPrefix(ps, k - 1);
      forall j | 0 <= j < k - 1
        ensures ps[j].id in FcfsTurnaround(ps, k) && FcfsTurnaround(ps, k)[ps[j].id] == TotalBurst(ps[..j]) + ps[j].burst
      {
        assert ps[j].id != ps[k - 1].id;
      }
    }
  }

  /** What `fcfs` promises of its result `r`. */
  ghost predicate IsFcfsResult(ps: seq<Process>, r: SchedulerResult) {
    && |r.gantt| == |ps|
    && (forall i :: 0 <= i < |ps| ==> r.gantt[i] == FcfsItem(ps, i))
    && r.waitingTimes.Keys == Ids(ps)
    && r.turnaroundTimes.Keys == Ids(ps)
    && (UniqueIds(ps) ==>
          forall i :: 0 <= i < |ps| ==>
            r.waitingTimes[ps[i].id] == TotalBurst(ps[..i]) &&
            r.turnaroundTimes[ps[i].id] == TotalBurst(ps[..i]) + ps[i].burst)
    && r.averageWaitingTime == Mean(SumValues(r.waitingTimes), |ps|)
  }

  /** Each slice starts where the previous one ended, the first at 0, the last
      ends at the total burst; every turnaround exceeds the waiting time by
      exactly the burst. */
  lemma FcfsTimeline(ps: seq<Process>, r: SchedulerResult)
    requires IsFcfsResult(ps, r)
    ensures forall i :: 0 <= i < |r.gantt| ==> r.gantt[i].end - r.gantt[i].start == ps[i].burst
    ensures |ps| > 0 ==> r.gantt[0].start == 0
    ensures forall i :: 0 < i < |r.gantt| ==> r.gantt[i - 1].end == r.gantt[i].start
    ensures |ps| > 0 ==> r.gantt[|ps| - 1].end == TotalBurst(ps)
    ensures UniqueIds(ps) ==>
      forall i :: 0 <= i < |ps| ==>
        r.turnaroundTimes[ps[i].id] == r.waitingTimes[ps[i].id] + ps[i].burst
  {
    FcfsChained(ps);
  }

  /** Consecutive FCFS slices meet; the first starts at 0 and the last ends
      at the total burst. */
  lemma FcfsChained(ps: seq<Process>)
    ensures forall i :: 0 < i < |ps| ==> FcfsItem(ps, i - 1).end == FcfsItem(ps, i).start
    ensures |ps| > 0 ==> FcfsItem(ps, 0).start == 0 && FcfsItem(ps, |ps| - 1).end == TotalBurst(ps)
  {
    forall i | 0 < i < |ps|
      ensures FcfsItem(ps, i - 1).end == FcfsItem(ps, i).start
    {
      TotalBurstPrefix(ps, i - 1);
    }
    if |ps| > 0 {
      assert ps[..0] == [];
      TotalBurstLast(ps);
    }
  }

  lemma TotalBurstLast(ps: seq<Process>)
    requires |ps| > 0
    ensures TotalBurst(ps) == TotalBurst(ps[..|ps| - 1]) + ps[|ps| - 1].burst
  {
    assert ps[..|ps|] == ps;
    TotalBurstPrefix(ps, |ps| - 1);
  }

  /** The average is the mean of the start times of the processes. */
  lemma FcfsAverage(ps: seq<Process>, r: SchedulerResult)
    requires IsFcfsResult(ps, r) && UniqueIds(ps)
    ensures r.averageWaitingTime == Mean(SumAt(ps, r.waitingTimes), |ps|)
  {
    SumValuesByProcess(ps, r.waitingTimes);
  }

  /** P1 needs 5 units and P2 needs 3: they run in [0,5) and [5,8), wait 0
      and 5, and turn around at 5 and 8 ... */
  lemma FcfsTwoProcesses(ps: seq<Process>, r: SchedulerResult)
    requires ps == [Process("P1", "A", 5, 0), Process("P2", "B", 3, 0)] && IsFcfsResult(ps, r)
    ensures [r.gantt[0].start, r.gantt[0].end, r.gantt[1].start, r.gantt[1].end] == [0, 5, 5, 8]
    ensures r.waitingTimes == map["P1" := 0, "P2" := 5]
    ensures r.turnaroundTimes == map["P1" := 5, "P2" := 8]
  {
    assert ps[..0] == [] && ps[..1] == [ps[0]];
    assert TotalBurst(ps[..1]) == 5;
    assert Ids(ps) == {"P1", "P2"};
  }

  /** ... so their average waiting time is 2.5. */
  lemma FcfsTwoProcessesAverage(ps: seq<Process>, r: SchedulerResult)
    requires ps == [Process("P1", "A", 5, 0), Process("P2", "B", 3, 0)] && IsFcfsResult(ps, r)
    ensures r.averageWaitingTime == Some(2.5)
  {
    FcfsTwoProcesses(ps, r);
    FcfsAverage(ps, r);
    var w := r.waitingTimes;
    assert ps[..1][..0] == [] && ps[..|ps| - 1] == ps[..1];
    assert SumAt(ps[..1], w) == 0;
    assert SumAt(ps, w) == 5;
  }
}
