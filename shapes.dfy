/**
  The records exchanged with the scheduler (`Process`, `GanttItem`,
  `SchedulerResult` in src/app/services/scheduler.ts) and the arithmetic that
  both algorithms' contracts are stated in.
*/
module Shapes {
  import opened Wrappers

  /** A process as submitted by the caller. `arrival` defaults to 0; the
      optional `priority` is read by neither algorithm and is not modelled. */
  datatype Process = Process(id: string, name: string, burst: nat, arrival: nat)

  /** One dispatch slice `[start, end)` of the single processor. */
  datatype GanttItem = GanttItem(id: string, name: string, start: nat, end: nat, colorIndex: int)

  /** The outcome of one run. `averageWaitingTime` is `None` where the source
      divides 0 by 0 (an empty process list) and so yields NaN. */
  datatype SchedulerResult = SchedulerResult(
    gantt: seq<GanttItem>,
    waitingTimes: map<string, int>,
    turnaroundTimes: map<string, int>,
    averageWaitingTime: Option<real>)

  /** The callers number processes `P1`, `P2`, ... so ids never repeat. */
  predicate UniqueIds(ps: seq<Process>) {
    forall i, j :: 0 <= i < j < |ps| ==> ps[i].id != ps[j].id
  }

  function Ids(ps: seq<Process>): set<string> {
    set i | 0 <= i < |ps| :: ps[i].id
  }

  lemma IdsPrefix(ps: seq<Process>, i: nat)
    requires i < |ps|
    ensures Ids(ps[..i + 1]) == Ids(ps[..i]) + {ps[i].id}
  {
    assert ps[..i + 1] == ps[..i] + [ps[i]];
  }

  /** Sum of the bursts of `ps`. */
  function TotalBurst(ps: seq<Process>): nat {
    if ps == [] then 0 else TotalBurst(ps[..|ps| - 1]) + ps[|ps| - 1].burst
  }

  lemma TotalBurstPrefix(ps: seq<Process>, i: nat)
    requires i < |ps|
    ensures TotalBurst(ps[..i + 1]) == TotalBurst(ps[..i]) + ps[i].burst
  {
    assert ps[..i + 1][..i] == ps[..i];
  }

  /** The items of a timeline that belong to process `id`, in timeline order. */
  function SlicesOf(g: seq<GanttItem>, id: string): seq<GanttItem> {
    if g == [] then []
    else SlicesOf(g[..|g| - 1], id) + (if g[|g| - 1].id == id then [g[|g| - 1]] else [])
  }

  lemma SlicesOfAppend(g: seq<GanttItem>, item: GanttItem, id: string)
    ensures SlicesOf(g + [item], id) == SlicesOf(g, id) + (if item.id == id then [item] else [])
  {
    assert (g + [item])[..|g|] == g;
  }

  /** The slices of `id` are slices of `g` labelled `id`. */
  lemma {:induction false} SlicesOfMembers(g: seq<GanttItem>, id: string)
    ensures forall k :: 0 <= k < |SlicesOf(g, id)| ==> SlicesOf(g, id)[k] in g && SlicesOf(g, id)[k].id == id
  {
    if g != [] {
      SlicesOfMembers(g[..|g| - 1], id);
      assert g == g[..|g| - 1] + [g[|g| - 1]];
    }
  }

  /** Slices that follow one another are ordered and disjoint pairwise. */
  lemma {:induction false} TimelineOrdered(g: seq<GanttItem>)
    requires forall k :: 0 <= k < |g| ==> g[k].start <= g[k].end
    requires forall k :: 0 < k < |g| ==> g[k - 1].end <= g[k].start
    ensures forall k, l :: 0 <= k < l < |g| ==> g[k].end <= g[l].start
  {
    if g != [] {
      var front := g[..|g| - 1];
      TimelineOrdered(front);
      forall k | 0 <= k < |g| - 1
        ensures g[k].end <= g[|g| - 1].start
      {
        assert g[k] == front[k];
        if k < |g| - 2 {
          assert front[k].end <= front[|g| - 2].start;
        }
      }
    }
  }

  /** Total processor time covered by `items`. */
  function Busy(items: seq<GanttItem>): int {
    if items == [] then 0
    else Busy(items[..|items| - 1]) + items[|items| - 1].end - items[|items| - 1].start
  }

  lemma BusyAppend(items: seq<GanttItem>, item: GanttItem)
    ensures Busy(items + [item]) == Busy(items) + item.end - item.start
  {
    assert (items + [item])[..|items|] == items;
  }

  /** Slices that each take at least one unit cover at least as many units as there are slices. */
  lemma {:induction false} BusyCountsSlices(items: seq<GanttItem>)
    requires forall k :: 0 <= k < |items| ==> items[k].end - items[k].start >= 1
    ensures Busy(items) >= |items|
  {
    if items != [] {
      BusyCountsSlices(items[..|items| - 1]);
    }
  }

  /** JavaScript division of a sum by a count: 0 / 0 is NaN, shown as `None`. */
  function Mean(sum: int, count: nat): (r: Option<real>)
    ensures r.Some? <==> count > 0
    ensures r.Some? ==> r.value * count as real == sum as real
  {
    if count == 0 then None else Some(sum as real / count as real)
  }

  /** Some key of a non-empty map, the one `SumValues` peels off first. */
  ghost function Pick(m: map<string, int>): (k: string)
    requires m != map[]
    ensures k in m
  {
    assert m.Keys != {};
    var k :| k in m; k
  }

  /** The sum of the values of `m`, whatever order they are visited in. */
  ghost function SumValues(m: map<string, int>): int
    decreases m.Keys
  {
    if m == map[] then 0 else m[Pick(m)] + SumValues(m - {Pick(m)})
  }

  /** Any key may be peeled off first: the sum does not depend on the order
      in which `Object.values` lists the entries. */
  lemma {:induction false} SumValuesRemove(m: map<string, int>, k: string)
    requires k in m
    ensures SumValues(m) == m[k] + SumValues(m - {k})
    decreases m.Keys
  {
    var p := Pick(m);
    if p != k {
      SumValuesRemove(m - {p}, k);
      SumValuesRemove(m - {k}, p);
      assert m - {p} - {k} == m - {k} - {p};
    }
  }

  /** `waiting[ps[0].id] + ... + waiting[ps[n-1].id]`. */
  function SumAt(ps: seq<Process>, m: map<string, int>): int
    requires Ids(ps) <= m.Keys
  {
    if ps == [] then 0
    else
      assert Ids(ps[..|ps| - 1]) <= Ids(ps);
      SumAt(ps[..|ps| - 1], m) + m[ps[|ps| - 1].id]
  }

  lemma {:induction false} SumAtFrame(ps: seq<Process>, m: map<string, int>, k: string)
    requires Ids(ps) <= m.Keys - {k}
    ensures SumAt(ps, m - {k}) == SumAt(ps, m)
  {
    if ps != [] {
      assert Ids(ps[..|ps| - 1]) <= Ids(ps);
      SumAtFrame(ps[..|ps| - 1], m, k);
    }
  }

  /** With unique ids covering exactly the keys, the sum of the map's values is
      the sum over the processes in input order. */
  lemma {:induction false} SumValuesByProcess(ps: seq<Process>, m: map<string, int>)
    requires UniqueIds(ps) && m.Keys == Ids(ps)
    ensures SumValues(m) == SumAt(ps, m)
  {
    if ps == [] {
      assert m == map[];
    } else {
      var last := ps[|ps| - 1];
      var init := ps[..|ps| - 1];
      assert Ids(ps) == Ids(init) + {last.id};
      assert last.id !in Ids(init);
      SumValuesRemove(m, last.id);
      SumValuesByProcess(init, m - {last.id});
      SumAtFrame(init, m, last.id);
    }
  }
}
