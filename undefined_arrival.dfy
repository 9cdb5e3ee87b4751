/**
  The Round Robin loop as written when a process carries no `arrival`, which
  is how the home page submits every process. In JavaScript `undefined <= t`
  and `x <= NaN` are false, and `Math.min` over a list holding `undefined` is
  NaN. So no process is ever admitted, the idle jump sets the clock to NaN,
  and from then on every iteration repeats the same jump.

  The rest of the model reads an absent arrival as 0 (`Default`). With that
  reading every unfinished process is admitted at once and the loop
  terminates.
*/
module UndefinedArrival {
  import opened Wrappers
  import opened Shapes
  import opened RoundRobinModel

  /** A process as the page builds it: `arrival` may be absent. */
  datatype RawProcess = RawProcess(id: string, name: string, burst: nat, arrival: Option<nat>)

  /** The value of `time` in the loop: a number, NaN, or the `Infinity` that
      `Math.min()` returns for an empty list. */
  datatype Clock = At(t: nat) | NaN | Infinity

  /** JavaScript `arrival <= time`: false whenever either side is undefined or NaN. */
  predicate ArrivedBy(arrival: Option<nat>, time: Clock) {
    arrival.Some? && (time.Infinity? || (time.At? && arrival.value <= time.t))
  }

  /** The admission pass as written, over raw processes and the raw clock. */
  function RawAdmit(ps: seq<RawProcess>, rem: seq<nat>, queue: seq<nat>, time: Clock, i: nat): seq<nat>
    requires |rem| == |ps| && i <= |ps|
    decreases |ps| - i
  {
    if i == |ps| then queue
    else RawAdmit(ps, rem, if rem[i] > 0 && ArrivedBy(ps[i].arrival, time) && i !in queue then queue + [i] else queue, time, i + 1)
  }

  /** `Math.min` of two operands, either of which may be undefined. */
  function MinClock(a: Clock, b: Option<nat>): Clock {
    if a.NaN? || b.None? then NaN
    else if a.Infinity? || b.value < a.t then At(b.value)
    else a
  }

  /** `Math.min(...arrivals)` over the unfinished processes among the first `n`. */
  function RawNextArrival(ps: seq<RawProcess>, rem: seq<nat>, n: nat): Clock
    requires |rem| == |ps| && n <= |ps|
  {
    if n == 0 then Infinity
    else
      var earlier := RawNextArrival(ps, rem, n - 1);
      if rem[n - 1] > 0 then MinClock(earlier, ps[n - 1].arrival) else earlier
  }

  /** No process without an arrival is ever admitted, whatever the clock. */
  lemma {:induction false} RawAdmitNone(ps: seq<RawProcess>, rem: seq<nat>, queue: seq<nat>, time: Clock, i: nat)
    requires |rem| == |ps| && i <= |ps|
    requires forall j :: 0 <= j < |ps| ==> ps[j].arrival.None?
    ensures RawAdmit(ps, rem, queue, time, i) == queue
    decreases |ps| - i
  {
    if i < |ps| {
      RawAdmitNone(ps, rem, queue, time, i + 1);
    }
  }

  /** An unfinished process without an arrival makes the next arrival NaN. */
  lemma {:induction false} RawNextArrivalNaN(ps: seq<RawProcess>, rem: seq<nat>, n: nat, j: nat)
    requires |rem| == |ps| && j < n <= |ps|
    requires rem[j] > 0 && ps[j].arrival.None?
    ensures RawNextArrival(ps, rem, n) == NaN
  {
    if j < n - 1 {
      RawNextArrivalNaN(ps, rem, n - 1, j);
    }
  }

  /** As written: with no arrivals set and work left, an iteration that starts
      with an empty queue admits nothing and moves the clock to NaN, and an
      iteration at NaN does the same again. The counters never change, so the
      loop condition stays true and the loop never ends. */
  lemma UndefinedArrivalStalls(ps: seq<RawProcess>, rem: seq<nat>, time: Clock, j: nat)
    requires |rem| == |ps| && j < |ps| && rem[j] > 0
    requires forall i :: 0 <= i < |ps| ==> ps[i].arrival.None?
    ensures RawAdmit(ps, rem, [], time, 0) == []
    ensures RawNextArrival(ps, rem, |ps|) == NaN
    ensures RawAdmit(ps, rem, [], NaN, 0) == []
  {
    RawAdmitNone(ps, rem, [], time, 0);
    RawAdmitNone(ps, rem, [], NaN, 0);
    RawNextArrivalNaN(ps, rem, |ps|, j);
  }

  /** The reading the rest of the model uses: an absent arrival is 0. */
  function Default(ps: seq<RawProcess>): (r: seq<Process>)
    ensures |r| == |ps|
    ensures forall i :: 0 <= i < |ps| ==>
      r[i].id == ps[i].id && r[i].name == ps[i].name && r[i].burst == ps[i].burst &&
      r[i].arrival == (if ps[i].arrival.Some? then ps[i].arrival.value else 0)
  {
    seq(|ps|, i requires 0 <= i < |ps| =>
      Process(ps[i].id, ps[i].name, ps[i].burst, if ps[i].arrival.Some? then ps[i].arrival.value else 0))
  }

  /** Corrected: with absent arrivals read as 0, the first admission pass
      queues every unfinished process, so the loop never idles and (`Run`)
      ends. */
  lemma DefaultArrivalAdmitsAll(ps: seq<RawProcess>, rem: seq<nat>, queue: seq<nat>, time: nat)
    requires |rem| == |ps|
    requires forall i :: 0 <= i < |ps| ==> ps[i].arrival.None?
    ensures forall j :: 0 <= j < |ps| && rem[j] > 0 ==> j in Admit(Default(ps), rem, queue, time, 0)
    ensures (exists j :: 0 <= j < |ps| && rem[j] > 0) ==> Admit(Default(ps), rem, queue, time, 0) != []
  {
    AdmitComplete(Default(ps), rem, queue, time, 0);
  }
}
