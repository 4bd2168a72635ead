/** Preemptive Shortest-Remaining-Time (Project.cpp:117-168). The ready queue
    is the set of indices of admitted, unfinished processes; `index` is the
    admission cursor over the batch in its current order. */
module SrtEngine {
  import opened Records

  /** The queue's comparator: p ranks below q when q has strictly less work
      left, or as much and arrived strictly earlier. */
  predicate RanksBelow(p: Process, q: Process) {
    p.remainingTime > q.remainingTime
    || (p.remainingTime == q.remainingTime && p.arrivalTime > q.arrivalTime)
  }

  /** k may be the queue's top: it is queued and no queued process outranks it.
      Among records with equal keys the heap's choice is unspecified, and so
      is this one. */
  predicate IsTop(s: seq<Process>, pq: set<nat>, k: nat) {
    k in pq && k < |s| && forall j :: j in pq && j < |s| ==> !RanksBelow(s[k], s[j])
  }

  /** A non-empty queue has a top. */
  lemma {:induction false} TopExists(s: seq<Process>, pq: set<nat>)
    requires pq != {}
    requires forall j :: j in pq ==> j < |s|
    ensures exists k: nat :: IsTop(s, pq, k)
  {
    var x :| x in pq;
    if pq == {x} {
      assert IsTop(s, pq, x);
    } else {
      TopExists(s, pq - {x});
      var k: nat :| IsTop(s, pq - {x}, k);
      if RanksBelow(s[k], s[x]) {
        assert IsTop(s, pq, x);
      } else {
        assert IsTop(s, pq, k);
      }
    }
  }

  /** Length of one slice: run until the process finishes or the next process
      arrives, whichever comes first. `None` stands for "no further arrival". */
  function SliceLength(remaining: int, nextArrival: Option<int>, clock: int): (e: int)
    requires nextArrival.Some? ==> clock < nextArrival.value
    ensures e <= remaining
    ensures nextArrival.Some? ==> clock + e <= nextArrival.value
    ensures e == remaining || (nextArrival.Some? && clock + e == nextArrival.value)
    ensures remaining > 0 ==> e > 0
  {
    if nextArrival.Some? && nextArrival.value - clock < remaining then nextArrival.value - clock
    else remaining
  }

  /** The arrival the cursor points at; `None` past the end of the batch,
      where the source uses INT_MAX. */
  function NextArrival(s: seq<Process>, index: nat): Option<int> {
    if index < |s| then Some(s[index].arrivalTime) else None
  }

  /** An admitted process waiting for the CPU at time `clock`: it has arrived,
      has work left, and has received exactly burst - remaining units since it
      first started, which is no earlier than its arrival. */
  predicate Pending(p: Process, clock: int) {
    p.arrivalTime <= clock
    && 0 < p.remainingTime <= p.burstTime
    && (p.startTime == -1 ==> p.remainingTime == p.burstTime)
    && (p.startTime != -1 ==>
          p.arrivalTime <= p.startTime && p.startTime + (p.burstTime - p.remainingTime) <= clock)
  }

  /** Process j, if it has arrived by `clock` and still has work left, does
      not outrank process k. */
  predicate NoShorter(s: seq<Process>, clock: int, k: nat, j: nat)
    requires k < |s| && j < |s|
  {
    s[j].arrivalTime <= clock && s[j].remainingTime > 0 ==> !RanksBelow(s[k], s[j])
  }

  /** k has the least key among all processes of the batch that have arrived
      by `clock` and still have work left. */
  predicate ShortestArrived(s: seq<Process>, clock: int, k: nat) {
    k < |s| && s[k].arrivalTime <= clock && s[k].remainingTime > 0
    && forall j :: 0 <= j < |s| ==> NoShorter(s, clock, k, j)
  }

  /** Every queued process is pending at `clock`. */
  predicate QueuePending(s: seq<Process>, pq: set<nat>, clock: int) {
    forall j :: j in pq ==> j < |s| && Pending(s[j], clock)
  }

  /** Every admitted process that has left the queue has completed. */
  predicate AdmittedDone(s: seq<Process>, pq: set<nat>, index: nat) {
    forall j :: 0 <= j < index && j < |s| && j !in pq ==> Completed(s[j])
  }

  /** Time only moves forward for a pending process. */
  lemma QueuePendingLater(s: seq<Process>, pq: set<nat>, clock: int, later: int)
    requires QueuePending(s, pq, clock) && clock <= later
    ensures QueuePending(s, pq, later)
  {
  }

  /** Taking k out of the queue and putting it back (or retiring it) keeps the
      queue's and the finished processes' facts. */
  lemma {:induction false} SliceKeeps(s: seq<Process>, pq: set<nat>, index: nat, clock: int,
                                       k: nat, p: Process, later: int)
    requires k < |s| && k < index && k !in pq && clock <= later
    requires QueuePending(s, pq, clock) && AdmittedDone(s, pq + {k}, index)
    requires p.remainingTime == 0 ==> Completed(p)
    requires p.remainingTime != 0 ==> Pending(p, later)
    ensures var pq' := if p.remainingTime == 0 then pq else pq + {k};
      QueuePending(s[k := p], pq', later) && AdmittedDone(s[k := p], pq', index)
  {
    QueuePendingLater(s, pq, clock, later);
  }

  /** Under a non-negative switch cost the admission-time switch cannot fire
      for a newcomer that has all of its burst left: if its burst plus one
      switch beat the top's remaining work, the newcomer itself would outrank
      the top. */
  lemma NoAdmissionSwitch(s: seq<Process>, pq: set<nat>, top: nat, i: nat, cs: int)
    requires cs >= 0 && i < |s| && i in pq && s[i].remainingTime == s[i].burstTime
    requires IsTop(s, pq, top)
    ensures !(top != i && s[i].burstTime + cs < s[top].remainingTime)
  {
  }

  /** The facts that hold of the batch `s` between two steps of SRT, where
      `o` is the batch as it was handed to the engine, `pq` the ready queue,
      `index` the admission cursor and `clock` the simulation clock; `wf`
      says that the switch cost is non-negative and `o` is as loaded. */
  ghost predicate SrtState(s: seq<Process>, o: seq<Process>, pq: set<nat>, index: nat, clock: int, wf: bool) {
    |s| == |o| && index <= |s|
    && (forall j :: j in pq ==> j < index)
    && (forall j :: 0 <= j < index && j !in pq ==> s[j].remainingTime == 0)
    && (forall j :: index <= j < |s| ==> s[j] == o[j])
    && (forall j :: 0 <= j < |s| ==> SameTask(s[j], o[j]))
    && (wf ==> clock >= 0 && QueuePending(s, pq, clock) && AdmittedDone(s, pq, index))
  }

  /** The selection rule: on a batch in arrival order, once every process
      that has arrived is admitted, the queue's top is the process with the
      least key among all arrived processes with work left. */
  lemma TopIsShortest(s: seq<Process>, o: seq<Process>, pq: set<nat>, index: nat, clock: int, k: nat)
    requires SrtState(s, o, pq, index, clock, true) && SortedByArrival(o)
    requires index < |s| ==> s[index].arrivalTime > clock
    requires IsTop(s, pq, k)
    ensures ShortestArrived(s, clock, k)
  {
    forall j | 0 <= j < |s| ensures NoShorter(s, clock, k, j) {
      if index <= j {
        assert o[index].arrivalTime <= o[j].arrivalTime;
      }
    }
  }

  /** One step of the inner loop: push the arrived process i, look at the
      queue's top, and if the top is another process and i's whole burst plus
      one switch beats the top's remaining work, charge the switch and record
      the new clock as i's start time; otherwise nothing changes but the
      queue. Under `wf` the switch never fires. */
  method AdmitNext(a: array<Process>, cs: int, pq: set<nat>, i: nat, clock: int,
                   ghost o: seq<Process>, ghost wf: bool)
    returns (pq': set<nat>, clock': int, top: nat)
    requires wf == (cs >= 0 && Loaded(o))
    requires SrtState(a[..], o, pq, i, clock, wf) && i < a.Length && a[i].arrivalTime <= clock
    modifies a
    ensures pq' == pq + {i}
    ensures SrtState(a[..], o, pq', i + 1, clock', wf)
    ensures IsTop(old(a[..]), pq', top)
    ensures if top != i && old(a[i]).burstTime + cs < old(a[top]).remainingTime then
              clock' == clock + cs && a[..] == old(a[..])[i := old(a[i]).(startTime := clock')]
            else
              clock' == clock && a[..] == old(a[..])
    ensures wf ==> clock' == clock && a[..] == old(a[..])
  {
    pq', clock' := pq + {i}, clock;
    TopExists(a[..], pq');
    top :| IsTop(a[..], pq', top);
    if wf {
      NoAdmissionSwitch(a[..], pq', top, i, cs);
    }
    // Switch at once to a newcomer whose whole burst plus one switch beats the top.
    if top != i && a[i].burstTime + cs < a[top].remainingTime {
      clock' := clock' + cs;
      a[i] := a[i].(startTime := clock');
    }
  }

  /** The inner loop of SRT: admit, in batch order, every process that has
      arrived by `clock`, switching at once to a newcomer whose burst plus one
      switch beats the queue's top. Under `wf` that switch never fires: the
      pass moves the cursor and fills the queue but changes neither the clock
      nor the batch. */
  method AdmitArrivals(a: array<Process>, cs: int, pq: set<nat>, index: nat, clock: int,
                       ghost o: seq<Process>, ghost wf: bool)
    returns (pq': set<nat>, index': nat, clock': int)
    requires wf == (cs >= 0 && Loaded(o))
    requires SrtState(a[..], o, pq, index, clock, wf)
    modifies a
    ensures SrtState(a[..], o, pq', index', clock', wf)
    ensures index <= index' && pq <= pq'
    ensures forall j :: j in pq' ==> j in pq || index <= j
    ensures forall j :: index <= j < index' ==> j in pq'
    ensures cs >= 0 ==> clock <= clock' && forall j :: index <= j < index' ==> o[j].arrivalTime <= clock'
    ensures index' == index ==> clock' == clock && pq' == pq && a[..] == old(a[..])
    ensures forall j :: 0 <= j < a.Length ==> a[j] == old(a[j]) || (index <= j < index' && a[j] == old(a[j]).(startTime := a[j].startTime))
    ensures index' < a.Length ==> a[index'].arrivalTime > clock'
    ensures wf ==> clock' == clock && a[..] == old(a[..])
  {
    pq', index', clock' := pq, index, clock;
    while index' < a.Length && a[index'].arrivalTime <= clock'
      invariant index <= index' <= a.Length && pq <= pq'
      invariant forall j :: j in pq' ==> j in pq || index <= j
      invariant forall j :: index <= j < index' ==> j in pq'
      invariant cs >= 0 ==> clock <= clock' && forall j :: index <= j < index' ==> o[j].arrivalTime <= clock'
      invariant index' == index ==> clock' == clock && pq' == pq && a[..] == old(a[..])
      invariant forall j :: 0 <= j < a.Length ==> a[j] == old(a[j]) || (index <= j < index' && a[j] == old(a[j]).(startTime := a[j].startTime))
      invariant SrtState(a[..], o, pq', index', clock', wf)
      invariant wf ==> clock' == clock && a[..] == old(a[..])
    {
      var top;
      pq', clock', top := AdmitNext(a, cs, pq', index', clock', o, wf);
      index' := index' + 1;
    }
  }

  /** One slice of the popped process p, dispatched at `clock` with the next
      arrival at `next`, leaves it as q with the clock at `after`: the slice
      length is SliceLength, the start time is set at the first dispatch only,
      and a process that finishes gets the clock as its finish time, after
      which one switch is charged when `switched` (the previous dispatch ran
      another process) and the finish is not at the next arrival. */
  predicate Slice(p: Process, q: Process, clock: int, next: Option<int>, switched: bool, cs: int, after: int)
    requires next.Some? ==> clock < next.value
  {
    var e := SliceLength(p.remainingTime, next, clock);
    SameTask(q, p)
    && q.remainingTime == p.remainingTime - e
    && q.startTime == (if p.startTime == -1 then clock else p.startTime)
    && (q.remainingTime == 0 ==>
          q.finishTime == clock + e
          && after == clock + e + (if switched && next != Some(clock + e) then cs else 0))
    && (q.remainingTime != 0 ==> q.finishTime == p.finishTime && after == clock + e)
  }

  /** Replacing the popped top k by its record after one slice keeps the
      state: k leaves the queue when it has no work left and goes back
      otherwise, and under `wf` the clock only moves forward, a finished k
      has completed and an unfinished one is still pending. */
  lemma DispatchKeeps(s: seq<Process>, o: seq<Process>, pq: set<nat>, index: nat, clock: int,
                      k: nat, q: Process, later: int, wf: bool)
    requires SrtState(s, o, pq, index, clock, wf) && k in pq
    requires SameTask(q, s[k]) && q.remainingTime >= 0
    requires wf ==> clock <= later
    requires wf && q.remainingTime == 0 ==> Completed(q)
    requires wf && q.remainingTime != 0 ==> Pending(q, later)
    ensures SrtState(s[k := q], o, if q.remainingTime == 0 then pq - {k} else pq, index, later, wf)
  {
    assert (pq - {k}) + {k} == pq;
    assert forall j :: 0 <= j < |s| && j != k ==> s[k := q][j] == s[j];
    if wf {
      SliceKeeps(s, pq - {k}, index, clock, k, q, later);
    }
  }

  /** The queue's top: a queued process that no queued process outranks. On a
      batch in arrival order under `wf`, with every arrived process admitted,
      it is the shortest arrived process with work left. */
  method PeekTop(a: array<Process>, pq: set<nat>, index: nat, clock: int, ghost o: seq<Process>, ghost wf: bool)
    returns (k: nat)
    requires SrtState(a[..], o, pq, index, clock, wf) && pq != {}
    requires index < a.Length ==> a[index].arrivalTime > clock
    ensures IsTop(a[..], pq, k)
    ensures wf && SortedByArrival(o) ==> ShortestArrived(a[..], clock, k)
  {
    TopExists(a[..], pq);
    k :| IsTop(a[..], pq, k);
    if wf && SortedByArrival(o) {
      TopIsShortest(a[..], o, pq, index, clock, k);
    }
  }

  /** Run the popped process p for one slice from `clock`: start it if it
      never ran, take SliceLength units off its work, and on a finish record
      the clock as its finish time and charge one switch when `switched` and
      the finish is not at the next arrival. */
  method RunSlice(p: Process, clock: int, next: Option<int>, switched: bool, cs: int)
    returns (q: Process, after: int)
    requires next.Some? ==> clock < next.value
    ensures Slice(p, q, clock, next, switched, cs, after)
  {
    var started := if p.startTime == -1 then clock else p.startTime;
    var e := SliceLength(p.remainingTime, next, clock);
    after := clock + e;
    q := p.(startTime := started, remainingTime := p.remainingTime - e);
    if q.remainingTime == 0 {
      q := q.(finishTime := after);
      if switched && (next.None? || after != next.value) {
        after := after + cs;
      }
    }
  }

  /** One pass of SRT's dispatcher: pop the queue's top, start it if it never
      ran, run it for one slice, then either record its finish (charging a
      switch when the previous dispatch was another process and the finish
      does not coincide with the next arrival) or put it back. On a batch in
      arrival order under `wf`, the popped process is the shortest arrived one. */
  method Dispatch(a: array<Process>, cs: int, pq: set<nat>, index: nat, clock: int, last: Option<nat>,
                  ghost o: seq<Process>, ghost wf: bool)
    returns (pq': set<nat>, clock': int, last': Option<nat>)
    requires wf == (cs >= 0 && Loaded(o))
    requires SrtState(a[..], o, pq, index, clock, wf) && pq != {}
    requires index < a.Length ==> a[index].arrivalTime > clock
    modifies a
    ensures SrtState(a[..], o, pq', index, clock', wf)
    ensures |pq'| < |pq| || (pq' == pq && index < a.Length && clock' == a[index].arrivalTime)
    ensures last'.Some? && IsTop(old(a[..]), pq, last'.value)
    ensures wf && SortedByArrival(o) ==> ShortestArrived(old(a[..]), clock, last'.value)
    ensures a[..] == old(a[..])[last'.value := a[last'.value]]
    ensures Slice(old(a[last'.value]), a[last'.value], clock, NextArrival(old(a[..]), index),
                  last.Some? && last.value != last'.value, cs, clock')
    ensures pq' == if a[last'.value].remainingTime == 0 then pq - {last'.value} else pq
  {
    ghost var s := a[..];
    var k := PeekTop(a, pq, index, clock, o, wf);
    var next := if index < a.Length then Some(a[index].arrivalTime) else None;
    assert next == NextArrival(s, index);
    var q;
    q, clock' := RunSlice(a[k], clock, next, last.Some? && last.value != k, cs);
    if q.remainingTime == 0 {
      pq' := pq - {k};
      assert |pq'| == |pq| - 1;
    } else {
      pq' := pq;
    }
    DispatchKeeps(s, o, pq, index, clock, k, q, clock', wf);
    a[k] := q;
    assert a[..] == s[k := q];
    last' := Some(k);
  }

  /** SRT on the batch in place.
      Every process ends with no work left, and no engine-independent field
      changes. When the switch cost is non-negative and the batch is as
      loaded, every process completes no earlier than arrival plus burst. */
  method Srt(a: array<Process>, cs: int)
    modifies a
    ensures forall i :: 0 <= i < a.Length ==> a[i].remainingTime == 0 && SameTask(a[i], old(a[i]))
    ensures cs >= 0 && Loaded(old(a[..])) ==> forall i :: 0 <= i < a.Length ==> Completed(a[i])
  {
    ghost var o := a[..];
    ghost var wf := cs >= 0 && Loaded(o);
    var n := a.Length;
    var pq: set<nat> := {};
    var clock, index := 0, 0;
    var last: Option<nat> := None;

    while index < n || pq != {}
      invariant SrtState(a[..], o, pq, index, clock, wf)
      decreases n - index, |pq|, if index < n && a[index].arrivalTime > clock then 1 else 0
    {
      pq, index, clock := AdmitArrivals(a, cs, pq, index, clock, o, wf);
      if pq == {} {
        // Idle until the next arrival.
        if index < n {
          clock := a[index].arrivalTime;
        }
      } else {
        pq, clock, last := Dispatch(a, cs, pq, index, clock, last, o, wf);
      }
    }
    assert forall i :: 0 <= i < n ==> SameTask(a[i], o[i]);
  }
}
