/** The metrics computed once a run is over (Project.cpp:56-96): each
    process's turnaround and waiting time, and the batch totals behind the
    averages and the CPU utilisation. */
module Metrics {
  import opened Records
  import FcfsEngine

  /** The integer totals the metrics pass accumulates over the batch. */
  datatype Totals = Totals(
    waiting: int,
    turnaround: int,
    idle: int,
    contextSwitch: int,
    lastFinish: int,
    activeTime: int)

  /** A process with its turnaround (finish minus arrival) and waiting time
      (turnaround minus burst) filled in. A completed process waited at least
      as long as it took to start. */
  function WithMetrics(p: Process): (r: Process)
    ensures r.turnaroundTime == p.finishTime - p.arrivalTime
    ensures r.waitingTime == r.turnaroundTime - p.burstTime
    ensures r.(waitingTime := p.waitingTime, turnaroundTime := p.turnaroundTime) == p
    ensures Completed(p) ==> 0 <= p.startTime - p.arrivalTime <= r.waitingTime
  {
    var turnaround := p.finishTime - p.arrivalTime;
    p.(turnaroundTime := turnaround, waitingTime := turnaround - p.burstTime)
  }

  function TotalTurnaround(s: seq<Process>): int {
    if s == [] then 0 else TotalTurnaround(s[..|s| - 1]) + WithMetrics(s[|s| - 1]).turnaroundTime
  }

  function TotalWaiting(s: seq<Process>): int {
    if s == [] then 0 else TotalWaiting(s[..|s| - 1]) + WithMetrics(s[|s| - 1]).waitingTime
  }

  /** The idle stretch before the i-th process: how far its start lies past
      the previous process's finish (past time 0 for the first), if at all. */
  function Gap(s: seq<Process>, i: nat): int
    requires i < |s|
  {
    var previousEnd := if i == 0 then 0 else s[i - 1].finishTime;
    if s[i].startTime > previousEnd then s[i].startTime - previousEnd else 0
  }

  function IdleUpTo(s: seq<Process>, n: nat): int
    requires n <= |s|
  {
    if n == 0 then 0 else IdleUpTo(s, n - 1) + Gap(s, n - 1)
  }

  /** The latest finish among the first n processes, or 0. */
  function LastFinish(s: seq<Process>, n: nat): int
    requires n <= |s|
  {
    if n == 0 then 0 else FcfsEngine.Max(LastFinish(s, n - 1), s[n - 1].finishTime)
  }

  /** The totals of a batch: the active time runs from the first process's
      arrival to the latest finish, and one switch is charged per process but
      the first. */
  function Summary(s: seq<Process>, cs: int): Totals
    requires |s| > 0
  {
    var last := LastFinish(s, |s|);
    Totals(TotalWaiting(s), TotalTurnaround(s), IdleUpTo(s, |s|), cs * (|s| - 1), last, last - s[0].arrivalTime)
  }

  /** The accumulators of the metrics pass once it has visited the first i
      processes of the batch `s`. */
  ghost predicate Running(s: seq<Process>, cs: int, i: nat, waiting: int, turnaround: int, idle: int,
                          switches: int, lastFinish: int, previousEnd: int)
    requires i <= |s|
  {
    waiting == TotalWaiting(s[..i]) && turnaround == TotalTurnaround(s[..i])
    && idle == IdleUpTo(s, i) && lastFinish == LastFinish(s, i)
    && switches == (if i == 0 then 0 else cs * (i - 1))
    && previousEnd == (if i == 0 then 0 else s[i - 1].finishTime)
  }

  /** Visiting process i adds its waiting and turnaround time and the idle
      stretch before it, charges a switch unless it is the first, and moves
      the latest finish and the previous end on. */
  lemma RunningStep(s: seq<Process>, cs: int, i: nat, waiting: int, turnaround: int, idle: int,
                    switches: int, lastFinish: int, previousEnd: int)
    requires i < |s| && Running(s, cs, i, waiting, turnaround, idle, switches, lastFinish, previousEnd)
    ensures Running(s, cs, i + 1, waiting + WithMetrics(s[i]).waitingTime,
                    turnaround + WithMetrics(s[i]).turnaroundTime, idle + Gap(s, i),
                    switches + (if i == 0 then 0 else cs), FcfsEngine.Max(lastFinish, s[i].finishTime),
                    s[i].finishTime)
  {
    assert s[..i + 1][..i] == s[..i];
  }

  /** The metrics pass on the batch in place: every process gets its
      turnaround and waiting time and nothing else changes; the totals are
      those of the batch as handed in, with one switch costing the
      scheduler's switch time. */
  method CalculateMetrics(a: array<Process>, scheduler: Scheduler) returns (t: Totals)
    requires a.Length > 0
    modifies a
    ensures forall i :: 0 <= i < a.Length ==> a[i] == WithMetrics(old(a[i]))
    ensures t == Summary(old(a[..]), scheduler.contextSwitch)
  {
    var cs := scheduler.contextSwitch;
    ghost var s := a[..];
    var first := a[0];
    var waiting, turnaround := 0, 0;
    var lastFinish, idle, switches, previousEnd := 0, 0, 0, 0;
    for i := 0 to a.Length
      invariant forall k :: 0 <= k < i ==> a[k] == WithMetrics(s[k])
      invariant forall k :: i <= k < a.Length ==> a[k] == s[k]
      invariant Running(s, cs, i, waiting, turnaround, idle, switches, lastFinish, previousEnd)
    {
      var p := a[i];
      RunningStep(s, cs, i, waiting, turnaround, idle, switches, lastFinish, previousEnd);
      var turnaroundTime := p.finishTime - p.arrivalTime;
      var waitingTime := turnaroundTime - p.burstTime;
      a[i] := p.(turnaroundTime := turnaroundTime, waitingTime := waitingTime);
      waiting := waiting + waitingTime;
      turnaround := turnaround + turnaroundTime;
      if p.startTime > previousEnd {
        idle := idle + (p.startTime - previousEnd);
      }
      if i != 0 {
        switches := switches + cs;
      }
      previousEnd := p.finishTime;
      lastFinish := FcfsEngine.Max(lastFinish, p.finishTime);
    }
    assert s[..a.Length] == s;
    t := Totals(waiting, turnaround, idle, switches, lastFinish, lastFinish - first.arrivalTime);
  }

  /** The batch's total waiting time is its total turnaround less its total
      burst. */
  lemma {:induction false} WaitingIsTurnaroundLessBursts(s: seq<Process>)
    ensures TotalWaiting(s) == TotalTurnaround(s) - SumBursts(s)
  {
    if s != [] {
      WaitingIsTurnaroundLessBursts(s[..|s| - 1]);
    }
  }

  /** The latest finish is no earlier than 0 or any of the processes'
      finishes, and is either 0 or one of those finishes. */
  lemma {:induction false} LastFinishBounds(s: seq<Process>, n: nat)
    requires n <= |s|
    ensures LastFinish(s, n) >= 0
    ensures forall i :: 0 <= i < n ==> s[i].finishTime <= LastFinish(s, n)
    ensures LastFinish(s, n) == 0 || exists i :: 0 <= i < n && s[i].finishTime == LastFinish(s, n)
  {
    if n > 0 {
      LastFinishBounds(s, n - 1);
    }
  }

  /** In a run where every process completed, nobody waited a negative time
      and the total waiting time is non-negative. */
  lemma {:induction false} CompletedWaiting(s: seq<Process>)
    requires forall i :: 0 <= i < |s| ==> Completed(s[i])
    ensures TotalWaiting(s) >= 0
    ensures TotalTurnaround(s) >= SumBursts(s)
  {
    if s != [] {
      CompletedWaiting(s[..|s| - 1]);
      WaitingIsTurnaroundLessBursts(s);
    }
  }

  /** The FCFS schedule of the sorted batch `order`, record by record. */
  function FcfsSchedule(order: seq<Process>, cs: int): (t: seq<Process>)
    ensures |t| == |order|
    ensures forall i :: 0 <= i < |t| ==> t[i] == FcfsEngine.Timed(order, cs, i)
  {
    seq(|order|, i requires 0 <= i < |order| => FcfsEngine.Timed(order, cs, i))
  }

  /** Under FCFS each process waits exactly from its arrival to its start,
      which with non-negative bursts and switch cost is never negative. */
  lemma FcfsWaiting(order: seq<Process>, cs: int, i: nat)
    requires cs >= 0 && FcfsEngine.NonNegativeBursts(order) && i < |order|
    ensures WithMetrics(FcfsEngine.Timed(order, cs, i)).waitingTime
            == FcfsEngine.StartAt(order, cs, i) - order[i].arrivalTime >= 0
  {
    FcfsEngine.StartBounds(order, cs, i);
  }

  /** Under FCFS with non-negative bursts and switch cost, the latest finish
      is the finish of the last process of the sorted batch. */
  lemma {:induction false} FcfsLastFinish(order: seq<Process>, cs: int, n: nat)
    requires cs >= 0 && FcfsEngine.NonNegativeBursts(order) && 0 < n <= |order|
    ensures LastFinish(FcfsSchedule(order, cs), n) == FcfsEngine.FinishAt(order, cs, n - 1)
  {
    if n == 1 {
      FcfsEngine.StartBounds(order, cs, 0);
    } else {
      FcfsLastFinish(order, cs, n - 1);
      FcfsEngine.NoOverlap(order, cs, n - 2, n - 1);
    }
  }
}
