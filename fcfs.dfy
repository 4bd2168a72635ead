/** First-Come-First-Served: sort the batch by arrival, then run every process
    to completion in that order, charging one context switch between
    consecutive processes (Project.cpp:99-115). */
module FcfsEngine {
  import opened Records

  function Max(x: int, y: int): int { if x < y then y else x }

  /** Start of the i-th process of the sorted batch `s`: the first starts at
      its arrival or at 0, every later one at its arrival or one context switch
      after its predecessor finishes, whichever is later. */
  function StartAt(s: seq<Process>, cs: int, i: nat): int
    requires i < |s|
  {
    if i == 0 then Max(s[0].arrivalTime, 0)
    else Max(s[i].arrivalTime, StartAt(s, cs, i - 1) + s[i - 1].burstTime + cs)
  }

  function FinishAt(s: seq<Process>, cs: int, i: nat): int
    requires i < |s|
  {
    StartAt(s, cs, i) + s[i].burstTime
  }

  /** The i-th record once FCFS has timed it: only start and finish change. */
  function Timed(s: seq<Process>, cs: int, i: nat): Process
    requires i < |s|
  {
    s[i].(startTime := StartAt(s, cs, i), finishTime := FinishAt(s, cs, i))
  }

  method Swap(a: array<Process>, i: nat, j: nat)
    requires i < a.Length && j < a.Length
    modifies a
    ensures a[i] == old(a[j]) && a[j] == old(a[i])
    ensures forall k :: 0 <= k < a.Length && k != i && k != j ==> a[k] == old(a[k])
    ensures multiset(a[..]) == old(multiset(a[..]))
  {
    a[i], a[j] := a[j], a[i];
  }

  /** Sorts the batch by non-decreasing arrival. Like the library sort it
      replaces, it promises no particular order among equal arrivals. */
  method SortByArrival(a: array<Process>)
    modifies a
    ensures SortedByArrival(a[..])
    ensures multiset(a[..]) == old(multiset(a[..]))
  {
    var i := 0;
    while i < a.Length
      invariant 0 <= i <= a.Length
      invariant SortedByArrival(a[..i])
      invariant multiset(a[..]) == old(multiset(a[..]))
    {
      var j := i;
      while j > 0 && a[j - 1].arrivalTime > a[j].arrivalTime
        invariant 0 <= j <= i
        invariant forall x, y :: 0 <= x < y <= i && x != j && y != j ==> a[x].arrivalTime <= a[y].arrivalTime
        invariant forall y :: j < y <= i ==> a[j].arrivalTime < a[y].arrivalTime
        invariant multiset(a[..]) == old(multiset(a[..]))
      {
        Swap(a, j - 1, j);
        j := j - 1;
      }
      i := i + 1;
    }
  }

  /** FCFS on the batch in place. `order` is the sorted permutation the run
      used; every record is that permutation's record with start and finish
      set by the recurrence StartAt. */
  method Fcfs(a: array<Process>, cs: int) returns (ghost order: seq<Process>)
    modifies a
    ensures |order| == a.Length
    ensures SortedByArrival(order) && multiset(order) == multiset(old(a[..]))
    ensures forall i :: 0 <= i < a.Length ==> a[i] == Timed(order, cs, i)
  {
    SortByArrival(a);
    order := a[..];
    var clock := 0;
    for i := 0 to a.Length
      invariant forall k :: 0 <= k < i ==> a[k] == Timed(order, cs, k)
      invariant forall k :: i <= k < a.Length ==> a[k] == order[k]
      invariant i < a.Length ==> clock == if i == 0 then 0 else FinishAt(order, cs, i - 1) + cs
    {
      if clock < a[i].arrivalTime {
        clock := a[i].arrivalTime;
      }
      a[i] := a[i].(startTime := clock);
      a[i] := a[i].(finishTime := a[i].startTime + a[i].burstTime);
      clock := a[i].finishTime;
      if i != a.Length - 1 {
        clock := clock + cs;
      }
    }
  }

  predicate NonNegativeBursts(s: seq<Process>) {
    forall i :: 0 <= i < |s| ==> s[i].burstTime >= 0
  }

  /** With non-negative bursts and switch cost, a later process starts no
      earlier than one context switch after an earlier one finishes: the
      intervals do not overlap. */
  lemma {:induction false} NoOverlap(s: seq<Process>, cs: int, i: nat, j: nat)
    requires cs >= 0 && NonNegativeBursts(s)
    requires i < j < |s|
    ensures FinishAt(s, cs, i) + cs <= StartAt(s, cs, j)
  {
    if i < j - 1 {
      NoOverlap(s, cs, i, j - 1);
    }
  }

  /** Every process starts no earlier than its arrival and, with non-negative
      bursts and switch cost, no earlier than time 0. */
  lemma {:induction false} StartBounds(s: seq<Process>, cs: int, i: nat)
    requires cs >= 0 && NonNegativeBursts(s)
    requires i < |s|
    ensures s[i].arrivalTime <= StartAt(s, cs, i)
    ensures 0 <= StartAt(s, cs, i) <= FinishAt(s, cs, i)
  {
    if i > 0 {
      StartBounds(s, cs, i - 1);
    }
  }

  /** The i-th process has arrived by the time the CPU is free for it: by
      time 0 for the first, by one switch after its predecessor's finish for
      every later one. */
  predicate ArrivedWhenFree(s: seq<Process>, cs: int, i: nat)
    requires i < |s|
  {
    s[i].arrivalTime <= if i == 0 then 0 else FinishAt(s, cs, i - 1) + cs
  }

  /** No process ever leaves the CPU idle. */
  predicate NoIdleGaps(s: seq<Process>, cs: int) {
    forall i :: 0 <= i < |s| ==> ArrivedWhenFree(s, cs, i)
  }

  /** Without idle gaps the i-th process finishes after exactly the bursts of
      the first i + 1 processes plus one context switch between each
      consecutive pair of them. */
  lemma {:induction false} Makespan(s: seq<Process>, cs: int, i: nat)
    requires i < |s| && NoIdleGaps(s, cs)
    ensures FinishAt(s, cs, i) == SumBursts(s[..i + 1]) + i * cs
  {
    if i > 0 {
      Makespan(s, cs, i - 1);
      assert s[..i + 1][..i] == s[..i];
      assert ArrivedWhenFree(s, cs, i);
      assert i * cs == (i - 1) * cs + cs;
    } else {
      assert ArrivedWhenFree(s, cs, 0);
      assert s[..1][..0] == [];
    }
  }

  /** The three-process scenario P1(0,5), P2(1,3), P3(2,1) with switch cost 1:
      P1 runs [0,5], P2 [6,9], P3 [10,11]. */
  lemma ThreeProcessExample()
    ensures var s := [NewProcess(1, 0, 5), NewProcess(2, 1, 3), NewProcess(3, 2, 1)];
      StartAt(s, 1, 0) == 0 && FinishAt(s, 1, 0) == 5
      && StartAt(s, 1, 1) == 6 && FinishAt(s, 1, 1) == 9
      && StartAt(s, 1, 2) == 10 && FinishAt(s, 1, 2) == 11
  {
    var s := [NewProcess(1, 0, 5), NewProcess(2, 1, 3), NewProcess(3, 2, 1)];
    assert StartAt(s, 1, 0) == 0;
    assert StartAt(s, 1, 1) == 6;
  }
}
