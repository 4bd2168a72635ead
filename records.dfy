/** The records shared by every scheduling engine: one Process per task and the
    Scheduler configuration that holds the two global parameters. */
module Records {

  datatype Option<T> = None | Some(value: T)

  /** One task of the batch. `remainingTime`, `startTime` and `finishTime` are
      written by the engines, `waitingTime` and `turnaroundTime` by the metrics. */
  datatype Process = Process(
    id: int,
    arrivalTime: int,
    burstTime: int,
    remainingTime: int,
    startTime: int,
    finishTime: int,
    waitingTime: int,
    turnaroundTime: int)

  /** The two global parameters read at start-up: the cost of one context
      switch and the Round Robin quantum. The batch itself is the array each
      engine is handed. */
  datatype Scheduler = Scheduler(contextSwitch: int, quantum: int)

  /** A process as it is loaded from the input file, with a positive burst:
      nothing has run yet and no start time is recorded. */
  predicate IsLoaded(p: Process) {
    p.remainingTime == p.burstTime > 0 && p.startTime == -1 && p.finishTime == 0
  }

  predicate Loaded(s: seq<Process>) {
    forall i :: 0 <= i < |s| ==> IsLoaded(s[i])
  }

  /** The record the Process constructor builds. */
  function NewProcess(id: int, arrival: int, burst: int): (p: Process)
    ensures p.id == id && p.arrivalTime == arrival && p.burstTime == burst
    ensures burst > 0 <==> IsLoaded(p)
  {
    Process(id, arrival, burst, burst, -1, 0, 0, 0)
  }

  /** The fields that no engine writes are the same in p and q. */
  predicate SameTask(p: Process, q: Process) {
    p.id == q.id && p.arrivalTime == q.arrivalTime && p.burstTime == q.burstTime
    && p.waitingTime == q.waitingTime && p.turnaroundTime == q.turnaroundTime
  }

  /** A process that ran to completion: it started no earlier than it arrived,
      and between its start and its finish there was room for its whole burst. */
  predicate Completed(p: Process) {
    p.remainingTime == 0
    && p.arrivalTime <= p.startTime
    && p.startTime + p.burstTime <= p.finishTime
  }

  predicate SortedByArrival(s: seq<Process>) {
    forall i, j :: 0 <= i < j < |s| ==> s[i].arrivalTime <= s[j].arrivalTime
  }

  /** Total burst of a batch. */
  function SumBursts(s: seq<Process>): int {
    if s == [] then 0 else SumBursts(s[..|s| - 1]) + s[|s| - 1].burstTime
  }

  /** Remaining work of one process, as a measure: negative remainders count as none. */
  function Work(p: Process): nat {
    if p.remainingTime > 0 then p.remainingTime else 0
  }

  /** Remaining work of a whole batch. */
  function TotalWork(s: seq<Process>): nat {
    if s == [] then 0 else TotalWork(s[..|s| - 1]) + Work(s[|s| - 1])
  }

  /** Replacing one record changes the batch's remaining work by the difference
      of the two records' work and by nothing else. */
  lemma {:induction false} TotalWorkUpdate(s: seq<Process>, k: nat, p: Process)
    requires k < |s|
    ensures TotalWork(s[k := p]) == TotalWork(s) - Work(s[k]) + Work(p)
  {
    var t := s[k := p];
    var m := |s| - 1;
    assert t[..m] == if k == m then s[..m] else s[..m][k := p];
    if k < m {
      TotalWorkUpdate(s[..m], k, p);
    }
  }
}
