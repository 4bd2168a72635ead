/** Round Robin (Project.cpp:171-226): a FIFO ready queue of indices, a
    `hasStarted` flag per process id, and slices of at most `quantum`. */
module RoundRobinEngine {
  import opened Records

  /** Length of one dispatch: the remaining work, capped at one quantum. */
  function QuantumSlice(remaining: int, quantum: int): (e: int)
    requires quantum > 0
    ensures e <= quantum && e <= remaining
    ensures e == remaining || e == quantum
    ensures remaining > 0 ==> e > 0
  {
    if remaining < quantum then remaining else quantum
  }

  /** The start time a process has once admitted at time `at`: the initial
      load (everything that arrived by time 0) keeps a start time that is
      already set and otherwise uses 0; every later admission overwrites it
      with the admission time. */
  function AdmittedStart(p: Process, at: int): int {
    if p.arrivalTime <= 0 then (if p.startTime == -1 then 0 else p.startTime) else at
  }

  /** A queued process at time `clock`, under a non-negative switch cost and
      a loaded batch: work left, and exactly burst - remaining units received
      since its start, which is no earlier than its arrival. */
  predicate InQueue(p: Process, clock: int) {
    p.arrivalTime <= p.startTime
    && 0 < p.remainingTime <= p.burstTime
    && p.startTime + (p.burstTime - p.remainingTime) <= clock
  }

  predicate Distinct(q: seq<nat>) {
    forall x, y :: 0 <= x < y < |q| ==> q[x] != q[y]
  }

  predicate IdsInRange(s: seq<Process>) {
    forall i :: 0 <= i < |s| ==> 1 <= s[i].id <= |s|
  }

  predicate DistinctIds(s: seq<Process>) {
    forall i, j :: 0 <= i < j < |s| ==> s[i].id != s[j].id
  }

  /** The arrivals check of lines 209-215 over the processes below j of the
      batch `s`, with flags `hs`, at time `clock`: the indices it enqueues, in
      order, and the flags afterwards. A process is enqueued when it has
      arrived by `clock` and its id is not flagged yet; enqueueing it flags
      its id. */
  function Pass(s: seq<Process>, hs: seq<bool>, clock: int, j: nat): (r: (seq<nat>, seq<bool>))
    requires j <= |s| && |hs| == |s| && IdsInRange(s)
    ensures |r.1| == |hs|
    ensures forall x :: 0 <= x < |r.0| ==> r.0[x] < j
  {
    if j == 0 then ([], hs)
    else
      var added := Pass(s, hs, clock, j - 1).0; var flags := Pass(s, hs, clock, j - 1).1;
      var v := s[j - 1].id - 1;
      if s[j - 1].arrivalTime <= clock && !flags[v] then (added + [j - 1], flags[v := true])
      else (added, flags)
  }

  /** The check only sets flags, and it sets the flag of every process it
      enqueues. */
  lemma {:induction false} PassMonotone(s: seq<Process>, hs: seq<bool>, clock: int, j: nat)
    requires j <= |s| && |hs| == |s| && IdsInRange(s)
    ensures forall v :: 0 <= v < |hs| && hs[v] ==> Pass(s, hs, clock, j).1[v]
    ensures forall x :: 0 <= x < |Pass(s, hs, clock, j).0| ==>
              Pass(s, hs, clock, j).1[s[Pass(s, hs, clock, j).0[x]].id - 1]
  {
    if j > 0 {
      PassMonotone(s, hs, clock, j - 1);
      var added', flags' := Pass(s, hs, clock, j - 1).0, Pass(s, hs, clock, j - 1).1;
      var added, flags := Pass(s, hs, clock, j).0, Pass(s, hs, clock, j).1;
      if s[j - 1].arrivalTime <= clock && !flags'[s[j - 1].id - 1] {
        forall x | 0 <= x < |added| ensures flags[s[added[x]].id - 1] {
          if x < |added'| {
            assert added[x] == added'[x];
          }
        }
      } else {
        assert added == added' && flags == flags';
      }
    }
  }

  /** A flag the check set belongs to a process it enqueued. */
  lemma {:induction false} PassOwner(s: seq<Process>, hs: seq<bool>, clock: int, j: nat, v: int)
    requires j <= |s| && |hs| == |s| && IdsInRange(s) && 0 <= v < |hs|
    requires Pass(s, hs, clock, j).1[v] && !hs[v]
    ensures exists x :: 0 <= x < |Pass(s, hs, clock, j).0| && s[Pass(s, hs, clock, j).0[x]].id - 1 == v
  {
    var added', flags' := Pass(s, hs, clock, j - 1).0, Pass(s, hs, clock, j - 1).1;
    var added := Pass(s, hs, clock, j).0;
    if flags'[v] {
      PassOwner(s, hs, clock, j - 1, v);
      var x :| 0 <= x < |added'| && s[added'[x]].id - 1 == v;
      assert added[x] == added'[x];
    } else {
      assert s[added[|added'|]].id - 1 == v;
    }
  }

  /** After the check an id is flagged exactly when it was flagged before or
      belongs to a process the check enqueued. */
  lemma PassFlags(s: seq<Process>, hs: seq<bool>, clock: int, j: nat, v: int)
    requires j <= |s| && |hs| == |s| && IdsInRange(s) && 0 <= v < |hs|
    ensures Pass(s, hs, clock, j).1[v] <==>
              hs[v] || exists x :: 0 <= x < |Pass(s, hs, clock, j).0| && s[Pass(s, hs, clock, j).0[x]].id - 1 == v
  {
    PassMonotone(s, hs, clock, j);
    if Pass(s, hs, clock, j).1[v] && !hs[v] {
      PassOwner(s, hs, clock, j, v);
    }
  }

  /** Everything the check enqueues had arrived by `clock` and had its id
      unflagged when the check began; the indices increase and no two of
      them share an id. */
  lemma {:induction false} PassSound(s: seq<Process>, hs: seq<bool>, clock: int, j: nat)
    requires j <= |s| && |hs| == |s| && IdsInRange(s)
    ensures forall x :: 0 <= x < |Pass(s, hs, clock, j).0| ==>
              s[Pass(s, hs, clock, j).0[x]].arrivalTime <= clock && !hs[s[Pass(s, hs, clock, j).0[x]].id - 1]
    ensures forall x, y :: 0 <= x < y < |Pass(s, hs, clock, j).0| ==>
              Pass(s, hs, clock, j).0[x] < Pass(s, hs, clock, j).0[y]
              && s[Pass(s, hs, clock, j).0[x]].id != s[Pass(s, hs, clock, j).0[y]].id
  {
    if j > 0 {
      PassSound(s, hs, clock, j - 1);
      PassMonotone(s, hs, clock, j - 1);
      var added', flags' := Pass(s, hs, clock, j - 1).0, Pass(s, hs, clock, j - 1).1;
      var added := Pass(s, hs, clock, j).0;
      if s[j - 1].arrivalTime <= clock && !flags'[s[j - 1].id - 1] {
        assert added == added' + [j - 1];
        forall x | 0 <= x < |added|
          ensures s[added[x]].arrivalTime <= clock && !hs[s[added[x]].id - 1]
        {
          if x < |added'| {
            assert added[x] == added'[x];
          }
        }
        forall x, y | 0 <= x < y < |added|
          ensures added[x] < added[y] && s[added[x]].id != s[added[y]].id
        {
          assert added[x] == added'[x];
          if y < |added'| {
            assert added[y] == added'[y];
          } else {
            assert flags'[s[added'[x]].id - 1];
          }
        }
      } else {
        assert added == added';
      }
    }
  }

  /** Everything below j that had arrived by `clock` is enqueued, unless its
      id was flagged before the check or an earlier enqueued process has the
      same id. */
  lemma {:induction false} PassComplete(s: seq<Process>, hs: seq<bool>, clock: int, j: nat)
    requires j <= |s| && |hs| == |s| && IdsInRange(s)
    ensures forall i :: 0 <= i < j && s[i].arrivalTime <= clock ==>
              i in Pass(s, hs, clock, j).0 || hs[s[i].id - 1]
              || exists x :: 0 <= x < |Pass(s, hs, clock, j).0| && Pass(s, hs, clock, j).0[x] < i
                             && s[Pass(s, hs, clock, j).0[x]].id == s[i].id
  {
    if j > 0 {
      PassComplete(s, hs, clock, j - 1);
      var added', flags' := Pass(s, hs, clock, j - 1).0, Pass(s, hs, clock, j - 1).1;
      var added := Pass(s, hs, clock, j).0;
      var i := j - 1;
      if s[i].arrivalTime <= clock && !flags'[s[i].id - 1] {
        assert added == added' + [i];
        forall k | 0 <= k < i && s[k].arrivalTime <= clock && k !in added && !hs[s[k].id - 1]
          ensures exists x :: 0 <= x < |added| && added[x] < k && s[added[x]].id == s[k].id
        {
          var x :| 0 <= x < |added'| && added'[x] < k && s[added'[x]].id == s[k].id;
          assert added[x] == added'[x];
        }
      } else {
        assert added == added';
        if s[i].arrivalTime <= clock && !hs[s[i].id - 1] {
          PassOwner(s, hs, clock, i, s[i].id - 1);
        }
      }
    }
  }

  /** With distinct ids the check enqueues exactly the processes below j
      that had arrived by `clock` and whose id was unflagged. */
  lemma PassExact(s: seq<Process>, hs: seq<bool>, clock: int, j: nat, i: nat)
    requires j <= |s| && |hs| == |s| && IdsInRange(s) && DistinctIds(s) && i < |s|
    ensures i in Pass(s, hs, clock, j).0 <==> i < j && s[i].arrivalTime <= clock && !hs[s[i].id - 1]
  {
    PassSound(s, hs, clock, j);
    PassComplete(s, hs, clock, j);
  }

  /** One more process for the check to look at. */
  lemma PassNext(s: seq<Process>, hs: seq<bool>, clock: int, j: nat)
    requires j < |s| && |hs| == |s| && IdsInRange(s)
    ensures var r := Pass(s, hs, clock, j);
            Pass(s, hs, clock, j + 1) ==
              if s[j].arrivalTime <= clock && !r.1[s[j].id - 1] then (r.0 + [j], r.1[s[j].id - 1 := true]) else r
  {
  }

  /** The batch `s` once the processes in `added` were enqueued at time t by
      an arrivals check, each with start time t. */
  function Started(s: seq<Process>, added: seq<nat>, t: int): (r: seq<Process>)
    ensures |r| == |s|
  {
    if added == [] then s
    else
      var r := Started(s, added[..|added| - 1], t);
      var y := added[|added| - 1];
      if y < |r| then r[y := r[y].(startTime := t)] else r
  }

  /** Started changes the start time of the enqueued processes and nothing
      else. */
  lemma {:induction false} StartedAt(s: seq<Process>, added: seq<nat>, t: int, i: nat)
    requires i < |s|
    ensures Started(s, added, t)[i] == if i in added then s[i].(startTime := t) else s[i]
  {
    if added != [] {
      var init := added[..|added| - 1];
      StartedAt(s, init, t, i);
      assert added == init + [added[|added| - 1]];
    }
  }

  /** Enqueueing one more process j sets its start time. */
  lemma StartedNext(s: seq<Process>, added: seq<nat>, t: int, j: nat)
    requires j < |s|
    ensures Started(s, added + [j], t) == Started(s, added, t)[j := Started(s, added, t)[j].(startTime := t)]
  {
    assert (added + [j])[..|added|] == added;
  }

  /** The admission times once the processes in `added` were enqueued at
      time t. */
  function AdmitAll(admittedAt: map<nat, int>, added: seq<nat>, t: int): map<nat, int> {
    if added == [] then admittedAt
    else AdmitAll(admittedAt, added[..|added| - 1], t)[added[|added| - 1] := t]
  }

  /** Enqueueing one more process j records its admission time. */
  lemma AdmitAllNext(admittedAt: map<nat, int>, added: seq<nat>, t: int, j: nat)
    ensures AdmitAll(admittedAt, added + [j], t) == AdmitAll(admittedAt, added, t)[j := t]
  {
    assert (added + [j])[..|added|] == added;
  }

  /** AdmitAll records time t for every enqueued process and keeps every
      earlier admission time of the others. */
  lemma {:induction false} AdmitAllAt(admittedAt: map<nat, int>, added: seq<nat>, t: int, i: nat)
    ensures i in AdmitAll(admittedAt, added, t) <==> i in admittedAt || i in added
    ensures i in added ==> AdmitAll(admittedAt, added, t)[i] == t
    ensures i !in added && i in admittedAt ==> AdmitAll(admittedAt, added, t)[i] == admittedAt[i]
  {
    if added != [] {
      var init := added[..|added| - 1];
      AdmitAllAt(admittedAt, init, t, i);
      assert added == init + [added[|added| - 1]];
    }
  }

  /** What a run knows about process j between two steps: `o` is the batch
      as handed to the engine, `hs` the flags by id, `q` the ready queue,
      `held` the process taken off the queue and being dispatched (if any),
      and `admittedAt` maps every process ever enqueued to the clock at its
      admission. Process j keeps its task, and is as loaded while never
      admitted. Once admitted, its id is flagged, it had arrived by its
      admission, its start time is its admission start time, and it has no
      work left unless it is queued or held. Under `wf` (a non-negative switch
      cost and a loaded batch) it was admitted by `clock`, and it is in step
      with the clock while queued or held and has completed otherwise. */
  ghost predicate Slot(s: seq<Process>, o: seq<Process>, hs: seq<bool>, q: seq<nat>, held: set<nat>,
                       admittedAt: map<nat, int>, clock: int, wf: bool, j: nat) {
    j < |s| && j < |o|
    && SameTask(s[j], o[j])
    && (j !in admittedAt ==> s[j] == o[j])
    && (j in admittedAt ==>
          0 < o[j].id <= |hs| && hs[o[j].id - 1]
          && o[j].arrivalTime <= admittedAt[j]
          && s[j].startTime == AdmittedStart(o[j], admittedAt[j])
          && (j !in q && j !in held ==> s[j].remainingTime == 0)
          && (wf ==> admittedAt[j] <= clock
                     && if j in q || j in held then InQueue(s[j], clock) else Completed(s[j])))
  }

  /** The state between two steps of a run: every queued or held process was
      admitted, the queue has no duplicates and does not hold the held
      process, and every process is in its Slot. `wf` says that the switch
      cost is non-negative and `o` is as loaded. */
  ghost predicate RrCore(s: seq<Process>, o: seq<Process>, hs: seq<bool>, q: seq<nat>, held: set<nat>,
                         admittedAt: map<nat, int>, clock: int, wf: bool) {
    |s| == |o| && |hs| == |s| && IdsInRange(s) && IdsInRange(o)
    && (forall j :: j in admittedAt ==> j < |s|)
    && (forall x :: 0 <= x < |q| ==> q[x] in admittedAt && q[x] !in held)
    && (forall j :: j in held ==> j in admittedAt)
    && Distinct(q)
    && (wf ==> Loaded(o) && clock >= 0)
    && forall j :: 0 <= j < |s| ==> Slot(s, o, hs, q, held, admittedAt, clock, wf, j)
  }

  /** Everything that arrived by time 0 was admitted at time 0. */
  ghost predicate InitialLoaded(o: seq<Process>, admittedAt: map<nat, int>) {
    forall j :: 0 <= j < |o| && o[j].arrivalTime <= 0 ==> j in admittedAt && admittedAt[j] == 0
  }

  /** RrCore once the initial load is over. */
  ghost predicate RrState(s: seq<Process>, o: seq<Process>, hs: seq<bool>, q: seq<nat>, held: set<nat>,
                          admittedAt: map<nat, int>, clock: int, wf: bool) {
    RrCore(s, o, hs, q, held, admittedAt, clock, wf) && InitialLoaded(o, admittedAt)
  }

  /** Some admitted process of the batch `o` has id v + 1. */
  ghost predicate IdTaken(o: seq<Process>, admittedAt: map<nat, int>, v: int) {
    exists i :: i in admittedAt && i < |o| && o[i].id - 1 == v
  }

  /** Every flagged id belongs to an admitted process (the converse of the
      flag fact in Slot). */
  ghost predicate FlagsOwned(o: seq<Process>, hs: seq<bool>, admittedAt: map<nat, int>) {
    forall v :: 0 <= v < |hs| && hs[v] ==> IdTaken(o, admittedAt, v)
  }

  /** Process j of the batch `o` had arrived by time c and was never
      admitted. */
  predicate Missed(o: seq<Process>, admittedAt: map<nat, int>, j: int, c: int) {
    0 <= j < |o| && j !in admittedAt && o[j].arrivalTime <= c
  }

  /** A process never admitted had, at each of the clock readings `checks`,
      either not arrived yet or its id taken by an admitted process. */
  ghost predicate Stranded(o: seq<Process>, admittedAt: map<nat, int>, checks: seq<int>) {
    forall j, x :: 0 <= x < |checks| && Missed(o, admittedAt, j, checks[x]) ==>
      IdTaken(o, admittedAt, o[j].id - 1)
  }

  /** What a run has done so far, given the clock readings `checks` at which
      it looked for arrivals (time 0 for the initial load, then the end of
      every slice that left its process unfinished): every flag belongs to an
      admitted process, every admission happened at one of those readings,
      and the processes never admitted are stranded. */
  ghost predicate History(o: seq<Process>, hs: seq<bool>, admittedAt: map<nat, int>, checks: seq<int>) {
    |checks| > 0 && checks[0] == 0
    && FlagsOwned(o, hs, admittedAt)
    && (forall j :: j in admittedAt ==> admittedAt[j] in checks)
    && Stranded(o, admittedAt, checks)
  }

  /** An id taken stays taken when admissions are added. */
  lemma TakenGrows(o: seq<Process>, before: map<nat, int>, after: map<nat, int>, v: int)
    requires before.Keys <= after.Keys && IdTaken(o, before, v)
    ensures IdTaken(o, after, v)
  {
    var i :| i in before && i < |o| && o[i].id - 1 == v;
    assert i in after;
  }

  /** Admitting process i and flagging its id keeps every flag owned. */
  lemma OwnedAdmit(o: seq<Process>, hs: seq<bool>, admittedAt: map<nat, int>, i: nat, clock: int)
    requires FlagsOwned(o, hs, admittedAt) && i < |o| && IdsInRange(o) && |hs| == |o|
    ensures FlagsOwned(o, hs[o[i].id - 1 := true], admittedAt[i := clock])
  {
    var hs', at' := hs[o[i].id - 1 := true], admittedAt[i := clock];
    forall v | 0 <= v < |hs'| && hs'[v] ensures IdTaken(o, at', v) {
      if v == o[i].id - 1 {
        assert i in at';
      } else {
        TakenGrows(o, admittedAt, at', v);
      }
    }
  }

  /** Admitting a process that was never admitted, at a time no earlier than
      its arrival: flag its id, give it its admission start time and append
      it to the queue. */
  lemma AdmitOne(s: seq<Process>, o: seq<Process>, hs: seq<bool>, q: seq<nat>, held: set<nat>,
                 admittedAt: map<nat, int>, clock: int, wf: bool, i: nat, p: Process)
    requires RrCore(s, o, hs, q, held, admittedAt, clock, wf)
    requires i < |s| && i !in admittedAt && o[i].arrivalTime <= clock
    requires p == s[i].(startTime := AdmittedStart(o[i], clock))
    ensures RrCore(s[i := p], o, hs[p.id - 1 := true], q + [i], held, admittedAt[i := clock],
                   clock, wf)
  {
    assert Slot(s, o, hs, q, held, admittedAt, clock, wf, i);
    var s', hs', q', at' := s[i := p], hs[p.id - 1 := true], q + [i], admittedAt[i := clock];
    assert i !in q && i !in held;
    forall j | 0 <= j < |s'| ensures Slot(s', o, hs', q', held, at', clock, wf, j) {
      assert Slot(s, o, hs, q, held, admittedAt, clock, wf, j);
      assert (j in q') == (j in q || j == i);
      if j == i && wf {
        assert IsLoaded(o[i]);
      }
    }
  }

  /** Enqueue process i at time `clock`: flag its id and set its start time
      (lines 180-184 at load time, lines 211-213 later). */
  method Admit(a: array<Process>, hasStarted: array<bool>, q: seq<nat>, i: nat, clock: int, started: int,
               ghost admittedAt: map<nat, int>)
    returns (q': seq<nat>, ghost admittedAt': map<nat, int>)
    requires i < a.Length && 0 < a[i].id <= hasStarted.Length
    modifies a, hasStarted
    ensures q' == q + [i] && admittedAt' == admittedAt[i := clock]
    ensures a[..] == old(a[..])[i := old(a[i]).(startTime := started)]
    ensures hasStarted[..] == old(hasStarted[..])[old(a[i]).id - 1 := true]
  {
    ghost var s, hs := a[..], hasStarted[..];
    var p := a[i].(startTime := started);
    a[i] := p;
    hasStarted[p.id - 1] := true;
    assert a[..] == s[i := p];
    assert hasStarted[..] == hs[p.id - 1 := true];
    q', admittedAt' := q + [i], admittedAt[i := clock];
  }

  /** The queue the initial load builds from the processes below n: their
      indices, in batch order, keeping those that have arrived by time 0. */
  function InitialQueue(s: seq<Process>, n: nat): (r: seq<nat>)
    requires n <= |s|
    ensures forall x :: 0 <= x < |r| ==> r[x] < n
  {
    if n == 0 then []
    else InitialQueue(s, n - 1) + (if s[n - 1].arrivalTime <= 0 then [n - 1] else [])
  }

  /** A process as the initial load leaves it: one that has arrived by time
      0 gets start time 0 unless it has one; any other is untouched. */
  function LoadedAt0(p: Process): Process {
    if p.arrivalTime <= 0 then p.(startTime := AdmittedStart(p, 0)) else p
  }

  /** The flags the initial load sets over the processes below n: the id of
      every process that has arrived by time 0. */
  function InitialFlags(s: seq<Process>, n: nat): (r: seq<bool>)
    requires n <= |s| && IdsInRange(s)
    ensures |r| == |s|
  {
    if n == 0 then seq(|s|, _ => false)
    else
      var f := InitialFlags(s, n - 1);
      if s[n - 1].arrivalTime <= 0 then f[s[n - 1].id - 1 := true] else f
  }

  /** InitialQueue holds only processes below n that have arrived by time
      0, in increasing order. */
  lemma {:induction false} InitialQueueSound(s: seq<Process>, n: nat)
    requires n <= |s|
    ensures forall x :: 0 <= x < |InitialQueue(s, n)| ==>
              InitialQueue(s, n)[x] < n && s[InitialQueue(s, n)[x]].arrivalTime <= 0
    ensures forall x, y :: 0 <= x < y < |InitialQueue(s, n)| ==> InitialQueue(s, n)[x] < InitialQueue(s, n)[y]
  {
    if n > 0 {
      InitialQueueSound(s, n - 1);
      var q', q := InitialQueue(s, n - 1), InitialQueue(s, n);
      if s[n - 1].arrivalTime <= 0 {
        assert q == q' + [n - 1];
        assert forall x :: 0 <= x < |q'| ==> q[x] == q'[x];
      } else {
        assert q == q';
      }
    }
  }

  /** InitialQueue holds every process below n that has arrived by time 0. */
  lemma {:induction false} InitialQueueComplete(s: seq<Process>, n: nat)
    requires n <= |s|
    ensures forall i :: 0 <= i < n && s[i].arrivalTime <= 0 ==> i in InitialQueue(s, n)
  {
    if n > 0 {
      InitialQueueComplete(s, n - 1);
      var q', q := InitialQueue(s, n - 1), InitialQueue(s, n);
      assert q == q' + (if s[n - 1].arrivalTime <= 0 then [n - 1] else []);
    }
  }

  /** The initial load has looked at the processes below i: the run's state
      holds with nothing held at time 0, the queue is InitialQueue, only
      processes below i were admitted, each at time 0, each of those that had
      arrived by time 0 was admitted, and every flag is owned. */
  ghost predicate LoadState(s: seq<Process>, o: seq<Process>, hs: seq<bool>, q: seq<nat>,
                            admittedAt: map<nat, int>, i: nat, wf: bool) {
    RrCore(s, o, hs, q, {}, admittedAt, 0, wf) && LoadBook(o, hs, q, admittedAt, i)
  }

  /** The part of LoadState that is particular to the initial load. */
  ghost predicate LoadBook(o: seq<Process>, hs: seq<bool>, q: seq<nat>, admittedAt: map<nat, int>, i: nat) {
    i <= |o|
    && q == InitialQueue(o, i)
    && (forall j :: j in admittedAt ==> j < i && admittedAt[j] == 0)
    && (forall j :: 0 <= j < i && o[j].arrivalTime <= 0 ==> j in admittedAt)
    && FlagsOwned(o, hs, admittedAt)
  }

  /** Admitting process i, which has arrived by time 0, moves the initial
      load on. */
  lemma LoadAdmitted(o: seq<Process>, hs: seq<bool>, q: seq<nat>, admittedAt: map<nat, int>, i: nat)
    requires LoadBook(o, hs, q, admittedAt, i) && i < |o| && o[i].arrivalTime <= 0
    requires IdsInRange(o) && |hs| == |o|
    ensures LoadBook(o, hs[o[i].id - 1 := true], q + [i], admittedAt[i := 0], i + 1)
  {
    OwnedAdmit(o, hs, admittedAt, i, 0);
  }

  /** Passing over process i, which arrives after time 0, moves the initial
      load on. */
  lemma LoadSkipped(o: seq<Process>, hs: seq<bool>, q: seq<nat>, admittedAt: map<nat, int>, i: nat)
    requires LoadBook(o, hs, q, admittedAt, i) && i < |o| && o[i].arrivalTime > 0
    ensures LoadBook(o, hs, q, admittedAt, i + 1)
  {
  }

  /** Admitting process i, which has arrived by time 0, keeps the state of
      the initial load, one process further on; i is as loaded. */
  lemma LoadStep(s: seq<Process>, o: seq<Process>, hs: seq<bool>, q: seq<nat>,
                 admittedAt: map<nat, int>, i: nat, wf: bool, started: int)
    requires LoadState(s, o, hs, q, admittedAt, i, wf) && i < |s| && s[i].arrivalTime <= 0
    requires started == if s[i].startTime == -1 then 0 else s[i].startTime
    ensures s[i] == o[i] && started == AdmittedStart(o[i], 0)
    ensures LoadState(s[i := s[i].(startTime := started)], o, hs[s[i].id - 1 := true],
                      q + [i], admittedAt[i := 0], i + 1, wf)
  {
    assert i !in admittedAt;
    assert Slot(s, o, hs, q, {}, admittedAt, 0, wf, i);
    LoadAdmitted(o, hs, q, admittedAt, i);
    AdmitOne(s, o, hs, q, {}, admittedAt, 0, wf, i, s[i].(startTime := started));
  }

  /** One step of the initial load (lines 178-185): process i is enqueued,
      flagged and given start time 0 unless it has one, if it has arrived by
      time 0; otherwise nothing changes. */
  method LoadOne(a: array<Process>, hasStarted: array<bool>, q: seq<nat>, i: nat,
                 ghost o: seq<Process>, ghost admittedAt: map<nat, int>, ghost wf: bool)
    returns (q': seq<nat>, ghost admittedAt': map<nat, int>)
    requires LoadState(a[..], o, hasStarted[..], q, admittedAt, i, wf) && i < a.Length
    modifies a, hasStarted
    ensures LoadState(a[..], o, hasStarted[..], q', admittedAt', i + 1, wf)
    ensures if o[i].arrivalTime <= 0 then
              q' == q + [i] && admittedAt' == admittedAt[i := 0]
              && a[..] == old(a[..])[i := old(a[i]).(startTime := AdmittedStart(o[i], 0))]
              && hasStarted[..] == old(hasStarted[..])[o[i].id - 1 := true]
            else
              q' == q && admittedAt' == admittedAt && a[..] == old(a[..]) && hasStarted[..] == old(hasStarted[..])
  {
    ghost var s, hs := a[..], hasStarted[..];
    if a[i].arrivalTime <= 0 {
      var started := if a[i].startTime == -1 then 0 else a[i].startTime;
      LoadStep(s, o, hs, q, admittedAt, i, wf, started);
      q', admittedAt' := Admit(a, hasStarted, q, i, 0, started, admittedAt);
    } else {
      assert Slot(s, o, hs, q, {}, admittedAt, 0, wf, i);
      LoadSkipped(o, hs, q, admittedAt, i);
      q', admittedAt' := q, admittedAt;
    }
  }

  /** Lines 177-186: enqueue, in batch order, every process that has arrived
      by time 0, flag its id and give it start time 0 unless it has one. The
      initial load is the run's first look for arrivals, at time 0. */
  method LoadInitial(a: array<Process>, hasStarted: array<bool>, ghost wf: bool)
    returns (q: seq<nat>, ghost admittedAt: map<nat, int>)
    requires hasStarted.Length == a.Length && IdsInRange(a[..])
    requires forall v :: 0 <= v < hasStarted.Length ==> !hasStarted[v]
    requires wf ==> Loaded(a[..])
    modifies a, hasStarted
    ensures RrState(a[..], old(a[..]), hasStarted[..], q, {}, admittedAt, 0, wf)
    ensures q == InitialQueue(old(a[..]), a.Length)
    ensures forall j :: 0 <= j < a.Length ==> a[j] == LoadedAt0(old(a[j]))
    ensures hasStarted[..] == InitialFlags(old(a[..]), a.Length)
    ensures History(old(a[..]), hasStarted[..], admittedAt, [0])
  {
    ghost var o := a[..];
    q, admittedAt := [], map[];
    assert hasStarted[..] == InitialFlags(o, 0);
    for i := 0 to a.Length
      invariant LoadState(a[..], o, hasStarted[..], q, admittedAt, i, wf)
      invariant forall j :: 0 <= j < a.Length ==> a[j] == if j < i then LoadedAt0(o[j]) else o[j]
      invariant hasStarted[..] == InitialFlags(o, i)
    {
      q, admittedAt := LoadOne(a, hasStarted, q, i, o, admittedAt, wf);
    }
  }

  /** A process whose id is not flagged was never admitted; once it has
      arrived, it is admitted with start time `clock`. */
  lemma Unflagged(s: seq<Process>, o: seq<Process>, hs: seq<bool>, q: seq<nat>, held: set<nat>,
                  admittedAt: map<nat, int>, clock: int, wf: bool, j: nat)
    requires RrState(s, o, hs, q, held, admittedAt, clock, wf)
    requires j < |s| && s[j].arrivalTime <= clock && !hs[s[j].id - 1]
    ensures j !in admittedAt && s[j] == o[j] && o[j].arrivalTime <= clock && AdmittedStart(o[j], clock) == clock
  {
    assert Slot(s, o, hs, q, held, admittedAt, clock, wf, j);
  }

  /** Indices appended to the queue by one admission pass so far: all below
      the cursor j, none admitted before the pass, in increasing order. */
  predicate Newcomers(added: seq<nat>, admittedAt: map<nat, int>, j: nat) {
    (forall x :: 0 <= x < |added| ==> added[x] < j && added[x] !in admittedAt)
    && (forall x, y :: 0 <= x < y < |added| ==> added[x] < added[y])
  }

  /** The bookkeeping of an admission pass at time `clock` that started
      from batch `s0`, flags `hs0`, queue `q0` and admissions `at0` and has
      looked at the processes below j: it enqueued `added`, which is what Pass
      enqueues on the batch `o` as handed in; the flags are Pass's; the batch
      differs from `s0` only in the start times Started sets; the admissions
      are AdmitAll's; the remaining work is the same and the held process is
      untouched. */
  ghost predicate PassBook(s: seq<Process>, o: seq<Process>, hs: seq<bool>, q: seq<nat>, held: set<nat>,
                           admittedAt: map<nat, int>, clock: int,
                           s0: seq<Process>, hs0: seq<bool>, q0: seq<nat>, at0: map<nat, int>,
                           added: seq<nat>, j: nat) {
    |s0| == |s| && at0.Keys <= admittedAt.Keys
    && TotalWork(s) == TotalWork(s0)
    && (forall i :: i in held ==> i < |s| && s[i] == s0[i])
    && q == q0 + added && Newcomers(added, at0, j)
    && (forall x :: 0 <= x < |added| ==> added[x] in admittedAt)
    && PassTrack(s, o, hs, admittedAt, clock, s0, hs0, at0, added, j)
  }

  /** The part of PassBook that ties the pass to Pass, Started and AdmitAll. */
  ghost predicate PassTrack(s: seq<Process>, o: seq<Process>, hs: seq<bool>, admittedAt: map<nat, int>, clock: int,
                            s0: seq<Process>, hs0: seq<bool>, at0: map<nat, int>, added: seq<nat>, j: nat) {
    j <= |o| && |o| == |s| && |hs0| == |o| && IdsInRange(o)
    && added == Pass(o, hs0, clock, j).0 && hs == Pass(o, hs0, clock, j).1
    && s == Started(s0, added, clock) && admittedAt == AdmitAll(at0, added, clock)
  }

  /** Admitting process j moves PassTrack on. */
  lemma TrackAdmit(s: seq<Process>, o: seq<Process>, hs: seq<bool>, admittedAt: map<nat, int>, clock: int,
                   s0: seq<Process>, hs0: seq<bool>, at0: map<nat, int>, added: seq<nat>, j: nat)
    requires PassTrack(s, o, hs, admittedAt, clock, s0, hs0, at0, added, j) && j < |o|
    requires o[j].arrivalTime <= clock && !hs[o[j].id - 1]
    ensures PassTrack(s[j := s[j].(startTime := clock)], o, hs[o[j].id - 1 := true], admittedAt[j := clock],
                      clock, s0, hs0, at0, added + [j], j + 1)
  {
    PassNext(o, hs0, clock, j);
    StartedNext(s0, added, clock, j);
    AdmitAllNext(at0, added, clock, j);
  }

  /** The state of an admission pass: the run's state holds and so does the
      pass's bookkeeping. */
  ghost predicate PassState(s: seq<Process>, o: seq<Process>, hs: seq<bool>, q: seq<nat>, held: set<nat>,
                            admittedAt: map<nat, int>, clock: int, wf: bool,
                            s0: seq<Process>, hs0: seq<bool>, q0: seq<nat>, at0: map<nat, int>,
                            added: seq<nat>, j: nat) {
    RrState(s, o, hs, q, held, admittedAt, clock, wf)
    && PassBook(s, o, hs, q, held, admittedAt, clock, s0, hs0, q0, at0, added, j)
  }

  /** Before a pass has looked at any process, its bookkeeping holds with
      nothing enqueued. */
  lemma PassStart(s: seq<Process>, o: seq<Process>, hs: seq<bool>, q: seq<nat>, held: set<nat>,
                  admittedAt: map<nat, int>, clock: int)
    requires |o| == |s| && |hs| == |o| && IdsInRange(o) && forall i :: i in held ==> i < |s|
    ensures PassBook(s, o, hs, q, held, admittedAt, clock, s, hs, q, admittedAt, [], 0)
  {
    assert Pass(o, hs, clock, 0) == ([], hs);
    assert Started(s, [], clock) == s;
    assert AdmitAll(admittedAt, [], clock) == admittedAt;
  }

  /** Looking at process j, which has not arrived or whose id is flagged,
      moves the bookkeeping on without a change. */
  lemma PassSkip(s: seq<Process>, o: seq<Process>, hs: seq<bool>, q: seq<nat>, held: set<nat>,
                 admittedAt: map<nat, int>, clock: int,
                 s0: seq<Process>, hs0: seq<bool>, q0: seq<nat>, at0: map<nat, int>, added: seq<nat>, j: nat)
    requires PassBook(s, o, hs, q, held, admittedAt, clock, s0, hs0, q0, at0, added, j) && j < |o|
    requires !(o[j].arrivalTime <= clock && !hs[o[j].id - 1])
    ensures PassBook(s, o, hs, q, held, admittedAt, clock, s0, hs0, q0, at0, added, j + 1)
  {
  }

  /** Admitting process j, which has arrived and whose id is not flagged,
      moves the bookkeeping on. */
  lemma PassAdmit(s: seq<Process>, o: seq<Process>, hs: seq<bool>, q: seq<nat>, held: set<nat>,
                  admittedAt: map<nat, int>, clock: int,
                  s0: seq<Process>, hs0: seq<bool>, q0: seq<nat>, at0: map<nat, int>, added: seq<nat>, j: nat,
                  s': seq<Process>)
    requires PassBook(s, o, hs, q, held, admittedAt, clock, s0, hs0, q0, at0, added, j)
    requires j < |s| && j !in admittedAt && j !in held
    requires o[j].arrivalTime <= clock && !hs[o[j].id - 1]
    requires s' == s[j := s[j].(startTime := clock)] && TotalWork(s') == TotalWork(s)
    ensures PassBook(s', o, hs[o[j].id - 1 := true], q + [j], held, admittedAt[j := clock], clock,
                     s0, hs0, q0, at0, added + [j], j + 1)
  {
    var added' := added + [j];
    TrackAdmit(s, o, hs, admittedAt, clock, s0, hs0, at0, added, j);
    assert q + [j] == q0 + added';
    assert forall x :: 0 <= x < |added| ==> added'[x] == added[x];
    assert forall i :: i in held ==> s'[i] == s[i];
    assert forall x :: 0 <= x < |added'| ==> added'[x] in admittedAt[j := clock];
  }

  /** Admitting process j, which has arrived and whose id is not flagged,
      keeps the state of the pass, one process further on. */
  lemma PassStep(s: seq<Process>, o: seq<Process>, hs: seq<bool>, q: seq<nat>, held: set<nat>,
                 admittedAt: map<nat, int>, clock: int, wf: bool,
                 s0: seq<Process>, hs0: seq<bool>, q0: seq<nat>, at0: map<nat, int>, added: seq<nat>, j: nat)
    requires PassState(s, o, hs, q, held, admittedAt, clock, wf, s0, hs0, q0, at0, added, j)
    requires j < |s| && s[j].arrivalTime <= clock && !hs[s[j].id - 1]
    ensures s[j].id == o[j].id && o[j].arrivalTime <= clock
    ensures PassState(s[j := s[j].(startTime := clock)], o, hs[o[j].id - 1 := true], q + [j], held,
                      admittedAt[j := clock], clock, wf, s0, hs0, q0, at0, added + [j], j + 1)
  {
    Unflagged(s, o, hs, q, held, admittedAt, clock, wf, j);
    var p := s[j].(startTime := clock);
    AdmitOne(s, o, hs, q, held, admittedAt, clock, wf, j, p);
    TotalWorkUpdate(s, j, p);
    PassAdmit(s, o, hs, q, held, admittedAt, clock, s0, hs0, q0, at0, added, j, s[j := p]);
  }

  /** One step of the admission pass (lines 210-214): process j is admitted
      with start time `clock` exactly when it has arrived and its id is not
      flagged; otherwise nothing changes. */
  method AdmitIfArrived(a: array<Process>, hasStarted: array<bool>, q: seq<nat>, j: nat, clock: int,
                        ghost o: seq<Process>, ghost held: set<nat>, ghost admittedAt: map<nat, int>,
                        ghost wf: bool, ghost s0: seq<Process>, ghost hs0: seq<bool>, ghost q0: seq<nat>,
                        ghost at0: map<nat, int>, ghost added: seq<nat>)
    returns (q': seq<nat>, ghost admittedAt': map<nat, int>, ghost added': seq<nat>)
    requires PassState(a[..], o, hasStarted[..], q, held, admittedAt, clock, wf, s0, hs0, q0, at0, added, j)
    requires j < a.Length
    modifies a, hasStarted
    ensures PassState(a[..], o, hasStarted[..], q', held, admittedAt', clock, wf, s0, hs0, q0, at0, added', j + 1)
    ensures if o[j].arrivalTime <= clock && !old(hasStarted[o[j].id - 1]) then
              q' == q + [j] && admittedAt' == admittedAt[j := clock]
              && a[..] == old(a[..])[j := old(a[j]).(startTime := clock)]
              && hasStarted[..] == old(hasStarted[..])[o[j].id - 1 := true]
            else
              q' == q && admittedAt' == admittedAt && a[..] == old(a[..]) && hasStarted[..] == old(hasStarted[..])
  {
    ghost var s, hs := a[..], hasStarted[..];
    if a[j].arrivalTime <= clock && !hasStarted[a[j].id - 1] {
      PassStep(s, o, hs, q, held, admittedAt, clock, wf, s0, hs0, q0, at0, added, j);
      q', admittedAt' := Admit(a, hasStarted, q, j, clock, clock, admittedAt);
      added' := added + [j];
    } else {
      assert Slot(s, o, hs, q, held, admittedAt, clock, wf, j);
      PassSkip(s, o, hs, q, held, admittedAt, clock, s0, hs0, q0, at0, added, j);
      q', admittedAt', added' := q, admittedAt, added;
    }
  }

  /** A complete admission pass at time c, starting from flags `hs0` and
      admissions `at0`, adds c to the clock readings of the run's history. */
  lemma HistoryPass(o: seq<Process>, hs0: seq<bool>, at0: map<nat, int>, checks: seq<int>, c: int)
    requires IdsInRange(o) && |hs0| == |o| && (forall j :: j in at0 ==> j < |o|)
    requires History(o, hs0, at0, checks)
    ensures History(o, Pass(o, hs0, c, |o|).1, AdmitAll(at0, Pass(o, hs0, c, |o|).0, c), checks + [c])
  {
    var added, hs1 := Pass(o, hs0, c, |o|).0, Pass(o, hs0, c, |o|).1;
    var at1 := AdmitAll(at0, added, c);
    var checks' := checks + [c];
    forall i | 0 <= i < |o| ensures (i in at1 <==> i in at0 || i in added) {
      AdmitAllAt(at0, added, c, i);
    }
    assert at0.Keys <= at1.Keys;
    forall v | 0 <= v < |hs1| && hs1[v] ensures IdTaken(o, at1, v) {
      if hs0[v] {
        TakenGrows(o, at0, at1, v);
      } else {
        PassOwner(o, hs0, c, |o|, v);
        var x :| 0 <= x < |added| && o[added[x]].id - 1 == v;
        assert added[x] in at1;
      }
    }
    forall j | j in at1 ensures at1[j] in checks' {
      AdmitAllAt(at0, added, c, j);
      if j !in added {
        assert at1[j] == at0[j] && at0[j] in checks;
      }
    }
    StrandedPass(o, hs0, at0, checks, c);
  }

  /** After a complete admission pass at time c, a process never admitted
      had, at each earlier reading and at c, either not arrived or its id
      taken. */
  lemma StrandedPass(o: seq<Process>, hs0: seq<bool>, at0: map<nat, int>, checks: seq<int>, c: int)
    requires IdsInRange(o) && |hs0| == |o| && (forall j :: j in at0 ==> j < |o|)
    requires History(o, hs0, at0, checks)
    ensures Stranded(o, AdmitAll(at0, Pass(o, hs0, c, |o|).0, c), checks + [c])
  {
    var added := Pass(o, hs0, c, |o|).0;
    var at1 := AdmitAll(at0, added, c);
    var checks' := checks + [c];
    forall i | i in at0 ensures i in at1 {
      AdmitAllAt(at0, added, c, i);
    }
    PassComplete(o, hs0, c, |o|);
    forall j, x | 0 <= x < |checks'| && Missed(o, at1, j, checks'[x])
      ensures IdTaken(o, at1, o[j].id - 1)
    {
      AdmitAllAt(at0, added, c, j);
      if x < |checks| {
        assert checks'[x] == checks[x] && Missed(o, at0, j, checks[x]);
        TakenGrows(o, at0, at1, o[j].id - 1);
      } else if hs0[o[j].id - 1] {
        TakenGrows(o, at0, at1, o[j].id - 1);
      } else {
        var y :| 0 <= y < |added| && added[y] < j && o[added[y]].id == o[j].id;
        AdmitAllAt(at0, added, c, added[y]);
        assert added[y] in at1;
      }
    }
  }

  /** A pass that has looked at the whole batch: what AdmitArrivals promises. */
  lemma PassFinished(s: seq<Process>, o: seq<Process>, hs: seq<bool>, q: seq<nat>, held: set<nat>,
                     admittedAt: map<nat, int>, clock: int, wf: bool,
                     s0: seq<Process>, hs0: seq<bool>, q0: seq<nat>, at0: map<nat, int>, added: seq<nat>)
    requires PassState(s, o, hs, q, held, admittedAt, clock, wf, s0, hs0, q0, at0, added, |s|)
    requires forall j :: j in at0 ==> j < |o|
    ensures added == Pass(o, hs0, clock, |s|).0 && hs == Pass(o, hs0, clock, |s|).1
    ensures s == Started(s0, added, clock) && admittedAt == AdmitAll(at0, added, clock)
    ensures q == q0 + added && Newcomers(added, at0, |s|)
    ensures at0.Keys <= admittedAt.Keys
    ensures added == [] || exists j :: j in admittedAt && j !in at0
    ensures TotalWork(s) == TotalWork(s0)
    ensures forall i :: i in held ==> i < |s| && s[i] == s0[i]
  {
    if added != [] {
      assert added[0] in admittedAt && added[0] !in at0;
    }
  }

  /** Lines 209-215: after a slice that left the running process `held`
      unfinished, enqueue, in batch order, every process that has arrived by
      now and whose id is not flagged, with start time `clock`. The pass does
      what Pass, Started and AdmitAll say, and is one more look for arrivals
      in the run's history. */
  method AdmitArrivals(a: array<Process>, hasStarted: array<bool>, q: seq<nat>, clock: int,
                       ghost o: seq<Process>, ghost held: set<nat>, ghost admittedAt: map<nat, int>,
                       ghost wf: bool)
    returns (q': seq<nat>, ghost admittedAt': map<nat, int>, ghost added: seq<nat>)
    requires RrState(a[..], o, hasStarted[..], q, held, admittedAt, clock, wf)
    modifies a, hasStarted
    ensures RrState(a[..], o, hasStarted[..], q', held, admittedAt', clock, wf)
    ensures added == Pass(o, old(hasStarted[..]), clock, a.Length).0
    ensures hasStarted[..] == Pass(o, old(hasStarted[..]), clock, a.Length).1
    ensures a[..] == Started(old(a[..]), added, clock)
    ensures admittedAt' == AdmitAll(admittedAt, added, clock)
    ensures q' == q + added && Newcomers(added, admittedAt, a.Length)
    ensures admittedAt.Keys <= admittedAt'.Keys
    ensures added == [] || exists j :: j in admittedAt' && j !in admittedAt
    ensures TotalWork(a[..]) == TotalWork(old(a[..]))
    ensures forall i :: i in held ==> a[i] == old(a[i])
  {
    ghost var s0, hs0 := a[..], hasStarted[..];
    q', admittedAt', added := q, admittedAt, [];
    PassStart(s0, o, hs0, q, held, admittedAt, clock);
    for j := 0 to a.Length
      invariant PassState(a[..], o, hasStarted[..], q', held, admittedAt', clock, wf, s0, hs0, q, admittedAt, added, j)
    {
      q', admittedAt', added := AdmitIfArrived(a, hasStarted, q', j, clock, o, held, admittedAt', wf,
                                               s0, hs0, q, admittedAt, added);
    }
    PassFinished(a[..], o, hasStarted[..], q', held, admittedAt', clock, wf, s0, hs0, q, admittedAt, added);
  }

  /** Taking the head off the queue, and letting the clock run on by a
      non-negative switch, keeps the state; the head is then held, and its id
      is flagged. */
  lemma PopHead(s: seq<Process>, o: seq<Process>, hs: seq<bool>, q: seq<nat>,
                admittedAt: map<nat, int>, clock: int, later: int, wf: bool)
    requires RrState(s, o, hs, q, {}, admittedAt, clock, wf) && q != []
    requires wf ==> clock <= later
    ensures RrState(s, o, hs, q[1..], {q[0]}, admittedAt, later, wf)
    ensures q[0] < |s| && 0 < s[q[0]].id <= |hs| && hs[s[q[0]].id - 1]
  {
    var q' := q[1..];
    assert q == [q[0]] + q';
    assert Slot(s, o, hs, q, {}, admittedAt, clock, wf, q[0]);
    forall x | 0 <= x < |q'| ensures q'[x] in admittedAt && q'[x] != q[0] {
      assert q'[x] == q[x + 1];
    }
    forall j | 0 <= j < |s| ensures Slot(s, o, hs, q', {q[0]}, admittedAt, later, wf, j) {
      assert Slot(s, o, hs, q, {}, admittedAt, clock, wf, j);
    }
  }

  /** A slice of length e that leaves the held process k with work left keeps
      the state at the clock e later. */
  lemma SliceContinues(s: seq<Process>, o: seq<Process>, hs: seq<bool>, q: seq<nat>, k: nat,
                       admittedAt: map<nat, int>, clock: int, wf: bool, e: int, p: Process)
    requires RrState(s, o, hs, q, {k}, admittedAt, clock, wf)
    requires k < |s| && 0 < e < s[k].remainingTime
    requires p == s[k].(remainingTime := s[k].remainingTime - e)
    ensures RrState(s[k := p], o, hs, q, {k}, admittedAt, clock + e, wf)
  {
    var s', later := s[k := p], clock + e;
    forall j | 0 <= j < |s| ensures Slot(s', o, hs, q, {k}, admittedAt, later, wf, j) {
      assert Slot(s, o, hs, q, {k}, admittedAt, clock, wf, j);
    }
  }

  /** A slice that runs the held process k to the end of its work finishes
      it at the clock e later; it is then neither queued nor held. */
  lemma SliceFinishes(s: seq<Process>, o: seq<Process>, hs: seq<bool>, q: seq<nat>, k: nat,
                      admittedAt: map<nat, int>, clock: int, wf: bool, e: int, p: Process)
    requires RrState(s, o, hs, q, {k}, admittedAt, clock, wf)
    requires k < |s| && e == s[k].remainingTime
    requires p == s[k].(remainingTime := 0, finishTime := clock + e)
    ensures RrState(s[k := p], o, hs, q, {}, admittedAt, clock + e, wf)
  {
    var s' := s[k := p];
    assert k !in q;
    assert Slot(s, o, hs, q, {k}, admittedAt, clock, wf, k);
    var later := clock + e;
    forall j | 0 <= j < |s| ensures Slot(s', o, hs, q, {}, admittedAt, later, wf, j) {
      assert Slot(s, o, hs, q, {k}, admittedAt, clock, wf, j);
    }
  }

  /** Putting the held process back at the tail of the queue keeps the state. */
  lemma PushBack(s: seq<Process>, o: seq<Process>, hs: seq<bool>, q: seq<nat>, k: nat,
                 admittedAt: map<nat, int>, clock: int, wf: bool)
    requires RrState(s, o, hs, q, {k}, admittedAt, clock, wf)
    ensures RrState(s, o, hs, q + [k], {}, admittedAt, clock, wf)
  {
    assert k !in q;
    forall j | 0 <= j < |s| ensures Slot(s, o, hs, q + [k], {}, admittedAt, clock, wf, j) {
      assert Slot(s, o, hs, q, {k}, admittedAt, clock, wf, j);
      assert (j in q + [k]) == (j in q || j == k);
    }
  }

  /** Lines 202-216 for a slice of length e that leaves the held process k
      with work left: record the slice, admit the arrivals, then put k back
      at the tail of the queue. */
  method Requeue(a: array<Process>, hasStarted: array<bool>, q: seq<nat>, k: nat, e: int, clock: int,
                 ghost o: seq<Process>, ghost admittedAt: map<nat, int>, ghost wf: bool)
    returns (q': seq<nat>, clock': int, ghost admittedAt': map<nat, int>, ghost added: seq<nat>)
    requires RrState(a[..], o, hasStarted[..], q, {k}, admittedAt, clock, wf)
    requires k < a.Length && 0 < e < a[k].remainingTime
    modifies a, hasStarted
    ensures RrState(a[..], o, hasStarted[..], q', {}, admittedAt', clock', wf)
    ensures clock' == clock + e && q' == q + added + [k] && Newcomers(added, admittedAt, a.Length)
    ensures added == Pass(o, old(hasStarted[..]), clock', |o|).0
    ensures hasStarted[..] == Pass(o, old(hasStarted[..]), clock', |o|).1
    ensures a[..] == Started(old(a[..])[k := old(a[k]).(remainingTime := old(a[k]).remainingTime - e)], added, clock')
    ensures admittedAt' == AdmitAll(admittedAt, added, clock')
    ensures a[k] == old(a[k]).(remainingTime := old(a[k]).remainingTime - e)
    ensures admittedAt.Keys <= admittedAt'.Keys
    ensures admittedAt'.Keys != admittedAt.Keys || TotalWork(a[..]) + |q'| <= TotalWork(old(a[..])) + |q|
    ensures RrConfig(a[..], hasStarted[..], q', clock', Some(k))
              == Requeued(o, old(a[..])[k := old(a[k]).(remainingTime := old(a[k]).remainingTime - e)],
                          old(hasStarted[..]), q, k, clock')
  {
    ghost var s, hs := a[..], hasStarted[..];
    var p := a[k].(remainingTime := a[k].remainingTime - e);
    SliceContinues(s, o, hs, q, k, admittedAt, clock, wf, e, p);
    TotalWorkUpdate(s, k, p);
    a[k] := p;
    assert a[..] == s[k := p] && hasStarted[..] == hs;
    clock' := clock + e;
    q', admittedAt', added := AdmitArrivals(a, hasStarted, q, clock', o, {k}, admittedAt, wf);
    PushBack(a[..], o, hasStarted[..], q', k, admittedAt', clock', wf);
    q' := q' + [k];
    RequeuedIs(o, s[k := p], hs, q, k, clock', RrConfig(a[..], hasStarted[..], q', clock', Some(k)));
  }

  /** Lines 202-204 and 217-220 for a slice of length e that runs the held
      process k to the end of its work: record its finish; nothing else
      changes. */
  method Retire(a: array<Process>, hasStarted: array<bool>, q: seq<nat>, k: nat, e: int, clock: int,
                ghost o: seq<Process>, ghost admittedAt: map<nat, int>, ghost wf: bool)
    returns (clock': int)
    requires RrState(a[..], o, hasStarted[..], q, {k}, admittedAt, clock, wf)
    requires k < a.Length && e == a[k].remainingTime
    modifies a
    ensures RrState(a[..], o, hasStarted[..], q, {}, admittedAt, clock', wf)
    ensures TotalWork(a[..]) <= TotalWork(old(a[..]))
    ensures clock' == clock + e
    ensures a[..] == old(a[..])[k := old(a[k]).(remainingTime := 0, finishTime := clock')]
  {
    ghost var s := a[..];
    clock' := clock + e;
    var p := a[k].(remainingTime := 0, finishTime := clock');
    SliceFinishes(s, o, hasStarted[..], q, k, admittedAt, clock, wf, e, p);
    TotalWorkUpdate(s, k, p);
    a[k] := p;
    assert a[..] == s[k := p];
  }

  /** The state of a run between two dispatches: the batch, the flags by
      id, the ready queue, the clock and the process the last slice ran. */
  datatype RrConfig = RrConfig(s: seq<Process>, hs: seq<bool>, q: seq<nat>, clock: int, last: Option<nat>)

  /** The shape a run's state keeps for the batch `o` as handed in. */
  predicate ConfigOk(o: seq<Process>, c: RrConfig) {
    |c.s| == |o| && |c.hs| == |o| && IdsInRange(o)
  }

  /** The state the initial load (lines 177-186) leaves. */
  function InitialConfig(o: seq<Process>): (c: RrConfig)
    requires IdsInRange(o)
    ensures ConfigOk(o, c)
  {
    RrConfig(seq(|o|, j requires 0 <= j < |o| => LoadedAt0(o[j])), InitialFlags(o, |o|),
             InitialQueue(o, |o|), 0, None)
  }

  /** One pass of the dispatcher loop (lines 188-224) as a function of the
      state: take the head k; charge a switch if the last slice ran another
      process; on a first dispatch set the start time and flag; run at most a
      quantum; then either look for arrivals at the new clock and put k back
      at the tail, or record k's finish. The second component is the clock
      reading at which the step looked for arrivals, if it did. A head outside
      the batch, which a run never queues, leaves the state as it is. */
  function RrStep(o: seq<Process>, c: RrConfig, cs: int, quantum: int): (r: (RrConfig, Option<int>))
    requires quantum > 0 && ConfigOk(o, c) && c.q != []
    ensures ConfigOk(o, r.0)
  {
    var k := c.q[0];
    if k >= |o| then (c, None)
    else
      var now := c.clock + (if c.last.Some? && c.last.value != k then cs else 0);
      var v := o[k].id - 1;
      if c.hs[v] then RunHead(o, c.s, c.hs, c.q[1..], k, now, quantum)
      else RunHead(o, c.s[k := c.s[k].(startTime := now)], c.hs[v := true], c.q[1..], k, now, quantum)
  }

  /** The slice of the head k, taken off the queue (the rest is `rest`) and
      dispatched at `now`, and what follows it (lines 203-222). */
  function RunHead(o: seq<Process>, s: seq<Process>, hs: seq<bool>, rest: seq<nat>, k: nat, now: int,
                   quantum: int): (r: (RrConfig, Option<int>))
    requires quantum > 0 && k < |s| && |s| == |o| && |hs| == |o| && IdsInRange(o)
    ensures ConfigOk(o, r.0)
  {
    var e := QuantumSlice(s[k].remainingTime, quantum);
    if s[k].remainingTime - e > 0 then
      (Requeued(o, s[k := s[k].(remainingTime := s[k].remainingTime - e)], hs, rest, k, now + e), Some(now + e))
    else
      (RrConfig(s[k := s[k].(remainingTime := s[k].remainingTime - e, finishTime := now + e)], hs, rest,
                now + e, Some(k)), None)
  }

  /** The state after a slice that left k with work at time `after`: the
      arrivals check of lines 209-215 at `after`, then k at the tail. */
  function Requeued(o: seq<Process>, s: seq<Process>, hs: seq<bool>, rest: seq<nat>, k: nat, after: int): (r: RrConfig)
    requires |s| == |o| && |hs| == |o| && IdsInRange(o)
    ensures ConfigOk(o, r)
  {
    var added := Pass(o, hs, after, |o|).0;
    RrConfig(Started(s, added, after), Pass(o, hs, after, |o|).1, rest + added + [k], after, Some(k))
  }

  /** The clock readings at which the steps with marks `marks` looked for
      arrivals, in order. */
  function Readings(marks: seq<Option<int>>): seq<int> {
    if marks == [] then []
    else Readings(marks[..|marks| - 1]) + (if marks[|marks| - 1].Some? then [marks[|marks| - 1].value] else [])
  }

  /** `trace` is a run of the dispatcher loop on the batch `o`: it starts
      where the initial load leaves off, and each state is RrStep of the one
      before, which had a process queued; `marks` holds each step's look for
      arrivals, if any. */
  ghost predicate IsRun(o: seq<Process>, cs: int, quantum: int, trace: seq<RrConfig>, marks: seq<Option<int>>) {
    quantum > 0 && IdsInRange(o) && |trace| == |marks| + 1 && trace[0] == InitialConfig(o)
    && (forall i :: 0 <= i < |trace| ==> ConfigOk(o, trace[i]))
    && forall i :: 0 <= i < |marks| ==>
         trace[i].q != [] && RrStep(o, trace[i], cs, quantum) == (trace[i + 1], marks[i])
  }

  /** One more step from the last state of a run, whose queue is not empty,
      extends the run, and its look for arrivals (if any) extends the
      readings. */
  lemma RunExtends(o: seq<Process>, cs: int, quantum: int, trace: seq<RrConfig>, marks: seq<Option<int>>,
                   checks: seq<int>, c': RrConfig, m: Option<int>)
    requires IsRun(o, cs, quantum, trace, marks) && checks == [0] + Readings(marks)
    requires trace[|trace| - 1].q != [] && RrStep(o, trace[|trace| - 1], cs, quantum) == (c', m)
    ensures IsRun(o, cs, quantum, trace + [c'], marks + [m])
    ensures (if m.Some? then checks + [m.value] else checks) == [0] + Readings(marks + [m])
  {
    var trace', marks' := trace + [c'], marks + [m];
    assert marks'[..|marks|] == marks;
    forall i | 0 <= i < |marks'|
      ensures trace'[i].q != [] && RrStep(o, trace'[i], cs, quantum) == (trace'[i + 1], marks'[i])
    {
      if i < |marks| {
        assert trace'[i] == trace[i] && trace'[i + 1] == trace[i + 1] && marks'[i] == marks[i];
      }
    }
    if m.Some? {
      assert checks + [m.value] == [0] + (Readings(marks) + [m.value]);
    }
  }

  /** Two runs on the same batch agree on their first i + 1 states. */
  lemma {:induction false} RunsAgree(o: seq<Process>, cs: int, quantum: int, t1: seq<RrConfig>, m1: seq<Option<int>>,
                                     t2: seq<RrConfig>, m2: seq<Option<int>>, i: nat)
    requires IsRun(o, cs, quantum, t1, m1) && IsRun(o, cs, quantum, t2, m2)
    requires i < |t1| && i < |t2|
    ensures t1[i] == t2[i]
    ensures i < |m1| && i < |m2| ==> m1[i] == m2[i]
  {
    if i > 0 {
      RunsAgree(o, cs, quantum, t1, m1, t2, m2, i - 1);
      assert RrStep(o, t1[i - 1], cs, quantum) == (t1[i], m1[i - 1]);
    }
    if i < |m1| && i < |m2| {
      assert RrStep(o, t1[i], cs, quantum) == (t1[i + 1], m1[i]);
      assert RrStep(o, t2[i], cs, quantum) == (t2[i + 1], m2[i]);
    }
  }

  /** A run that ends with the queue empty is the only one: any two such
      runs on the same batch take the same steps and look for arrivals at the
      same readings, so the batch a run leaves behind is determined. */
  lemma RunUnique(o: seq<Process>, cs: int, quantum: int, t1: seq<RrConfig>, m1: seq<Option<int>>,
                  t2: seq<RrConfig>, m2: seq<Option<int>>)
    requires IsRun(o, cs, quantum, t1, m1) && t1[|t1| - 1].q == []
    requires IsRun(o, cs, quantum, t2, m2) && t2[|t2| - 1].q == []
    ensures t1 == t2 && m1 == m2
  {
    if |t1| < |t2| {
      RunsAgree(o, cs, quantum, t1, m1, t2, m2, |t1| - 1);
      assert false;
    } else if |t2| < |t1| {
      RunsAgree(o, cs, quantum, t1, m1, t2, m2, |t2| - 1);
      assert false;
    }
    forall i | 0 <= i < |t1| ensures t1[i] == t2[i] {
      RunsAgree(o, cs, quantum, t1, m1, t2, m2, i);
    }
    forall i | 0 <= i < |m1| ensures m1[i] == m2[i] {
      RunsAgree(o, cs, quantum, t1, m1, t2, m2, i);
    }
  }

  /** A step from `c` whose head is flagged runs that head at `now`. */
  lemma FlaggedHeadRuns(o: seq<Process>, c: RrConfig, cs: int, quantum: int, now: int)
    requires quantum > 0 && ConfigOk(o, c) && c.q != [] && c.q[0] < |o| && c.hs[o[c.q[0]].id - 1]
    requires now == c.clock + (if c.last.Some? && c.last.value != c.q[0] then cs else 0)
    ensures RrStep(o, c, cs, quantum) == RunHead(o, c.s, c.hs, c.q[1..], c.q[0], now, quantum)
  {
  }

  /** The pieces of the state after a requeuing slice make up Requeued. */
  lemma RequeuedIs(o: seq<Process>, s: seq<Process>, hs: seq<bool>, rest: seq<nat>, k: nat, after: int, c': RrConfig)
    requires |s| == |o| && |hs| == |o| && IdsInRange(o)
    requires c'.clock == after && c'.last == Some(k)
    requires c'.q == rest + Pass(o, hs, after, |o|).0 + [k]
    requires c'.hs == Pass(o, hs, after, |o|).1
    requires c'.s == Started(s, Pass(o, hs, after, |o|).0, after)
    ensures c' == Requeued(o, s, hs, rest, k, after)
  {
  }

  /** A step from `c` whose head k is flagged and whose slice of length e
      leaves work: the arrivals pass at the new clock, then k at the tail. */
  lemma StepRequeues(o: seq<Process>, c: RrConfig, cs: int, quantum: int, e: int, after: int)
    requires quantum > 0 && ConfigOk(o, c) && c.q != [] && c.q[0] < |o| && c.hs[o[c.q[0]].id - 1]
    requires e == QuantumSlice(c.s[c.q[0]].remainingTime, quantum) && c.s[c.q[0]].remainingTime - e > 0
    requires after == c.clock + (if c.last.Some? && c.last.value != c.q[0] then cs else 0) + e
    ensures RrStep(o, c, cs, quantum)
              == (Requeued(o, c.s[c.q[0] := c.s[c.q[0]].(remainingTime := c.s[c.q[0]].remainingTime - e)],
                           c.hs, c.q[1..], c.q[0], after), Some(after))
  {
    var now := c.clock + (if c.last.Some? && c.last.value != c.q[0] then cs else 0);
    FlaggedHeadRuns(o, c, cs, quantum, now);
  }

  /** A step from `c` whose head k is flagged and whose slice of length e
      finishes k. */
  lemma StepFinishes(o: seq<Process>, c: RrConfig, cs: int, quantum: int, c': RrConfig, e: int, after: int)
    requires quantum > 0 && ConfigOk(o, c) && c.q != [] && c.q[0] < |o| && c.hs[o[c.q[0]].id - 1]
    requires e == QuantumSlice(c.s[c.q[0]].remainingTime, quantum) && c.s[c.q[0]].remainingTime - e <= 0
    requires after == c.clock + (if c.last.Some? && c.last.value != c.q[0] then cs else 0) + e
    requires c'.clock == after && c'.last == Some(c.q[0]) && c'.q == c.q[1..] && c'.hs == c.hs
    requires c'.s == c.s[c.q[0] := c.s[c.q[0]].(remainingTime := 0, finishTime := after)]
    ensures RrStep(o, c, cs, quantum) == (c', None)
  {
    var k := c.q[0];
    var now := c.clock + (if c.last.Some? && c.last.value != k then cs else 0);
    FlaggedHeadRuns(o, c, cs, quantum, now);
    assert c.s[k].remainingTime - e == 0;
  }

  /** The effect of one dispatch from the state (s, hs, q, clock, last) to
      c', stated flat: the head is flagged, the clock advances by the switch
      charge and the slice, and either k goes back to the tail after the
      arrivals check (`requeued`) or it finishes. */
  predicate Dispatched(o: seq<Process>, cs: int, quantum: int, s: seq<Process>, hs: seq<bool>, q: seq<nat>,
                       clock: int, last: Option<nat>, c': RrConfig, requeued: bool)
  {
    quantum > 0 && |s| == |o| && |hs| == |o| && IdsInRange(o) && q != [] && q[0] < |o| && hs[o[q[0]].id - 1]
    && (var e := QuantumSlice(s[q[0]].remainingTime, quantum);
        c'.clock == clock + (if last.Some? && last.value != q[0] then cs else 0) + e
        && requeued == (s[q[0]].remainingTime - e > 0)
        && (requeued ==>
              c' == Requeued(o, s[q[0] := s[q[0]].(remainingTime := s[q[0]].remainingTime - e)],
                             hs, q[1..], q[0], c'.clock)))
    && (!requeued ==>
          c'.last == Some(q[0]) && c'.q == q[1..] && c'.hs == hs
          && c'.s == s[q[0] := s[q[0]].(remainingTime := 0, finishTime := c'.clock)])
  }

  /** Such a dispatch is the step RrStep takes from the same state. */
  lemma StepOf(o: seq<Process>, s: seq<Process>, hs: seq<bool>, q: seq<nat>, clock: int, last: Option<nat>,
               cs: int, quantum: int, c': RrConfig, requeued: bool)
    requires Dispatched(o, cs, quantum, s, hs, q, clock, last, c', requeued)
    ensures RrStep(o, RrConfig(s, hs, q, clock, last), cs, quantum) == (c', if requeued then Some(c'.clock) else None)
  {
    var c := RrConfig(s, hs, q, clock, last);
    var e := QuantumSlice(s[q[0]].remainingTime, quantum);
    if requeued {
      StepRequeues(o, c, cs, quantum, e, c'.clock);
    } else {
      StepFinishes(o, c, cs, quantum, c', e, c'.clock);
    }
  }

  /** Such a dispatch from the last state of a run extends the run by one
      step. */
  lemma RunTakesDispatch(o: seq<Process>, cs: int, quantum: int, trace: seq<RrConfig>, marks: seq<Option<int>>,
                         checks: seq<int>, s: seq<Process>, hs: seq<bool>, q: seq<nat>, clock: int, last: Option<nat>,
                         c': RrConfig, requeued: bool)
    requires IsRun(o, cs, quantum, trace, marks) && checks == [0] + Readings(marks)
    requires trace[|trace| - 1] == RrConfig(s, hs, q, clock, last)
    requires Dispatched(o, cs, quantum, s, hs, q, clock, last, c', requeued)
    ensures IsRun(o, cs, quantum, trace + [c'], marks + [if requeued then Some(c'.clock) else None])
    ensures (if requeued then checks + [c'.clock] else checks)
              == [0] + Readings(marks + [if requeued then Some(c'.clock) else None])
  {
    StepOf(o, s, hs, q, clock, last, cs, quantum, c', requeued);
    RunExtends(o, cs, quantum, trace, marks, checks, c', if requeued then Some(c'.clock) else None);
  }

  /** One pass of the dispatcher (lines 188-224): take the head of the queue,
      charge a context switch if the previous slice ran another process, run
      one quantum at most, then either admit the arrivals and put the process
      back at the tail, or record its finish. `requeued` says which: only a
      slice that leaves work behind is followed by a look for arrivals. */
  method Dispatch(a: array<Process>, hasStarted: array<bool>, q: seq<nat>, clock: int, last: Option<nat>,
                  cs: int, quantum: int, ghost o: seq<Process>, ghost admittedAt: map<nat, int>, ghost wf: bool)
    returns (q': seq<nat>, clock': int, last': Option<nat>, ghost admittedAt': map<nat, int>,
             ghost newcomers: seq<nat>, ghost requeued: bool)
    requires quantum > 0 && (wf ==> cs >= 0)
    requires RrState(a[..], o, hasStarted[..], q, {}, admittedAt, clock, wf) && q != []
    modifies a, hasStarted
    ensures RrState(a[..], o, hasStarted[..], q', {}, admittedAt', clock', wf)
    ensures admittedAt.Keys <= admittedAt'.Keys
    ensures admittedAt'.Keys != admittedAt.Keys || TotalWork(a[..]) + |q'| < TotalWork(old(a[..])) + |q|
    ensures last' == Some(q[0])
    ensures a[q[0]].remainingTime == 0 <==> q' == q[1..]
    ensures var e := QuantumSlice(old(a[q[0]]).remainingTime, quantum);
              clock' == clock + (if last.Some? && last.value != q[0] then cs else 0) + e
              && a[q[0]].remainingTime == old(a[q[0]]).remainingTime - e
              && a[q[0]].startTime == old(a[q[0]]).startTime
    ensures var e := QuantumSlice(old(a[q[0]]).remainingTime, quantum);
              requeued == (old(a[q[0]]).remainingTime - e > 0)
    ensures if requeued then
                q' == q[1..] + newcomers + [q[0]] && Newcomers(newcomers, admittedAt, a.Length)
                && newcomers == Pass(o, old(hasStarted[..]), clock', |o|).0
                && hasStarted[..] == Pass(o, old(hasStarted[..]), clock', |o|).1
                && a[..] == Started(old(a[..])[q[0] := old(a[q[0]]).(remainingTime := a[q[0]].remainingTime)],
                                    newcomers, clock')
                && admittedAt' == AdmitAll(admittedAt, newcomers, clock')
              else
                q' == q[1..] && newcomers == [] && admittedAt' == admittedAt
                && hasStarted[..] == old(hasStarted[..])
                && a[..] == old(a[..])[q[0] := old(a[q[0]]).(remainingTime := 0, finishTime := clock')]
    ensures Dispatched(o, cs, quantum, old(a[..]), old(hasStarted[..]), q, clock, last,
                       RrConfig(a[..], hasStarted[..], q', clock', last'), requeued)
  {
    assert Slot(a[..], o, hasStarted[..], q, {}, admittedAt, clock, wf, q[0]);
    var k := q[0];
    clock' := clock;
    if last.Some? && last.value != k {
      clock' := clock' + cs;
    }
    PopHead(a[..], o, hasStarted[..], q, admittedAt, clock, clock', wf);
    // The first-dispatch branch (lines 197-200) never fires: a queued
    // process had its id flagged when it was admitted.
    assert hasStarted[a[k].id - 1];
    var e := QuantumSlice(a[k].remainingTime, quantum);
    last' := Some(k);
    if a[k].remainingTime - e > 0 {
      q', clock', admittedAt', newcomers := Requeue(a, hasStarted, q[1..], k, e, clock', o, admittedAt, wf);
      requeued := true;
    } else {
      clock' := Retire(a, hasStarted, q[1..], k, e, clock', o, admittedAt, wf);
      q', admittedAt', newcomers, requeued := q[1..], admittedAt, [], false;
    }
  }

  /** One iteration of the dispatcher loop (lines 188-224) within a run:
      Dispatch, with the run's history carried on and the run's trace
      extended by the state it reaches. */
  method Turn(a: array<Process>, hasStarted: array<bool>, q: seq<nat>, clock: int, last: Option<nat>,
              cs: int, quantum: int, ghost o: seq<Process>, ghost admittedAt: map<nat, int>, ghost wf: bool,
              ghost checks: seq<int>, ghost trace: seq<RrConfig>, ghost marks: seq<Option<int>>)
    returns (q': seq<nat>, clock': int, last': Option<nat>, ghost admittedAt': map<nat, int>,
             ghost checks': seq<int>, ghost trace': seq<RrConfig>, ghost marks': seq<Option<int>>)
    requires quantum > 0 && (wf ==> cs >= 0) && q != []
    requires RrState(a[..], o, hasStarted[..], q, {}, admittedAt, clock, wf)
    requires History(o, hasStarted[..], admittedAt, checks)
    requires IsRun(o, cs, quantum, trace, marks) && checks == [0] + Readings(marks)
    requires trace[|trace| - 1] == RrConfig(a[..], hasStarted[..], q, clock, last)
    modifies a, hasStarted
    ensures RrState(a[..], o, hasStarted[..], q', {}, admittedAt', clock', wf)
    ensures History(o, hasStarted[..], admittedAt', checks')
    ensures IsRun(o, cs, quantum, trace', marks') && checks' == [0] + Readings(marks')
    ensures trace'[|trace'| - 1] == RrConfig(a[..], hasStarted[..], q', clock', last')
    ensures admittedAt.Keys <= admittedAt'.Keys
    ensures admittedAt'.Keys != admittedAt.Keys || TotalWork(a[..]) + |q'| < TotalWork(old(a[..])) + |q|
  {
    ghost var flags := hasStarted[..];
    ghost var s := a[..];
    ghost var newcomers, requeued;
    q', clock', last', admittedAt', newcomers, requeued :=
      Dispatch(a, hasStarted, q, clock, last, cs, quantum, o, admittedAt, wf);
    ghost var c' := RrConfig(a[..], hasStarted[..], q', clock', last');
    RunTakesDispatch(o, cs, quantum, trace, marks, checks, s, flags, q, clock, last, c', requeued);
    ghost var m := if requeued then Some(clock') else None;
    trace', marks', checks' := trace + [c'], marks + [m], checks;
    if requeued {
      HistoryPass(o, flags, admittedAt, checks, clock');
      checks' := checks + [clock'];
    }
  }

  /** Under the run's state and history, an id is flagged exactly when an
      admitted process has it. */
  lemma FlagsExact(s: seq<Process>, o: seq<Process>, hs: seq<bool>, q: seq<nat>, held: set<nat>,
                   admittedAt: map<nat, int>, clock: int, wf: bool, checks: seq<int>, v: int)
    requires RrState(s, o, hs, q, held, admittedAt, clock, wf) && History(o, hs, admittedAt, checks)
    requires 0 <= v < |hs|
    ensures hs[v] <==> IdTaken(o, admittedAt, v)
  {
    if IdTaken(o, admittedAt, v) {
      var i :| i in admittedAt && i < |o| && o[i].id - 1 == v;
      assert Slot(s, o, hs, q, held, admittedAt, clock, wf, i);
    }
  }

  /** What a Round Robin run leaves behind, for the batch `o` as handed in,
      the batch `s` afterwards and the admission times `admittedAt`: no
      engine-independent field changed; a process that was never admitted is
      exactly as it was; everything that arrived by time 0 was admitted at
      time 0; every admitted process has no work left and its admission start
      time; and under `wf` every admitted process completed. */
  ghost predicate RrOutcome(s: seq<Process>, o: seq<Process>, admittedAt: map<nat, int>, wf: bool) {
    |s| == |o|
    && (forall i :: i in admittedAt ==> i < |s|)
    && (forall i :: 0 <= i < |s| ==> SameTask(s[i], o[i]))
    && (forall i :: 0 <= i < |s| && i !in admittedAt ==> s[i] == o[i])
    && InitialLoaded(o, admittedAt)
    && (forall i :: i in admittedAt ==>
          s[i].remainingTime == 0 && o[i].arrivalTime <= admittedAt[i]
          && s[i].startTime == AdmittedStart(o[i], admittedAt[i]))
    && (wf ==> forall i :: i in admittedAt ==> Completed(s[i]))
  }

  /** With the queue empty and nothing held, the run is over. */
  lemma Drained(s: seq<Process>, o: seq<Process>, hs: seq<bool>, admittedAt: map<nat, int>, clock: int, wf: bool)
    requires RrState(s, o, hs, [], {}, admittedAt, clock, wf)
    ensures RrOutcome(s, o, admittedAt, wf)
  {
    forall i | 0 <= i < |s| ensures SameTask(s[i], o[i]) && (i !in admittedAt ==> s[i] == o[i]) {
      assert Slot(s, o, hs, [], {}, admittedAt, clock, wf, i);
    }
    forall i | i in admittedAt
      ensures s[i].remainingTime == 0 && o[i].arrivalTime <= admittedAt[i]
              && s[i].startTime == AdmittedStart(o[i], admittedAt[i]) && (wf ==> Completed(s[i]))
    {
      assert Slot(s, o, hs, [], {}, admittedAt, clock, wf, i);
    }
  }

  /** The processes of a batch of n that were never admitted. */
  ghost function Unadmitted(n: nat, admittedAt: map<nat, int>): set<nat> {
    set j | 0 <= j < n && j !in admittedAt
  }

  /** Admissions only ever shrink the set of processes never admitted, and a
      new admission shrinks it strictly. */
  lemma UnadmittedShrinks(n: nat, before: map<nat, int>, after: map<nat, int>)
    requires before.Keys <= after.Keys && forall j :: j in after ==> j < n
    ensures after.Keys == before.Keys ==> Unadmitted(n, after) == Unadmitted(n, before)
    ensures after.Keys != before.Keys ==> Unadmitted(n, after) < Unadmitted(n, before)
  {
    if after.Keys != before.Keys {
      var j :| j in after.Keys && j !in before.Keys;
      assert j in Unadmitted(n, before) && j !in Unadmitted(n, after);
    }
  }

  /** With distinct ids, the processes a run admits are exactly those that
      had arrived by one of its looks for arrivals. */
  lemma AdmittedIffChecked(s: seq<Process>, o: seq<Process>, admittedAt: map<nat, int>, wf: bool,
                           checks: seq<int>, j: nat)
    requires RrOutcome(s, o, admittedAt, wf) && Stranded(o, admittedAt, checks)
    requires forall i :: i in admittedAt ==> admittedAt[i] in checks
    requires DistinctIds(o) && j < |o|
    ensures j in admittedAt <==> exists x :: 0 <= x < |checks| && o[j].arrivalTime <= checks[x]
  {
    if j in admittedAt {
      var x :| 0 <= x < |checks| && checks[x] == admittedAt[j];
    } else if exists x :: 0 <= x < |checks| && o[j].arrivalTime <= checks[x] {
      var x :| 0 <= x < |checks| && o[j].arrivalTime <= checks[x];
      assert Missed(o, admittedAt, j, checks[x]);
      var i :| i in admittedAt && i < |o| && o[i].id - 1 == o[j].id - 1;
      assert i != j;
    }
  }

  /** The state the initial load leaves is where the reference run starts. */
  lemma RunStarts(o: seq<Process>, s: seq<Process>, hs: seq<bool>, q: seq<nat>, cs: int, quantum: int)
    requires quantum > 0 && IdsInRange(o) && |s| == |o|
    requires forall j :: 0 <= j < |s| ==> s[j] == LoadedAt0(o[j])
    requires hs == InitialFlags(o, |o|) && q == InitialQueue(o, |o|)
    ensures IsRun(o, cs, quantum, [RrConfig(s, hs, q, 0, None)], [])
  {
    assert s == InitialConfig(o).s;
  }

  /** What a drained run has done: RrOutcome, and with distinct ids the
      processes admitted are exactly those that had arrived by one of the
      run's looks for arrivals. */
  lemma RunOver(s: seq<Process>, o: seq<Process>, hs: seq<bool>, admittedAt: map<nat, int>, clock: int,
                wf: bool, checks: seq<int>)
    requires RrState(s, o, hs, [], {}, admittedAt, clock, wf) && History(o, hs, admittedAt, checks)
    ensures RrOutcome(s, o, admittedAt, wf)
    ensures DistinctIds(o) ==>
              forall j :: 0 <= j < |o| ==>
                (j in admittedAt <==> exists x :: 0 <= x < |checks| && o[j].arrivalTime <= checks[x])
  {
    Drained(s, o, hs, admittedAt, clock, wf);
    if DistinctIds(o) {
      forall j | 0 <= j < |o|
        ensures j in admittedAt <==> exists x :: 0 <= x < |checks| && o[j].arrivalTime <= checks[x]
      {
        AdmittedIffChecked(s, o, admittedAt, wf, checks, j);
      }
    }
  }

  /** The dispatcher loop (lines 188-225) from the state the initial load
      leaves until the queue is empty: the run's trace ends with the queue
      empty and the batch as the method leaves it, the run looked for
      arrivals at time 0 and at the readings its steps record, and it leaves
      RrOutcome behind. */
  method Drain(a: array<Process>, hasStarted: array<bool>, q: seq<nat>, cs: int, quantum: int,
               ghost o: seq<Process>, ghost admittedAt: map<nat, int>, ghost wf: bool)
    returns (ghost admittedAt': map<nat, int>, ghost checks: seq<int>,
             ghost trace: seq<RrConfig>, ghost marks: seq<Option<int>>)
    requires quantum > 0 && (wf ==> cs >= 0)
    requires RrState(a[..], o, hasStarted[..], q, {}, admittedAt, 0, wf)
    requires History(o, hasStarted[..], admittedAt, [0])
    requires IsRun(o, cs, quantum, [RrConfig(a[..], hasStarted[..], q, 0, None)], [])
    modifies a, hasStarted
    ensures IsRun(o, cs, quantum, trace, marks) && checks == [0] + Readings(marks)
    ensures trace[|trace| - 1].q == [] && trace[|trace| - 1].s == a[..]
    ensures RrOutcome(a[..], o, admittedAt', wf) && History(o, hasStarted[..], admittedAt', checks)
    ensures DistinctIds(o) ==>
              forall j :: 0 <= j < |o| ==>
                (j in admittedAt' <==> exists x :: 0 <= x < |checks| && o[j].arrivalTime <= checks[x])
  {
    var q' := q;
    var clock := 0;
    var last: Option<nat> := None;
    admittedAt', checks := admittedAt, [0];
    trace, marks := [RrConfig(a[..], hasStarted[..], q, 0, None)], [];
    while q' != []
      invariant RrState(a[..], o, hasStarted[..], q', {}, admittedAt', clock, wf)
      invariant History(o, hasStarted[..], admittedAt', checks)
      invariant IsRun(o, cs, quantum, trace, marks) && checks == [0] + Readings(marks)
      invariant trace[|trace| - 1] == RrConfig(a[..], hasStarted[..], q', clock, last)
      decreases Unadmitted(a.Length, admittedAt'), TotalWork(a[..]) + |q'|
    {
      ghost var before := admittedAt';
      q', clock, last, admittedAt', checks, trace, marks :=
        Turn(a, hasStarted, q', clock, last, cs, quantum, o, admittedAt', wf, checks, trace, marks);
      UnadmittedShrinks(a.Length, before, admittedAt');
    }
    RunOver(a[..], o, hasStarted[..], admittedAt', clock, wf, checks);
  }

  /** Round Robin on the batch in place. `trace` is the run the loop took: a
      run of RrStep from InitialConfig of the input that ends with the queue
      empty and the batch as the method leaves it (RunUnique: there is only
      one). `admittedAt` maps every process that was ever enqueued to the
      clock at its admission, and `checks` lists the clock readings at which
      the run looked for arrivals, as the trace's marks give them: time 0,
      then the end of every slice that left its process unfinished. RrOutcome states
      what the run leaves behind; every admission happened at one of those
      readings; a process never admitted had not arrived by any of them
      (with distinct ids), so a process that arrives after the last one is
      stranded. */
  method RoundRobin(a: array<Process>, cs: int, quantum: int)
    returns (ghost admittedAt: map<nat, int>, ghost checks: seq<int>,
             ghost trace: seq<RrConfig>, ghost marks: seq<Option<int>>)
    requires quantum > 0 && IdsInRange(a[..])
    modifies a
    ensures IsRun(old(a[..]), cs, quantum, trace, marks) && checks == [0] + Readings(marks)
    ensures trace[|trace| - 1].q == [] && trace[|trace| - 1].s == a[..]
    ensures RrOutcome(a[..], old(a[..]), admittedAt, cs >= 0 && Loaded(old(a[..])))
    ensures |checks| > 0 && checks[0] == 0
    ensures forall j :: j in admittedAt ==> admittedAt[j] in checks
    ensures Stranded(old(a[..]), admittedAt, checks)
    ensures DistinctIds(old(a[..])) ==>
              forall j :: 0 <= j < a.Length ==>
                (j in admittedAt <==> exists x :: 0 <= x < |checks| && old(a[j]).arrivalTime <= checks[x])
  {
    ghost var o := a[..];
    ghost var wf := cs >= 0 && Loaded(o);
    var hasStarted := new bool[a.Length](_ => false);
    var q;
    q, admittedAt := LoadInitial(a, hasStarted, wf);
    RunStarts(o, a[..], hasStarted[..], q, cs, quantum);
    admittedAt, checks, trace, marks := Drain(a, hasStarted, q, cs, quantum, o, admittedAt, wf);
  }
}
