/**
 * The state runSimulation keeps in its local variables, the snapshot
 * logEvent records, and the invariant every tick of the simulation keeps,
 * with one preservation lemma per kind of state change.
 */
module Engine {
  import opened Types
  import opened Selection
  import opened Metrics
  import opened Tally
  import Clone

  /** `timeQuantumArg || 1`: a missing or zero quantum becomes 1, any other value is kept. */
  function EffectiveQuantum(arg: Option<int>): (q: int)
    ensures q != 0
    ensures arg.Some? && arg.value != 0 ==> q == arg.value
    ensures arg.None? || arg.value == 0 ==> q == 1
  {
    match arg
    case Some(v) => if v != 0 then v else 1
    case None => 1
  }

  /** The multilevel-queue level a priority is assigned to. */
  function LevelFor(priority: int): (l: QueueLevel)
    ensures l == High <==> priority < MqsPriorityThreshold
  {
    if priority < MqsPriorityThreshold then High else Low
  }

  /** Round-robin processes, and high-level processes of the multilevel queue, run under a quantum. */
  predicate QuantumBounded(alg: Algorithm, p: Process)
  {
    alg == RoundRobin || (alg == Mqs && p.level == Some(High))
  }

  /** A process leaving the CPU unfinished rejoins the high queue if it is a high-level multilevel-queue process, the ready queue otherwise. */
  predicate ToHigh(alg: Algorithm, p: Process)
  {
    alg == Mqs && p.level == Some(High)
  }

  /** The queue's records, for a log snapshot. */
  function Records(procs: seq<Process>, q: seq<nat>): (r: seq<Process>)
    requires Indices(procs, q)
    ensures |r| == |q| && forall i {:trigger r[i]} | 0 <= i < |q| :: r[i] == procs[q[i]]
  {
    seq(|q|, i requires 0 <= i < |q| => procs[q[i]])
  }

  /** The arguments of one run: the discipline, the effective quantum and the caller's processes. */
  datatype Config = Config(alg: Algorithm, quantum: int, input: seq<Process>)

  /**
   * runSimulation's mutable locals. Queues and the running process are
   * positions in `procs`; `segStart` is currentProcessStartTime and `slice`
   * is rrQuantumSlice.
   */
  datatype State = State(
    procs: seq<Process>,
    low: seq<nat>,
    high: seq<nat>,
    running: Option<nat>,
    segStart: nat,
    slice: int,
    now: nat,
    completedCount: nat,
    idleTime: int,
    gantt: seq<GanttEntry>,
    log: seq<SimulationEvent>)

  /** How often x occurs in queue q. */
  function Count(q: seq<nat>, x: nat): nat
  {
    if q == [] then 0 else Count(q[..|q| - 1], x) + (if q[|q| - 1] == x then 1 else 0)
  }

  /** How often process x is queued or running. */
  function Occurs(s: State, x: nat): nat
  {
    Count(s.low, x) + Count(s.high, x) + (if s.running == Some(x) then 1 else 0)
  }

  /** Process i is queued or running. */
  predicate Queued(s: State, i: nat)
  {
    i in s.low || i in s.high || s.running == Some(i)
  }

  /** CPU time of process i in the running process's open Gantt segment. */
  function Share(s: State, i: nat): int
  {
    if s.running == Some(i) then s.now - s.segStart else 0
  }

  predicate Shape(c: Config, s: State)
  {
    |s.procs| == |c.input| && Indices(s.procs, s.low) && Indices(s.procs, s.high) &&
    (s.running.Some? ==> s.running.value < |s.procs|)
  }

  /** The multilevel queue assigns each admitted process the level of its priority; other disciplines assign none. */
  predicate Placed(alg: Algorithm, p: Process)
  {
    if alg == Mqs then p.level == Some(LevelFor(p.priority)) else p.level.None?
  }

  /**
   * What holds of process i at a tick boundary, k being the number of
   * processes this tick's admission has already looked at:
   * - a completed process is neither queued nor running, has no time left
   *   and completed at least its burst after its first dispatch;
   * - a process neither completed, queued nor running has not arrived yet
   *   (strictly so when admission has looked at it) and is untouched;
   * - a queued or running process has arrived, is unfinished, and has not
   *   run longer than the time since its first dispatch;
   * - the closed Gantt segments plus the open one hold exactly the CPU
   *   time it consumed;
   * - the high queue holds high-level processes, and under the multilevel
   *   queue the ready queue holds low-level ones.
   */
  ghost predicate ProcOk(c: Config, s: State, k: nat, i: nat)
  {
    i < |s.procs| && i < |c.input| &&
    var p := s.procs[i];
    var act := Queued(s, i);
    SameInput(p, c.input[i]) && p.remaining <= p.burst &&
    (p.completion.Some? ==>
      !act && p.remaining == 0 && p.start.Some? && p.start.value + p.burst <= p.completion.value <= s.now &&
      Placed(c.alg, p)) &&
    (p.completion.None? && !act ==>
      p.arrival >= s.now + (if i < k then 1 else 0) && p.remaining == p.burst && p.start.None? && p.level.None?) &&
    (act ==> p.completion.None? && p.remaining > 0 && p.arrival <= s.now && Placed(c.alg, p)) &&
    (p.start.Some? ==> p.arrival <= p.start.value && p.start.value + (p.burst - p.remaining) <= s.now) &&
    (p.start.None? ==> p.remaining == p.burst && s.running != Some(i)) &&
    Executed(s.gantt, i) + Share(s, i) == p.burst - p.remaining &&
    (i in s.high ==> c.alg == Mqs && p.level == Some(High)) &&
    (i in s.low && c.alg == Mqs ==> p.level == Some(Low))
  }

  /** The chart is ordered, ends by now, and no quantum-bounded segment outlasts a quantum of at least 1. */
  ghost predicate GanttOk(c: Config, s: State)
  {
    GanttOrdered(s.gantt) && GanttEnd(s.gantt) <= s.now &&
    (forall j | 0 <= j < |s.gantt| ::
      s.gantt[j].pid < |s.procs| &&
      (c.quantum >= 1 && QuantumBounded(c.alg, s.procs[s.gantt[j].pid]) ==>
        s.gantt[j].end - s.gantt[j].start <= c.quantum)) &&
    (s.running.Some? ==> GanttEnd(s.gantt) <= s.segStart <= s.now)
  }

  /** A quantum-bounded running process has between 1 and the quantum left of its slice. */
  ghost predicate RunOk(c: Config, s: State)
  {
    s.running.Some? && s.running.value < |s.procs| && c.quantum >= 1 &&
    QuantumBounded(c.alg, s.procs[s.running.value]) ==>
      1 <= s.slice && s.now - s.segStart + s.slice == c.quantum
  }

  /** The log opens with the start event and holds neither a summary event nor a watchdog stop yet. */
  ghost predicate LogOk(log: seq<SimulationEvent>)
  {
    |log| > 0 && log[0].kind == Started &&
    forall j | 0 <= j < |log| :: !log[j].kind.AllCompleted? && !log[j].kind.ForceStopped?
  }

  /**
   * The global part of the loop invariant. Each process is queued or
   * running at most once; the idle counter overcounts the idle ticks by one
   * per fast-forward.
   */
  ghost predicate Core(c: Config, s: State)
  {
    QueuesOk(c, s) && GanttOk(c, s) && RunOk(c, s) && TalliesOk(s) && LogOk(s.log)
  }

  /** The queues hold positions of the process list, each at most once, and only the multilevel queue uses the high queue. */
  ghost predicate QueuesOk(c: Config, s: State)
  {
    Shape(c, s) && WellFormedInput(c.input) &&
    (c.alg != Mqs ==> s.high == []) &&
    (forall x :: Occurs(s, x) <= 1)
  }

  /** The completion counter is exact and the idle counter overcounts by one per fast-forward. */
  ghost predicate TalliesOk(s: State)
  {
    s.completedCount == CompletedCount(s.procs) &&
    s.idleTime + Busy(s.procs) == s.now + FastForwards(s.log)
  }

  /** The per-process part of the loop invariant. */
  ghost predicate AllOk(c: Config, s: State, k: nat)
  {
    forall i | 0 <= i < |s.procs| :: ProcOk(c, s, k, i)
  }

  /** Some process completed exactly at the current time: the tick just executed completed it. */
  ghost predicate JustCompleted(s: State)
  {
    exists i | 0 <= i < |s.procs| :: s.procs[i].completion == Some(s.now)
  }

  /** The invariant of the simulation loop. */
  ghost predicate Inv(c: Config, s: State, k: nat)
  {
    Core(c, s) && AllOk(c, s, k)
  }

  /** The event logEvent records: copies of the current state. */
  function Snapshot(c: Config, s: State, kind: EventKind, idleOverride: bool): (e: SimulationEvent)
    requires Shape(c, s)
    ensures e.time == s.now && e.kind == kind && e.gantt == s.gantt
    ensures e.running.Some? <==> s.running.Some?
    ensures s.running.Some? ==> e.running.value == s.procs[s.running.value]
    ensures e.readyQueue == Records(s.procs, s.low)
    ensures e.highQueue.Some? <==> c.alg == Mqs
    ensures c.alg == Mqs ==> e.highQueue.value == Records(s.procs, s.high)
    ensures |e.completed| == CompletedCount(s.procs)
    ensures e.completed == CompletedOf(s.procs)
    ensures e.cpuIdle <==> s.running.None? || idleOverride
  {
    SimulationEvent(
      s.now,
      if s.running.Some? then Some(s.procs[s.running.value]) else None,
      Records(s.procs, s.low),
      if c.alg == Mqs then Some(Records(s.procs, s.high)) else None,
      CompletedOf(s.procs),
      s.gantt,
      s.running.None? || idleOverride,
      kind)
  }

  /** logEvent: appends a snapshot, changing nothing else. */
  function LogEvent(c: Config, s: State, kind: EventKind, idleOverride: bool): (t: State)
    requires Shape(c, s)
    ensures t == s.(log := s.log + [Snapshot(c, s, kind, idleOverride)])
    ensures FastForwards(t.log) == FastForwards(s.log) + (if kind.FastForward? then 1 else 0)
    ensures LogOk(s.log) && !kind.AllCompleted? && !kind.ForceStopped? ==> LogOk(t.log)
  {
    FastForwardsAppend(s.log, Snapshot(c, s, kind, idleOverride));
    s.(log := s.log + [Snapshot(c, s, kind, idleOverride)])
  }

  /** The admission test: arrives on this tick and is not completed, queued or running. */
  predicate Admissible(s: State, i: nat)
  {
    i < |s.procs| && s.procs[i].arrival == s.now && s.procs[i].completion.None? &&
    i !in s.low && i !in s.high && s.running != Some(i)
  }

  // ---------------------------------------------------------------------
  // Preservation of the invariant
  // ---------------------------------------------------------------------

  lemma CountAppend(q: seq<nat>, y: nat)
    ensures forall x :: Count(q + [y], x) == Count(q, x) + (if y == x then 1 else 0)
  {
    assert (q + [y])[..|q|] == q;
  }

  lemma {:induction false} CountConcat(a: seq<nat>, b: seq<nat>, x: nat)
    ensures Count(a + b, x) == Count(a, x) + Count(b, x)
    decreases |b|
  {
    if b == [] {
      assert a + b == a;
    } else {
      var b' := b[..|b| - 1];
      CountConcat(a, b', x);
      assert (a + b)[..|a + b| - 1] == a + b';
    }
  }

  /** The occurrence count is the multiset multiplicity. */
  lemma {:induction false} CountMultiset(q: seq<nat>, x: nat)
    ensures Count(q, x) == multiset(q)[x]
    decreases |q|
  {
    if q != [] {
      CountMultiset(q[..|q| - 1], x);
      assert q == q[..|q| - 1] + [q[|q| - 1]];
    }
  }

  /** A position occurs in a queue exactly when it is a member. */
  lemma CountMember(q: seq<nat>, x: nat)
    ensures Count(q, x) > 0 <==> x in q
  {
    CountMultiset(q, x);
  }

  /** Appending x to one queue, the running process unchanged, adds one occurrence of x. */
  lemma EnqueueCounts(s: State, t: State, x: nat)
    requires t.running == s.running
    requires (t.low == s.low + [x] && t.high == s.high) || (t.high == s.high + [x] && t.low == s.low)
    ensures forall y :: Occurs(t, y) == Occurs(s, y) + (if y == x then 1 else 0)
  {
    CountAppend(s.low, x);
    CountAppend(s.high, x);
  }

  /** Moving the running process x to the back of a queue changes no occurrence count. */
  lemma RequeueCounts(s: State, t: State, x: nat)
    requires s.running == Some(x) && t.running.None?
    requires (t.low == s.low + [x] && t.high == s.high) || (t.high == s.high + [x] && t.low == s.low)
    ensures forall y :: Occurs(t, y) == Occurs(s, y)
  {
    CountAppend(s.low, x);
    CountAppend(s.high, x);
  }

  /** Leaving the queues and the running process alone changes no occurrence count. */
  lemma SameCounts(s: State, t: State)
    requires t.low == s.low && t.high == s.high && t.running == s.running
    ensures forall y :: Occurs(t, y) == Occurs(s, y)
  {
  }

  /** Taking the running process x off the CPU for good removes its one occurrence. */
  lemma RetireCounts(s: State, t: State, x: nat)
    requires t.low == s.low && t.high == s.high && s.running == Some(x) && t.running.None?
    ensures forall y :: Occurs(t, y) == Occurs(s, y) - (if y == x then 1 else 0)
  {
  }

  /** Taking one occurrence of x out of a queue and running it changes no occurrence count. */
  lemma DequeueCounts(s: State, t: State, x: nat)
    requires s.running.None? && t.running == Some(x)
    requires (x in s.low && multiset(t.low) == multiset(s.low) - multiset{x} && t.high == s.high) ||
             (x in s.high && multiset(t.high) == multiset(s.high) - multiset{x} && t.low == s.low)
    ensures forall y :: Occurs(t, y) == Occurs(s, y)
  {
    forall y ensures Occurs(t, y) == Occurs(s, y) {
      CountMultiset(s.low, y);
      CountMultiset(t.low, y);
      CountMultiset(s.high, y);
      CountMultiset(t.high, y);
      assert x in s.low ==> x in multiset(s.low);
      assert x in s.high ==> x in multiset(s.high);
    }
  }

  /** The start state: fresh copies, empty queues, clock at 0. */
  lemma InitialOk(c: Config, s: State)
    requires WellFormedInput(c.input)
    requires s == State(Clone.CloneProcesses(c.input), [], [], None, 0, 0, 0, 0, 0, [], s.log)
    requires LogOk(s.log) && FastForwards(s.log) == 0
    ensures Inv(c, s, 0)
  {
    FreshTallies(s.procs);
    forall i | 0 <= i < |s.procs| ensures ProcOk(c, s, 0, i) {
      assert SameInput(s.procs[i], c.input[i]);
    }
  }

  /** Changing only the log, by events that are neither fast-forwards nor the summary, keeps the invariant. */
  lemma LogOnlyOk(c: Config, s: State, k: nat, t: State)
    requires Inv(c, s, k)
    requires t == s.(log := t.log)
    requires LogOk(t.log) && FastForwards(t.log) == FastForwards(s.log)
    ensures Inv(c, t, k)
  {
    SameCounts(s, t);
    forall i | 0 <= i < |t.procs| ensures ProcOk(c, t, k, i) {
      assert ProcOk(c, s, k, i);
    }
  }

  /** t is s with the running process put back in its queue and its open segment closed if non-empty. */
  predicate DeschedulesTo(c: Config, s: State, t: State)
  {
    s.running.Some? && s.running.value < |s.procs| &&
    var x := s.running.value;
    var p := s.procs[x];
    t == s.(gantt := if s.now > s.segStart then s.gantt + [GanttEntry(x, s.segStart, s.now)] else s.gantt,
            low := if ToHigh(c.alg, p) then s.low else s.low + [x],
            high := if ToHigh(c.alg, p) then s.high + [x] else s.high,
            running := None, slice := 0, log := t.log)
  }

  lemma DescheduleProcOk(c: Config, s: State, k: nat, t: State, j: nat)
    requires DeschedulesTo(c, s, t) && ProcOk(c, s, k, j)
    requires Executed(t.gantt, j) == Executed(s.gantt, j) + Share(s, j)
    ensures ProcOk(c, t, k, j)
  {
    if j == s.running.value {
      DescheduledOk(c, s, k, t);
    } else {
      assert (j in t.low <==> j in s.low) && (j in t.high <==> j in s.high);
      assert Share(s, j) == 0 && Share(t, j) == 0;
      assert Queued(t, j) == Queued(s, j);
    }
  }

  lemma DescheduledOk(c: Config, s: State, k: nat, t: State)
    requires DeschedulesTo(c, s, t) && ProcOk(c, s, k, s.running.value)
    requires Executed(t.gantt, s.running.value) == Executed(s.gantt, s.running.value) + Share(s, s.running.value)
    ensures ProcOk(c, t, k, s.running.value)
  {
    assert Queued(t, s.running.value);
  }

  lemma DescheduleCoreOk(c: Config, s: State, t: State)
    requires Core(c, s) && DeschedulesTo(c, s, t)
    requires LogOk(t.log) && FastForwards(t.log) == FastForwards(s.log)
    ensures Core(c, t)
  {
    var x := s.running.value;
    RequeueCounts(s, t, x);
    if s.now > s.segStart {
      GanttAppend(s.gantt, GanttEntry(x, s.segStart, s.now));
    }
  }

  lemma DescheduleAllOk(c: Config, s: State, k: nat, t: State)
    requires Shape(c, s) && AllOk(c, s, k) && DeschedulesTo(c, s, t)
    requires GanttOrdered(s.gantt) && GanttEnd(s.gantt) <= s.segStart <= s.now
    ensures AllOk(c, t, k)
  {
    var x := s.running.value;
    if s.now > s.segStart {
      GanttAppend(s.gantt, GanttEntry(x, s.segStart, s.now));
    }
    forall j | 0 <= j < |t.procs| ensures ProcOk(c, t, k, j) {
      DescheduleProcOk(c, s, k, t, j);
    }
  }

  /** A running process put back in its queue, its open segment closed if non-empty. */
  lemma DescheduleOk(c: Config, s: State, k: nat, t: State)
    requires Inv(c, s, k) && DeschedulesTo(c, s, t)
    requires LogOk(t.log) && FastForwards(t.log) == FastForwards(s.log)
    ensures Inv(c, t, k)
  {
    DescheduleCoreOk(c, s, t);
    DescheduleAllOk(c, s, k, t);
  }

  /** The queues' records change only in the waiting field (the response-ratio stamp). */
  lemma StampOk(c: Config, s: State, k: nat, t: State)
    requires Inv(c, s, k)
    requires t == s.(procs := t.procs) && |t.procs| == |s.procs|
    requires forall j | 0 <= j < |s.procs| :: t.procs[j] == s.procs[j].(waiting := t.procs[j].waiting)
    ensures Inv(c, t, k)
  {
    SameCounts(s, t);
    SameProgress(s.procs, t.procs);
    forall j | 0 <= j < |t.procs| ensures ProcOk(c, t, k, j) {
      assert ProcOk(c, s, k, j);
    }
  }

  /** t is s with the queued process x taken out of its queue and dispatched. */
  predicate DispatchesTo(c: Config, s: State, x: nat, t: State)
  {
    s.running.None? && x < |s.procs| &&
    ((x in s.low && multiset(t.low) == multiset(s.low) - multiset{x} && t.high == s.high) ||
     (x in s.high && multiset(t.high) == multiset(s.high) - multiset{x} && t.low == s.low)) &&
    var p := s.procs[x];
    t == s.(procs := s.procs[x := p.(start := if p.start.None? then Some(s.now) else p.start)],
            low := t.low, high := t.high, running := Some(x), segStart := s.now, slice := t.slice, log := t.log)
  }

  /** Taking one occurrence of x out of a queue leaves every other member in it. */
  lemma TakeOut(a: seq<nat>, b: seq<nat>, x: nat, j: nat)
    requires x in a && multiset(b) == multiset(a) - multiset{x}
    ensures j in b ==> j in a
    ensures j != x ==> (j in b <==> j in a)
  {
    assert j in b <==> j in multiset(b);
    assert j in a <==> j in multiset(a);
  }

  lemma DispatchProcOk(c: Config, s: State, k: nat, x: nat, t: State, j: nat)
    requires DispatchesTo(c, s, x, t) && ProcOk(c, s, k, j)
    ensures ProcOk(c, t, k, j)
  {
    if x in s.low && multiset(t.low) == multiset(s.low) - multiset{x} {
      TakeOut(s.low, t.low, x, j);
    } else {
      TakeOut(s.high, t.high, x, j);
    }
    if j != x {
      assert t.procs[j] == s.procs[j];
    }
  }

  lemma DispatchCoreOk(c: Config, s: State, x: nat, t: State)
    requires Core(c, s) && DispatchesTo(c, s, x, t)
    requires Indices(s.procs, t.low) && Indices(s.procs, t.high)
    requires c.quantum >= 1 && QuantumBounded(c.alg, s.procs[x]) ==> t.slice == c.quantum
    requires s.procs[x].start.None? ==> s.procs[x].remaining == s.procs[x].burst
    requires LogOk(t.log) && FastForwards(t.log) == FastForwards(s.log)
    ensures Core(c, t)
  {
    DequeueCounts(s, t, x);
    assert forall j | 0 <= j < |t.procs| && j != x :: t.procs[j] == s.procs[j];
    UpdateTallies(s.procs, x, t.procs[x]);
  }

  lemma DispatchAllOk(c: Config, s: State, k: nat, x: nat, t: State)
    requires AllOk(c, s, k) && DispatchesTo(c, s, x, t)
    ensures AllOk(c, t, k)
  {
    forall j | 0 <= j < |t.procs| ensures ProcOk(c, t, k, j) {
      DispatchProcOk(c, s, k, x, t, j);
    }
  }

  /** Dispatching a queued process x while the CPU is free. */
  lemma DispatchOk(c: Config, s: State, k: nat, x: nat, t: State)
    requires Inv(c, s, k) && DispatchesTo(c, s, x, t)
    requires Indices(s.procs, t.low) && Indices(s.procs, t.high)
    requires c.quantum >= 1 && QuantumBounded(c.alg, s.procs[x]) ==> t.slice == c.quantum
    requires LogOk(t.log) && FastForwards(t.log) == FastForwards(s.log)
    ensures Inv(c, t, k)
  {
    assert ProcOk(c, s, k, x);
    DispatchCoreOk(c, s, x, t);
    DispatchAllOk(c, s, k, x, t);
  }

  /** An idle tick: the idle counter and the clock advance together. */
  lemma IdleTickOk(c: Config, s: State, t: State)
    requires Inv(c, s, |s.procs|) && s.running.None?
    requires t == s.(idleTime := s.idleTime + 1, now := s.now + 1, log := t.log)
    requires LogOk(t.log) && FastForwards(t.log) == FastForwards(s.log)
    ensures Inv(c, t, 0)
  {
    SameCounts(s, t);
    forall j | 0 <= j < |t.procs| ensures ProcOk(c, t, 0, j) {
      assert ProcOk(c, s, |s.procs|, j);
    }
  }

  /** Only the running process x's record changed, and not its level. */
  predicate LevelsKept(s: State, t: State, x: nat)
  {
    |t.procs| == |s.procs| &&
    forall j | 0 <= j < |t.procs| :: t.procs[j].level == s.procs[j].level && (j != x ==> t.procs[j] == s.procs[j])
  }

  /** t is s after the running process ran one unit and kept the CPU. */
  predicate ContinuesTo(c: Config, s: State, t: State)
  {
    s.running.Some? && s.running.value < |s.procs| &&
    var x := s.running.value;
    var p := s.procs[x];
    p.remaining > 1 && !(QuantumBounded(c.alg, p) && s.slice == 1) &&
    t == s.(procs := s.procs[x := p.(remaining := p.remaining - 1)],
            slice := if QuantumBounded(c.alg, p) then s.slice - 1 else s.slice,
            now := s.now + 1, log := t.log)
  }

  lemma ContinueProcOk(c: Config, s: State, t: State, j: nat)
    requires ContinuesTo(c, s, t) && ProcOk(c, s, |s.procs|, j)
    ensures ProcOk(c, t, 0, j)
  {
    if j != s.running.value {
      assert t.procs[j] == s.procs[j];
    }
  }

  lemma ContinueCoreOk(c: Config, s: State, t: State)
    requires Core(c, s) && ContinuesTo(c, s, t)
    requires LogOk(t.log) && FastForwards(t.log) == FastForwards(s.log)
    ensures Core(c, t)
  {
    var x := s.running.value;
    SameCounts(s, t);
    assert LevelsKept(s, t, x);
    UpdateTallies(s.procs, x, t.procs[x]);
  }

  lemma ContinueAllOk(c: Config, s: State, t: State)
    requires AllOk(c, s, |s.procs|) && ContinuesTo(c, s, t)
    ensures AllOk(c, t, 0)
  {
    forall j | 0 <= j < |t.procs| ensures ProcOk(c, t, 0, j) {
      ContinueProcOk(c, s, t, j);
    }
  }

  /** The running process runs one unit and keeps the CPU. */
  lemma ContinueOk(c: Config, s: State, t: State)
    requires Inv(c, s, |s.procs|) && ContinuesTo(c, s, t)
    requires LogOk(t.log) && FastForwards(t.log) == FastForwards(s.log)
    ensures Inv(c, t, 0)
  {
    ContinueCoreOk(c, s, t);
    ContinueAllOk(c, s, t);
  }

  /** t is s after the running process ran the last unit of its quantum and went back to its queue. */
  predicate ExpiresTo(c: Config, s: State, t: State)
  {
    s.running.Some? && s.running.value < |s.procs| &&
    var x := s.running.value;
    var p := s.procs[x];
    p.remaining > 1 && QuantumBounded(c.alg, p) && s.slice == 1 &&
    t == s.(procs := s.procs[x := p.(remaining := p.remaining - 1)], slice := 0,
            gantt := s.gantt + [GanttEntry(x, s.segStart, s.now + 1)],
            low := if ToHigh(c.alg, p) then s.low else s.low + [x],
            high := if ToHigh(c.alg, p) then s.high + [x] else s.high,
            running := None, now := s.now + 1, log := t.log)
  }

  lemma ExpireProcOk(c: Config, s: State, t: State, j: nat)
    requires ExpiresTo(c, s, t) && ProcOk(c, s, |s.procs|, j)
    requires Executed(t.gantt, j) == Executed(s.gantt, j) + (if j == s.running.value then s.now + 1 - s.segStart else 0)
    ensures ProcOk(c, t, 0, j)
  {
    if j != s.running.value {
      assert t.procs[j] == s.procs[j];
      assert (j in t.low <==> j in s.low) && (j in t.high <==> j in s.high);
    }
  }

  lemma ExpireCoreOk(c: Config, s: State, t: State)
    requires Core(c, s) && ExpiresTo(c, s, t)
    requires LogOk(t.log) && FastForwards(t.log) == FastForwards(s.log)
    ensures Core(c, t)
  {
    var x := s.running.value;
    RequeueCounts(s, t, x);
    assert LevelsKept(s, t, x);
    UpdateTallies(s.procs, x, t.procs[x]);
    GanttAppend(s.gantt, GanttEntry(x, s.segStart, s.now + 1));
  }

  lemma ExpireAllOk(c: Config, s: State, t: State)
    requires AllOk(c, s, |s.procs|) && ExpiresTo(c, s, t)
    requires GanttOrdered(s.gantt) && GanttEnd(s.gantt) <= s.segStart <= s.now
    ensures AllOk(c, t, 0)
  {
    GanttAppend(s.gantt, GanttEntry(s.running.value, s.segStart, s.now + 1));
    forall j | 0 <= j < |t.procs| ensures ProcOk(c, t, 0, j) {
      ExpireProcOk(c, s, t, j);
    }
  }

  /** The running process runs its last quantum unit and goes back to its queue. */
  lemma ExpireOk(c: Config, s: State, t: State)
    requires Inv(c, s, |s.procs|) && ExpiresTo(c, s, t)
    requires LogOk(t.log) && FastForwards(t.log) == FastForwards(s.log)
    ensures Inv(c, t, 0)
  {
    ExpireCoreOk(c, s, t);
    ExpireAllOk(c, s, t);
  }

  /** t is s after the running process ran its last unit and completed at the end of the tick. */
  predicate CompletesTo(c: Config, s: State, t: State)
  {
    s.running.Some? && s.running.value < |s.procs| &&
    var x := s.running.value;
    var p := s.procs[x];
    p.remaining == 1 &&
    t == s.(procs := s.procs[x := p.(remaining := 0, completion := Some(s.now + 1))],
            gantt := s.gantt + [GanttEntry(x, s.segStart, s.now + 1)],
            completedCount := s.completedCount + 1, running := None, slice := 0,
            now := s.now + 1, log := t.log)
  }

  lemma CompleteProcOk(c: Config, s: State, t: State, j: nat)
    requires CompletesTo(c, s, t) && ProcOk(c, s, |s.procs|, j)
    requires s.running.value !in s.low && s.running.value !in s.high
    requires Executed(t.gantt, j) == Executed(s.gantt, j) + (if j == s.running.value then s.now + 1 - s.segStart else 0)
    ensures ProcOk(c, t, 0, j)
  {
    if j != s.running.value {
      assert t.procs[j] == s.procs[j];
    }
  }

  lemma CompleteCoreOk(c: Config, s: State, t: State)
    requires Core(c, s) && CompletesTo(c, s, t) && s.procs[s.running.value].completion.None?
    requires LogOk(t.log) && FastForwards(t.log) == FastForwards(s.log)
    ensures Core(c, t)
  {
    var x := s.running.value;
    RetireCounts(s, t, x);
    assert LevelsKept(s, t, x);
    UpdateTallies(s.procs, x, t.procs[x]);
    GanttAppend(s.gantt, GanttEntry(x, s.segStart, s.now + 1));
  }

  lemma CompleteAllOk(c: Config, s: State, t: State)
    requires AllOk(c, s, |s.procs|) && CompletesTo(c, s, t)
    requires s.running.value !in s.low && s.running.value !in s.high
    requires GanttOrdered(s.gantt) && GanttEnd(s.gantt) <= s.segStart <= s.now
    ensures AllOk(c, t, 0)
  {
    GanttAppend(s.gantt, GanttEntry(s.running.value, s.segStart, s.now + 1));
    forall j | 0 <= j < |t.procs| ensures ProcOk(c, t, 0, j) {
      CompleteProcOk(c, s, t, j);
    }
  }

  /** The running process runs its last unit and completes at the end of the tick. */
  lemma CompleteOk(c: Config, s: State, t: State)
    requires Inv(c, s, |s.procs|) && CompletesTo(c, s, t)
    requires LogOk(t.log) && FastForwards(t.log) == FastForwards(s.log)
    ensures Inv(c, t, 0)
  {
    var x := s.running.value;
    assert ProcOk(c, s, |s.procs|, x);
    assert Occurs(s, x) <= 1;
    CountMember(s.low, x);
    CountMember(s.high, x);
    CompleteCoreOk(c, s, t);
    CompleteAllOk(c, s, t);
  }

  /** No process has more chart time than its burst: its chart time and open segment make up what it has run. */
  lemma ExecutedWithinBurst(c: Config, s: State)
    requires Inv(c, s, 0)
    ensures forall i | 0 <= i < |s.procs| :: Executed(s.gantt, i) <= c.input[i].burst
  {
    forall i | 0 <= i < |s.procs| ensures Executed(s.gantt, i) <= c.input[i].burst {
      assert ProcOk(c, s, 0, i);
    }
  }

  /** With the CPU free and both queues empty, the clock may jump to any time up to the next arrival. */
  lemma JumpOk(c: Config, s: State, next: int, t: State)
    requires Inv(c, s, 0) && s.running.None? && s.low == [] && s.high == []
    requires next >= s.now
    requires forall j | 0 <= j < |s.procs| && s.procs[j].completion.None? :: s.procs[j].arrival >= next
    requires t == s.(idleTime := s.idleTime + (next - (s.now - 1)), now := next, log := t.log)
    requires LogOk(t.log) && FastForwards(t.log) == FastForwards(s.log) + 1
    ensures Inv(c, t, 0)
  {
    forall j | 0 <= j < |t.procs| ensures ProcOk(c, t, 0, j) {
      assert ProcOk(c, s, 0, j);
    }
  }

  /** Every queued process has a positive burst. */
  lemma QueuedBursts(c: Config, s: State, k: nat)
    requires Inv(c, s, k)
    ensures PositiveBursts(s.procs, s.low) && PositiveBursts(s.procs, s.high)
  {
    forall j | 0 <= j < |s.low| ensures s.procs[s.low[j]].burst > 0 {
      assert ProcOk(c, s, k, s.low[j]);
    }
    forall j | 0 <= j < |s.high| ensures s.procs[s.high[j]].burst > 0 {
      assert ProcOk(c, s, k, s.high[j]);
    }
  }

  /** With the CPU free, both queues empty and a process unfinished, that process has yet to arrive. */
  lemma PendingRemains(c: Config, s: State) returns (j: nat)
    requires Inv(c, s, 0) && s.running.None? && s.low == [] && s.high == []
    requires s.completedCount < |s.procs|
    ensures j < |s.procs| && s.procs[j].completion.None? && s.procs[j].arrival >= s.now
  {
    if forall i | 0 <= i < |s.procs| :: s.procs[i].completion.Some? {
      CountAll(s.procs);
      assert false;
    }
    j :| 0 <= j < |s.procs| && s.procs[j].completion.None?;
    assert ProcOk(c, s, 0, j);
  }

  /**
   * When every process has completed, each ran exactly its burst: its
   * segments add up to the burst, it completed at least its burst after
   * its first dispatch, and the CPU was busy for the total burst time.
   */
  lemma FinishedOk(c: Config, s: State)
    requires Inv(c, s, 0) && s.completedCount == |s.procs|
    ensures s.running.None?
    ensures forall i | 0 <= i < |s.procs| ::
      s.procs[i].completion.Some? && s.procs[i].remaining == 0 && s.procs[i].start.Some? &&
      s.procs[i].arrival <= s.procs[i].start.value &&
      s.procs[i].start.value + s.procs[i].burst <= s.procs[i].completion.value &&
      Executed(s.gantt, i) == s.procs[i].burst
    ensures Busy(s.procs) == TotalBurst(s.procs)
  {
    EveryCompleted(s.procs);
    forall i | 0 <= i < |s.procs|
      ensures s.procs[i].completion.Some? && s.procs[i].remaining == 0 && s.procs[i].start.Some? &&
        s.procs[i].arrival <= s.procs[i].start.value &&
        s.procs[i].start.value + s.procs[i].burst <= s.procs[i].completion.value &&
        s.running != Some(i) && Executed(s.gantt, i) == s.procs[i].burst
    {
      assert ProcOk(c, s, 0, i);
    }
    BusyWhenFinished(s.procs);
  }
}
