/**
 * The phases of one tick of runSimulation after admission: the preemption
 * check, the dispatch of a process to a free CPU, and the execution of one
 * time unit, each a method from state to state proved to keep the loop
 * invariant of the Engine module.
 */
module Tick {
  import opened Types
  import opened Selection
  import opened Metrics
  import opened Tally
  import opened Engine

  // ---------------------------------------------------------------------
  // Preemption
  // ---------------------------------------------------------------------

  /** The preemption check fires: some process arrived this tick, one is running, and the discipline's rule says so. */
  predicate Preempts(c: Config, s: State, newArrivals: bool)
    requires Shape(c, s)
  {
    newArrivals && s.running.Some? && ShouldPreempt(c.alg, s.procs, s.low, s.high, s.running.value)
  }

  /**
   * Preemption on arrival. When it fires, the multilevel queue first logs
   * the preemption; the running process's open segment is closed if it is
   * non-empty, and the process rejoins the tail of its own queue with its
   * quantum slice reset. Otherwise nothing changes.
   */
  method Preempt(c: Config, s: State, newArrivals: bool) returns (t: State)
    requires Inv(c, s, |s.procs|)
    ensures Inv(c, t, |s.procs|) && t.now == s.now && t.completedCount == s.completedCount
    ensures !Preempts(c, s, newArrivals) ==> t == s
    ensures Preempts(c, s, newArrivals) ==>
      DeschedulesTo(c, s, t) &&
      t.log == s.log + (if c.alg == Mqs then [Snapshot(c, s, MqsPreempted(s.running.value), false)] else [])
  {
    t := s;
    if Preempts(c, s, newArrivals) {
      var x := s.running.value;
      var p := s.procs[x];
      if c.alg == Mqs {
        t := LogEvent(c, t, MqsPreempted(x), false);
      }
      t := t.(gantt := if s.now > s.segStart then s.gantt + [GanttEntry(x, s.segStart, s.now)] else s.gantt,
              low := if ToHigh(c.alg, p) then s.low else s.low + [x],
              high := if ToHigh(c.alg, p) then s.high + [x] else s.high,
              running := None, slice := 0);
      DescheduleOk(c, s, |s.procs|, t);
    }
  }

  // ---------------------------------------------------------------------
  // Dispatch
  // ---------------------------------------------------------------------

  /** The records HRRN sorts by: every process in q has its waiting field set to the time since its arrival. */
  function Stamped(procs: seq<Process>, q: seq<nat>, now: int): (r: seq<Process>)
    ensures |r| == |procs|
    ensures forall j | 0 <= j < |procs| :: r[j].arrival == procs[j].arrival && r[j].burst == procs[j].burst
    ensures forall j | 0 <= j < |procs| && j in q :: Waited(r[j]) == now - procs[j].arrival
  {
    seq(|procs|, j requires 0 <= j < |procs| =>
      if j in q then procs[j].(waiting := Some(now - procs[j].arrival)) else procs[j])
  }

  /** Stamping one more queued process updates its record alone. */
  lemma StampedStep(procs: seq<Process>, q: seq<nat>, x: nat, now: int)
    requires x < |procs|
    ensures Stamped(procs, q + [x], now) ==
      Stamped(procs, q, now)[x := procs[x].(waiting := Some(now - procs[x].arrival))]
  {
  }

  /**
   * HRRN's pass over the ready queue before sorting it: each queued
   * record's waiting field becomes the time since its arrival; the other
   * records are unchanged.
   */
  method StampWaits(procs: seq<Process>, q: seq<nat>, now: int) returns (r: seq<Process>)
    requires Indices(procs, q)
    ensures r == Stamped(procs, q, now)
  {
    r := procs;
    var i := 0;
    while i < |q|
      invariant 0 <= i <= |q|
      invariant r == Stamped(procs, q[..i], now)
    {
      var x := q[i];
      assert q[..i + 1] == q[..i] + [x];
      StampedStep(procs, q[..i], x, now);
      r := r[x := procs[x].(waiting := Some(now - procs[x].arrival))];
      i := i + 1;
    }
    assert q[..|q|] == q;
  }

  /** Taking the head off a non-empty queue removes one occurrence of it. */
  lemma HeadTaken(q: seq<nat>)
    requires q != []
    ensures q[0] in q && multiset(q[1..]) == multiset(q) - multiset{q[0]}
  {
    assert q == [q[0]] + q[1..];
  }

  /**
   * s with process x dispatched from the records ps: a first dispatch
   * stamps the start time, the segment opens now, the queues become low and
   * high, the slice becomes slice, and the dispatch is logged with x running.
   */
  function Serve(c: Config, s: State, ps: seq<Process>, x: nat, low: seq<nat>, high: seq<nat>, slice: int): State
    requires |ps| == |c.input| && x < |ps| && Indices(ps, low) && Indices(ps, high)
  {
    var p := ps[x];
    var u := s.(procs := ps[x := p.(start := if p.start.None? then Some(s.now) else p.start)],
                low := low, high := high, running := Some(x), segStart := s.now, slice := slice);
    LogEvent(c, u, Dispatched(x), false)
  }

  /** Dispatching a process taken from a queue keeps the invariant. */
  lemma ServeOk(c: Config, s: State, x: nat, low: seq<nat>, high: seq<nat>, slice: int)
    requires Inv(c, s, |s.procs|) && s.running.None? && x < |s.procs|
    requires (x in s.low && multiset(low) == multiset(s.low) - multiset{x} && high == s.high) ||
             (x in s.high && multiset(high) == multiset(s.high) - multiset{x} && low == s.low)
    requires Indices(s.procs, low) && Indices(s.procs, high)
    requires c.quantum >= 1 && QuantumBounded(c.alg, s.procs[x]) ==> slice == c.quantum
    ensures Inv(c, Serve(c, s, s.procs, x, low, high, slice), |s.procs|)
  {
    var t := Serve(c, s, s.procs, x, low, high, slice);
    DispatchOk(c, s, |s.procs|, x, t);
  }

  /**
   * The sorted dispatch: the ready queue is sorted by the discipline's
   * order (HRRN after stamping each queued record's waiting time), its head
   * is served and the sorted remainder stays queued.
   */
  ghost predicate ServesBest(c: Config, s: State, t: State)
    requires Shape(c, s) && s.low != [] && c.alg != RoundRobin
  {
    var o := OrderFor(c.alg).value;
    var ps := if c.alg == Hrrn then Stamped(s.procs, s.low, s.now) else s.procs;
    var r := Sort(o, ps, s.low);
    t == Serve(c, s, ps, r[0], r[1..], s.high, s.slice) && BestFirst(o, ps, s.low, r[0])
  }

  /**
   * t is s after the dispatch step. A busy CPU, or empty queues, leave
   * the state unchanged. The multilevel queue serves the head of its upper
   * level with a fresh quantum, else the earliest arrival of its lower
   * level. Round robin serves the ready-queue head with a fresh quantum.
   * Every other discipline serves the head of its sorted ready queue.
   */
  ghost predicate DispatchesBy(c: Config, s: State, t: State)
    requires Shape(c, s)
  {
    if s.running.Some? then t == s
    else if c.alg == Mqs then
      if s.high != [] then t == Serve(c, s, s.procs, s.high[0], s.low, s.high[1..], c.quantum)
      else if s.low != [] then ServesBest(c, s, t)
      else t == s
    else if s.low == [] then t == s
    else if c.alg == RoundRobin then t == Serve(c, s, s.procs, s.low[0], s.low[1..], s.high, c.quantum)
    else ServesBest(c, s, t)
  }

  /** Serving the head of a queue: the upper level's under the multilevel queue, else the ready queue's. */
  lemma ServeHeadOk(c: Config, s: State, high: bool)
    requires Inv(c, s, |s.procs|) && s.running.None?
    requires if high then c.alg == Mqs && s.high != [] else c.alg == RoundRobin && s.low != []
    ensures high ==> Inv(c, Serve(c, s, s.procs, s.high[0], s.low, s.high[1..], c.quantum), |s.procs|)
    ensures !high ==> Inv(c, Serve(c, s, s.procs, s.low[0], s.low[1..], s.high, c.quantum), |s.procs|)
  {
    if high {
      HeadTaken(s.high);
      ServeOk(c, s, s.high[0], s.low, s.high[1..], c.quantum);
    } else {
      HeadTaken(s.low);
      ServeOk(c, s, s.low[0], s.low[1..], s.high, c.quantum);
    }
  }

  /** Serving the head of the sorted ready queue keeps the invariant and serves the best-first process. */
  lemma ServeBestOk(c: Config, s: State)
    requires Inv(c, s, |s.procs|) && s.running.None? && s.low != [] && c.alg != RoundRobin
    ensures var o := OrderFor(c.alg).value;
      var r := Sort(o, s.procs, s.low);
      Inv(c, Serve(c, s, s.procs, r[0], r[1..], s.high, s.slice), |s.procs|) && BestFirst(o, s.procs, s.low, r[0])
  {
    var o := OrderFor(c.alg).value;
    QueuedBursts(c, s, |s.procs|);
    var r := Sort(o, s.procs, s.low);
    SortedHeadBest(o, s.procs, s.low);
    assert ProcOk(c, s, |s.procs|, r[0]);
    ServeOk(c, s, r[0], r[1..], s.high, s.slice);
  }

  /** Serving from records ps reads nothing else of the state's own records. */
  lemma ServeRecords(c: Config, s: State, ps: seq<Process>, x: nat, low: seq<nat>, high: seq<nat>, slice: int)
    requires |ps| == |c.input| && x < |ps| && Indices(ps, low) && Indices(ps, high)
    ensures Serve(c, s, ps, x, low, high, slice) == Serve(c, s.(procs := ps), ps, x, low, high, slice)
  {
  }

  /**
   * The dispatch of every discipline that sorts its ready queue: HRRN
   * first stamps each queued record's waiting time; the head of the queue
   * sorted by the discipline's order is served.
   */
  method ServeSorted(c: Config, s: State) returns (t: State)
    requires Inv(c, s, |s.procs|) && s.running.None? && s.low != [] && c.alg != RoundRobin
    ensures Inv(c, t, |s.procs|) && ServesBest(c, s, t)
  {
    var o := OrderFor(c.alg).value;
    var s' := s;
    if c.alg == Hrrn {
      var ps := StampWaits(s.procs, s.low, s.now);
      s' := s.(procs := ps);
      StampOk(c, s, |s.procs|, s');
    }
    var r := Sort(o, s'.procs, s.low);
    t := Serve(c, s', s'.procs, r[0], r[1..], s.high, s.slice);
    ServeBestOk(c, s');
    ServeRecords(c, s, s'.procs, r[0], r[1..], s.high, s.slice);
  }

  /** Dispatch to a free CPU by the discipline's policy (see DispatchesBy). */
  method Dispatch(c: Config, s: State) returns (t: State)
    requires Inv(c, s, |s.procs|)
    ensures Inv(c, t, |s.procs|) && t.now == s.now && t.completedCount == s.completedCount
    ensures DispatchesBy(c, s, t)
  {
    t := s;
    if s.running.Some? {
      return;
    }
    if c.alg == Mqs && s.high != [] {
      t := Serve(c, s, s.procs, s.high[0], s.low, s.high[1..], c.quantum);
      ServeHeadOk(c, s, true);
    } else if s.low != [] {
      if c.alg == RoundRobin {
        t := Serve(c, s, s.procs, s.low[0], s.low[1..], s.high, c.quantum);
        ServeHeadOk(c, s, false);
      } else {
        t := ServeSorted(c, s);
      }
    }
  }

  // ---------------------------------------------------------------------
  // Execution of one time unit
  // ---------------------------------------------------------------------

  /** The CPU stays idle: both queues are empty and every process has yet to arrive or has completed. */
  predicate WillBeIdle(s: State)
  {
    s.low == [] && s.high == [] &&
    forall j | 0 <= j < |s.procs| :: s.procs[j].arrival > s.now || s.procs[j].completion.Some?
  }

  /** The idle event is logged unless the last event already reports the CPU idle and waiting. */
  predicate LogsIdle(s: State)
  {
    s.log == [] || !s.log[|s.log| - 1].cpuIdle || !s.log[|s.log| - 1].kind.IdleWaiting?
  }

  /** The continue event is logged unless the last event shows a process with x's id running on a busy CPU. */
  predicate LogsContinue(s: State, x: nat)
    requires x < |s.procs|
  {
    s.log == [] ||
    var e := s.log[|s.log| - 1];
    e.running.None? || e.running.value.id != s.procs[x].id || e.cpuIdle
  }

  /** A free CPU's unit: the idle event is logged unless the last event already is one; the idle counter and the clock advance. */
  function IdleUnit(c: Config, s: State): (t: State)
    requires Shape(c, s) && s.running.None? && s.completedCount < |s.procs|
    ensures t == s.(idleTime := s.idleTime + 1, now := s.now + 1, log := t.log)
    ensures t.log == s.log + (if LogsIdle(s) then [Snapshot(c, s, IdleWaiting, true)] else [])
  {
    var u := if LogsIdle(s) && (WillBeIdle(s) || s.completedCount < |s.procs|) then LogEvent(c, s, IdleWaiting, true) else s;
    u.(idleTime := if s.completedCount < |s.procs| then u.idleTime + 1 else u.idleTime, now := s.now + 1)
  }

  /** The running process's record after one more unit of CPU time. */
  function Ran(s: State): (p: Process)
    requires s.running.Some? && s.running.value < |s.procs| && s.procs[s.running.value].remaining > 0
  {
    var p := s.procs[s.running.value];
    p.(remaining := p.remaining - 1)
  }

  /** The unit that leaves the running process no time: it completes at the end of the tick and its segment closes. */
  function Completion(c: Config, s: State): (t: State)
    requires Shape(c, s) && s.running.Some? && s.procs[s.running.value].remaining == 1
    ensures CompletesTo(c, s, t)
    ensures t.log == s.log + [Snapshot(c, s.(procs := t.procs, gantt := t.gantt), Completed(s.running.value, s.now + 1), false)]
  {
    var x := s.running.value;
    var u := s.(procs := s.procs[x := Ran(s).(completion := Some(s.now + 1))],
                gantt := s.gantt + [GanttEntry(x, s.segStart, s.now + 1)],
                slice := if QuantumBounded(c.alg, s.procs[x]) then s.slice - 1 else s.slice);
    var v := LogEvent(c, u, Completed(x, s.now + 1), false);
    v.(completedCount := v.completedCount + 1, running := None, slice := 0, now := s.now + 1)
  }

  /** The unit that ends a quantum-bounded process's slice with time left: its segment closes and it rejoins its own queue. */
  function Expiry(c: Config, s: State): (t: State)
    requires Shape(c, s) && s.running.Some?
    requires s.procs[s.running.value].remaining > 1 && QuantumBounded(c.alg, s.procs[s.running.value]) && s.slice == 1
    ensures ExpiresTo(c, s, t)
    ensures t.log == s.log + [Snapshot(c, s.(procs := t.procs, gantt := t.gantt), QuantumExpired(s.running.value), false)]
  {
    var x := s.running.value;
    var p := s.procs[x];
    var u := s.(procs := s.procs[x := Ran(s)], slice := s.slice - 1,
                gantt := s.gantt + [GanttEntry(x, s.segStart, s.now + 1)]);
    var v := LogEvent(c, u, QuantumExpired(x), false);
    v.(low := if ToHigh(c.alg, p) then v.low else v.low + [x],
       high := if ToHigh(c.alg, p) then v.high + [x] else v.high,
       running := None, now := s.now + 1)
  }

  /** A unit after which the running process keeps the CPU; the continue event is logged only after an idle event or another process's. */
  function Continuation(c: Config, s: State): (t: State)
    requires Shape(c, s) && s.running.Some?
    requires s.procs[s.running.value].remaining > 1 && !(QuantumBounded(c.alg, s.procs[s.running.value]) && s.slice == 1)
    ensures ContinuesTo(c, s, t)
    ensures t.log == s.log + (if LogsContinue(s, s.running.value)
                              then [Snapshot(c, s.(procs := t.procs, slice := t.slice), Continues(s.running.value), false)] else [])
  {
    var x := s.running.value;
    var u := s.(procs := s.procs[x := Ran(s)],
                slice := if QuantumBounded(c.alg, s.procs[x]) then s.slice - 1 else s.slice);
    assert LogsContinue(u, x) == LogsContinue(s, x);
    var v := if LogsContinue(u, x) then LogEvent(c, u, Continues(x), false) else u;
    v.(now := s.now + 1)
  }

  /**
   * A unit after which the running process has time left: it goes back to
   * its own queue if it is quantum-bounded and its slice ran out, and keeps
   * the CPU otherwise.
   */
  method Unfinished(c: Config, s: State) returns (t: State)
    requires Inv(c, s, |s.procs|) && s.running.Some? && s.procs[s.running.value].remaining > 1
    ensures Inv(c, t, 0)
    ensures if QuantumBounded(c.alg, s.procs[s.running.value]) && s.slice == 1 then t == Expiry(c, s) else t == Continuation(c, s)
    ensures t.completedCount == s.completedCount
  {
    var p := s.procs[s.running.value];
    var slice := if QuantumBounded(c.alg, p) then s.slice - 1 else s.slice;
    if QuantumBounded(c.alg, p) && slice == 0 {
      t := Expiry(c, s);
      ExpireOk(c, s, t);
    } else {
      t := Continuation(c, s);
      ContinueOk(c, s, t);
    }
  }

  /**
   * One time unit, inside the loop (some process is unfinished). A free
   * CPU counts an idle unit. Otherwise the running process loses one unit
   * of remaining time, and a quantum-bounded one one unit of its slice; it
   * then completes if no time is left, else goes back to its own queue if
   * its slice ran out, else keeps the CPU. The clock advances by one.
   */
  method Execute(c: Config, s: State) returns (t: State)
    requires Inv(c, s, |s.procs|) && s.completedCount < |s.procs|
    ensures Inv(c, t, 0) && t.now == s.now + 1
    ensures t.completedCount != s.completedCount ==>
      s.running.Some? && s.running.value < |t.procs| && t.procs[s.running.value].completion == Some(t.now)
    ensures s.running.None? ==> t == IdleUnit(c, s)
    ensures s.running.Some? && s.procs[s.running.value].remaining == 1 ==> t == Completion(c, s)
    ensures s.running.Some? && s.procs[s.running.value].remaining > 1 ==>
      if QuantumBounded(c.alg, s.procs[s.running.value]) && s.slice == 1 then t == Expiry(c, s) else t == Continuation(c, s)
  {
    if s.running.None? {
      t := IdleUnit(c, s);
      IdleTickOk(c, s, t);
    } else {
      var x := s.running.value;
      assert ProcOk(c, s, |s.procs|, x);
      var remaining := s.procs[x].remaining - 1;
      if remaining == 0 {
        t := Completion(c, s);
        CompleteOk(c, s, t);
      } else {
        t := Unfinished(c, s);
      }
    }
  }
}
