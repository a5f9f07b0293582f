/**
 * runSimulation: the tick loop with its watchdog and idle fast-forward,
 * the closing summary event, and the metrics of the finished run.
 */
module Simulation {
  import opened Types
  import opened Selection
  import opened Metrics
  import opened Tally
  import opened Engine
  import opened Admission
  import opened Tick
  import Clone

  // ---------------------------------------------------------------------
  // Watchdog
  // ---------------------------------------------------------------------

  /**
   * The watchdog's record for a process at stop time eff: a process
   * without a completion time completes at eff, takes its arrival as start
   * time if it had none and had arrived by eff, and gets the turnaround,
   * waiting and response times the metric definitions give; a completed
   * process is left as it is.
   */
  function Stopped(p: Process, eff: int): (r: Process)
    ensures SameInput(r, p) && r.remaining == p.remaining && r.level == p.level && r.completion.Some?
    ensures p.completion.Some? ==> r == p
    ensures p.completion.None? ==>
      r.completion == Some(eff) &&
      r.start == (if p.start.None? && p.arrival <= eff then Some(p.arrival) else p.start) &&
      r.turnaround == Some(Turnaround(r)) && r.waiting == Some(Waiting(r)) && r.response == Some(Response(r))
  {
    if p.completion.Some? then p
    else
      var start := if p.start.None? && p.arrival <= eff then Some(p.arrival) else p.start;
      var turnaround := eff - p.arrival;
      var waiting := Max0(turnaround - p.burst);
      p.(completion := Some(eff), start := start, turnaround := Some(turnaround), waiting := Some(waiting),
         response := Some(if start.Some? then start.value - p.arrival else waiting))
  }

  /** The watchdog's pass over the process list: every unfinished process is completed at eff. */
  method ForceStop(procs: seq<Process>, eff: int) returns (r: seq<Process>)
    ensures |r| == |procs| && forall i | 0 <= i < |procs| :: r[i] == Stopped(procs[i], eff)
    ensures CompletedCount(r) == |r|
  {
    r := procs;
    var i := 0;
    while i < |procs|
      invariant 0 <= i <= |procs| && |r| == |procs|
      invariant forall j | 0 <= j < i :: r[j] == Stopped(procs[j], eff)
      invariant forall j | i <= j < |procs| :: r[j] == procs[j]
    {
      if r[i].completion.None? {
        var p := r[i];
        var start := if p.start.None? && p.arrival <= eff then Some(p.arrival) else p.start;
        var turnaround := eff - p.arrival;
        var waiting := Max0(turnaround - p.burst);
        var response := if start.Some? then start.value - p.arrival else waiting;
        r := r[i := p.(completion := Some(eff), start := start, turnaround := Some(turnaround),
                       waiting := Some(waiting), response := Some(response))];
      }
      i := i + 1;
    }
    CountAll(r);
  }

  // ---------------------------------------------------------------------
  // Idle fast-forward
  // ---------------------------------------------------------------------

  /** Process j is unfinished and does not arrive before the tick that just ended, now - 1. */
  predicate Upcoming(procs: seq<Process>, now: int, j: nat)
  {
    j < |procs| && procs[j].completion.None? && procs[j].arrival > now - 1
  }

  /** m is the earliest arrival among the upcoming processes. */
  ghost predicate IsNextArrival(procs: seq<Process>, now: int, m: int)
  {
    (exists j | 0 <= j < |procs| :: Upcoming(procs, now, j) && procs[j].arrival == m) &&
    (forall j | 0 <= j < |procs| && Upcoming(procs, now, j) :: m <= procs[j].arrival)
  }

  /** The fold for the next arrival time; None stands for the Infinity seed (no upcoming process). */
  method NextArrival(procs: seq<Process>, now: int) returns (next: Option<int>)
    ensures next.None? <==> forall j | 0 <= j < |procs| :: !Upcoming(procs, now, j)
    ensures next.Some? ==> IsNextArrival(procs, now, next.value)
  {
    next := None;
    var i := 0;
    while i < |procs|
      invariant 0 <= i <= |procs|
      invariant next.None? <==> forall j | 0 <= j < i :: !Upcoming(procs, now, j)
      invariant next.Some? ==> exists j | 0 <= j < i :: Upcoming(procs, now, j) && procs[j].arrival == next.value
      invariant next.Some? ==> forall j | 0 <= j < i && Upcoming(procs, now, j) :: next.value <= procs[j].arrival
    {
      if procs[i].completion.None? && procs[i].arrival > now - 1 {
        assert Upcoming(procs, now, i);
        next := Some(if next.None? || procs[i].arrival < next.value then procs[i].arrival else next.value);
      } else {
        assert !Upcoming(procs, now, i);
      }
      i := i + 1;
    }
  }

  /** The CPU is free, both queues are empty and some process is unfinished. */
  predicate Idle(s: State)
  {
    s.running.None? && s.low == [] && s.high == [] && s.completedCount < |s.procs|
  }

  /**
   * The fast-forward at the end of a tick. An idle CPU with some process
   * unfinished jumps the clock to the next arrival, logging the jump and
   * adding next - (now - 1) idle units: one more than the units the clock
   * skips. Nothing upcoming cannot happen there, so the stuck branch is
   * unreachable. Otherwise nothing changes.
   */
  method FastForwardIdle(c: Config, s: State) returns (t: State)
    requires Inv(c, s, 0)
    ensures Inv(c, t, 0) && t.now >= s.now && t.completedCount == s.completedCount
    ensures !Idle(s) ==> t == s
    ensures Idle(s) ==>
      IsNextArrival(s.procs, s.now, t.now) &&
      t == s.(idleTime := s.idleTime + (t.now - (s.now - 1)), now := t.now,
              log := s.log + [Snapshot(c, s, EventKind.FastForward(t.now - (s.now - 1), t.now), true)])
  {
    t := s;
    if Idle(s) {
      var next := NextArrival(s.procs, s.now);
      var j := PendingRemains(c, s);
      assert Upcoming(s.procs, s.now, j);
      match next
      case Some(m) =>
        if m > s.now - 1 {
          var duration := m - (s.now - 1);
          if duration > 0 {
            t := LogEvent(c, s, EventKind.FastForward(duration, m), true);
            t := t.(idleTime := t.idleTime + duration, now := m);
            forall i | 0 <= i < |s.procs| && s.procs[i].completion.None?
              ensures s.procs[i].arrival >= m
            {
              assert ProcOk(c, s, 0, i);
              assert Upcoming(s.procs, s.now, i);
            }
            JumpOk(c, s, m, t);
          }
        }
      case None =>
        assert false;
    }
  }

  /** Math.max over the completion times (absent ones read as 0) and 0. */
  function LatestCompletion(ps: seq<Process>): (m: int)
    ensures m >= 0
    ensures forall i | 0 <= i < |ps| :: OrZero(ps[i].completion) <= m
    ensures m == 0 || exists i | 0 <= i < |ps| :: OrZero(ps[i].completion) == m
  {
    if ps == [] then 0
    else
      var rest := LatestCompletion(ps[1..]);
      assert forall i | 1 <= i < |ps| :: ps[i] == ps[1..][i - 1];
      if OrZero(ps[0].completion) > rest then OrZero(ps[0].completion) else rest
  }

  // ---------------------------------------------------------------------
  // The tick loop
  // ---------------------------------------------------------------------

  /** One pass of the loop body up to and including the clock increment: admission, preemption, dispatch, execution. */
  method RunTick(c: Config, s: State) returns (t: State)
    requires Inv(c, s, 0) && s.completedCount < |s.procs|
    ensures Inv(c, t, 0) && t.now == s.now + 1
    ensures t.completedCount == s.completedCount || JustCompleted(t)
  {
    var admitted, newArrivals := Admit(c, s);
    var kept := Preempt(c, admitted, newArrivals);
    var served := Dispatch(c, kept);
    t := Execute(c, served);
    if t.completedCount != s.completedCount {
      assert t.procs[served.running.value].completion == Some(t.now);
    }
  }

  /** When a process has just completed, the latest completion time is the current time. */
  lemma LatestIsNow(c: Config, s: State)
    requires Inv(c, s, 0) && JustCompleted(s)
    ensures LatestCompletion(s.procs) == s.now
  {
    forall j | 0 <= j < |s.procs| ensures OrZero(s.procs[j].completion) <= s.now {
      assert ProcOk(c, s, 0, j);
    }
  }

  /** Records with the same completion times have the same latest completion. */
  lemma {:induction false} SameLatest(ps: seq<Process>, qs: seq<Process>)
    requires |ps| == |qs| && forall i | 0 <= i < |ps| :: ps[i].completion == qs[i].completion
    ensures LatestCompletion(ps) == LatestCompletion(qs)
  {
    if ps != [] {
      assert forall i | 0 <= i < |ps| - 1 :: ps[1..][i] == ps[i + 1] && qs[1..][i] == qs[i + 1];
      SameLatest(ps[1..], qs[1..]);
    }
  }

  /** The log holds a watchdog stop. */
  predicate ForcedStop(log: seq<SimulationEvent>)
  {
    exists j | 0 <= j < |log| :: log[j].kind.ForceStopped?
  }

  /** Appending an event adds a watchdog stop to the log exactly when the event is one. */
  lemma ForcedStopAppend(log: seq<SimulationEvent>, e: SimulationEvent)
    ensures ForcedStop(log + [e]) <==> ForcedStop(log) || e.kind.ForceStopped?
  {
    var l := log + [e];
    assert l[|log|] == e;
    assert forall j | 0 <= j < |log| :: l[j] == log[j];
  }

  /**
   * What holds when the loop has ended, by completion or by the watchdog:
   * every process has a completion time, the chart is ordered, names
   * processes of the list and keeps quantum-bounded segments within the
   * quantum, and the log opens with the start event and has no summary yet.
   */
  ghost predicate Halted(c: Config, s: State)
  {
    |s.procs| == |c.input| && s.completedCount == CompletedCount(s.procs) == |s.procs| &&
    (forall i | 0 <= i < |s.procs| :: SameInput(s.procs[i], c.input[i]) && s.procs[i].completion.Some?) &&
    GanttOrdered(s.gantt) &&
    (forall i | 0 <= i < |s.procs| :: Executed(s.gantt, i) <= c.input[i].burst) &&
    (forall j | 0 <= j < |s.gantt| ::
      s.gantt[j].pid < |s.procs| &&
      (c.quantum >= 1 && QuantumBounded(c.alg, s.procs[s.gantt[j].pid]) ==>
        s.gantt[j].end - s.gantt[j].start <= c.quantum)) &&
    |s.log| > 0 && s.log[0].kind == Started &&
    (forall j | 0 <= j < |s.log| :: !s.log[j].kind.AllCompleted?)
  }

  /**
   * What a run that completed without the watchdog guarantees: each
   * process arrived before its first dispatch, ran exactly its burst (its
   * chart segments add up to it) and completed at least its burst after
   * its first dispatch and by the end of the run; and the idle counter
   * equals the idle ticks plus one per fast-forward.
   */
  ghost predicate Finished(c: Config, s: State)
    requires Halted(c, s)
  {
    (forall i | 0 <= i < |s.procs| ::
      s.procs[i].remaining == 0 && s.procs[i].start.Some? &&
      s.procs[i].arrival <= s.procs[i].start.value &&
      s.procs[i].start.value + s.procs[i].burst <= s.procs[i].completion.value <= s.now &&
      Executed(s.gantt, i) == s.procs[i].burst) &&
    s.idleTime + TotalBurst(c.input) == s.now + FastForwards(s.log) &&
    s.now == LatestCompletion(s.procs) &&
    !ForcedStop(s.log)
  }

  lemma FinishedFacts(c: Config, s: State)
    requires Inv(c, s, 0) && s.completedCount == |s.procs| && s.now == LatestCompletion(s.procs)
    ensures Halted(c, s) && Finished(c, s)
  {
    FinishedOk(c, s);
    forall i | 0 <= i < |s.procs|
      ensures SameInput(s.procs[i], c.input[i]) && s.procs[i].completion.value <= s.now
    {
      assert ProcOk(c, s, 0, i);
    }
    SameBursts(s.procs, c.input);
  }

  /**
   * The watchdog: the stop is logged at the current time, every unfinished
   * process is completed at now - 1, the completed counter is set to the
   * number of processes, and the loop ends.
   */
  method Watchdog(c: Config, s: State) returns (t: State)
    requires Inv(c, s, 0) && s.completedCount < |s.procs|
    ensures |t.procs| == |s.procs| && forall i | 0 <= i < |s.procs| :: t.procs[i] == Stopped(s.procs[i], s.now - 1)
    ensures t == s.(procs := t.procs, completedCount := |s.procs|,
                    log := s.log + [Snapshot(c, s, ForceStopped(s.now - 1), false)])
    ensures Halted(c, t)
  {
    ExecutedWithinBurst(c, s);
    forall i | 0 <= i < |s.procs| ensures SameInput(s.procs[i], c.input[i]) {
      assert ProcOk(c, s, 0, i);
    }
    var eff := s.now - 1;
    t := LogEvent(c, s, ForceStopped(eff), false);
    var ps := ForceStop(t.procs, eff);
    t := t.(procs := ps, completedCount := |ps|);
    StopHalts(c, s, t);
  }

  /** What the watchdog leaves behind is a halted state: it completes every record and keeps the chart. */
  lemma StopHalts(c: Config, s: State, t: State)
    requires |s.procs| == |c.input| && forall i | 0 <= i < |s.procs| :: SameInput(s.procs[i], c.input[i])
    requires GanttOrdered(s.gantt) && forall i | 0 <= i < |s.procs| :: Executed(s.gantt, i) <= c.input[i].burst
    requires forall j | 0 <= j < |s.gantt| ::
      s.gantt[j].pid < |s.procs| &&
      (c.quantum >= 1 && QuantumBounded(c.alg, s.procs[s.gantt[j].pid]) ==>
        s.gantt[j].end - s.gantt[j].start <= c.quantum)
    requires LogOk(s.log) && |t.log| == |s.log| + 1 && t.log[..|s.log|] == s.log && !t.log[|s.log|].kind.AllCompleted?
    requires |t.procs| == |s.procs| && forall i | 0 <= i < |s.procs| :: t.procs[i] == Stopped(s.procs[i], s.now - 1)
    requires t.completedCount == CompletedCount(t.procs) == |t.procs| && t.gantt == s.gantt
    ensures Halted(c, t)
  {
    forall j | 0 <= j < |t.gantt|
      ensures QuantumBounded(c.alg, t.procs[t.gantt[j].pid]) == QuantumBounded(c.alg, s.procs[s.gantt[j].pid])
    {
      assert t.procs[s.gantt[j].pid] == Stopped(s.procs[s.gantt[j].pid], s.now - 1);
    }
    forall j | 0 <= j < |t.log| ensures !t.log[j].kind.AllCompleted? {
      if j < |s.log| {
        assert t.log[j] == t.log[..|s.log|][j];
      }
    }
  }

  /**
   * The end of a loop pass, after the clock increment: the watchdog stops
   * the run once the clock is past its limit with processes unfinished;
   * otherwise an idle CPU is fast-forwarded.
   */
  method EndTick(c: Config, s: State) returns (t: State, stopped: bool)
    requires Inv(c, s, 0)
    ensures stopped <==> s.now > WatchdogLimit && s.completedCount < |s.procs|
    ensures stopped ==> Halted(c, t) && t.now == s.now && t.log[|t.log| - 1].kind == ForceStopped(s.now - 1)
    ensures !stopped ==> Inv(c, t, 0) && t.now >= s.now && t.completedCount == s.completedCount
    ensures !stopped && s.completedCount == |s.procs| ==> t == s
  {
    stopped := s.now > WatchdogLimit && s.completedCount < |s.procs|;
    if stopped {
      t := Watchdog(c, s);
    } else {
      t := FastForwardIdle(c, s);
    }
  }

  /**
   * One pass of the while loop. A pass that does not stop the run moves
   * the clock forward, and once the clock has reached the watchdog limit
   * it is the pass that completes the last process.
   */
  method Iteration(c: Config, s: State) returns (t: State, stopped: bool)
    requires Inv(c, s, 0) && s.completedCount < |s.procs|
    ensures stopped ==> Halted(c, t) && t.now > WatchdogLimit && t.log[|t.log| - 1].kind == ForceStopped(t.now - 1)
    ensures !stopped ==> Inv(c, t, 0) && t.now > s.now && (s.now >= WatchdogLimit ==> t.completedCount == |t.procs|)
    ensures !stopped && t.completedCount == |t.procs| ==> t.now == LatestCompletion(t.procs)
  {
    var u := RunTick(c, s);
    t, stopped := EndTick(c, u);
    if !stopped && t.completedCount == |t.procs| {
      LatestIsNow(c, u);
    }
  }

  /**
   * The while loop of runSimulation from the start event on. The loop
   * ends when every process has completed or when the watchdog stops it
   * (`stopped`); the clock is past the watchdog limit in the latter case.
   */
  method Simulate(c: Config) returns (s: State, stopped: bool)
    requires WellFormedInput(c.input)
    ensures Halted(c, s)
    ensures !stopped ==> Finished(c, s)
    ensures stopped ==> s.now > WatchdogLimit && s.log[|s.log| - 1].kind == ForceStopped(s.now - 1)
  {
    s := State(Clone.CloneProcesses(c.input), [], [], None, 0, 0, 0, 0, 0, [], []);
    s := LogEvent(c, s, Started, false);
    InitialOk(c, s);
    stopped := false;
    while s.completedCount < |s.procs|
      invariant Inv(c, s, 0) && !stopped
      invariant s.completedCount == |s.procs| ==> s.now == LatestCompletion(s.procs)
      decreases (if s.now <= WatchdogLimit then WatchdogLimit + 2 - s.now else 1), |s.procs| - s.completedCount
    {
      s, stopped := Iteration(c, s);
      if stopped {
        break;
      }
    }
    if !stopped {
      FinishedFacts(c, s);
    }
  }

  // ---------------------------------------------------------------------
  // runSimulation
  // ---------------------------------------------------------------------

  /** The summary event is added unless the last event already is one that is recent enough. */
  predicate NeedsSummary(log: seq<SimulationEvent>, final: int)
  {
    |log| == 0 || !log[|log| - 1].kind.AllCompleted? || log[|log| - 1].time < final - 1
  }

  /** The closing summary event: the time of the last action, no running or queued process, all records. */
  function Summary(s: State, final: int, total: int): (e: SimulationEvent)
    ensures e.kind == AllCompleted(|s.procs|, total) && e.cpuIdle && e.running.None? && e.readyQueue == []
    ensures e.time >= 0 && (|s.log| > 0 ==> e.time >= s.log[|s.log| - 1].time) && e.time >= final - 1
    ensures e.time == 0 || (|s.log| > 0 && e.time == s.log[|s.log| - 1].time) || e.time == final - 1
    ensures e.highQueue == Some([])
    ensures e.completed == s.procs && e.gantt == s.gantt
  {
    var lastTime := if |s.log| == 0 then 0 else s.log[|s.log| - 1].time;
    SimulationEvent(if lastTime > (if final > 0 then final - 1 else 0) then lastTime else if final > 0 then final - 1 else 0,
                    None, [], Some([]), s.procs, s.gantt, true, AllCompleted(|s.procs|, total))
  }

  /**
   * The utilization of a run whose busy time is its total burst less one
   * unit per fast-forward, as a percentage of the total time, clamped.
   */
  function BusyShare(burst: int, fastForwards: int, total: int): (u: real)
    ensures 0.0 <= u <= 100.0
  {
    if total > 0 then Clamp((burst - fastForwards) as real / total as real * 100.0) else 0.0
  }

  lemma SameBusy(total: int, idle: int, burst: int, fastForwards: int)
    requires total - idle == burst - fastForwards
    ensures Utilization(total, idle) == BusyShare(burst, fastForwards, total)
  {
  }

  lemma SameIds(ps: seq<Process>, input: seq<Process>)
    requires UniqueIds(input) && |ps| == |input|
    requires forall i | 0 <= i < |ps| :: SameInput(ps[i], input[i])
    ensures UniqueIds(ps)
  {
    forall i, j | 0 <= i < j < |ps| ensures ps[i].id != ps[j].id {
      assert ps[i].id == input[i].id && ps[j].id == input[j].id;
    }
  }

  /**
   * The records calculateMetrics returns for a halted run: each is the
   * final record with its metrics written onto it, so it keeps the input
   * fields, start and completion time, and the chart and the totals read
   * the same from it.
   */
  lemma Reported(c: Config, s: State, info: seq<Process>)
    requires Halted(c, s)
    requires |info| == |s.procs| && forall i | 0 <= i < |s.procs| :: info[i] == WithMetrics(s.procs[i])
    ensures forall i | 0 <= i < |info| ::
      SameInput(info[i], c.input[i]) && info[i].completion == s.procs[i].completion && info[i].start == s.procs[i].start &&
      info[i].turnaround == Some(Turnaround(info[i])) && info[i].waiting == Some(Waiting(info[i])) &&
      info[i].response == Some(Response(info[i]))
    ensures forall j | 0 <= j < |s.gantt| ::
      s.gantt[j].pid < |info| &&
      (c.quantum >= 1 && QuantumBounded(c.alg, info[s.gantt[j].pid]) ==> s.gantt[j].end - s.gantt[j].start <= c.quantum)
    ensures TotalTurnaround(info) == TotalTurnaround(s.procs) && TotalWaiting(info) == TotalWaiting(s.procs) &&
      TotalResponse(info) == TotalResponse(s.procs)
  {
    forall i | 0 <= i < |info|
      ensures SameInput(info[i], c.input[i]) && info[i].completion == s.procs[i].completion && info[i].start == s.procs[i].start
      ensures info[i].turnaround == Some(Turnaround(info[i])) && info[i].waiting == Some(Waiting(info[i]))
      ensures info[i].response == Some(Response(info[i]))
    {
      var p := s.procs[i];
      assert info[i] == WithMetrics(p);
    }
    forall j | 0 <= j < |s.gantt|
      ensures QuantumBounded(c.alg, info[s.gantt[j].pid]) == QuantumBounded(c.alg, s.procs[s.gantt[j].pid])
    {
    }
    SameTotals(info, s.procs);
  }

  /**
   * Each process arrived before its first dispatch, ran exactly its burst
   * (its chart segments add up to it), and completed at least its burst
   * after its first dispatch and by the total time.
   */
  ghost predicate RanFully(input: seq<Process>, ps: seq<Process>, gantt: seq<GanttEntry>, total: int)
    requires |ps| == |input|
  {
    forall i | 0 <= i < |input| ::
      ps[i].start.Some? && ps[i].completion.Some? && input[i].arrival <= ps[i].start.value &&
      ps[i].start.value + input[i].burst <= ps[i].completion.value <= total &&
      Executed(gantt, i) == input[i].burst
  }

  /** The records reported for a run that completed show that every process ran fully. */
  lemma ReportedFinished(c: Config, s: State, info: seq<Process>, gantt: seq<GanttEntry>, total: int)
    requires Halted(c, s)
    requires Finished(c, s)
    requires gantt == s.gantt
    requires total == s.now
    requires |info| == |s.procs|
    requires forall i | 0 <= i < |s.procs| :: info[i] == WithMetrics(s.procs[i])
    ensures RanFully(c.input, info, gantt, total)
  {
    forall i | 0 <= i < |info|
      ensures info[i].start == s.procs[i].start && info[i].completion == s.procs[i].completion
    {
    }
  }

  /**
   * After the loop: the effective total time (now - 1 after a watchdog
   * stop, now otherwise) and the log closed by the summary event, which is
   * always added since the log holds no summary yet.
   */
  method Conclude(c: Config, s: State, stopped: bool) returns (total: int, log: seq<SimulationEvent>)
    requires Halted(c, s)
    requires !stopped ==> Finished(c, s)
    requires stopped ==> s.now > WatchdogLimit && s.log[|s.log| - 1].kind == ForceStopped(s.now - 1)
    ensures total == if stopped then s.now - 1 else s.now
    ensures log == s.log + [Summary(s, LatestCompletion(s.procs), total)]
    ensures |log| >= 2 && log[0].kind == Started && log[|log| - 1].kind == AllCompleted(|c.input|, total)
    ensures forall j | 0 <= j < |log| - 1 :: !log[j].kind.AllCompleted?
    ensures ForcedStop(log) <==> stopped
    ensures stopped ==> log[|log| - 2].kind == ForceStopped(total)
    ensures !stopped ==> total - s.idleTime == TotalBurst(c.input) - FastForwards(log)
    ensures !stopped ==> Utilization(total, s.idleTime) == BusyShare(TotalBurst(c.input), FastForwards(log), total)
  {
    total := if stopped then s.now - 1 else 0;
    if total == 0 {
      total := s.now;
    }
    var final := LatestCompletion(s.procs);
    log := s.log;
    if s.completedCount == |s.procs| && NeedsSummary(log, final) {
      log := log + [Summary(s, final, total)];
    }
    assert NeedsSummary(s.log, final);
    FastForwardsAppend(s.log, Summary(s, final, total));
    ForcedStopAppend(s.log, Summary(s, final, total));
    if stopped {
      assert s.log[|s.log| - 1].kind.ForceStopped?;
    } else {
      SameBusy(total, s.idleTime, TotalBurst(c.input), FastForwards(log));
    }
  }

  /** calculateMetrics on the final records of a halted run, with the effective total time. */
  method Measure(c: Config, s: State, stopped: bool, total: int) returns (info: seq<Process>, m: OverallMetrics)
    requires UniqueIds(c.input)
    requires Halted(c, s)
    requires !stopped ==> Finished(c, s) && total == s.now
    ensures |info| == |c.input|
    ensures forall i | 0 <= i < |c.input| ::
      SameInput(info[i], c.input[i]) && info[i].completion.Some? &&
      info[i].turnaround == Some(Turnaround(info[i])) &&
      info[i].waiting == Some(Waiting(info[i])) &&
      info[i].response == Some(Response(info[i]))
    ensures forall j | 0 <= j < |s.gantt| ::
      s.gantt[j].pid < |c.input| &&
      (c.quantum >= 1 && QuantumBounded(c.alg, info[s.gantt[j].pid]) ==>
        s.gantt[j].end - s.gantt[j].start <= c.quantum)
    ensures m.totalExecutionTime == total
    ensures m.averageTurnaround == Average(TotalTurnaround(info), |c.input|)
    ensures m.averageWaiting == Average(TotalWaiting(info), |c.input|)
    ensures m.averageResponse == Average(TotalResponse(info), |c.input|)
    ensures m.throughput == Throughput(|c.input|, total)
    ensures m.cpuUtilization == Utilization(total, s.idleTime)
    ensures !stopped ==> RanFully(c.input, info, s.gantt, total)
    ensures forall i | 0 <= i < |c.input| :: Executed(s.gantt, i) <= c.input[i].burst
    ensures !stopped ==> total == LatestCompletion(info)
  {
    SameIds(s.procs, c.input);
    info, m := CalculateMetrics(s.procs, total, s.idleTime);
    Reported(c, s, info);
    SameLatest(info, s.procs);
    if !stopped {
      ReportedFinished(c, s, info, s.gantt, total);
    }
  }

  /** The result of a finished loop: the metrics of the final records, the chart, and the closed log. */
  method Report(c: Config, s: State, stopped: bool) returns (r: SimulationResult)
    requires UniqueIds(c.input)
    requires Halted(c, s)
    requires !stopped ==> Finished(c, s)
    requires stopped ==> s.now > WatchdogLimit && s.log[|s.log| - 1].kind == ForceStopped(s.now - 1)
    ensures |r.processes| == |c.input|
    ensures forall i | 0 <= i < |c.input| ::
      SameInput(r.processes[i], c.input[i]) && r.processes[i].completion.Some? &&
      r.processes[i].turnaround == Some(Turnaround(r.processes[i])) &&
      r.processes[i].waiting == Some(Waiting(r.processes[i])) &&
      r.processes[i].response == Some(Response(r.processes[i]))
    ensures GanttOrdered(r.gantt)
    ensures forall j | 0 <= j < |r.gantt| ::
      r.gantt[j].pid < |c.input| &&
      (c.quantum >= 1 && QuantumBounded(c.alg, r.processes[r.gantt[j].pid]) ==>
        r.gantt[j].end - r.gantt[j].start <= c.quantum)
    ensures |r.log| >= 2 && r.log[0].kind == Started
    ensures r.log[|r.log| - 1].kind == AllCompleted(|c.input|, r.metrics.totalExecutionTime)
    ensures forall j | 0 <= j < |r.log| - 1 :: !r.log[j].kind.AllCompleted?
    ensures r.metrics.averageTurnaround == Average(TotalTurnaround(r.processes), |c.input|)
    ensures r.metrics.averageWaiting == Average(TotalWaiting(r.processes), |c.input|)
    ensures r.metrics.averageResponse == Average(TotalResponse(r.processes), |c.input|)
    ensures r.metrics.throughput == Throughput(|c.input|, r.metrics.totalExecutionTime)
    ensures !ForcedStop(r.log) ==> RanFully(c.input, r.processes, r.gantt, r.metrics.totalExecutionTime)
    ensures !ForcedStop(r.log) ==>
      r.metrics.cpuUtilization == BusyShare(TotalBurst(c.input), FastForwards(r.log), r.metrics.totalExecutionTime)
    ensures ForcedStop(r.log) ==> r.metrics.totalExecutionTime >= WatchdogLimit
    ensures 0.0 <= r.metrics.cpuUtilization <= 100.0
    ensures forall i | 0 <= i < |c.input| :: Executed(r.gantt, i) <= c.input[i].burst
    ensures !ForcedStop(r.log) ==> r.metrics.totalExecutionTime == LatestCompletion(r.processes)
    ensures ForcedStop(r.log) ==> r.log[|r.log| - 2].kind == ForceStopped(r.metrics.totalExecutionTime)
  {
    var total, log := Conclude(c, s, stopped);
    var info, m := Measure(c, s, stopped, total);
    r := SimulationResult(s.gantt, info, m, log);
  }

  /**
   * runSimulation. The result lists every process of the input, in input
   * order, completed and carrying its metrics; the chart is ordered and
   * keeps every quantum-bounded segment within the quantum; the log opens
   * with the start event and closes with the summary. A run the watchdog
   * did not stop ran each process for exactly its burst after its arrival,
   * and its utilization is the total burst, less one unit per
   * fast-forward, over the total time. A stopped run lasted at least the
   * watchdog limit.
   */
  method RunSimulation(initialProcesses: seq<Process>, algorithm: Algorithm, timeQuantumArg: Option<int>) returns (r: SimulationResult)
    requires WellFormedInput(initialProcesses) && UniqueIds(initialProcesses)
    ensures |r.processes| == |initialProcesses|
    ensures forall i | 0 <= i < |initialProcesses| ::
      SameInput(r.processes[i], initialProcesses[i]) && r.processes[i].completion.Some? &&
      r.processes[i].turnaround == Some(Turnaround(r.processes[i])) &&
      r.processes[i].waiting == Some(Waiting(r.processes[i])) &&
      r.processes[i].response == Some(Response(r.processes[i]))
    ensures GanttOrdered(r.gantt)
    ensures forall j | 0 <= j < |r.gantt| ::
      r.gantt[j].pid < |initialProcesses| &&
      (EffectiveQuantum(timeQuantumArg) >= 1 && QuantumBounded(algorithm, r.processes[r.gantt[j].pid]) ==>
        r.gantt[j].end - r.gantt[j].start <= EffectiveQuantum(timeQuantumArg))
    ensures |r.log| >= 2 && r.log[0].kind == Started
    ensures r.log[|r.log| - 1].kind == AllCompleted(|initialProcesses|, r.metrics.totalExecutionTime)
    ensures forall j | 0 <= j < |r.log| - 1 :: !r.log[j].kind.AllCompleted?
    ensures r.metrics.averageTurnaround == Average(TotalTurnaround(r.processes), |initialProcesses|)
    ensures r.metrics.averageWaiting == Average(TotalWaiting(r.processes), |initialProcesses|)
    ensures r.metrics.averageResponse == Average(TotalResponse(r.processes), |initialProcesses|)
    ensures r.metrics.throughput == Throughput(|initialProcesses|, r.metrics.totalExecutionTime)
    ensures !ForcedStop(r.log) ==> RanFully(initialProcesses, r.processes, r.gantt, r.metrics.totalExecutionTime)
    ensures !ForcedStop(r.log) ==>
      r.metrics.cpuUtilization == BusyShare(TotalBurst(initialProcesses), FastForwards(r.log), r.metrics.totalExecutionTime)
    ensures ForcedStop(r.log) ==> r.metrics.totalExecutionTime >= WatchdogLimit
    ensures 0.0 <= r.metrics.cpuUtilization <= 100.0
    ensures forall i | 0 <= i < |initialProcesses| :: Executed(r.gantt, i) <= initialProcesses[i].burst
    ensures !ForcedStop(r.log) ==> r.metrics.totalExecutionTime == LatestCompletion(r.processes)
    ensures ForcedStop(r.log) ==> r.log[|r.log| - 2].kind == ForceStopped(r.metrics.totalExecutionTime)
  {
    var c := Config(algorithm, EffectiveQuantum(timeQuantumArg), initialProcesses);
    var s, stopped := Simulate(c);
    r := Report(c, s, stopped);
  }
}
