/**
 * Running totals the simulation keeps implicitly: CPU time per process in
 * the Gantt chart, CPU time consumed by all processes, completed processes
 * and fast-forward events in the replay log.
 */
module Tally {
  import opened Types
  import opened Metrics

  /** Total length of the Gantt segments of process `pid`. */
  function Executed(g: seq<GanttEntry>, pid: nat): int
  {
    if g == [] then 0
    else Executed(g[..|g| - 1], pid) + (if g[|g| - 1].pid == pid then g[|g| - 1].end - g[|g| - 1].start else 0)
  }

  function GanttEnd(g: seq<GanttEntry>): int
  {
    if g == [] then 0 else g[|g| - 1].end
  }

  /** Segments are non-empty, start at or after 0, and follow each other in time. */
  predicate GanttOrdered(g: seq<GanttEntry>)
  {
    (forall j | 0 <= j < |g| :: 0 <= g[j].start < g[j].end) &&
    (forall j | 0 <= j < |g| - 1 :: g[j].end <= g[j + 1].start)
  }

  /** CPU time consumed so far by all processes. */
  function Busy(ps: seq<Process>): int
  {
    if ps == [] then 0 else ps[0].burst - ps[0].remaining + Busy(ps[1..])
  }

  /** Total burst time of all processes. */
  function TotalBurst(ps: seq<Process>): int
  {
    if ps == [] then 0 else ps[0].burst + TotalBurst(ps[1..])
  }

  /** Number of fast-forward events in the log. */
  function FastForwards(log: seq<SimulationEvent>): nat
  {
    if log == [] then 0
    else (if log[0].kind.FastForward? then 1 else 0) + FastForwards(log[1..])
  }

  /** Appending a segment after the last one keeps the chart ordered and adds its length to its process. */
  lemma GanttAppend(g: seq<GanttEntry>, e: GanttEntry)
    requires GanttOrdered(g) && 0 <= e.start < e.end && GanttEnd(g) <= e.start
    ensures GanttOrdered(g + [e]) && GanttEnd(g + [e]) == e.end
    ensures forall pid :: Executed(g + [e], pid) == Executed(g, pid) + (if e.pid == pid then e.end - e.start else 0)
  {
    assert (g + [e])[..|g|] == g;
  }

  lemma {:induction false} FastForwardsAppend(log: seq<SimulationEvent>, e: SimulationEvent)
    ensures FastForwards(log + [e]) == FastForwards(log) + (if e.kind.FastForward? then 1 else 0)
  {
    if log != [] {
      assert (log + [e])[1..] == log[1..] + [e];
      FastForwardsAppend(log[1..], e);
    }
  }

  /** CPU time in an ordered chart is never negative, and a process with none has no segment. */
  lemma {:induction false} NoSegments(g: seq<GanttEntry>, pid: nat)
    requires GanttOrdered(g)
    ensures Executed(g, pid) >= 0
    ensures Executed(g, pid) == 0 ==> forall j | 0 <= j < |g| :: g[j].pid != pid
  {
    if g != [] {
      var h := g[..|g| - 1];
      assert forall j | 0 <= j < |h| :: h[j] == g[j];
      NoSegments(h, pid);
    }
  }

  /** Replacing one record changes the tallies by that record's contribution only. */
  lemma {:induction false} UpdateTallies(ps: seq<Process>, i: nat, x: Process)
    requires i < |ps|
    ensures Busy(ps[i := x]) == Busy(ps) - (ps[i].burst - ps[i].remaining) + (x.burst - x.remaining)
    ensures CompletedCount(ps[i := x]) ==
      CompletedCount(ps) - (if ps[i].completion.Some? then 1 else 0) + (if x.completion.Some? then 1 else 0)
  {
    if i > 0 {
      assert ps[i := x][1..] == ps[1..][i - 1 := x];
      UpdateTallies(ps[1..], i - 1, x);
    } else {
      assert ps[i := x][1..] == ps[1..];
    }
  }

  lemma {:induction false} FreshTallies(ps: seq<Process>)
    requires forall i | 0 <= i < |ps| :: ps[i].completion.None? && ps[i].remaining == ps[i].burst
    ensures Busy(ps) == 0 && CompletedCount(ps) == 0
  {
    if ps != [] {
      FreshTallies(ps[1..]);
    }
  }

  /** When the completed count reaches the number of processes, every process has a completion time. */
  lemma {:induction false} EveryCompleted(ps: seq<Process>)
    requires CompletedCount(ps) == |ps|
    ensures forall i | 0 <= i < |ps| :: ps[i].completion.Some?
  {
    if ps != [] {
      EveryCompleted(ps[1..]);
      assert forall i | 1 <= i < |ps| :: ps[i] == ps[1..][i - 1];
    }
  }

  /** With some process not completed, the completed count is below the number of processes. */
  lemma {:induction false} SomeUncompleted(ps: seq<Process>, i: nat)
    requires i < |ps| && ps[i].completion.None?
    ensures CompletedCount(ps) < |ps|
  {
    if i > 0 {
      SomeUncompleted(ps[1..], i - 1);
    }
  }

  /** When every process has run to the end, the CPU time consumed is the total burst time. */
  lemma {:induction false} BusyWhenFinished(ps: seq<Process>)
    requires forall i | 0 <= i < |ps| :: ps[i].remaining == 0
    ensures Busy(ps) == TotalBurst(ps)
  {
    if ps != [] {
      BusyWhenFinished(ps[1..]);
    }
  }

  /** Records that agree on burst, remaining time and completion have the same tallies. */
  lemma {:induction false} SameProgress(ps: seq<Process>, qs: seq<Process>)
    requires |ps| == |qs|
    requires forall i | 0 <= i < |ps| ::
      ps[i].burst == qs[i].burst && ps[i].remaining == qs[i].remaining && ps[i].completion.Some? == qs[i].completion.Some?
    ensures Busy(ps) == Busy(qs) && CompletedCount(ps) == CompletedCount(qs)
  {
    if ps != [] {
      SameProgress(ps[1..], qs[1..]);
    }
  }

  /** When every process has a completion time, the completed count is the number of processes. */
  lemma {:induction false} CountAll(ps: seq<Process>)
    requires forall i | 0 <= i < |ps| :: ps[i].completion.Some?
    ensures CompletedCount(ps) == |ps|
  {
    if ps != [] {
      CountAll(ps[1..]);
    }
  }

  /** The total burst time reads only the bursts. */
  lemma {:induction false} SameBursts(ps: seq<Process>, qs: seq<Process>)
    requires |ps| == |qs| && forall i | 0 <= i < |ps| :: ps[i].burst == qs[i].burst
    ensures TotalBurst(ps) == TotalBurst(qs)
  {
    if ps != [] {
      SameBursts(ps[1..], qs[1..]);
    }
  }
}
