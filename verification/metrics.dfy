/**
 * The metrics calculator: per-process turnaround, waiting and response
 * times for the processes that completed, and the aggregate averages,
 * CPU utilization and throughput.
 */
module Metrics {
  import opened Types

  function Max0(x: int): (r: int)
    ensures r >= 0 && r >= x && (r == 0 || r == x)
  {
    if x > 0 then x else 0
  }

  /** Clamps a percentage into [0, 100]. */
  function Clamp(x: real): (r: real)
    ensures 0.0 <= r <= 100.0
    ensures 0.0 <= x <= 100.0 ==> r == x
  {
    if x < 0.0 then 0.0 else if x > 100.0 then 100.0 else x
  }

  // ---------------------------------------------------------------------
  // What the metrics mean, stated on the input records
  // ---------------------------------------------------------------------

  function Turnaround(p: Process): int
    requires p.completion.Some?
  {
    p.completion.value - p.arrival
  }

  /** Waiting time is turnaround minus burst, never negative. */
  function Waiting(p: Process): int
    requires p.completion.Some?
  {
    Max0(Turnaround(p) - p.burst)
  }

  /** Response time is first dispatch minus arrival; without a start it falls back to the waiting time. */
  function Response(p: Process): int
    requires p.completion.Some?
  {
    if p.start.Some? then p.start.value - p.arrival else Waiting(p)
  }

  function CompletedCount(ps: seq<Process>): (k: nat)
    ensures k <= |ps|
  {
    if ps == [] then 0 else (if ps[0].completion.Some? then 1 else 0) + CompletedCount(ps[1..])
  }

  function TotalTurnaround(ps: seq<Process>): int
  {
    if ps == [] then 0
    else (if ps[0].completion.Some? then Turnaround(ps[0]) else 0) + TotalTurnaround(ps[1..])
  }

  function TotalWaiting(ps: seq<Process>): int
  {
    if ps == [] then 0
    else (if ps[0].completion.Some? then Waiting(ps[0]) else 0) + TotalWaiting(ps[1..])
  }

  function TotalResponse(ps: seq<Process>): int
  {
    if ps == [] then 0
    else (if ps[0].completion.Some? then Response(ps[0]) else 0) + TotalResponse(ps[1..])
  }

  /**
   * CPU utilization: the non-idle share of the total time as a percentage,
   * clamped into [0, 100]; 0 for an empty run.
   */
  function Utilization(totalTime: int, idleTime: int): (u: real)
    ensures 0.0 <= u <= 100.0
    ensures totalTime <= 0 ==> u == 0.0
    ensures totalTime > 0 && 0 <= idleTime <= totalTime ==> u == (totalTime - idleTime) as real / totalTime as real * 100.0
  {
    if totalTime > 0 then Clamp((totalTime - idleTime) as real / totalTime as real * 100.0) else 0.0
  }

  /** Completed processes per time unit; 0 when nothing completed or no time passed. */
  function Throughput(completed: int, totalTime: int): (t: real)
    ensures completed >= 0 && totalTime > 0 ==> t >= 0.0
  {
    if totalTime > 0 && completed > 0 then completed as real / totalTime as real else 0.0
  }

  function Average(total: int, count: nat): real
  {
    if count > 0 then total as real / count as real else 0.0
  }

  // ---------------------------------------------------------------------
  // The steps of calculateMetrics
  // ---------------------------------------------------------------------

  /** One completed record with its metrics written onto it. */
  function WithMetrics(p: Process): (r: Process)
    requires p.completion.Some?
    ensures SameInput(r, p) && r.remaining == p.remaining && r.start == p.start
    ensures r.completion == p.completion && r.level == p.level
    ensures r.turnaround == Some(Turnaround(p))
    ensures r.waiting == Some(Waiting(p)) && r.response == Some(Response(p))
    ensures r.turnaround == Some(Turnaround(r)) && r.waiting == Some(Waiting(r)) && r.response == Some(Response(r))
  {
    var t := p.completion.value - p.arrival;
    var w := Max0(t - p.burst);
    p.(turnaround := Some(t), waiting := Some(w),
       response := Some(if p.start.Some? then p.start.value - p.arrival else Max0(t - p.burst)))
  }

  /** The records that have a completion time, in list order. */
  function CompletedOf(ps: seq<Process>): (r: seq<Process>)
    ensures |r| == CompletedCount(ps)
    ensures forall i | 0 <= i < |r| :: r[i].completion.Some?
  {
    if ps == [] then []
    else (if ps[0].completion.Some? then [ps[0]] else []) + CompletedOf(ps[1..])
  }

  /** The filter keeps exactly the completed records. */
  lemma {:induction false} CompletedMembers(ps: seq<Process>)
    ensures forall p :: p in CompletedOf(ps) <==> p in ps && p.completion.Some?
  {
    if ps != [] {
      CompletedMembers(ps[1..]);
      assert ps == [ps[0]] + ps[1..];
    }
  }

  /** The records that have a turnaround time, in list order. */
  function WithTurnaroundOf(ps: seq<Process>): seq<Process>
  {
    if ps == [] then []
    else (if ps[0].turnaround.Some? then [ps[0]] else []) + WithTurnaroundOf(ps[1..])
  }

  function OrZero(x: Option<int>): int
  {
    match x
    case Some(v) => v
    case None => 0
  }

  datatype Field = TurnaroundField | WaitingField | ResponseField

  function FieldOf(f: Field, p: Process): Option<int>
  {
    match f
    case TurnaroundField => p.turnaround
    case WaitingField => p.waiting
    case ResponseField => p.response
  }

  /** `reduce((sum, p) => sum + (p.field ?? 0), 0)` */
  function FieldSum(f: Field, ps: seq<Process>): int
  {
    if ps == [] then 0 else OrZero(FieldOf(f, ps[0])) + FieldSum(f, ps[1..])
  }

  /** The first record with the given id (`Array.find`). */
  function FindById(ps: seq<Process>, id: string): (r: Option<Process>)
    ensures r.Some? ==> r.value in ps && r.value.id == id
    ensures r.None? ==> forall i | 0 <= i < |ps| :: ps[i].id != id
  {
    if ps == [] then None
    else if ps[0].id == id then Some(ps[0])
    else FindById(ps[1..], id)
  }

  /** `find` returns the first record with the id: none before it has that id. */
  lemma {:induction false} FindFirst(ps: seq<Process>, id: string, i: nat)
    requires i < |ps| && ps[i].id == id
    requires forall j | 0 <= j < i :: ps[j].id != id
    ensures FindById(ps, id) == Some(ps[i])
  {
    if i > 0 {
      assert ps[1..][i - 1] == ps[i];
      assert forall j | 0 <= j < i - 1 :: ps[1..][j] == ps[j + 1];
      FindFirst(ps[1..], id, i - 1);
    }
  }

  function MapMetrics(ps: seq<Process>): (r: seq<Process>)
    requires forall i | 0 <= i < |ps| :: ps[i].completion.Some?
    ensures |r| == |ps|
  {
    seq(|ps|, i requires 0 <= i < |ps| => WithMetrics(ps[i]))
  }

  lemma {:induction false} WithTurnaroundOfAll(ps: seq<Process>)
    requires forall i | 0 <= i < |ps| :: ps[i].turnaround.Some?
    ensures WithTurnaroundOf(ps) == ps
  {
    if ps != [] {
      WithTurnaroundOfAll(ps[1..]);
    }
  }

  /** Summing the written fields over the completed records gives the totals of the definitions. */
  lemma {:induction false} SumsMatch(ps: seq<Process>)
    ensures FieldSum(TurnaroundField, MapMetrics(CompletedOf(ps))) == TotalTurnaround(ps)
    ensures FieldSum(WaitingField, MapMetrics(CompletedOf(ps))) == TotalWaiting(ps)
    ensures FieldSum(ResponseField, MapMetrics(CompletedOf(ps))) == TotalResponse(ps)
  {
    if ps != [] {
      SumsMatch(ps[1..]);
      var rest := MapMetrics(CompletedOf(ps[1..]));
      if ps[0].completion.Some? {
        assert MapMetrics(CompletedOf(ps)) == [WithMetrics(ps[0])] + rest;
      } else {
        assert MapMetrics(CompletedOf(ps)) == rest;
      }
    }
  }

  /**
   * Looking a record up by id among the completed records finds that
   * process with its metrics, when ids are unique, and nothing for a
   * process that has not completed.
   */
  lemma {:induction false} FindCompleted(ps: seq<Process>, i: nat)
    requires UniqueIds(ps) && i < |ps|
    ensures FindById(MapMetrics(CompletedOf(ps)), ps[i].id) ==
      if ps[i].completion.Some? then Some(WithMetrics(ps[i])) else None
  {
    var rest := MapMetrics(CompletedOf(ps[1..]));
    var all := MapMetrics(CompletedOf(ps));
    assert all == if ps[0].completion.Some? then [WithMetrics(ps[0])] + rest else rest;
    if i == 0 {
      assert forall j | 0 <= j < |ps[1..]| :: ps[1..][j].id != ps[0].id by {
        forall j | 0 <= j < |ps[1..]| ensures ps[1..][j].id != ps[0].id {
          assert ps[1..][j] == ps[j + 1];
        }
      }
      NotFoundAmongOthers(ps[1..], ps[0].id);
    } else {
      assert UniqueIds(ps[1..]) by {
        forall a, b | 0 <= a < b < |ps[1..]| ensures ps[1..][a].id != ps[1..][b].id {
          assert ps[1..][a] == ps[a + 1] && ps[1..][b] == ps[b + 1];
        }
      }
      assert ps[1..][i - 1] == ps[i];
      FindCompleted(ps[1..], i - 1);
    }
  }

  lemma {:induction false} NotFoundAmongOthers(ps: seq<Process>, id: string)
    requires forall j | 0 <= j < |ps| :: ps[j].id != id
    ensures FindById(MapMetrics(CompletedOf(ps)), id).None?
  {
    if ps != [] {
      NotFoundAmongOthers(ps[1..], id);
      var rest := MapMetrics(CompletedOf(ps[1..]));
      assert MapMetrics(CompletedOf(ps)) ==
        if ps[0].completion.Some? then [WithMetrics(ps[0])] + rest else rest;
    }
  }

  /**
   * calculateMetrics: the list keeps its order and length; when ids are
   * unique, metrics are written onto every completed record and other
   * records pass through unchanged (the merge looks records up by id); and the aggregates are the averages over the completed
   * processes, the clamped utilization and the throughput.
   */
  method CalculateMetrics(processes: seq<Process>, totalTime: int, totalIdleTime: int)
    returns (info: seq<Process>, m: OverallMetrics)
    ensures |info| == |processes|
    ensures UniqueIds(processes) ==>
      forall i | 0 <= i < |processes| && processes[i].completion.None? :: info[i] == processes[i]
    ensures UniqueIds(processes) ==>
      forall i | 0 <= i < |processes| && processes[i].completion.Some? :: info[i] == WithMetrics(processes[i])
    ensures m.totalExecutionTime == totalTime
    ensures m.averageTurnaround == Average(TotalTurnaround(processes), CompletedCount(processes))
    ensures m.averageWaiting == Average(TotalWaiting(processes), CompletedCount(processes))
    ensures m.averageResponse == Average(TotalResponse(processes), CompletedCount(processes))
    ensures m.cpuUtilization == Utilization(totalTime, totalIdleTime)
    ensures m.throughput == Throughput(CompletedCount(processes), totalTime)
    ensures CompletedCount(processes) == 0 && totalTime == 0 ==> m == OverallMetrics(0.0, 0.0, 0.0, 0.0, 0.0, 0)
  {
    var completed := CompletedOf(processes);
    if |completed| == 0 && totalTime == 0 {
      info := processes;
      m := OverallMetrics(0.0, 0.0, 0.0, 0.0, 0.0, totalTime);
      if UniqueIds(processes) {
        forall i | 0 <= i < |processes| && processes[i].completion.Some?
          ensures false
        {
          FindCompleted(processes, i);
        }
      }
      return;
    }

    // forEach over the completed records, writing their metrics
    var updated := completed;
    var i := 0;
    while i < |updated|
      invariant 0 <= i <= |updated| == |completed|
      invariant forall j | 0 <= j < i :: updated[j] == WithMetrics(completed[j])
      invariant forall j | i <= j < |updated| :: updated[j] == completed[j]
    {
      updated := updated[i := WithMetrics(updated[i])];
      i := i + 1;
    }
    assert updated == MapMetrics(completed);

    var valid := WithTurnaroundOf(updated);
    WithTurnaroundOfAll(updated);
    SumsMatch(processes);

    var totalTurnaround := FieldSum(TurnaroundField, valid);
    var totalWaiting := FieldSum(WaitingField, valid);
    var totalResponse := FieldSum(ResponseField, valid);
    var numValid := |valid|;

    m := OverallMetrics(
      if numValid > 0 then totalTurnaround as real / numValid as real else 0.0,
      if numValid > 0 then totalWaiting as real / numValid as real else 0.0,
      if numValid > 0 then totalResponse as real / numValid as real else 0.0,
      if totalTime > 0 then Clamp((totalTime - totalIdleTime) as real / totalTime as real * 100.0) else 0.0,
      if totalTime > 0 && numValid > 0 then numValid as real / totalTime as real else 0.0,
      totalTime);

    info := seq(|processes|, k requires 0 <= k < |processes| =>
      match FindById(valid, processes[k].id)
      case Some(found) => found
      case None => processes[k]);
    if UniqueIds(processes) {
      forall k | 0 <= k < |processes|
        ensures info[k] == if processes[k].completion.Some? then WithMetrics(processes[k]) else processes[k]
      {
        FindCompleted(processes, k);
      }
    }
  }

  /** The totals read only input fields, the start and the completion time. */
  lemma {:induction false} SameTotals(ps: seq<Process>, qs: seq<Process>)
    requires |ps| == |qs|
    requires forall i | 0 <= i < |ps| ::
      SameInput(ps[i], qs[i]) && ps[i].completion == qs[i].completion && ps[i].start == qs[i].start
    ensures TotalTurnaround(ps) == TotalTurnaround(qs)
    ensures TotalWaiting(ps) == TotalWaiting(qs)
    ensures TotalResponse(ps) == TotalResponse(qs)
  {
    if ps != [] {
      SameTotals(ps[1..], qs[1..]);
    }
  }
}
