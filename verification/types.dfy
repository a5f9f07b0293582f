/**
 * Record shapes of the CPU-scheduling simulator: processes, Gantt segments,
 * replay-log events and aggregate metrics.
 */
module Types {

  datatype Option<T> = None | Some(value: T)

  /** The eight scheduling disciplines the engine simulates. */
  datatype Algorithm =
    | Fcfs          // first-come, first-served
    | SjfNp         // shortest job first, non-preemptive
    | SjfP          // shortest remaining time first (preemptive SJF)
    | PriorityNp    // priority, non-preemptive
    | PriorityP     // priority, preemptive
    | RoundRobin
    | Hrrn          // highest response ratio next
    | Mqs           // two-level queue: round robin above, FCFS below

  /** The two levels of the multilevel queue (1 and 2 in the source). */
  datatype QueueLevel = High | Low

  /** Priorities strictly below this value go to the high (round-robin) level. */
  const MqsPriorityThreshold: int := 3

  /** The simulation is forcibly stopped once the clock passes this tick. */
  const WatchdogLimit: int := 2000

  /**
   * A process record. `arrival`, `burst` and `priority` are the caller's
   * input; the remaining fields are filled in as the simulation proceeds.
   * Absent optional fields of the source are `None`.
   */
  datatype Process = Process(
    id: string,
    name: string,
    arrival: nat,
    burst: nat,
    priority: int,
    remaining: nat,
    start: Option<int>,
    completion: Option<int>,
    turnaround: Option<int>,
    waiting: Option<int>,
    response: Option<int>,
    level: Option<QueueLevel>)

  /** The process at position `pid` of the process list held the CPU during [start, end). */
  datatype GanttEntry = GanttEntry(pid: nat, start: int, end: int)

  /** What a replay-log event records; the numeric fields of each log message. */
  datatype EventKind =
    | Started
    | Arrived(pid: nat, queue: Option<QueueLevel>)
    | MqsPreempted(pid: nat)
    | Dispatched(pid: nat)
    | IdleWaiting
    | Completed(pid: nat, at: int)
    | QuantumExpired(pid: nat)
    | Continues(pid: nat)
    | ForceStopped(at: int)
    | FastForward(duration: int, target: int)
    | Stuck
    | AllCompleted(count: nat, total: int)

  /**
   * One immutable snapshot of the simulation. `highQueue` is present for the
   * multilevel queue (and in the final summary event).
   */
  datatype SimulationEvent = SimulationEvent(
    time: int,
    running: Option<Process>,
    readyQueue: seq<Process>,
    highQueue: Option<seq<Process>>,
    completed: seq<Process>,
    gantt: seq<GanttEntry>,
    cpuIdle: bool,
    kind: EventKind)

  datatype OverallMetrics = OverallMetrics(
    averageTurnaround: real,
    averageWaiting: real,
    averageResponse: real,
    cpuUtilization: real,
    throughput: real,
    totalExecutionTime: int)

  datatype SimulationResult = SimulationResult(
    gantt: seq<GanttEntry>,
    processes: seq<Process>,
    metrics: OverallMetrics,
    log: seq<SimulationEvent>)

  /** The fields the caller supplies, which the simulation never changes. */
  predicate SameInput(p: Process, q: Process)
  {
    p.id == q.id && p.name == q.name && p.arrival == q.arrival &&
    p.burst == q.burst && p.priority == q.priority
  }

  /** No two processes share an id (the configuration page numbers them P1, P2, ...). */
  predicate UniqueIds(ps: seq<Process>)
  {
    forall i, j | 0 <= i < j < |ps| :: ps[i].id != ps[j].id
  }

  /** The input constraints of the configuration form: positive bursts. */
  predicate WellFormedInput(ps: seq<Process>)
  {
    forall i | 0 <= i < |ps| :: ps[i].burst > 0
  }
}
