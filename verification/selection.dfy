/**
 * The policy selector: the order each discipline sorts its ready queue in
 * before dispatching the head, and the preemption rules checked when a new
 * process arrives.
 */
module Selection {
  import opened Types

  /** Every queue entry is a position in the process list. */
  predicate Indices(procs: seq<Process>, q: seq<nat>)
  {
    forall i | 0 <= i < |q| :: q[i] < |procs|
  }

  /** Every queued process has a positive burst. */
  predicate PositiveBursts(procs: seq<Process>, q: seq<nat>)
    requires Indices(procs, q)
  {
    forall i | 0 <= i < |q| :: procs[q[i]].burst > 0
  }

  /** The comparators the ready queue is sorted with. */
  datatype Order = ByArrival | ByBurst | ByRemaining | ByPriority | ByResponseRatio

  /** The primary integer key of an order (the response ratio is not an integer key). */
  function Key(o: Order, p: Process): int
  {
    match o
    case ByArrival => p.arrival
    case ByBurst => p.burst
    case ByRemaining => p.remaining
    case ByPriority => p.priority
    case ByResponseRatio => 0
  }

  /** The waiting time HRRN writes on a record before sorting; absent reads as 0. */
  function Waited(p: Process): int
  {
    match p.waiting
    case Some(w) => w
    case None => 0
  }

  /** The response ratio (waited + burst) / burst, for a positive burst. */
  function Ratio(p: Process): real
    requires p.burst > 0
  {
    (Waited(p) + p.burst) as real / p.burst as real
  }

  /** a's response ratio is strictly higher than b's, compared by cross-multiplication. */
  predicate HigherRatio(a: Process, b: Process)
  {
    (Waited(a) + a.burst) * b.burst > (Waited(b) + b.burst) * a.burst
  }

  /**
   * The comparator of order `o` gives a value <= 0 for (a, b): a stable
   * sort keeps a ahead of b when a came first. Ties on the primary key are
   * broken by earlier arrival; a higher response ratio sorts first.
   */
  predicate Precedes(o: Order, a: Process, b: Process)
  {
    match o
    case ByArrival => a.arrival <= b.arrival
    case ByResponseRatio => HigherRatio(a, b) || (!HigherRatio(b, a) && a.arrival <= b.arrival)
    case _ => Key(o, a) < Key(o, b) || (Key(o, a) == Key(o, b) && a.arrival <= b.arrival)
  }

  lemma CrossMultiply(x: int, y: int, a: int, b: int)
    requires a > 0 && b > 0
    ensures x * b > y * a <==> x as real / a as real > y as real / b as real
  {
    var ra, rb := x as real / a as real, y as real / b as real;
    assert x as real == ra * a as real;
    assert y as real == rb * b as real;
    assert (x * b) as real == ra * (a * b) as real;
    assert (y * a) as real == rb * (a * b) as real;
  }

  /** Cross-multiplication compares the response ratios themselves. */
  lemma HigherRatioMeaning(a: Process, b: Process)
    requires a.burst > 0 && b.burst > 0
    ensures HigherRatio(a, b) <==> Ratio(a) > Ratio(b)
  {
    CrossMultiply(Waited(a) + a.burst, Waited(b) + b.burst, a.burst, b.burst);
  }

  lemma PrecedesTotal(o: Order, a: Process, b: Process)
    ensures Precedes(o, a, b) || Precedes(o, b, a)
  {
  }

  lemma PrecedesTransitive(o: Order, a: Process, b: Process, c: Process)
    requires a.burst > 0 && b.burst > 0 && c.burst > 0
    requires Precedes(o, a, b) && Precedes(o, b, c)
    ensures Precedes(o, a, c)
  {
    if o == ByResponseRatio {
      HigherRatioMeaning(a, b);
      HigherRatioMeaning(b, a);
      HigherRatioMeaning(b, c);
      HigherRatioMeaning(c, b);
      HigherRatioMeaning(a, c);
      HigherRatioMeaning(c, a);
    }
  }

  /** Stable insertion: x goes before the first element it may precede. */
  function Insert(o: Order, procs: seq<Process>, x: nat, t: seq<nat>): (r: seq<nat>)
    requires x < |procs| && Indices(procs, t)
    ensures Indices(procs, r)
    ensures multiset(r) == multiset(t) + multiset{x}
    ensures |r| == |t| + 1
    ensures r[0] == (if t == [] || Precedes(o, procs[x], procs[t[0]]) then x else t[0])
  {
    if t == [] then [x]
    else if Precedes(o, procs[x], procs[t[0]]) then [x] + t
    else
      assert t == [t[0]] + t[1..];
      [t[0]] + Insert(o, procs, x, t[1..])
  }

  /** The stable sort of the queue by order `o` (the source's `Array.sort`). */
  function Sort(o: Order, procs: seq<Process>, q: seq<nat>): (r: seq<nat>)
    requires Indices(procs, q)
    ensures Indices(procs, r)
    ensures multiset(r) == multiset(q)
    ensures |r| == |q|
  {
    if q == [] then []
    else
      assert q == [q[0]] + q[1..];
      Insert(o, procs, q[0], Sort(o, procs, q[1..]))
  }

  predicate SortedBy(o: Order, procs: seq<Process>, r: seq<nat>)
    requires Indices(procs, r)
  {
    forall i | 0 <= i < |r| - 1 :: Precedes(o, procs[r[i]], procs[r[i + 1]])
  }

  lemma {:induction false} InsertSorted(o: Order, procs: seq<Process>, x: nat, t: seq<nat>)
    requires x < |procs| && Indices(procs, t) && SortedBy(o, procs, t)
    ensures SortedBy(o, procs, Insert(o, procs, x, t))
    decreases |t|
  {
    if t != [] && !Precedes(o, procs[x], procs[t[0]]) {
      PrecedesTotal(o, procs[x], procs[t[0]]);
      InsertSorted(o, procs, x, t[1..]);
    }
  }

  /** The sort leaves the queue ordered: every element may precede its successor. */
  lemma {:induction false} SortSorted(o: Order, procs: seq<Process>, q: seq<nat>)
    requires Indices(procs, q)
    ensures SortedBy(o, procs, Sort(o, procs, q))
    decreases |q|
  {
    if q != [] {
      SortSorted(o, procs, q[1..]);
      InsertSorted(o, procs, q[0], Sort(o, procs, q[1..]));
    }
  }

  /**
   * The position of the process a stable sort by `o` puts first: it may
   * precede every queued process, and every process queued before it
   * compares strictly worse.
   */
  function FirstBest(o: Order, procs: seq<Process>, q: seq<nat>): (k: nat)
    requires q != [] && Indices(procs, q) && PositiveBursts(procs, q)
    ensures k < |q|
    ensures forall j | 0 <= j < |q| :: Precedes(o, procs[q[k]], procs[q[j]])
    ensures forall j | 0 <= j < k :: !Precedes(o, procs[q[j]], procs[q[k]])
    decreases |q|
  {
    if |q| == 1 then 0
    else
      var k' := FirstBest(o, procs, q[1..]);
      if Precedes(o, procs[q[0]], procs[q[1 + k']]) then
        assert forall j | 1 <= j < |q| :: Precedes(o, procs[q[0]], procs[q[j]]) by {
          forall j | 1 <= j < |q| ensures Precedes(o, procs[q[0]], procs[q[j]]) {
            assert q[1..][j - 1] == q[j];
            PrecedesTransitive(o, procs[q[0]], procs[q[1 + k']], procs[q[j]]);
          }
        }
        0
      else
        assert Precedes(o, procs[q[1 + k']], procs[q[0]]) by {
          PrecedesTotal(o, procs[q[0]], procs[q[1 + k']]);
        }
        assert forall j | 1 <= j < 1 + k' :: q[j] == q[1..][j - 1];
        1 + k'
  }

  /**
   * Stability: the head of the sorted queue is the earliest-queued process
   * among those that may precede all others.
   */
  lemma {:induction false} SortHead(o: Order, procs: seq<Process>, q: seq<nat>)
    requires q != [] && Indices(procs, q) && PositiveBursts(procs, q)
    ensures Sort(o, procs, q)[0] == q[FirstBest(o, procs, q)]
    decreases |q|
  {
    if |q| > 1 {
      SortHead(o, procs, q[1..]);
    }
  }

  /**
   * Process x is the one a stable sort of q by o puts first: it is queued,
   * it may precede every queued process, and every process queued ahead of
   * it compares strictly worse.
   */
  predicate BestFirst(o: Order, procs: seq<Process>, q: seq<nat>, x: nat)
    requires Indices(procs, q) && x < |procs|
  {
    exists k | 0 <= k < |q| :: q[k] == x &&
      (forall j | 0 <= j < |q| :: Precedes(o, procs[x], procs[q[j]])) &&
      (forall j | 0 <= j < k :: !Precedes(o, procs[q[j]], procs[x]))
  }

  /** The head of the sorted queue is the best-first process, and the rest of the sorted queue holds the others. */
  lemma SortedHeadBest(o: Order, procs: seq<Process>, q: seq<nat>)
    requires q != [] && Indices(procs, q) && PositiveBursts(procs, q)
    ensures var r := Sort(o, procs, q);
      r[0] < |procs| && BestFirst(o, procs, q, r[0]) &&
      multiset(r[1..]) == multiset(q) - multiset{r[0]} && Indices(procs, r[1..])
  {
    var r := Sort(o, procs, q);
    SortHead(o, procs, q);
    var k := FirstBest(o, procs, q);
    assert q[k] == r[0];
    assert r == [r[0]] + r[1..];
  }

  /** The sort applied before dispatching the ready-queue head; None: plain head (round robin). */
  function OrderFor(alg: Algorithm): (o: Option<Order>)
    ensures o.None? <==> alg == RoundRobin
  {
    match alg
    case Fcfs => Some(ByArrival)
    case SjfNp => Some(ByBurst)
    case SjfP => Some(ByRemaining)
    case PriorityNp => Some(ByPriority)
    case PriorityP => Some(ByPriority)
    case RoundRobin => None
    case Hrrn => Some(ByResponseRatio)
    case Mqs => Some(ByArrival)
  }

  /**
   * The smallest `o`-key in the queue, folded left to right as `reduce`
   * does from an Infinity seed; None stands for Infinity (empty queue).
   */
  function MinKey(o: Order, procs: seq<Process>, q: seq<nat>): (m: Option<int>)
    requires Indices(procs, q)
    ensures m.None? <==> q == []
    ensures m.Some? ==> exists j | 0 <= j < |q| :: Key(o, procs[q[j]]) == m.value
    ensures m.Some? ==> forall j | 0 <= j < |q| :: m.value <= Key(o, procs[q[j]])
    decreases |q|
  {
    if q == [] then None
    else
      var acc := MinKey(o, procs, q[..|q| - 1]);
      var last := Key(o, procs[q[|q| - 1]]);
      assert forall j | 0 <= j < |q| - 1 :: q[..|q| - 1][j] == q[j];
      if acc.None? || last < acc.value then Some(last) else acc
  }

  /**
   * Preemption on arrival: SRTF preempts when some queued process has
   * strictly less remaining time, preemptive priority when some queued
   * priority number is strictly smaller, and the multilevel queue when a
   * low-level process runs while the high queue is non-empty.
   */
  predicate ShouldPreempt(alg: Algorithm, procs: seq<Process>, low: seq<nat>, high: seq<nat>, cur: nat): (b: bool)
    requires Indices(procs, low) && cur < |procs|
    ensures b <==>
      (alg == SjfP && exists j | 0 <= j < |low| :: procs[low[j]].remaining < procs[cur].remaining) ||
      (alg == PriorityP && exists j | 0 <= j < |low| :: procs[low[j]].priority < procs[cur].priority) ||
      (alg == Mqs && procs[cur].level == Some(Low) && high != [])
  {
    match alg
    case SjfP =>
      var m := MinKey(ByRemaining, procs, low);
      m.Some? && m.value < procs[cur].remaining
    case PriorityP =>
      var m := MinKey(ByPriority, procs, low);
      m.Some? && m.value < procs[cur].priority
    case Mqs => procs[cur].level == Some(Low) && |high| > 0
    case _ => false
  }
}
