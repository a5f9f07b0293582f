/**
 * The arrival pass at the top of each tick of runSimulation: every process
 * that arrives on the current tick and is neither completed, queued nor
 * running joins the tail of a ready queue, in process-list order.
 */
module Admission {
  import opened Types
  import opened Selection
  import opened Tally
  import opened Engine

  /** Admission takes process x on this tick, into the queue of level lvl when one is given. */
  predicate Takes(s: State, x: nat, lvl: Option<QueueLevel>)
  {
    Admissible(s, x) && (lvl.None? || LevelFor(s.procs[x].priority) == lvl.value)
  }

  /**
   * The processes among the first k that admission takes on this tick, in
   * list order; with a level, only those the multilevel queue assigns to it.
   */
  function Arrivals(s: State, k: nat, lvl: Option<QueueLevel>): (a: seq<nat>)
    requires k <= |s.procs|
    ensures forall m | 0 <= m < |a| :: a[m] < k
  {
    if k == 0 then []
    else
      var x := k - 1;
      Arrivals(s, x, lvl) + (if Takes(s, x, lvl) then [x] else [])
  }

  /** The arrivals are exactly the processes admission takes, each once, in increasing list position. */
  lemma {:induction false} ArrivalsMeaning(s: State, k: nat, lvl: Option<QueueLevel>)
    requires k <= |s.procs|
    ensures forall x: nat :: x in Arrivals(s, k, lvl) <==> x < k && Takes(s, x, lvl)
    ensures forall m, n | 0 <= m < n < |Arrivals(s, k, lvl)| :: Arrivals(s, k, lvl)[m] < Arrivals(s, k, lvl)[n]
  {
    if k == 0 {
      assert Arrivals(s, 0, lvl) == [];
    } else {
      var a := Arrivals(s, k - 1, lvl);
      ArrivalsMeaning(s, k - 1, lvl);
      assert forall m | 0 <= m < |a| :: a[m] in a;
      assert Arrivals(s, k, lvl) == a + (if Takes(s, k - 1, lvl) then [k - 1] else []);
    }
  }

  /**
   * The admission test and push for process i, on the state the pass has
   * reached: under the multilevel queue the level of its priority is
   * written on its record and picks the queue; an arrival event is logged.
   */
  function AdmitOne(c: Config, t: State, i: nat): (u: State)
    requires Shape(c, t) && i < |t.procs|
    ensures Shape(c, u) && |u.procs| == |t.procs|
  {
    if !Admissible(t, i) then t
    else
      var lvl := LevelFor(t.procs[i].priority);
      var v :=
        if c.alg == Mqs then
          t.(procs := t.procs[i := t.procs[i].(level := Some(lvl))],
             low := if lvl == Low then t.low + [i] else t.low,
             high := if lvl == High then t.high + [i] else t.high)
        else t.(low := t.low + [i]);
      LogEvent(c, v, Arrived(i, if c.alg == Mqs then Some(lvl) else None), false)
  }

  /** The state after the admission pass has looked at the first k processes. */
  function AdmitPass(c: Config, s: State, k: nat): (t: State)
    requires Shape(c, s) && k <= |s.procs|
    ensures Shape(c, t) && |t.procs| == |s.procs|
  {
    if k == 0 then s else AdmitOne(c, AdmitPass(c, s, k - 1), k - 1)
  }

  lemma AdmitPassStep(c: Config, s: State, k: nat)
    requires Shape(c, s) && 0 < k <= |s.procs|
    ensures AdmitPass(c, s, k) == AdmitOne(c, AdmitPass(c, s, k - 1), k - 1)
  {
  }

  /** What one admission step changes: the record, the queue tail and the log of the process it takes. */
  lemma AdmitOneEffect(c: Config, t: State, i: nat)
    requires Shape(c, t) && i < |t.procs|
    ensures var u := AdmitOne(c, t, i);
      var lvl := LevelFor(t.procs[i].priority);
      u == t.(procs := u.procs, low := u.low, high := u.high, log := u.log) &&
      (!Admissible(t, i) ==> u == t) &&
      (Admissible(t, i) ==>
        u.procs == (if c.alg == Mqs then t.procs[i := t.procs[i].(level := Some(lvl))] else t.procs) &&
        u.low == t.low + (if c.alg != Mqs || lvl == Low then [i] else []) &&
        u.high == t.high + (if c.alg == Mqs && lvl == High then [i] else []) &&
        |u.log| == |t.log| + 1 && u.log[..|t.log|] == t.log)
  {
    if Admissible(t, i) {
      var u := AdmitOne(c, t, i);
      assert u.log[..|t.log|] == t.log;
    }
  }

  /**
   * The pass changes only the records, queues and log; a record changes
   * only under the multilevel queue, when its process is taken, by its level.
   */
  lemma {:induction false} AdmitPassRecords(c: Config, s: State, k: nat)
    requires Shape(c, s) && k <= |s.procs|
    ensures var t := AdmitPass(c, s, k);
      t == s.(procs := t.procs, low := t.low, high := t.high, log := t.log) &&
      forall j | 0 <= j < |s.procs| ::
        t.procs[j] == if j < k && c.alg == Mqs && Admissible(s, j) then s.procs[j].(level := Some(LevelFor(s.procs[j].priority))) else s.procs[j]
    decreases k, 1
  {
    if k > 0 {
      var i := k - 1;
      AdmitPassRecords(c, s, i);
      AdmitPassTakes(c, s, i);
      var t := AdmitPass(c, s, i);
      AdmitOneEffect(c, t, i);
      var u := AdmitOne(c, t, i);
      forall j | 0 <= j < |s.procs|
        ensures u.procs[j] == if j < k && c.alg == Mqs && Admissible(s, j) then s.procs[j].(level := Some(LevelFor(s.procs[j].priority))) else s.procs[j]
      {
        if j != i {
          assert u.procs[j] == t.procs[j];
        }
      }
    }
  }

  /** The level of the lower queue's arrivals: all of them, except under the multilevel queue. */
  function LowArrivals(c: Config): Option<QueueLevel>
  {
    if c.alg == Mqs then Some(Low) else None
  }

  /** The processes the pass has taken for the lower (or only) queue join its tail, in list order. */
  lemma {:induction false} AdmitPassLow(c: Config, s: State, k: nat)
    requires Shape(c, s) && k <= |s.procs|
    ensures AdmitPass(c, s, k).low == s.low + Arrivals(s, k, LowArrivals(c))
    decreases k, 1
  {
    var lvl := LowArrivals(c);
    if k == 0 {
      assert Arrivals(s, 0, lvl) == [];
      assert s.low + [] == s.low;
    } else {
      var i := k - 1;
      AdmitPassLow(c, s, i);
      AdmitPassTakes(c, s, i);
      var t := AdmitPass(c, s, i);
      AdmitOneEffect(c, t, i);
      AdmitPassStep(c, s, k);
      var a := Arrivals(s, i, lvl);
      if Takes(s, i, lvl) {
        assert Arrivals(s, k, lvl) == a + [i];
        assert AdmitPass(c, s, k).low == t.low + [i];
        assert s.low + a + [i] == s.low + (a + [i]);
      } else {
        assert Arrivals(s, k, lvl) == a;
        assert AdmitPass(c, s, k).low == t.low;
      }
    }
  }

  /** Under the multilevel queue, the processes the pass has taken for the upper level join its tail; otherwise it stays empty-handed. */
  lemma {:induction false} AdmitPassHigh(c: Config, s: State, k: nat)
    requires Shape(c, s) && k <= |s.procs|
    ensures AdmitPass(c, s, k).high == s.high + (if c.alg == Mqs then Arrivals(s, k, Some(High)) else [])
    decreases k, 1
  {
    if k == 0 {
      assert Arrivals(s, 0, Some(High)) == [];
      assert s.high + [] == s.high;
    } else {
      var i := k - 1;
      AdmitPassHigh(c, s, i);
      AdmitPassTakes(c, s, i);
      var t := AdmitPass(c, s, i);
      AdmitOneEffect(c, t, i);
      AdmitPassStep(c, s, k);
      var h := if c.alg == Mqs then Arrivals(s, i, Some(High)) else [];
      if c.alg == Mqs && Takes(s, i, Some(High)) {
        assert Arrivals(s, k, Some(High)) == h + [i];
        assert AdmitPass(c, s, k).high == t.high + [i];
        assert s.high + h + [i] == s.high + (h + [i]);
      } else {
        assert c.alg == Mqs ==> Arrivals(s, k, Some(High)) == h;
        assert AdmitPass(c, s, k).high == t.high;
      }
    }
  }

  /** A process the pass has not yet looked at is taken exactly when it was admissible before the pass. */
  lemma {:induction false} AdmitPassTakes(c: Config, s: State, i: nat)
    requires Shape(c, s) && i < |s.procs|
    ensures var t := AdmitPass(c, s, i);
      t.procs[i] == s.procs[i] && (Admissible(t, i) <==> Admissible(s, i))
    decreases i + 1, 0
  {
    AdmitPassRecords(c, s, i);
    AdmitPassLow(c, s, i);
    AdmitPassHigh(c, s, i);
    assert forall m | 0 <= m < |Arrivals(s, i, None)| :: Arrivals(s, i, None)[m] != i;
    assert forall m | 0 <= m < |Arrivals(s, i, Some(High))| :: Arrivals(s, i, Some(High))[m] != i;
    assert forall m | 0 <= m < |Arrivals(s, i, Some(Low))| :: Arrivals(s, i, Some(Low))[m] != i;
  }

  /** The pass keeps the log it started from and appends one arrival event per process taken. */
  lemma {:induction false} AdmitPassLog(c: Config, s: State, k: nat)
    requires Shape(c, s) && k <= |s.procs|
    ensures var t := AdmitPass(c, s, k);
      |t.log| == |s.log| + |Arrivals(s, k, None)| && t.log[..|s.log|] == s.log
  {
    if k == 0 {
      assert Arrivals(s, 0, None) == [];
      assert s.log[..|s.log|] == s.log;
    } else {
      var i := k - 1;
      AdmitPassLog(c, s, i);
      AdmitPassTakes(c, s, i);
      var t := AdmitPass(c, s, i);
      AdmitOneEffect(c, t, i);
      var u := AdmitOne(c, t, i);
      assert u.log[..|s.log|] == t.log[..|s.log|];
    }
  }

  /** The pass logs neither fast-forwards, watchdog stops nor the summary. */
  lemma {:induction false} AdmitPassEvents(c: Config, s: State, k: nat)
    requires Shape(c, s) && k <= |s.procs|
    ensures var t := AdmitPass(c, s, k);
      FastForwards(t.log) == FastForwards(s.log) && (LogOk(s.log) ==> LogOk(t.log))
  {
    if k == 0 {
      assert AdmitPass(c, s, 0) == s;
    } else {
      var i := k - 1;
      AdmitPassEvents(c, s, i);
      AdmitPassStep(c, s, k);
      var t := AdmitPass(c, s, i);
      if Admissible(t, i) {
        var lvl := LevelFor(t.procs[i].priority);
        var v :=
          if c.alg == Mqs then
            t.(procs := t.procs[i := t.procs[i].(level := Some(lvl))],
               low := if lvl == Low then t.low + [i] else t.low,
               high := if lvl == High then t.high + [i] else t.high)
          else t.(low := t.low + [i]);
        assert AdmitPass(c, s, k) == LogEvent(c, v, Arrived(i, if c.alg == Mqs then Some(lvl) else None), false);
        assert v.log == t.log;
      }
    }
  }

  /** Each process occurs once among the arrivals if admission takes it, and not at all otherwise. */
  lemma {:induction false} ArrivalsCount(s: State, k: nat, lvl: Option<QueueLevel>, x: nat)
    requires k <= |s.procs|
    ensures Count(Arrivals(s, k, lvl), x) == if x < k && Takes(s, x, lvl) then 1 else 0
  {
    if k == 0 {
      assert Arrivals(s, 0, lvl) == [];
    } else {
      var i := k - 1;
      ArrivalsCount(s, i, lvl, x);
      var a := Arrivals(s, i, lvl);
      if Takes(s, i, lvl) {
        assert Arrivals(s, k, lvl) == a + [i];
        CountAppend(a, i);
      } else {
        assert Arrivals(s, k, lvl) == a;
      }
    }
  }

  /**
   * t is s after a whole admission pass: the taken processes join the tail
   * of their queue in list order, under the multilevel queue their records
   * gain their level, and the log grows by events that are neither
   * fast-forwards, watchdog stops nor the summary.
   */
  ghost predicate AdmittedAll(c: Config, s: State, t: State)
    requires Shape(c, s)
  {
    var n := |s.procs|;
    t == s.(procs := t.procs, low := t.low, high := t.high, log := t.log) && |t.procs| == n &&
    (forall j | 0 <= j < n ::
      t.procs[j] == if c.alg == Mqs && Admissible(s, j) then s.procs[j].(level := Some(LevelFor(s.procs[j].priority))) else s.procs[j]) &&
    t.low == s.low + Arrivals(s, n, LowArrivals(c)) &&
    t.high == s.high + (if c.alg == Mqs then Arrivals(s, n, Some(High)) else []) &&
    FastForwards(t.log) == FastForwards(s.log) && (LogOk(s.log) ==> LogOk(t.log))
  }

  /** The whole pass relates its start and end states as AdmittedAll says. */
  lemma AdmitPassAll(c: Config, s: State)
    requires Shape(c, s)
    ensures AdmittedAll(c, s, AdmitPass(c, s, |s.procs|))
  {
    AdmitPassRecords(c, s, |s.procs|);
    AdmitPassLow(c, s, |s.procs|);
    AdmitPassHigh(c, s, |s.procs|);
    AdmitPassEvents(c, s, |s.procs|);
  }

  /** Process x's occurrences after the pass: those before, plus one if the pass took it. */
  lemma AdmittedCounts(c: Config, s: State, t: State, x: nat)
    requires Shape(c, s) && AdmittedAll(c, s, t)
    ensures Count(t.low, x) == Count(s.low, x) + (if x < |s.procs| && Takes(s, x, LowArrivals(c)) then 1 else 0)
    ensures Count(t.high, x) == Count(s.high, x) + (if c.alg == Mqs && x < |s.procs| && Takes(s, x, Some(High)) then 1 else 0)
  {
    var n := |s.procs|;
    CountConcat(s.low, Arrivals(s, n, LowArrivals(c)), x);
    ArrivalsCount(s, n, LowArrivals(c), x);
    if c.alg == Mqs {
      CountConcat(s.high, Arrivals(s, n, Some(High)), x);
      ArrivalsCount(s, n, Some(High), x);
    } else {
      assert s.high + [] == s.high;
    }
  }

  lemma AdmittedQueuesOk(c: Config, s: State, t: State)
    requires QueuesOk(c, s) && AdmittedAll(c, s, t)
    ensures QueuesOk(c, t)
  {
    forall x: nat ensures Occurs(t, x) <= 1 {
      AdmittedCounts(c, s, t, x);
      assert Occurs(s, x) <= 1;
      if x < |s.procs| && Admissible(s, x) {
        CountMember(s.low, x);
        CountMember(s.high, x);
      }
    }
  }

  lemma AdmittedGanttOk(c: Config, s: State, t: State)
    requires GanttOk(c, s) && Shape(c, s) && AllOk(c, s, 0) && AdmittedAll(c, s, t)
    ensures GanttOk(c, t)
  {
    forall x | 0 <= x < |s.procs| && Admissible(s, x)
      ensures forall j | 0 <= j < |s.gantt| :: s.gantt[j].pid != x
    {
      assert ProcOk(c, s, 0, x);
      NoSegments(s.gantt, x);
    }
    assert forall j | 0 <= j < |s.gantt| :: t.procs[s.gantt[j].pid] == s.procs[s.gantt[j].pid];
  }

  lemma AdmittedTalliesOk(c: Config, s: State, t: State)
    requires TalliesOk(s) && Shape(c, s) && AdmittedAll(c, s, t)
    ensures TalliesOk(t)
  {
    SameProgress(s.procs, t.procs);
  }

  lemma AdmittedProcOk(c: Config, s: State, t: State, j: nat)
    requires QueuesOk(c, s) && ProcOk(c, s, 0, j) && AdmittedAll(c, s, t)
    ensures ProcOk(c, t, |s.procs|, j)
  {
    AdmittedCounts(c, s, t, j);
    CountMember(s.low, j);
    CountMember(s.high, j);
    CountMember(t.low, j);
    CountMember(t.high, j);
    if Admissible(s, j) {
      assert c.input[j].burst > 0;
    }
  }

  /** The whole admission pass keeps the invariant, with every process looked at. */
  lemma AdmittedOk(c: Config, s: State, t: State)
    requires Inv(c, s, 0) && AdmittedAll(c, s, t)
    ensures Inv(c, t, |s.procs|)
  {
    AdmittedQueuesOk(c, s, t);
    AdmittedGanttOk(c, s, t);
    AdmittedTalliesOk(c, s, t);
    forall j | 0 <= j < |t.procs| ensures ProcOk(c, t, |s.procs|, j) {
      AdmittedProcOk(c, s, t, j);
    }
  }

  /**
   * The admission pass over the process list: every process that arrives
   * on this tick and is neither completed, queued nor running joins the
   * tail of a queue, in list order; newArrivals records whether any did.
   */
  method Admit(c: Config, s: State) returns (t: State, newArrivals: bool)
    requires Inv(c, s, 0)
    ensures Inv(c, t, |s.procs|) && t.now == s.now && t.completedCount == s.completedCount
    ensures t == AdmitPass(c, s, |s.procs|) && AdmittedAll(c, s, t)
    ensures newArrivals <==> Arrivals(s, |s.procs|, None) != []
  {
    t := s;
    newArrivals := false;
    var i := 0;
    while i < |s.procs|
      invariant 0 <= i <= |s.procs|
      invariant t == AdmitPass(c, s, i)
      invariant newArrivals <==> Arrivals(s, i, None) != []
    {
      AdmitPassTakes(c, s, i);
      AdmitPassStep(c, s, i + 1);
      newArrivals := newArrivals || Admissible(t, i);
      t := AdmitOne(c, t, i);
      i := i + 1;
    }
    AdmitPassAll(c, s);
    AdmittedOk(c, s, t);
  }
}
