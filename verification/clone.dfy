/** Fresh working copies of the caller's processes. */
module Clone {
  import opened Types

  /** The working copy of one process: all progress fields reset. */
  function Fresh(p: Process): (r: Process)
    ensures SameInput(r, p)
    ensures r.remaining == p.burst
    ensures r.start.None? && r.completion.None?
    ensures r.turnaround.None? && r.waiting.None? && r.response.None?
    ensures r.level.None?
  {
    p.(remaining := p.burst, start := None, completion := None,
       turnaround := None, waiting := None, response := None, level := None)
  }

  /**
   * One working copy per input process, in input order. The input is a
   * value, so the caller's list is never modified.
   */
  function CloneProcesses(ps: seq<Process>): (r: seq<Process>)
    ensures |r| == |ps|
    ensures forall i | 0 <= i < |ps| ::
      SameInput(r[i], ps[i]) && r[i].remaining == ps[i].burst &&
      r[i].start.None? && r[i].completion.None? && r[i].turnaround.None? &&
      r[i].waiting.None? && r[i].response.None? && r[i].level.None?
  {
    seq(|ps|, i requires 0 <= i < |ps| => Fresh(ps[i]))
  }
}
