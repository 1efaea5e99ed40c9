/** What the periodic statistics add up to. */
module Statistics {
  import opened Types
  import opened Pools
  import opened Protocol

  predicate Records(s: State, e: Event, d: Dprop) {
    e.Record? && s.request.Resolved? && s.request.dprop == d
  }

  /** The number of assignments a run made in dprop `d`. */
  ghost function Assignments(es: seq<Event>, d: Dprop): nat {
    if es == [] then 0
    else
      var init := es[..|es| - 1];
      Assignments(init, d) + if Records(After(INIT, init), es[|es| - 1], d) then 1 else 0
  }

  /** The sum of the served counts that all reports of a run gave for dprop `d`. */
  ghost function Reported(es: seq<Event>, d: Dprop): nat {
    if es == [] then 0
    else
      var init := es[..|es| - 1];
      Reported(init, d) + if es[|es| - 1].Collect? then Report(PoolOf(After(INIT, init), d)).served else 0
  }

  /** The largest number of assigned cpus right after any assignment since the last report. */
  ghost function Largest(es: seq<Event>, d: Dprop): nat {
    if es == [] then 0
    else
      var init := es[..|es| - 1];
      var e, n := es[|es| - 1], |PoolOf(After(INIT, es), d).held|;
      if e.Collect? then 0
      else if Records(After(INIT, init), e, d) && n > Largest(init, d) then n
      else Largest(init, d)
  }

  lemma StepCounts(s: State, e: Event, d: Dprop)
    requires Invariant(s) && Enabled(s, e)
    ensures var p, q := PoolOf(s, d), PoolOf(Step(s, e), d);
      if e.Collect? then q.served == 0 && q.peak == 0
      else if Records(s, e, d) then
        q.served == p.served + 1 && q.peak == (if |q.held| > p.peak then |q.held| else p.peak)
      else q.served == p.served && q.peak == p.peak
  {
    StepOnPool(s, e, d);
    BooksStep(s, e, d);
    hide Step, PoolStep, PoolOf, Invariant, Enabled;
  }

  /** Every assignment is reported exactly once, and the reported maximum is the true one. */
  lemma {:induction false} StatisticsAddUp(es: seq<Event>, d: Dprop)
    requires Legal(INIT, es)
    ensures Reported(es, d) + PoolOf(After(INIT, es), d).served == Assignments(es, d)
    ensures PoolOf(After(INIT, es), d).peak == Largest(es, d)
  {
    if es != [] {
      hide Invariant, Enabled, Step, Records;
      var init := es[..|es| - 1];
      StatisticsAddUp(init, d);
      Reachable(init);
      StepCounts(After(INIT, init), es[|es| - 1], d);
    }
  }
}
