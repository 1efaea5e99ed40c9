/**
 The promise that clients rely on: a host that is left in service has exactly its cpus out or
 on offer.  What may not happen meanwhile is said of the events themselves.
 */
module Steady {
  import opened Types
  import opened Pools
  import opened Protocol
  import opened Ledger
  import HostLaws
  import Leaks

  /** The event takes a host out of service: "down" for it, a load that brings it to tier 0
      from another tier, or a sweep more than 60 seconds after it was last heard from. */
  predicate TakesOut(s: State, e: Event, d: Dprop, ip: Ip)
    requires Knows(s, d, ip)
  {
    var h := PoolOf(s, d).hosts[ip];
    match e
    case Status(_, c, x, up, _) => c == d && x == ip && !up
    case Load(_, c, x, raw, _, _) =>
      var n := h.ncpus as real;
      && c == d && x == ip && h.Tier() != 0
      && 0 == if raw.avg1 < 0.9 * n || raw.avg5 < 0.7 * n then h.pindex
              else if raw.avg10 < 0.8 * n then h.pindex - 1
              else 0
    case Tick(clock) => clock(d, ip) - h.lastUpdate > 60
    case _ => false
  }

  /** The event grants a cpu of the host to a connection that already holds one of the dprop. */
  predicate GrantsTwice(s: State, e: Event, d: Dprop, ip: Ip) {
    && e.Record? && s.request.Resolved? && s.request.dprop == d && s.request.ip == ip
    && s.request.sock in PoolOf(s, d).held
  }

  predicate Disturbs(s: State, e: Event, d: Dprop, ip: Ip) {
    (Knows(s, d, ip) && TakesOut(s, e, d, ip)) || GrantsTwice(s, e, d, ip)
  }

  /** Nothing disturbed the host during the run. */
  ghost predicate Undisturbed(es: seq<Event>, d: Dprop, ip: Ip) {
    es == [] ||
    (Undisturbed(es[..|es| - 1], d, ip) && !Disturbs(After(INIT, es[..|es| - 1]), es[|es| - 1], d, ip))
  }

  /** The host has been in service for as long as it was known. */
  ghost predicate AlwaysInService(es: seq<Event>, d: Dprop, ip: Ip) {
    && (Knows(After(INIT, es), d, ip) ==> InService(PoolOf(After(INIT, es), d), ip))
    && (es == [] || AlwaysInService(es[..|es| - 1], d, ip))
  }

  // ------------------------------------------------------------------------------- one step

  lemma LoadLeavesIff(p: Pool, ip: Ip, x: Ip, raw: Loads, now: int)
    requires InService(p, ip) && x in p.hosts
    ensures InService(HearLoad(p, x, raw, now), ip) <==>
      !(x == ip && p.hosts[ip].Hearing(raw, now).Tier() == 0 && p.hosts[ip].Tier() != 0)
  {
    hide CalcTier;
  }

  lemma StatusLeavesIff(p: Pool, ip: Ip, x: Ip, up: bool)
    requires InService(p, ip) && x in p.hosts
    ensures InService(if up then Pools.Up(p, x) else Pools.Down(p, x), ip) <==> !(x == ip && !up)
  {
    hide CalcTier;
  }

  lemma SweepLeavesIff(p: Pool, d: Dprop, ip: Ip, clock: Clock)
    requires InService(p, ip) && PoolOk(p, d)
    ensures InService(Sweep(p, clock), ip) <==> clock(d, ip) - p.hosts[ip].lastUpdate <= 60
  {
    hide CalcTier;
  }

  /** Exactly those events take a host out of service. */
  lemma LeavesIff(s: State, e: Event, d: Dprop, ip: Ip)
    requires Invariant(s) && Enabled(s, e) && InService(PoolOf(s, d), ip)
    ensures InService(PoolOf(Step(s, e), d), ip) <==> !TakesOut(s, e, d, ip)
  {
    StepOnPool(s, e, d);
    hide Step, HearLoad, Sweep, Pools.Up, Pools.Down, CalcTier, PerCpu;
    var p := PoolOf(s, d);
    match e {
      case Load(_, c, x, raw, now, _) =>
        if c == d && x in p.hosts {
          LoadLeavesIff(p, ip, x, raw, now);
          HostLaws.TierOfRaw(p.hosts[ip], raw, now);
        }
      case Status(_, c, x, up, _) =>
        if c == d && x in p.hosts { StatusLeavesIff(p, ip, x, up); }
      case Tick(clock) =>
        EmptyOk(d);
        SweepLeavesIff(p, d, ip, clock);
      case _ =>
    }
  }

  /** A host that becomes known is in service. */
  lemma EntersInService(s: State, e: Event, d: Dprop, ip: Ip)
    requires Invariant(s) && Enabled(s, e) && !Knows(s, d, ip) && Knows(Step(s, e), d, ip)
    ensures InService(PoolOf(Step(s, e), d), ip)
  {
    StepOnPool(s, e, d);
    hide Step, Invariant, Enabled, CalcTier, SweptSet, Except;
  }

  lemma StaysKnown(s: State, e: Event, d: Dprop, ip: Ip)
    requires Invariant(s) && Enabled(s, e) && Knows(s, d, ip)
    ensures Knows(Step(s, e), d, ip)
  {
    StepBalances(s, e, d, ip);
    hide Step, Invariant, Enabled;
  }

  // ------------------------------------------------------------------------------ the theorems

  /** Without a disturbance the host has entered service once and lost nothing. */
  ghost predicate Intact(es: seq<Event>, d: Dprop, ip: Ip) {
    var t := Account(es, d, ip);
    && t.drained == 0 && t.discarded == 0 && t.lost == 0
    && t.entries == if Knows(After(INIT, es), d, ip) then 1 else 0
  }

  /** No cpu of an unknown host is held or on its way. */
  lemma NothingOfIt(s: State, e: Event, d: Dprop, ip: Ip)
    requires Invariant(s) && !Knows(s, d, ip)
    ensures Discarding(s, e, d, ip) == 0 && Losing(s, e, d, ip) == 0
  {
  }

  lemma StaysIntact(t: Totals, s: State, e: Event, d: Dprop, ip: Ip)
    requires Invariant(s) && Enabled(s, e) && !Disturbs(s, e, d, ip)
    requires Knows(s, d, ip) ==> InService(PoolOf(s, d), ip)
    requires t == Totals(if Knows(s, d, ip) then 1 else 0, 0, 0, 0)
    ensures Sum(t, s, e, d, ip) == Totals(if Knows(Step(s, e), d, ip) then 1 else 0, 0, 0, 0)
    ensures Knows(Step(s, e), d, ip) ==> InService(PoolOf(Step(s, e), d), ip)
  {
    hide PoolOk, Best;
    if Knows(s, d, ip) {
      LeavesIff(s, e, d, ip);
      StaysKnown(s, e, d, ip);
    } else {
      if Knows(Step(s, e), d, ip) {
        EntersInService(s, e, d, ip);
      }
      NothingOfIt(s, e, d, ip);
    }
    hide Step, Invariant, Enabled;
  }

  lemma {:induction false} UndisturbedIsIntact(es: seq<Event>, d: Dprop, ip: Ip)
    requires Legal(INIT, es) && Undisturbed(es, d, ip)
    ensures Intact(es, d, ip) && AlwaysInService(es, d, ip)
  {
    if es != [] {
      hide Invariant, Enabled, Step, Disturbs, Knows, InService, Sum;
      var init, e := es[..|es| - 1], es[|es| - 1];
      UndisturbedIsIntact(init, d, ip);
      Reachable(init);
      StaysIntact(Account(init, d, ip), After(INIT, init), e, d, ip);
    }
  }

  /** A run disturbs a host exactly if it takes the host out of service or loses one of its
      cpus to a connection that already had one. */
  lemma {:induction false} UndisturbedIff(es: seq<Event>, d: Dprop, ip: Ip)
    requires Legal(INIT, es)
    ensures Undisturbed(es, d, ip) <==> AlwaysInService(es, d, ip) && Account(es, d, ip).lost == 0
  {
    if es != [] {
      var init, e := es[..|es| - 1], es[|es| - 1];
      UndisturbedIff(init, d, ip);
      Reachable(init);
      if Undisturbed(es, d, ip) {
        UndisturbedIsIntact(es, d, ip);
      } else if AlwaysInService(es, d, ip) && Account(es, d, ip).lost == 0 {
        hide Invariant, Enabled, Step;
        DisturbanceShows(After(INIT, init), e, d, ip);
      }
    }
  }

  lemma DisturbanceShows(s: State, e: Event, d: Dprop, ip: Ip)
    requires Invariant(s) && Enabled(s, e) && Disturbs(s, e, d, ip)
    requires Knows(s, d, ip) ==> InService(PoolOf(s, d), ip)
    ensures Losing(s, e, d, ip) == 1
         || (Knows(Step(s, e), d, ip) && !InService(PoolOf(Step(s, e), d), ip))
  {
    if Knows(s, d, ip) {
      LeavesIff(s, e, d, ip);
      StaysKnown(s, e, d, ip);
    }
    hide Step, Invariant, Enabled;
  }

  /** A host that stayed in service, and whose clients each held one cpu, has exactly its cpus
      out or on offer. */
  lemma {:induction false} ExactlyItsCpus(es: seq<Event>, d: Dprop, ip: Ip)
    requires Legal(INIT, es) && Knows(After(INIT, es), d, ip) && Undisturbed(es, d, ip)
    ensures var s := After(INIT, es);
      Free(s, d, ip) + Held(s, d, ip) + InFlight(s, d, ip) == Ncpus(s, d, ip)
  {
    UndisturbedIsIntact(es, d, ip);
    Conservation(es, d, ip);
    hide After, Legal, Undisturbed, Account, Free, Held, InFlight, Ncpus;
  }

  /** When all clients of such a host have been careful and have gone, all its cpus are free. */
  lemma {:induction false} AllFreeAgain(es: seq<Event>, d: Dprop, ip: Ip)
    requires Legal(INIT, es) && Knows(After(INIT, es), d, ip) && Undisturbed(es, d, ip)
    requires Leaks.Careful(es) && After(INIT, es).fds == {}
    ensures Free(After(INIT, es), d, ip) == Ncpus(After(INIT, es), d, ip)
  {
    ExactlyItsCpus(es, d, ip);
    Leaks.EverythingComesBack(es, d);
    Reachable(es);
    hide After, Legal, Undisturbed, Leaks.Careful;
    assert Holders(PoolOf(After(INIT, es), d).held, ip) == {};
  }
}
