/**
 Where every cpu goes.  For each host, the cpus it has brought in by becoming available are
 exactly the cpus that are free, in use, on their way to a client, drained when the host
 left service, discarded when they came back to a host out of service, or lost because the
 client already held one.
 */
module Ledger {
  import opened Types
  import opened Pools
  import opened Protocol

  // ------------------------------------------------------------------- what a state shows

  function Free(s: State, d: Dprop, ip: Ip): nat {
    PoolOf(s, d).free[ip]
  }

  function Holders(held: map<Socket, Ip>, ip: Ip): set<Socket> {
    set k | k in held && held[k] == ip
  }

  function Held(s: State, d: Dprop, ip: Ip): nat {
    |Holders(PoolOf(s, d).held, ip)|
  }

  function InFlight(s: State, d: Dprop, ip: Ip): nat {
    if !s.request.Idle? && s.request.dprop == d && s.request.ip == ip then 1 else 0
  }

  function Cpus(p: Pool, ip: Ip): nat {
    if ip in p.hosts then p.hosts[ip].ncpus else 0
  }

  function Ncpus(s: State, d: Dprop, ip: Ip): nat {
    Cpus(PoolOf(s, d), ip)
  }

  // ---------------------------------------------------------------------- what a step does

  predicate Enters(p: Pool, q: Pool, ip: Ip) {
    !InService(p, ip) && InService(q, ip)
  }

  /** The free cpus that go when a host leaves service. */
  function Draining(p: Pool, q: Pool, ip: Ip): nat {
    if InService(p, ip) && !InService(q, ip) then p.free[ip] else 0
  }

  /** A cpu comes back from its client, but its host is out of service. */
  function Discarding(s: State, e: Event, d: Dprop, ip: Ip): nat {
    if && e.Close? && e.sock in s.index && s.index[e.sock] == d
       && e.sock in PoolOf(s, d).held && PoolOf(s, d).held[e.sock] == ip && !InService(PoolOf(s, d), ip)
    then 1 else 0
  }

  /** A cpu is recorded for a client that already holds one of the same dprop. */
  function Losing(s: State, e: Event, d: Dprop, ip: Ip): nat {
    if && e.Record? && s.request.Resolved? && s.request.dprop == d && s.request.ip == ip
       && s.request.sock in PoolOf(s, d).held
    then 1 else 0
  }

  // --------------------------------------------------------------------- totals over a run

  datatype Totals = Totals(entries: nat, drained: nat, discarded: nat, lost: nat)

  ghost function Sum(t: Totals, s: State, e: Event, d: Dprop, ip: Ip): Totals {
    var p, q := PoolOf(s, d), PoolOf(Step(s, e), d);
    Totals(t.entries + (if Enters(p, q, ip) then 1 else 0),
           t.drained + Draining(p, q, ip),
           t.discarded + Discarding(s, e, d, ip),
           t.lost + Losing(s, e, d, ip))
  }

  /** How often the host became available in a run, and what became of cpus that went. */
  ghost function Account(es: seq<Event>, d: Dprop, ip: Ip): Totals {
    if es == [] then Totals(0, 0, 0, 0)
    else
      var init := es[..|es| - 1];
      Sum(Account(init, d, ip), After(INIT, init), es[|es| - 1], d, ip)
  }

  // --------------------------------------------------------------- one step, one pool

  /** What a host event does to the cpus of host `x`, whichever host the event is about. */
  ghost predicate HostEvent(p: Pool, q: Pool, x: Ip) {
    && q.held == p.held
    && q.free[x] + Draining(p, q, x) == p.free[x] + (if Enters(p, q, x) then Cpus(q, x) else 0)
    && (x in p.hosts ==> x in q.hosts && Cpus(q, x) == Cpus(p, x))
  }

  lemma MoveIsHostEvent(p: Pool, d: Dprop, ip: Ip, st: HostState, x: Ip)
    requires PoolOk(p, d) && ip in p.hosts
    ensures HostEvent(p, Move(p, ip, st), x)
  {
    hide CalcTier;
  }

  lemma HearLoadIsHostEvent(p: Pool, d: Dprop, ip: Ip, raw: Loads, now: int, x: Ip)
    requires PoolOk(p, d) && ip in p.hosts
    ensures HostEvent(p, HearLoad(p, ip, raw, now), x)
  {
    hide CalcTier;
  }

  lemma EnrolIsHostEvent(p: Pool, d: Dprop, ip: Ip, i: HostInfo, x: Ip)
    requires PoolOk(p, d) && ip !in p.hosts
    ensures HostEvent(p, Enrol(p, ip, NewHost(ip, d, i)), x)
  {
    hide CalcTier;
  }

  lemma SweepIsHostEvent(p: Pool, d: Dprop, clock: Clock, x: Ip)
    requires PoolOk(p, d)
    ensures HostEvent(p, Sweep(p, clock), x)
  {
    hide CalcTier;
  }

  lemma TakeIsFlow(p: Pool, ip: Ip, x: Ip)
    requires ip in p.free
    ensures Pools.Take(p, ip).free[x] + (if x == ip then 1 else 0) == p.free[x]
  {
  }

  lemma HolderAdded(held: map<Socket, Ip>, k: Socket, ip: Ip, x: Ip)
    requires k !in held
    ensures |Holders(held[k := ip], x)| == |Holders(held, x)| + (if x == ip then 1 else 0)
  {
    assert Holders(held[k := ip], x) == Holders(held, x) + if x == ip then {k} else {};
  }

  lemma HolderGone(held: map<Socket, Ip>, k: Socket, x: Ip)
    requires k in held
    ensures |Holders(held - {k}, x)| + (if held[k] == x then 1 else 0) == |Holders(held, x)|
  {
    HolderAdded(held - {k}, k, held[k], x);
    assert (held - {k})[k := held[k]] == held;
  }

  lemma ReleaseIsFlow(p: Pool, k: Socket, x: Ip)
    requires k in p.held
    ensures var q := Pools.Release(p, k);
            && q.hosts == p.hosts
            && |Holders(q.held, x)| + (if p.held[k] == x then 1 else 0) == |Holders(p.held, x)|
            && q.free[x] == p.free[x] + (if p.held[k] == x && InService(p, x) then 1 else 0)
  {
    HolderGone(p.held, k, x);
    hide Holders, CalcTier;
  }

  // ---------------------------------------------------------------- one step, whole server

  /** The step that `e` makes from `s` keeps host `ip`'s account balanced. */
  ghost predicate Balanced(s: State, e: Event, d: Dprop, ip: Ip) {
    var s' := Step(s, e);
    var p, q := PoolOf(s, d), PoolOf(s', d);
    && Free(s', d, ip) + Held(s', d, ip) + InFlight(s', d, ip)
         + Draining(p, q, ip) + Discarding(s, e, d, ip) + Losing(s, e, d, ip)
       == Free(s, d, ip) + Held(s, d, ip) + InFlight(s, d, ip) + (if Enters(p, q, ip) then Cpus(q, ip) else 0)
    && (ip in p.hosts ==> ip in q.hosts && Cpus(q, ip) == Cpus(p, ip))
  }

  lemma HostEventBalances(s: State, e: Event, d: Dprop, ip: Ip)
    requires !e.Close? && !e.Record? && Step(s, e).request == s.request
    requires HostEvent(PoolOf(s, d), PoolOf(Step(s, e), d), ip)
    ensures Balanced(s, e, d, ip)
  {
    hide Step, InService;
  }

  lemma {:induction false} StepBalances(s: State, e: Event, d: Dprop, ip: Ip)
    requires Invariant(s) && Enabled(s, e)
    ensures Balanced(s, e, d, ip)
  {
    assert e.Record? ==> s.request.Resolved?;
    hide Balanced, Invariant, Enabled;
    match e {
      case Close(k) => CloseBalances(s, k, d, ip);
      case Load(_, _, _, _, _, _) => LoadBalances(s, e, d, ip);
      case Status(_, _, _, _, _) => StatusBalances(s, e, d, ip);
      case Grab(_, _, _) => GrabBalances(s, e, d, ip);
      case Record => RecordBalances(s, d, ip);
      case Tick(clock) => TickBalances(s, clock, d, ip);
      case _ => QuietBalances(s, e, d, ip);
    }
  }

  /** The other events touch no cpu. */
  lemma QuietBalances(s: State, e: Event, d: Dprop, ip: Ip)
    requires Invariant(s) && Enabled(s, e)
    requires e.Accept? || e.Other? || e.Refuse? || e.Resolve? || e.Collect?
    ensures Balanced(s, e, d, ip)
  {
    StepOnPool(s, e, d);
    hide PoolOk, Holders, PoolOf;
  }

  lemma GrabBalances(s: State, e: Event, d: Dprop, ip: Ip)
    requires Invariant(s) && Enabled(s, e) && e.Grab?
    ensures Balanced(s, e, d, ip)
  {
    hide CalcTier, PoolOk, Holders;
    TakeIsFlow(PoolOf(s, e.dprop), e.ip, ip);
  }

  lemma TickBalances(s: State, clock: Clock, d: Dprop, ip: Ip)
    requires Invariant(s)
    ensures Balanced(s, Tick(clock), d, ip)
  {
    hide CalcTier, PoolOk;
    EmptyOk(d);
    if d in s.pools { SweepIsHostEvent(s.pools[d], d, clock, ip); }
    hide Sweep;
    HostEventBalances(s, Tick(clock), d, ip);
  }

  lemma LoadBalances(s: State, e: Event, d: Dprop, ip: Ip)
    requires Invariant(s) && Enabled(s, e) && e.Load?
    ensures Balanced(s, e, d, ip)
  {
    hide CalcTier, PoolOk;
    var p := PoolOf(s, e.dprop);
    EmptyOk(e.dprop);
    if Knows(s, e.dprop, e.ip) {
      HearLoadIsHostEvent(p, e.dprop, e.ip, e.raw, e.now, ip);
    } else if e.info.Some? {
      EnrolIsHostEvent(p, e.dprop, e.ip, e.info.value, ip);
    }
    hide HearLoad, Enrol;
    HostEventBalances(s, e, d, ip);
  }

  lemma StatusBalances(s: State, e: Event, d: Dprop, ip: Ip)
    requires Invariant(s) && Enabled(s, e) && e.Status?
    ensures Balanced(s, e, d, ip)
  {
    hide CalcTier, PoolOk;
    var p := PoolOf(s, e.dprop);
    EmptyOk(e.dprop);
    if Knows(s, e.dprop, e.ip) {
      var h := p.hosts[e.ip];
      MoveIsHostEvent(p, e.dprop, e.ip, Unavailable, ip);
      MoveIsHostEvent(p, e.dprop, e.ip, Overloaded, ip);
      MoveIsHostEvent(p, e.dprop, e.ip, Available, ip);
    } else if e.info.Some? {
      EnrolIsHostEvent(p, e.dprop, e.ip, e.info.value, ip);
    }
    hide Move, Enrol;
    HostEventBalances(s, e, d, ip);
  }

  lemma CloseBalances(s: State, k: Socket, d: Dprop, ip: Ip)
    requires Invariant(s) && Enabled(s, Close(k))
    ensures Balanced(s, Close(k), d, ip)
  {
    hide CalcTier, PoolOk, Holders, Pools.Release;
    if k in s.index {
      ReleaseIsFlow(PoolOf(s, s.index[k]), k, ip);
      if d != s.index[k] {
        assert PoolOf(Step(s, Close(k)), d) == PoolOf(s, d);
      } else {
        assert PoolOf(Step(s, Close(k)), d) == Pools.Release(PoolOf(s, d), k);
      }
    }
  }

  lemma RecordBalances(s: State, d: Dprop, ip: Ip)
    requires Invariant(s) && s.request.Resolved?
    ensures Balanced(s, Record, d, ip)
  {
    hide CalcTier, PoolOk;
    var p := PoolOf(s, s.request.dprop);
    if s.request.sock !in p.held { HolderAdded(p.held, s.request.sock, s.request.ip, ip); }
    hide Holders;
  }

  // ------------------------------------------------------------------------- the theorems

  function Times(a: nat, b: nat): nat {
    a * b
  }

  ghost predicate Settled(t: Totals, s: State, d: Dprop, ip: Ip) {
    && Free(s, d, ip) + Held(s, d, ip) + InFlight(s, d, ip) + t.drained + t.discarded + t.lost
       == Times(Ncpus(s, d, ip), t.entries)
    && (!Knows(s, d, ip) ==> t.entries == 0)
  }

  lemma StepSettles(t: Totals, s: State, e: Event, d: Dprop, ip: Ip)
    requires Balanced(s, e, d, ip) && Settled(t, s, d, ip)
    ensures Settled(Sum(t, s, e, d, ip), Step(s, e), d, ip)
  {
    hide Step, Draining, Discarding, Losing, Times, Free, Held, InFlight, PoolOf;
    Multiply(Ncpus(s, d, ip), Ncpus(Step(s, e), d, ip), t.entries,
             Enters(PoolOf(s, d), PoolOf(Step(s, e), d), ip));
  }

  lemma {:induction false} AlwaysSettled(es: seq<Event>, d: Dprop, ip: Ip)
    requires Legal(INIT, es)
    ensures Settled(Account(es, d, ip), After(INIT, es), d, ip)
  {
    if es == [] {
      assert Holders(EMPTY.held, ip) == {};
    } else {
      hide Settled, Balanced;
      var init, e := es[..|es| - 1], es[|es| - 1];
      AlwaysSettled(init, d, ip);
      Reachable(init);
      StepBalances(After(INIT, init), e, d, ip);
      StepSettles(Account(init, d, ip), After(INIT, init), e, d, ip);
    }
  }

  lemma Multiply(n: nat, n': nat, entries: nat, enters: bool)
    requires n == n' || entries == 0
    ensures Times(n', entries + if enters then 1 else 0) == Times(n, entries) + if enters then n' else 0
  {
  }

  /** Conservation, over every run and for every host of every dprop. */
  lemma {:induction false} Conservation(es: seq<Event>, d: Dprop, ip: Ip)
    requires Legal(INIT, es)
    ensures var s, t := After(INIT, es), Account(es, d, ip);
      Free(s, d, ip) + Held(s, d, ip) + InFlight(s, d, ip) + t.drained + t.discarded + t.lost
      == Ncpus(s, d, ip) * t.entries
  {
    AlwaysSettled(es, d, ip);
  }

  /** Oversubscription: a host that became available k times never has more than k times its
      cpus out or on offer. */
  lemma {:induction false} Oversubscription(es: seq<Event>, d: Dprop, ip: Ip)
    requires Legal(INIT, es)
    ensures var s := After(INIT, es);
      Free(s, d, ip) + Held(s, d, ip) + InFlight(s, d, ip) <= Ncpus(s, d, ip) * Account(es, d, ip).entries
  {
    Conservation(es, d, ip);
  }
}
