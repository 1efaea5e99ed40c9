/** What clients and administrators may rely on, over every run of the server. */
module Guarantees {
  import opened Types
  import opened Pools
  import opened Protocol

  // -------------------------------------------------------------------------------- tiers

  predicate Heavier(m: Loads, l: Loads) {
    m.avg1 >= l.avg1 && m.avg5 >= l.avg5 && m.avg10 >= l.avg10
  }

  /** More load never raises a host's tier, if and only if its power index is positive. */
  lemma TierFalls(pindex: int)
    ensures (forall l, m :: Heavier(m, l) ==> CalcTier(m, pindex) <= CalcTier(l, pindex)) <==> pindex >= 1
  {
    var busy, full := Loads(1.0, 1.0, 0.0), Loads(1.0, 1.0, 1.0);
    assert Heavier(full, busy) && CalcTier(busy, pindex) == pindex - 1 && CalcTier(full, pindex) == 0;
  }

  // --------------------------------------------------------------------------- best host

  lemma {:induction false} BestExists(m: multiset<Ip>, p: Pool)
    requires m != multiset{} && forall x :: x in m ==> x in p.hosts
    ensures exists ip :: ip in m && forall x :: x in m ==> p.hosts[x].Tier() <= p.hosts[ip].Tier()
    decreases |m|
  {
    hide HostRec.Tier;
    var a :| a in m;
    var rest := m[a := 0];
    if rest == multiset{} {
      assert forall x :: x in m ==> x == a by {
        assert forall x :: x != a ==> rest[x] == m[x];
      }
    } else {
      assert |rest| < |m| by { assert m == rest + multiset{}[a := m[a]]; }
      BestExists(rest, p);
      var b :| b in rest && forall x :: x in rest ==> p.hosts[x].Tier() <= p.hosts[b].Tier();
      var best := if p.hosts[a].Tier() <= p.hosts[b].Tier() then b else a;
      assert forall x :: x in m ==> x == a || x in rest;
      assert best in m;
    }
  }

  lemma FreeIsInService(s: State, d: Dprop)
    requires Invariant(s)
    ensures forall ip :: ip in PoolOf(s, d).free ==> InService(PoolOf(s, d), ip)
  {
    EmptyOk(d);
    hide HostRec.Tier;
  }

  /** A request is refused exactly when no host of its dprop has a free cpu, which is also
      exactly when no cpu could be handed out. */
  lemma RefusedIff(s: State, k: Socket, d: Dprop)
    requires Invariant(s) && s.request.Idle? && k in s.fds
    ensures Enabled(s, Refuse(k, d)) <==> forall ip :: Knows(s, d, ip) ==> PoolOf(s, d).free[ip] == 0
    ensures Enabled(s, Refuse(k, d)) <==> !exists ip :: Enabled(s, Grab(k, d, ip))
  {
    FreeIsInService(s, d);
    hide HostRec.Tier, Invariant;
    var p := PoolOf(s, d);
    if p.free != multiset{} {
      BestExists(p.free, p);
      var ip :| ip in p.free && forall x :: x in p.free ==> p.hosts[x].Tier() <= p.hosts[ip].Tier();
      assert Enabled(s, Grab(k, d, ip));
      assert Knows(s, d, ip);
    }
  }

  /** A host in service with a free cpu, whose tier no host with a free cpu beats. */
  ghost predicate IsBestHost(p: Pool, ip: Ip) {
    && InService(p, ip) && ip in p.free
    && forall x :: x in p.free ==> InService(p, x) && p.hosts[x].Tier() <= p.hosts[ip].Tier()
  }

  /** The cpu that is handed out is of such a host, and exactly that one cpu leaves the pool. */
  lemma BestHost(s: State, k: Socket, d: Dprop, ip: Ip)
    requires Invariant(s) && Enabled(s, Grab(k, d, ip))
    ensures var p, q := PoolOf(s, d), PoolOf(Step(s, Grab(k, d, ip)), d);
      IsBestHost(p, ip) && p == q.(free := q.free + multiset{ip})
  {
    FreeIsInService(s, d);
    hide HostRec.Tier, Invariant;
  }

  // --------------------------------------------------------- a request and the other threads

  predicate Background(es: seq<Event>) {
    forall i :: 0 <= i < |es| ==> es[i].Tick? || es[i].Collect?
  }

  /** Sweeps and reports never forget a host, an assignment or the request in progress. */
  ghost predicate SameBooks(s: State, t: State) {
    && t.request == s.request && t.index == s.index && t.fds == s.fds
    && t.pools.Keys == s.pools.Keys
    && forall d :: d in s.pools ==> t.pools[d].held == s.pools[d].held && t.pools[d].hosts.Keys == s.pools[d].hosts.Keys
  }

  lemma BackgroundStep(s: State, t: State, e: Event)
    requires SameBooks(s, t) && (e.Tick? || e.Collect?)
    ensures SameBooks(s, Step(t, e))
  {
    hide SweptSet, Except;
  }

  lemma {:induction false} BackgroundKeepsBooks(s: State, es: seq<Event>)
    requires Background(es)
    ensures Legal(s, es) && SameBooks(s, After(s, es))
  {
    if es != [] {
      BackgroundKeepsBooks(s, es[..|es| - 1]);
      BackgroundStep(s, After(s, es[..|es| - 1]), es[|es| - 1]);
      hide SameBooks, Step;
    }
  }

  lemma {:induction false} ResolveSucceeds(s: State, bg: seq<Event>)
    requires s.request.Taken? && Knows(s, s.request.dprop, s.request.ip) && Background(bg)
    ensures var t := After(s, bg + [Resolve]);
      && Legal(s, bg + [Resolve])
      && t == After(s, bg).(request := Resolved(s.request.sock, s.request.dprop, s.request.ip))
      && SameBooks(s.(request := t.request), t)
  {
    BackgroundKeepsBooks(s, bg);
    Snoc(s, bg, Resolve);
    hide After, Legal;
  }

  lemma RecordSucceeds(s: State, bg: seq<Event>)
    requires s.request.Resolved? && s.request.dprop in s.pools && Background(bg)
    ensures var k, d, ip := s.request.sock, s.request.dprop, s.request.ip;
      var t := After(s, bg + [Record]);
      && Legal(s, bg + [Record]) && t.request == Idle && k in t.index
      && PoolOf(t, d).held == (if k in PoolOf(s, d).held then PoolOf(s, d).held else PoolOf(s, d).held[k := ip])
  {
    BackgroundKeepsBooks(s, bg);
    Snoc(s, bg, Record);
    hide After, Legal;
  }

  lemma {:induction false} RequestRuns(s: State, bg1: seq<Event>, bg2: seq<Event>)
    requires s.request.Taken? && Knows(s, s.request.dprop, s.request.ip)
    requires Background(bg1) && Background(bg2)
    ensures var k, d, ip := s.request.sock, s.request.dprop, s.request.ip;
      var es := (bg1 + [Resolve]) + (bg2 + [Record]);
      var t := After(s, es);
      && Legal(s, es) && t.request == Idle && k in t.index
      && After(s, bg1 + [Resolve]).request == Resolved(k, d, ip)
      && PoolOf(t, d).held == if k in PoolOf(s, d).held then PoolOf(s, d).held else PoolOf(s, d).held[k := ip]
  {
    ResolveSucceeds(s, bg1);
    RecordSucceeds(After(s, bg1 + [Resolve]), bg2);
    Append(s, bg1 + [Resolve], bg2 + [Record]);
    hide After, Legal;
  }

  /** However the sweeps fall between its three locked sections, a request that has taken a
      cpu finds the host again and, unless its connection already holds one, records it. */
  lemma {:induction false} RequestCompletes(s: State, bg1: seq<Event>, bg2: seq<Event>)
    requires Invariant(s) && s.request.Taken? && Background(bg1) && Background(bg2)
    ensures var k, d, ip := s.request.sock, s.request.dprop, s.request.ip;
      var es := (bg1 + [Resolve]) + (bg2 + [Record]);
      var t := After(s, es);
      && Legal(s, es) && Invariant(t) && t.request == Idle
      && After(s, bg1 + [Resolve]).request == Resolved(k, d, ip)
      && k in t.index
      && PoolOf(t, d).held == if k in PoolOf(s, d).held then PoolOf(s, d).held else PoolOf(s, d).held[k := ip]
  {
    RequestRuns(s, bg1, bg2);
    KeepsInvariant(s, (bg1 + [Resolve]) + (bg2 + [Record]));
  }

  // ----------------------------------------------------------------------------- the sweep

  /** What a sweep did to a host: one not heard from for more than 60 seconds is silent, or still
      unavailable, with nothing free, and any other is as it was; a cpu still on offer is of a
      host heard from in time. */
  ghost predicate Silenced(s: State, t: State, clock: Clock, d: Dprop, ip: Ip)
    requires Knows(s, d, ip)
  {
    var h, p, q := PoolOf(s, d).hosts[ip], PoolOf(s, d), PoolOf(t, d);
    && ip in q.hosts && q.held == p.held && q.hosts.Keys == p.hosts.Keys
    && (if clock(d, ip) - h.lastUpdate > 60
        then q.hosts[ip] == h.(state := if h.state == Unavailable then Unavailable else HostState.Silent)
             && q.free[ip] == 0
        else q.hosts[ip] == h && q.free[ip] == p.free[ip])
    && (ip in q.free ==> clock(d, ip) - q.hosts[ip].lastUpdate <= 60)
  }

  lemma SweepOne(p: Pool, d: Dprop, clock: Clock, ip: Ip)
    requires PoolOk(p, d) && ip in p.hosts
    ensures var h, q := p.hosts[ip], Sweep(p, clock);
      && q.held == p.held && q.hosts.Keys == p.hosts.Keys
      && q.hosts[ip] == (if Swept(h, clock) then h.(state := HostState.Silent) else h)
      && q.free[ip] == (if h.SeemsDown(clock(d, ip)) then 0 else p.free[ip])
      && (Swept(h, clock) <==> h.SeemsDown(clock(d, ip)) && (h.state == Available || h.state == Overloaded))
  {
    hide CalcTier;
  }

  lemma SweepSilences(s: State, clock: Clock, d: Dprop, ip: Ip)
    requires Invariant(s) && Knows(s, d, ip)
    ensures Silenced(s, Step(s, Tick(clock)), clock, d, ip)
  {
    SweepOne(PoolOf(s, d), d, clock, ip);
    BackgroundOnPool(s, Tick(clock), d);
    hide Step, CalcTier, Sweep, Swept, PoolOf, Invariant;
  }

  // ----------------------------------------------------------------------------- isolation

  /** The dprop a step is addressed to, if it is addressed to one. */
  function Addressee(s: State, e: Event): Option<Dprop> {
    match e
    case Load(_, d, _, _, _, _) => Some(d)
    case Status(_, d, _, _, _) => Some(d)
    case Grab(_, d, _) => Some(d)
    case Record => if s.request.Idle? then None else Some(s.request.dprop)
    case Close(k) => if k in s.index then Some(s.index[k]) else None
    case _ => None
  }

  /** A step addressed to one dprop leaves all others as they were. */
  lemma Isolation(s: State, e: Event, d: Dprop)
    requires Invariant(s) && Enabled(s, e) && !e.Tick? && !e.Collect?
    requires Addressee(s, e) != Some(d)
    ensures PoolOf(Step(s, e), d) == PoolOf(s, d)
    ensures d in Step(s, e).pools <==> d in s.pools
  {
    hide CalcTier, PoolOk;
  }

  // -------------------------------------------------------------------------- coming home

  /** The j-th event closes connection `k` while it is indexed under `d`. */
  ghost predicate GivesBack(es: seq<Event>, j: nat, k: Socket, d: Dprop)
    requires j < |es|
  {
    var s := After(INIT, es[..j]);
    es[j] == Close(k) && k in s.index && s.index[k] == d
  }

  /** `k` took the cpu in the i-th event, from the pool of `d`, and has not given it back. */
  ghost predicate TakenAt(es: seq<Event>, i: nat, k: Socket, d: Dprop, ip: Ip) {
    i < |es| && es[i] == Grab(k, d, ip) && forall j :: i < j < |es| ==> !GivesBack(es, j, k, d)
  }

  /** Every cpu that is held, or on its way, can be traced to the event that took it. */
  ghost predicate Traced(es: seq<Event>, s: State) {
    && (forall d, k :: d in s.pools && k in s.pools[d].held ==> exists i :: TakenAt(es, i, k, d, s.pools[d].held[k]))
    && (!s.request.Idle? ==> exists i :: TakenAt(es, i, s.request.sock, s.request.dprop, s.request.ip))
  }

  lemma StillTaken(init: seq<Event>, e: Event, i: nat, k: Socket, d: Dprop, ip: Ip)
    requires TakenAt(init, i, k, d, ip)
    requires e == Close(k) ==> k !in After(INIT, init).index || After(INIT, init).index[k] != d
    ensures TakenAt(init + [e], i, k, d, ip)
  {
    hide After;
    var es := init + [e];
    assert es[..|init|] == init;
    forall j | i < j < |es| ensures !GivesBack(es, j, k, d) {
      if j < |init| {
        assert es[..j] == init[..j];
        assert !GivesBack(init, j, k, d);
      }
    }
  }

  /** Who holds a cpu after a step held it before, and has not just closed, or is the client
      whose request is being recorded. */
  lemma HeldBefore(s: State, e: Event, d: Dprop, k: Socket)
    requires Invariant(s) && Enabled(s, e) && k in PoolOf(Step(s, e), d).held
    ensures var p, q := PoolOf(s, d), PoolOf(Step(s, e), d);
      || (k in p.held && q.held[k] == p.held[k] && !(e == Close(k) && k in s.index && s.index[k] == d))
      || (e.Record? && s.request == Resolved(k, d, q.held[k]))
  {
    StepOnPool(s, e, d);
    BooksStep(s, e, d);
    hide Step, PoolStep, PoolOf, Invariant;
  }

  lemma RequestBefore(s: State, e: Event)
    requires Invariant(s) && Enabled(s, e) && !Step(s, e).request.Idle?
    ensures var r, r' := s.request, Step(s, e).request;
      || e == Grab(r'.sock, r'.dprop, r'.ip)
      || (!e.Close? && !r.Idle? && r.sock == r'.sock && r.dprop == r'.dprop && r.ip == r'.ip)
  {
    hide PoolOk, Best;
  }

  lemma JustTaken(init: seq<Event>, k: Socket, d: Dprop, ip: Ip)
    ensures TakenAt(init + [Grab(k, d, ip)], |init|, k, d, ip)
  {
  }

  lemma TracedStep(init: seq<Event>, e: Event)
    requires Legal(INIT, init) && Enabled(After(INIT, init), e) && Traced(init, After(INIT, init))
    ensures Traced(init + [e], Step(After(INIT, init), e))
  {
    var s, es := After(INIT, init), init + [e];
    var t := Step(s, e);
    Reachable(init);
    hide After, Legal, Step, Invariant, Enabled, TakenAt, InService;
    forall d, k | d in t.pools && k in t.pools[d].held ensures exists i :: TakenAt(es, i, k, d, t.pools[d].held[k]) {
      HeldBefore(s, e, d, k);
      var ip := t.pools[d].held[k];
      var i :| TakenAt(init, i, k, d, ip);
      StillTaken(init, e, i, k, d, ip);
    }
    if !t.request.Idle? {
      RequestBefore(s, e);
      var k, d, ip := t.request.sock, t.request.dprop, t.request.ip;
      if e == Grab(k, d, ip) {
        JustTaken(init, k, d, ip);
      } else {
        var i :| TakenAt(init, i, k, d, ip);
        StillTaken(init, e, i, k, d, ip);
      }
    }
  }

  lemma {:induction false} AlwaysTraced(es: seq<Event>)
    requires Legal(INIT, es)
    ensures Traced(es, After(INIT, es))
  {
    if es != [] {
      hide Step, Enabled, Traced;
      var init, e := es[..|es| - 1], es[|es| - 1];
      assert es == init + [e];
      AlwaysTraced(init);
      TracedStep(init, e);
    }
  }

  /** From `s` to `t` connection `k` gives back the cpu it holds, and nothing else changes: the
      cpu is free again in its dprop if its host is in service, and gone otherwise. */
  ghost predicate Returned(s: State, t: State, k: Socket)
    requires k in s.index
  {
    var d := s.index[k];
    var p, q := PoolOf(s, d), PoolOf(t, d);
    && k in p.held && q == p.(held := q.held, free := q.free)
    && q.held == p.held - {k}
    && q.free == (if InService(p, p.held[k]) then p.free + multiset{p.held[k]} else p.free)
    && (forall c :: c != d ==> PoolOf(t, c) == PoolOf(s, c))
  }

  lemma CloseReturns(s: State, k: Socket)
    requires Invariant(s) && Enabled(s, Close(k))
    ensures if k in s.index then Returned(s, Step(s, Close(k)), k) else Step(s, Close(k)).pools == s.pools
  {
    hide PoolOk;
  }

  /** A connection that closes gives back exactly the cpu that it took from the same dprop at
      some earlier point of the run and has not given back since. */
  lemma {:induction false} ComesHome(es: seq<Event>, k: Socket)
    requires Legal(INIT, es + [Close(k)]) && k in After(INIT, es).index
    ensures Returned(After(INIT, es), After(INIT, es + [Close(k)]), k)
    ensures var s := After(INIT, es);
      exists i :: TakenAt(es, i, k, s.index[k], PoolOf(s, s.index[k]).held[k])
  {
    Snoc(INIT, es, Close(k));
    AlwaysTraced(es);
    Reachable(es);
    CloseReturns(After(INIT, es), k);
    hide After, Legal, Step, TakenAt, InService;
  }

  // ------------------------------------------------------------------- administrative down

  predicate IsDown(s: State, d: Dprop, ip: Ip) {
    Knows(s, d, ip) && PoolOf(s, d).hosts[ip].state == Unavailable
  }

  predicate TellsUp(e: Event, d: Dprop, ip: Ip) {
    e.Status? && e.up && e.dprop == d && e.ip == ip
  }

  lemma DownTakesEffect(s: State, k: Socket, d: Dprop, ip: Ip, info: Option<HostInfo>)
    requires Knows(s, d, ip)
    ensures IsDown(Step(s, Status(k, d, ip, false, info)), d, ip)
  {
  }

  lemma DownPool(p: Pool, ip: Ip, x: Ip, raw: Loads, now: int, clock: Clock)
    requires ip in p.hosts && p.hosts[ip].state == Unavailable && x in p.hosts
    ensures ip in HearLoad(p, x, raw, now).hosts && HearLoad(p, x, raw, now).hosts[ip].state == Unavailable
    ensures ip in Sweep(p, clock).hosts && Sweep(p, clock).hosts[ip].state == Unavailable
    ensures ip in Pools.Down(p, x).hosts && Pools.Down(p, x).hosts[ip].state == Unavailable
    ensures ip in Pools.Up(p, x).hosts
    ensures Pools.Up(p, x).hosts[ip].state == Unavailable <==> x != ip
  {
    hide CalcTier;
  }

  lemma StaysDownHere(s: State, e: Event, d: Dprop, ip: Ip)
    requires Invariant(s) && Enabled(s, e) && IsDown(s, d, ip)
    requires Addressee(s, e) == Some(d)
    ensures IsDown(Step(s, e), d, ip) <==> !TellsUp(e, d, ip)
  {
    hide PoolOk, HearLoad, Sweep, Pools.Up, Pools.Down, CalcTier, Best, InService;
    var p := PoolOf(s, d);
    match e {
      case Load(_, _, x, raw, now, _) =>
        if x in p.hosts { DownPool(p, ip, x, raw, now, (_, _) => now); }
      case Status(_, _, x, _, _) =>
        if x in p.hosts { DownPool(p, ip, x, NO_LOAD, 0, (_, _) => 0); }
      case Grab(_, _, _) =>
      case Record =>
      case Close(_) =>
    }
  }

  /** Only an "up" message for that very host ends its being down. */
  lemma {:induction false} StaysDown(s: State, e: Event, d: Dprop, ip: Ip)
    requires Invariant(s) && Enabled(s, e) && IsDown(s, d, ip)
    ensures IsDown(Step(s, e), d, ip) <==> !TellsUp(e, d, ip)
    ensures !(e.Grab? && e.dprop == d && e.ip == ip)
  {
    FreeIsInService(s, d);
    if e.Tick? {
      DownPool(PoolOf(s, d), ip, ip, NO_LOAD, 0, e.clock);
      hide Invariant, Sweep;
    } else if e.Collect? {
      assert PoolOf(Step(s, e), d) == Restart(PoolOf(s, d));
      hide Invariant;
    } else if Addressee(s, e) == Some(d) {
      StaysDownHere(s, e, d, ip);
      hide Invariant, Step;
    } else {
      Isolation(s, e, d);
      hide Invariant, Step;
    }
  }

  lemma {:induction false} DownIsSticky(s: State, es: seq<Event>, d: Dprop, ip: Ip)
    requires Invariant(s) && Legal(s, es) && IsDown(s, d, ip)
    requires forall i :: 0 <= i < |es| ==> !TellsUp(es[i], d, ip)
    ensures Invariant(After(s, es)) && IsDown(After(s, es), d, ip)
    ensures forall i :: 0 <= i < |es| ==> !(es[i].Grab? && es[i].dprop == d && es[i].ip == ip)
  {
    if es != [] {
      hide Invariant, Step, Enabled, IsDown;
      var init, e := es[..|es| - 1], es[|es| - 1];
      DownIsSticky(s, init, d, ip);
      StepKeepsInvariant(After(s, init), e);
      StaysDown(After(s, init), e, d, ip);
      assert forall i :: 0 <= i < |es| ==> es[i] == if i < |init| then init[i] else e;
    }
  }
}
