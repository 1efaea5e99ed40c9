/**
 What the messages about a host come to, in the numbers and words of the messages themselves:
 raw load averages, seconds, cpus.
 */
module HostLaws {
  import opened Types
  import opened Pools
  import opened Protocol
  import Guarantees

  lemma DivLess(x: real, n: real, c: real)
    requires n > 0.0
    ensures x / n < c <==> x < c * n
  {
    var y := x / n;
    assert y * n == x;
    if y < c {
      assert (c - y) * n > 0.0;
    } else {
      assert (y - c) * n >= 0.0;
    }
  }

  /** The tier that a load message puts a host in, in the numbers of the message. */
  lemma TierOfRaw(h: HostRec, raw: Loads, now: int)
    ensures var n := h.ncpus as real;
      h.Hearing(raw, now).Tier() ==
        if raw.avg1 < 0.9 * n || raw.avg5 < 0.7 * n then h.pindex
        else if raw.avg10 < 0.8 * n then h.pindex - 1
        else 0
  {
    var n := h.ncpus as real;
    DivLess(raw.avg1, n, 0.9);
    DivLess(raw.avg5, n, 0.7);
    DivLess(raw.avg10, n, 0.8);
  }

  // ---------------------------------------------------------------------- one message, one host

  /** Only this host's record and its free cpus are touched. */
  ghost predicate OnlyHost(p: Pool, q: Pool, ip: Ip) {
    ip in q.hosts && q == p.(hosts := p.hosts[ip := q.hosts[ip]], free := p.free[ip := q.free[ip]])
  }

  lemma HeardPool(p: Pool, d: Dprop, ip: Ip, raw: Loads, now: int)
    requires PoolOk(p, d) && ip in p.hosts
    ensures var h, q := p.hosts[ip], HearLoad(p, ip, raw, now);
      var tier := h.Hearing(raw, now).Tier();
      && OnlyHost(p, q, ip)
      && q.hosts[ip] == h.Hearing(raw, now).(state := q.hosts[ip].state)
      && (match h.state
          case Available =>
            if tier == 0 && h.Tier() != 0 then q.hosts[ip].state == Overloaded && q.free[ip] == 0
            else q.hosts[ip].state == Available && q.free[ip] == p.free[ip]
          case Silent => q.hosts[ip].state == Available && q.free[ip] == h.ncpus
          case Overloaded =>
            if tier != 0 then q.hosts[ip].state == Available && q.free[ip] == h.ncpus
            else q.hosts[ip].state == Overloaded && q.free[ip] == 0
          case Unavailable => q.hosts[ip].state == Unavailable && q.free[ip] == 0)
  {
    hide CalcTier, PerCpu;
  }

  /** A load message for a known host: its new tier, by the raw averages and its number of
      cpus; its new state and its free cpus; and the time at which it was heard. */
  lemma LoadLaw(s: State, k: Socket, d: Dprop, ip: Ip, raw: Loads, now: int, info: Option<HostInfo>)
    requires Invariant(s) && Knows(s, d, ip)
    ensures var p, q := PoolOf(s, d), PoolOf(Step(s, Load(k, d, ip, raw, now, info)), d);
      var h, n := p.hosts[ip], p.hosts[ip].ncpus as real;
      var tier := if raw.avg1 < 0.9 * n || raw.avg5 < 0.7 * n then h.pindex
                  else if raw.avg10 < 0.8 * n then h.pindex - 1
                  else 0;
      && OnlyHost(p, q, ip)
      && q.hosts[ip].Tier() == tier && q.hosts[ip].lastUpdate == now
      && q.hosts[ip] == h.(loads := q.hosts[ip].loads, lastUpdate := now, state := q.hosts[ip].state)
      && (match h.state
          case Available =>
            if tier == 0 && h.Tier() != 0 then q.hosts[ip].state == Overloaded && q.free[ip] == 0
            else q.hosts[ip].state == Available && q.free[ip] == p.free[ip]
          case Silent => q.hosts[ip].state == Available && q.free[ip] == h.ncpus
          case Overloaded =>
            if tier != 0 then q.hosts[ip].state == Available && q.free[ip] == h.ncpus
            else q.hosts[ip].state == Overloaded && q.free[ip] == 0
          case Unavailable => q.hosts[ip].state == Unavailable && q.free[ip] == 0)
  {
    var p, e := PoolOf(s, d), Load(k, d, ip, raw, now, info);
    HeardPool(p, d, ip, raw, now);
    MessageOnPool(s, e, d);
    TierOfRaw(p.hosts[ip], raw, now);
    hide Step, CalcTier, PerCpu, HearLoad, OnlyHost, PoolOf, Invariant;
  }

  /** "up" for a known host: one in service stays as it is; one that an administrator had taken
      down while it was at tier 0 is overloaded, with nothing on offer; any other enters service
      with all its cpus. */
  lemma UpLaw(s: State, k: Socket, d: Dprop, ip: Ip, info: Option<HostInfo>)
    requires Invariant(s) && Knows(s, d, ip)
    ensures var p, q := PoolOf(s, d), PoolOf(Step(s, Status(k, d, ip, true, info)), d);
      var h := p.hosts[ip];
      && OnlyHost(p, q, ip)
      && q.hosts[ip] == h.(state := q.hosts[ip].state)
      && (InService(q, ip) <==> !(h.state == Unavailable && h.Tier() == 0))
      && (h.state == Unavailable && h.Tier() == 0 ==> q.hosts[ip].state == Overloaded && q.free[ip] == 0)
      && (InService(p, ip) ==> q == p)
      && (!InService(p, ip) && InService(q, ip) ==> q.free[ip] == h.ncpus)
  {
    MessageOnPool(s, Status(k, d, ip, true, info), d);
    hide Step, CalcTier;
  }

  /** "down" for a known host. */
  lemma DownLaw(s: State, k: Socket, d: Dprop, ip: Ip, info: Option<HostInfo>)
    requires Invariant(s) && Knows(s, d, ip)
    ensures var p, q := PoolOf(s, d), PoolOf(Step(s, Status(k, d, ip, false, info)), d);
      && OnlyHost(p, q, ip)
      && q.hosts[ip] == p.hosts[ip].(state := Unavailable) && q.free[ip] == 0
  {
    MessageOnPool(s, Status(k, d, ip, false, info), d);
    hide Step, CalcTier;
  }

  /** The first message about a host, a load message or "up": if the hosts-info file knows it, it
      is in service with its cpus at its power index, and as if never heard from, whatever
      the message said; otherwise nothing happens. */
  lemma FirstMessageLaw(s: State, e: Event, d: Dprop, ip: Ip)
    requires Invariant(s) && !Knows(s, d, ip)
    requires (e.Load? && e.dprop == d && e.ip == ip) || (e.Status? && e.up && e.dprop == d && e.ip == ip)
    ensures var p, q := PoolOf(s, d), PoolOf(Step(s, e), d);
      match e.info
      case None => q == p
      case Some(i) =>
        && OnlyHost(p, q, ip) && InService(q, ip) && q.free[ip] == i.ncpus
        && q.hosts[ip].Tier() == i.pindex && q.hosts[ip].pindex == i.pindex
        && q.hosts[ip].ncpus == i.ncpus && q.hosts[ip].lastUpdate == 0
  {
    MessageOnPool(s, e, d);
    hide Step;
  }

  // ----------------------------------------------------------------------------- over a run

  /** The last load message about a host that was known when it came. */
  datatype Heard = Never | Heard(raw: Loads, now: int)

  ghost function LastHeard(es: seq<Event>, d: Dprop, ip: Ip): Heard {
    if es == [] then Never
    else
      var init, e := es[..|es| - 1], es[|es| - 1];
      if e.Load? && e.dprop == d && e.ip == ip && Knows(After(INIT, init), d, ip) then Heard(e.raw, e.now)
      else LastHeard(init, d, ip)
  }

  function TimeOf(heard: Heard): int {
    if heard.Heard? then heard.now else 0
  }

  /** What the hosts-info file said when the host was first heard of. */
  ghost function Enrolment(es: seq<Event>, d: Dprop, ip: Ip): Option<HostInfo> {
    if es == [] then None
    else
      var e, before := es[|es| - 1], Enrolment(es[..|es| - 1], d, ip);
      if before == None && Introduces(e, d, ip) then e.info else before
  }

  predicate Introduces(e: Event, d: Dprop, ip: Ip) {
    (e.Load? || (e.Status? && e.up)) && e.dprop == d && e.ip == ip
  }

  /** A host record says what the run said: its cpus and power index are those of its enrolment,
      its time is that of the last load message, and its tier follows from that message. */
  ghost predicate AsHeard(h: HostRec, info: HostInfo, heard: Heard) {
    && h.ncpus == info.ncpus && h.pindex == info.pindex
    && h.lastUpdate == (if heard.Heard? then heard.now else 0)
    && var n := info.ncpus as real;
       h.Tier() ==
         if heard == Never || heard.raw.avg1 < 0.9 * n || heard.raw.avg5 < 0.7 * n then info.pindex
         else if heard.raw.avg10 < 0.8 * n then info.pindex - 1
         else 0
  }

  lemma UpDownPool(p: Pool, d: Dprop, ip: Ip)
    requires PoolOk(p, d) && ip in p.hosts
    ensures OnlyHost(p, Pools.Up(p, ip), ip)
    ensures Pools.Up(p, ip).hosts[ip] == p.hosts[ip].(state := Pools.Up(p, ip).hosts[ip].state)
    ensures OnlyHost(p, Pools.Down(p, ip), ip)
    ensures Pools.Down(p, ip).hosts[ip] == p.hosts[ip].(state := Unavailable)
  {
    hide CalcTier;
  }

  /** At most the state of the host changed. */
  predicate SameButState(p: Pool, q: Pool, ip: Ip)
    requires ip in p.hosts
  {
    ip in q.hosts && q.hosts[ip] == p.hosts[ip].(state := q.hosts[ip].state)
  }

  lemma OtherHost(p: Pool, q: Pool, x: Ip, ip: Ip)
    requires OnlyHost(p, q, x) && ip in p.hosts && x != ip
    ensures SameButState(p, q, ip)
  {
  }

  lemma MessageKeepsRecord(s: State, e: Event, d: Dprop, ip: Ip)
    requires Invariant(s) && Knows(s, d, ip)
    requires e.Status? || (e.Load? && !(e.dprop == d && e.ip == ip))
    ensures SameButState(PoolOf(s, d), PoolStep(s, e, d), ip)
  {
    var p := PoolOf(s, d);
    EmptyOk(d);
    assert PoolOk(p, d);
    hide HearLoad, Pools.Up, Pools.Down, NewHost, CalcTier, PoolOk, PoolOf, OnlyHost, SameButState;
    assert SameButState(p, p, ip) by { NoChange(p, ip); }
    if e.dprop != d {
    } else if e.ip !in p.hosts {
      if e.info.Some? {
        EnrolOther(p, e.ip, NewHost(e.ip, d, e.info.value), ip);
      }
    } else if e.Load? {
      HeardPool(p, d, e.ip, e.raw, e.now);
      OtherHost(p, HearLoad(p, e.ip, e.raw, e.now), e.ip, ip);
    } else {
      StatusRecord(p, d, e.ip, ip);
    }
  }

  lemma NoChange(p: Pool, ip: Ip)
    requires ip in p.hosts
    ensures SameButState(p, p, ip)
  {
  }

  lemma EnrolOther(p: Pool, x: Ip, h: HostRec, ip: Ip)
    requires ip in p.hosts && x != ip
    ensures SameButState(p, Enrol(p, x, h), ip)
  {
  }

  lemma StatusRecord(p: Pool, d: Dprop, x: Ip, ip: Ip)
    requires PoolOk(p, d) && x in p.hosts && ip in p.hosts
    ensures SameButState(p, Pools.Up(p, x), ip) && SameButState(p, Pools.Down(p, x), ip)
  {
    UpDownPool(p, d, x);
    hide Pools.Up, Pools.Down;
  }

  /** Nothing but its own load messages changes what a host record says. */
  lemma SameRecord(s: State, e: Event, d: Dprop, ip: Ip)
    requires Invariant(s) && Enabled(s, e) && Knows(s, d, ip)
    requires !(e.Load? && e.dprop == d && e.ip == ip)
    ensures SameButState(PoolOf(s, d), PoolOf(Step(s, e), d), ip)
  {
    StepOnPool(s, e, d);
    if e.Load? || e.Status? {
      MessageKeepsRecord(s, e, d, ip);
      hide Step, PoolStep, PoolOf, Invariant, Enabled;
    } else {
      EmptyOk(d);
      assert PoolOk(PoolOf(s, d), d);
      hide Step, Sweep, Invariant, Enabled, PoolOf, PoolOk;
      if e.Tick? {
        Guarantees.SweepOne(PoolOf(s, d), d, e.clock, ip);
      }
    }
  }

  lemma OnlyIntroduced(s: State, e: Event, d: Dprop, ip: Ip)
    requires Invariant(s) && Enabled(s, e) && !Knows(s, d, ip) && !Introduces(e, d, ip)
    ensures !Knows(Step(s, e), d, ip)
  {
    StepOnPool(s, e, d);
    hide Step, CalcTier, PerCpu, Invariant, Enabled, SweptSet, Except;
  }

  ghost predicate Recorded(s: State, d: Dprop, ip: Ip, info: Option<HostInfo>, heard: Heard) {
    && (Knows(s, d, ip) <==> info.Some?)
    && (info.None? ==> heard == Never)
    && (Knows(s, d, ip) ==> AsHeard(PoolOf(s, d).hosts[ip], info.value, heard))
  }

  lemma StaysRecorded(s: State, e: Event, d: Dprop, ip: Ip, info: Option<HostInfo>, heard: Heard)
    requires Invariant(s) && Enabled(s, e) && Recorded(s, d, ip, info, heard)
    ensures Recorded(Step(s, e), d, ip,
      if info == None && Introduces(e, d, ip) then e.info else info,
      if e.Load? && e.dprop == d && e.ip == ip && Knows(s, d, ip) then Heard(e.raw, e.now) else heard)
  {
    if !Knows(s, d, ip) {
      NewlyRecorded(s, e, d, ip);
    } else if e.Load? && e.dprop == d && e.ip == ip {
      Reheard(s, e, d, ip, info.value, heard);
    } else {
      SameRecord(s, e, d, ip);
    }
    hide Step, Invariant, Enabled, CalcTier, PoolOf;
  }

  lemma NewlyRecorded(s: State, e: Event, d: Dprop, ip: Ip)
    requires Invariant(s) && Enabled(s, e) && !Knows(s, d, ip)
    ensures Recorded(Step(s, e), d, ip, if Introduces(e, d, ip) then e.info else None, Never)
  {
    if Introduces(e, d, ip) {
      FirstMessageLaw(s, e, d, ip);
    } else {
      OnlyIntroduced(s, e, d, ip);
    }
    hide Step, Invariant, Enabled, CalcTier, PoolOf;
  }

  lemma Reheard(s: State, e: Event, d: Dprop, ip: Ip, info: HostInfo, heard: Heard)
    requires Invariant(s) && e.Load? && e.dprop == d && e.ip == ip && Knows(s, d, ip)
    requires AsHeard(PoolOf(s, d).hosts[ip], info, heard)
    ensures Knows(Step(s, e), d, ip) && AsHeard(PoolOf(Step(s, e), d).hosts[ip], info, Heard(e.raw, e.now))
  {
    LoadLaw(s, e.sock, d, ip, e.raw, e.now, e.info);
    hide Step, Invariant, CalcTier, PoolOf;
  }

  /** Over any run: a host is known exactly if it was introduced by a message while the
      hosts-info file knew it, and its record then is as the run said. */
  lemma {:induction false} AlwaysRecorded(es: seq<Event>, d: Dprop, ip: Ip)
    requires Legal(INIT, es)
    ensures Recorded(After(INIT, es), d, ip, Enrolment(es, d, ip), LastHeard(es, d, ip))
  {
    if es != [] {
      hide Step, Invariant, Enabled, Recorded, Introduces;
      var init, e := es[..|es| - 1], es[|es| - 1];
      AlwaysRecorded(init, d, ip);
      Reachable(init);
      StaysRecorded(After(INIT, init), e, d, ip, Enrolment(init, d, ip), LastHeard(init, d, ip));
      assert Knows(After(INIT, init), d, ip) <==> Enrolment(init, d, ip).Some? by {
        assert Recorded(After(INIT, init), d, ip, Enrolment(init, d, ip), LastHeard(init, d, ip));
      }
    }
  }

  /** A sweep at any point of a run: a host whose last load message is more than 60 seconds old,
      or that has sent none and the clock is past 60, is silent, or still unavailable, with
      nothing on offer; any other is as it was. */
  lemma {:induction false} SweepOnTime(es: seq<Event>, clock: Clock, d: Dprop, ip: Ip)
    requires Legal(INIT, es) && Knows(After(INIT, es), d, ip)
    ensures var p, q := PoolOf(After(INIT, es), d), PoolOf(Step(After(INIT, es), Tick(clock)), d);
      var h := p.hosts[ip];
      && ip in q.hosts
      && if clock(d, ip) - (if LastHeard(es, d, ip).Heard? then LastHeard(es, d, ip).now else 0) > 60 then
           && q.hosts[ip] == h.(state := if h.state == Unavailable then Unavailable else HostState.Silent)
           && q.free[ip] == 0
         else q.hosts[ip] == h && q.free[ip] == p.free[ip]
  {
    AlwaysRecorded(es, d, ip);
    Reachable(es);
    Guarantees.SweepSilences(After(INIT, es), clock, d, ip);
    hide After, Legal, Step, Invariant, PoolOf, CalcTier;
  }
}
