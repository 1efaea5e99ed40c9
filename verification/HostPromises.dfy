/**
 What the messages about a host do, in terms of the inputs: the raw numbers that were sent, and
 the clock of the server when they came.
 */
module HostPromises {
  import opened Types
  import opened Protocol
  import opened Behaviour
  import opened Promises
  import Guarantees
  import HostLaws
  import PoolReports
  import Pools
  import Reports
  import Requests
  import Sums

  /** The load message that an input carries, if it carries one that can be read. */
  function LoadOf(input: Input): Option<LoadMsg> {
    if input.Data? && input.text.Some? && Requests.Meaning(input.text.value).Load?
    then input.env.loads(Requests.Meaning(input.text.value).text) else None
  }

  predicate SendsLoad(input: Input, d: Dprop, ip: Ip) {
    LoadOf(input).Some? && LoadOf(input).value.dprop == d && LoadOf(input).value.ip == ip
  }

  /** When the host was last heard from before the i-th input: the server's clock at its last load
      message that came while it was known, on a watched connection; 0 if there was none. */
  ghost function HeardAt(inputs: seq<Input>, ess: seq<seq<Event>>, i: nat, d: Dprop, ip: Ip): int
    requires i <= |inputs| == |ess|
  {
    if i == 0 then 0
    else
      var input, s := inputs[i - 1], Before(ess, i - 1);
      if SendsLoad(input, d, ip) && input.sock in s.fds && Knows(s, d, ip) then input.env.now
      else HeardAt(inputs, ess, i - 1, d, ip)
  }

  // ---------------------------------------------------------------------- inputs and events

  predicate IsLoad(e: Event, d: Dprop, ip: Ip) {
    e.Load? && e.dprop == d && e.ip == ip
  }

  lemma LoadStep(s: State, input: Input, es: seq<Event>, outs: seq<Output>, d: Dprop, ip: Ip)
    requires Handles(s, input, es, outs) && SendsLoad(input, d, ip) && input.sock in s.fds
    ensures es == [Load(input.sock, d, ip, LoadOf(input).value.raw, input.env.now, input.env.info(ip))]
  {
    hide Requests.Meaning, FiguresOf;
  }

  lemma LoadWasSent(s: State, input: Input, es: seq<Event>, outs: seq<Output>, e: Event, d: Dprop, ip: Ip)
    requires Handles(s, input, es, outs) && e in es && IsLoad(e, d, ip)
    ensures SendsLoad(input, d, ip) && input.sock in s.fds
  {
    hide Requests.Meaning, FiguresOf, Reports.Render, PoolReports.ServerReport, Sums.SumOf, Pools.Best;
    if input.Data? && input.text.Some? && Requests.Meaning(input.text.value).Host? {
      if e in Interruptions(input.env.early) {
        InterruptionIsBackground(input.env.early, e);
      }
      if e in Interruptions(input.env.late) {
        InterruptionIsBackground(input.env.late, e);
      }
    }
  }

  lemma {:induction false} NoLoads(es: seq<Event>, fs: seq<Event>, d: Dprop, ip: Ip)
    requires forall e :: e in fs ==> !IsLoad(e, d, ip)
    ensures HostLaws.LastHeard(es + fs, d, ip) == HostLaws.LastHeard(es, d, ip)
  {
    hide After;
    if fs == [] {
      assert es + fs == es;
    } else {
      var init, e := fs[..|fs| - 1], fs[|fs| - 1];
      NoLoads(es, init, d, ip);
      assert (es + fs)[..|es + fs| - 1] == es + init;
      assert !IsLoad(e, d, ip);
    }
  }

  lemma HeardStep(before: seq<Event>, input: Input, es: seq<Event>, outs: seq<Output>, d: Dprop, ip: Ip)
    requires Handles(After(INIT, before), input, es, outs)
    ensures var s := After(INIT, before);
      HostLaws.TimeOf(HostLaws.LastHeard(before + es, d, ip)) ==
        if SendsLoad(input, d, ip) && input.sock in s.fds && Knows(s, d, ip) then input.env.now
        else HostLaws.TimeOf(HostLaws.LastHeard(before, d, ip))
  {
    var s := After(INIT, before);
    hide Handles, After;
    if SendsLoad(input, d, ip) && input.sock in s.fds {
      LoadStep(s, input, es, outs, d, ip);
      assert (before + es)[..|before + es| - 1] == before;
      hide SendsLoad, LoadOf;
    } else {
      forall e | e in es ensures !IsLoad(e, d, ip) {
        if IsLoad(e, d, ip) {
          LoadWasSent(s, input, es, outs, e, d, ip);
        }
      }
      hide SendsLoad, LoadOf, IsLoad;
      NoLoads(before, es, d, ip);
    }
  }

  lemma {:induction false} HeardAtIs(
    inputs: seq<Input>, ess: seq<seq<Event>>, outs: seq<seq<Output>>, i: nat, d: Dprop, ip: Ip)
    requires Behaves(inputs, ess, outs) && i <= |inputs|
    ensures HeardAt(inputs, ess, i, d, ip) == HostLaws.TimeOf(HostLaws.LastHeard(Flat(ess[..i]), d, ip))
  {
    if i == 0 {
      assert ess[..0] == [] && Flat([]) == [];
    } else {
      assert HeardAt(inputs, ess, i, d, ip) ==
        var input, s := inputs[i - 1], Before(ess, i - 1);
        if SendsLoad(input, d, ip) && input.sock in s.fds && Knows(s, d, ip) then input.env.now
        else HeardAt(inputs, ess, i - 1, d, ip);
      assert Before(ess, i - 1) == After(INIT, Flat(ess[..i - 1]));
      hide *;
      HeardAtIs(inputs, ess, outs, i - 1, d, ip);
      Handled(inputs, ess, outs, i - 1);
      HeardStep(Flat(ess[..i - 1]), inputs[i - 1], ess[i - 1], outs[i - 1], d, ip);
    }
  }

  // ------------------------------------------------------------------------------ the promises

  /** The silent-host thread: a known host whose last load message is more than 60 seconds old is
      silent afterwards, or still unavailable, with nothing on offer; any other is untouched. */
  lemma {:induction false} SilentOnTime(
    inputs: seq<Input>, ess: seq<seq<Event>>, outs: seq<seq<Output>>, i: nat, clock: Clock, d: Dprop, ip: Ip)
    requires Behaves(inputs, ess, outs) && i < |inputs| && inputs[i] == SilentSearch(clock)
    requires Knows(Before(ess, i), d, ip)
    ensures var p, q := PoolOf(Before(ess, i), d), PoolOf(Before(ess, i + 1), d);
      var h := p.hosts[ip];
      && ip in q.hosts
      && if clock(d, ip) - HeardAt(inputs, ess, i, d, ip) > 60 then
           && q.hosts[ip] == h.(state := if h.state == Unavailable then Unavailable else HostState.Silent)
           && q.free[ip] == 0
         else q.hosts[ip] == h && q.free[ip] == p.free[ip]
  {
    assert Handles(Before(ess, i), inputs[i], ess[i], outs[i]);
    OneStep(inputs, ess, outs, i, Tick(clock));
    BehavesLegally(inputs, ess, outs, i);
    HeardAtIs(inputs, ess, outs, i, d, ip);
    HostLaws.SweepOnTime(Flat(ess[..i]), clock, d, ip);
    hide After, Legal, Step, Handles, HeardAt, PoolOf, HostLaws.LastHeard, Flat, Behaves;
  }

  /** A load message on a watched connection: the host's tier is then that of the raw averages in
      the message, for its number of cpus and its power index; a silent host, and an overloaded
      one that has left tier 0, enters service with all its cpus; an available one that reaches
      tier 0 leaves it. */
  lemma {:induction false} LoadTakesEffect(
    inputs: seq<Input>, ess: seq<seq<Event>>, outs: seq<seq<Output>>, i: nat, d: Dprop, ip: Ip)
    requires Behaves(inputs, ess, outs) && i < |inputs| && SendsLoad(inputs[i], d, ip)
    requires inputs[i].sock in Before(ess, i).fds && Knows(Before(ess, i), d, ip)
    ensures var p, q := PoolOf(Before(ess, i), d), PoolOf(Before(ess, i + 1), d);
      var h, raw, n := p.hosts[ip], LoadOf(inputs[i]).value.raw, p.hosts[ip].ncpus as real;
      var tier := if raw.avg1 < 0.9 * n || raw.avg5 < 0.7 * n then h.pindex
                  else if raw.avg10 < 0.8 * n then h.pindex - 1
                  else 0;
      && HostLaws.OnlyHost(p, q, ip)
      && q.hosts[ip].Tier() == tier && q.hosts[ip].lastUpdate == inputs[i].env.now
      && (match h.state
          case Available =>
            if tier == 0 && h.Tier() != 0 then q.hosts[ip].state == Overloaded && q.free[ip] == 0
            else q.hosts[ip].state == Available && q.free[ip] == p.free[ip]
          case Silent => q.hosts[ip].state == Available && q.free[ip] == h.ncpus
          case Overloaded =>
            if tier != 0 then q.hosts[ip].state == Available && q.free[ip] == h.ncpus
            else q.hosts[ip].state == Overloaded && q.free[ip] == 0
          case Unavailable => q.hosts[ip].state == Unavailable && q.free[ip] == 0)
  {
    var s, input := Before(ess, i), inputs[i];
    var raw, now, info := LoadOf(input).value.raw, input.env.now, input.env.info(ip);
    assert Handles(s, input, ess[i], outs[i]);
    LoadStep(s, input, ess[i], outs[i], d, ip);
    OneStep(inputs, ess, outs, i, Load(input.sock, d, ip, raw, now, info));
    BehavesLegally(inputs, ess, outs, i);
    HostLaws.LoadLaw(s, input.sock, d, ip, raw, now, info);
    hide Step, Handles, Before, PoolOf, Invariant, HostLaws.OnlyHost, CalcTier, SendsLoad, LoadOf;
  }

  /** An "up" message on a watched connection for a known host: one in service stays as it is; one
      that was taken down and is at tier 0 is overloaded, with nothing on offer; any other enters
      service with all its cpus. */
  lemma {:induction false} UpMeansUp(
    inputs: seq<Input>, ess: seq<seq<Event>>, outs: seq<seq<Output>>, i: nat, d: Dprop, ip: Ip)
    requires Behaves(inputs, ess, outs) && i < |inputs| && Tells(inputs[i], true, d, ip)
    requires inputs[i].sock in Before(ess, i).fds && Knows(Before(ess, i), d, ip)
    ensures var p, q := PoolOf(Before(ess, i), d), PoolOf(Before(ess, i + 1), d);
      var h := p.hosts[ip];
      && HostLaws.OnlyHost(p, q, ip)
      && (InService(q, ip) <==> !(h.state == Unavailable && h.Tier() == 0))
      && (h.state == Unavailable && h.Tier() == 0 ==> q.hosts[ip].state == Overloaded && q.free[ip] == 0)
      && (InService(p, ip) ==> q == p)
      && (!InService(p, ip) && InService(q, ip) ==> q.free[ip] == h.ncpus)
  {
    var s, input := Before(ess, i), inputs[i];
    var info := input.env.info(ip);
    assert Handles(s, input, ess[i], outs[i]);
    OneStep(inputs, ess, outs, i, Status(input.sock, d, ip, true, info));
    BehavesLegally(inputs, ess, outs, i);
    HostLaws.UpLaw(s, input.sock, d, ip, info);
    hide Step, Handles, Before, PoolOf, Invariant, HostLaws.OnlyHost, CalcTier, Tells, InService;
  }
}
