/**
 What the printed figures mean: how many requests were served, how many cpus were in use at
 most, and how many cpus there are, counted from the events of the run.
 */
module Figures {
  import opened Types
  import opened Pools
  import opened Protocol
  import opened Ledger
  import Statistics
  import Sums

  // --------------------------------------------------------------------------- adding up

  /** The sum of `f` over a set. */
  ghost function Total<T(!new)>(s: set<T>, f: T -> int): int {
    if s == {} then 0
    else
      var x :| x in s;
      f(x) + Total(s - {x}, f)
  }

  lemma {:induction false} TotalFrom<T(!new)>(s: set<T>, f: T -> int, x: T)
    requires x in s
    ensures Total(s, f) == f(x) + Total(s - {x}, f)
  {
    var y :| y in s && Total(s, f) == f(y) + Total(s - {y}, f);
    if y != x {
      TotalFrom(s - {y}, f, x);
      TotalFrom(s - {x}, f, y);
      assert s - {y} - {x} == s - {x} - {y};
    }
  }

  lemma {:induction false} TotalSame<T(!new)>(s: set<T>, f: T -> int, g: T -> int)
    requires forall x :: x in s ==> f(x) == g(x)
    ensures Total(s, f) == Total(s, g)
  {
    if x :| x in s {
      TotalFrom(s, f, x);
      TotalFrom(s, g, x);
      TotalSame(s - {x}, f, g);
    }
  }

  lemma {:induction false} TotalPlus<T(!new)>(s: set<T>, f: T -> int, g: T -> int, h: T -> int)
    requires forall x :: x in s ==> h(x) == f(x) + g(x)
    ensures Total(s, h) == Total(s, f) + Total(s, g)
  {
    if x :| x in s {
      TotalFrom(s, f, x);
      TotalFrom(s, g, x);
      TotalFrom(s, h, x);
      TotalPlus(s - {x}, f, g, h);
    }
  }

  // ------------------------------------------------------------------ the cpus of one pool

  /** Every free cpu is counted once, at its host. */
  lemma {:induction false} FreeTotal(m: multiset<Ip>, hosts: set<Ip>)
    requires forall ip :: ip in m ==> ip in hosts
    ensures Total(hosts, (ip: Ip) => m[ip]) == |m|
    decreases hosts
  {
    if ip :| ip in hosts {
      var rest := m[ip := 0];
      var f, g := (x: Ip) => m[x], (x: Ip) => rest[x];
      TotalFrom(hosts, f, ip);
      TotalSame(hosts - {ip}, f, g);
      FreeTotal(rest, hosts - {ip});
      assert m == rest + multiset{}[ip := m[ip]];
    } else {
      assert m == multiset{};
    }
  }

  /** Every held cpu is counted once, at its host. */
  lemma {:induction false} HeldTotal(held: map<Socket, Ip>, hosts: set<Ip>)
    requires forall k :: k in held ==> held[k] in hosts
    ensures Total(hosts, (ip: Ip) => |Holders(held, ip)|) == |held|
    decreases hosts
  {
    if ip :| ip in hosts {
      var out := Holders(held, ip);
      var rest := held - out;
      var f, g := (x: Ip) => |Holders(held, x)|, (x: Ip) => |Holders(rest, x)|;
      TotalFrom(hosts, f, ip);
      forall x | x in hosts - {ip} ensures f(x) == g(x) {
        assert Holders(held, x) == Holders(rest, x);
      }
      TotalSame(hosts - {ip}, f, g);
      HeldTotal(rest, hosts - {ip});
      assert rest.Keys == held.Keys - out && out <= held.Keys;
      assert |held| == |held.Keys| && |rest| == |rest.Keys|;
    } else {
      assert held.Keys == {};
    }
  }

  // ------------------------------------------------------------- the cpus of one host, in a run

  /** What a host has brought in, each time it entered service. */
  ghost function Brought(es: seq<Event>, d: Dprop, ip: Ip): int {
    Ncpus(After(INIT, es), d, ip) * Account(es, d, ip).entries
  }

  /** What a host brought in and that is neither free nor held: on its way to a client, drained,
      discarded or lost. */
  ghost function Gone(es: seq<Event>, d: Dprop, ip: Ip): int {
    var t := Account(es, d, ip);
    InFlight(After(INIT, es), d, ip) + t.drained + t.discarded + t.lost
  }

  ghost function Hosts(es: seq<Event>, d: Dprop): set<Ip> {
    PoolOf(After(INIT, es), d).hosts.Keys
  }

  ghost function BroughtIn(es: seq<Event>, d: Dprop): int {
    Total(Hosts(es, d), (ip: Ip) => Brought(es, d, ip))
  }

  ghost function GoneFrom(es: seq<Event>, d: Dprop): int {
    Total(Hosts(es, d), (ip: Ip) => Gone(es, d, ip))
  }

  /** The total reported for a dprop is what its hosts brought in, less what is gone. */
  lemma {:induction false} ReportedTotal(es: seq<Event>, d: Dprop)
    requires Legal(INIT, es)
    ensures Pools.Report(PoolOf(After(INIT, es), d)).total + GoneFrom(es, d) == BroughtIn(es, d)
  {
    var s := After(INIT, es);
    var p, hosts := PoolOf(s, d), Hosts(es, d);
    var free, held := (ip: Ip) => p.free[ip], (ip: Ip) => |Holders(p.held, ip)|;
    var both, gone, brought :=
      (ip: Ip) => p.free[ip] + |Holders(p.held, ip)|, (ip: Ip) => Gone(es, d, ip), (ip: Ip) => Brought(es, d, ip);
    Reachable(es);
    EmptyOk(d);
    FreeTotal(p.free, hosts);
    HeldTotal(p.held, hosts);
    TotalPlus(hosts, free, held, both);
    forall ip | ip in hosts ensures brought(ip) == both(ip) + gone(ip) {
      Conservation(es, d, ip);
    }
    TotalPlus(hosts, both, gone, brought);
    hide After, Legal, Account, Invariant, Total, Gone, Brought;
  }

  // ------------------------------------------------------------------------- all dprops

  /** The requests granted since the figures were last printed. */
  ghost function GrantedSince(es: seq<Event>): nat {
    if es == [] then 0
    else
      var e, before := es[|es| - 1], GrantedSince(es[..|es| - 1]);
      if e.Collect? then 0 else before + if e.Record? then 1 else 0
  }

  /** Those of one dprop. */
  ghost function GrantedIn(es: seq<Event>, d: Dprop): nat {
    if es == [] then 0
    else
      var init, e := es[..|es| - 1], es[|es| - 1];
      if e.Collect? then 0
      else GrantedIn(init, d) + if Statistics.Records(After(INIT, init), e, d) then 1 else 0
  }

  lemma {:induction false} ServedIs(es: seq<Event>, d: Dprop)
    requires Legal(INIT, es)
    ensures Pools.Report(PoolOf(After(INIT, es), d)).served == GrantedIn(es, d)
    ensures Pools.Report(PoolOf(After(INIT, es), d)).peak == Statistics.Largest(es, d)
  {
    Statistics.StatisticsAddUp(es, d);
    if es != [] {
      hide Invariant, Enabled, Step, Statistics.Records, Statistics.Largest;
      var init := es[..|es| - 1];
      ServedIs(init, d);
      Reachable(init);
      Statistics.StepCounts(After(INIT, init), es[|es| - 1], d);
    }
  }

  // ------------------------------------------------------------------------- the printed line

  lemma {:induction false} TotalZero<T(!new)>(s: set<T>, t: set<T>, f: T -> int)
    requires t <= s && forall x :: x in s && x !in t ==> f(x) == 0
    ensures Total(s, f) == Total(t, f)
  {
    if x :| x in s && x !in t {
      TotalFrom(s, f, x);
      TotalZero(s - {x}, t, f);
    } else {
      assert s == t;
    }
  }

  /** One more at `x`, if `x` is in the set. */
  lemma TotalOneMore<T(!new)>(s: set<T>, f: T -> int, g: T -> int, x: T)
    requires x in s && g(x) == f(x) + 1 && forall y :: y in s && y != x ==> g(y) == f(y)
    ensures Total(s, g) == Total(s, f) + 1
  {
    TotalFrom(s, f, x);
    TotalFrom(s, g, x);
    TotalSame(s - {x}, f, g);
  }

  ghost function Dprops(es: seq<Event>): set<Dprop> {
    After(INIT, es).pools.Keys
  }

  lemma DpropsGrow(s: State, e: Event)
    requires Invariant(s) && Enabled(s, e)
    ensures s.pools.Keys <= Step(s, e).pools.Keys
    ensures e.Record? ==> s.request.dprop in s.pools
  {
    hide PoolOk, CalcTier;
  }

  lemma NotCounted(es: seq<Event>, d: Dprop)
    requires Legal(INIT, es) && d !in Dprops(es)
    ensures GrantedIn(es, d) == 0
  {
    ServedIs(es, d);
    assert PoolOf(After(INIT, es), d) == EMPTY;
  }

  ghost function GrantedBy(es: seq<Event>): Dprop -> int {
    d => GrantedIn(es, d)
  }

  lemma GrantedStep(es: seq<Event>, dprops: set<Dprop>)
    requires es != []
    requires var s, e := After(INIT, es[..|es| - 1]), es[|es| - 1];
      e.Record? ==> s.request.Resolved? && s.request.dprop in dprops
    ensures var e := es[|es| - 1];
      Total(dprops, GrantedBy(es)) ==
        if e.Collect? then 0
        else Total(dprops, GrantedBy(es[..|es| - 1])) + if e.Record? then 1 else 0
  {
    var init, e := es[..|es| - 1], es[|es| - 1];
    var s := After(INIT, init);
    hide Step, After;
    if e.Collect? {
      TotalZero(dprops, {}, GrantedBy(es));
    } else if e.Record? {
      TotalOneMore(dprops, GrantedBy(init), GrantedBy(es), s.request.dprop);
    } else {
      TotalSame(dprops, GrantedBy(init), GrantedBy(es));
    }
  }

  /** Every granted request was granted in one dprop. */
  lemma {:induction false} GrantedTotal(es: seq<Event>)
    requires Legal(INIT, es)
    ensures Total(Dprops(es), GrantedBy(es)) == GrantedSince(es)
  {
    if es == [] {
      assert Dprops(es) == {};
    } else {
      var init, e := es[..|es| - 1], es[|es| - 1];
      GrantedTotal(init);
      Reachable(init);
      DpropsGrow(After(INIT, init), e);
      assert Dprops(init) <= Dprops(es);
      forall d | d !in Dprops(init) ensures GrantedBy(init)(d) == 0 {
        NotCounted(init, d);
      }
      GrantedStep(es, Dprops(es));
      assert e.Collect? ==> GrantedSince(es) == 0;
      assert !e.Collect? ==> GrantedSince(es) == GrantedSince(init) + if e.Record? then 1 else 0;
      hide *;
      TotalZero(Dprops(es), Dprops(init), GrantedBy(init));
    }
  }

  ghost function ServedBy(s: State): Dprop -> int {
    d => Pools.Report(PoolOf(s, d)).served
  }

  ghost function PeakOf(s: State): Dprop -> int {
    d => Pools.Report(PoolOf(s, d)).peak
  }

  ghost function TotalOf(s: State): Dprop -> int {
    d => Pools.Report(PoolOf(s, d)).total
  }

  /** The largest number of cpus in use in each dprop right after a grant since the last report. */
  ghost function MostHeld(es: seq<Event>): Dprop -> int {
    d => Statistics.Largest(es, d)
  }

  ghost function AllGone(es: seq<Event>): Dprop -> int {
    d => GoneFrom(es, d)
  }

  ghost function AllBrought(es: seq<Event>): Dprop -> int {
    d => BroughtIn(es, d)
  }

  lemma {:induction false} SumIs(m: map<Dprop, Pool>, s: State)
    requires forall d :: d in m ==> d in s.pools && m[d] == s.pools[d]
    ensures var st := Sums.SumOf(m);
      && st.served == Total(m.Keys, ServedBy(s))
      && st.peak == Total(m.Keys, PeakOf(s))
      && st.total == Total(m.Keys, TotalOf(s))
    decreases |m|
  {
    if d :| d in m {
      OneDprop(m, s, d);
      Sums.Fewer(m, d);
      SumIs(m - {d}, s);
      assert (m - {d}).Keys == m.Keys - {d};
      hide *;
      TotalFrom(m.Keys, ServedBy(s), d);
      TotalFrom(m.Keys, PeakOf(s), d);
      TotalFrom(m.Keys, TotalOf(s), d);
    } else {
      assert m == map[];
      Sums.SumNone();
    }
  }

  lemma OneDprop(m: map<Dprop, Pool>, s: State, d: Dprop)
    requires d in m && d in s.pools && m[d] == s.pools[d]
    ensures var st, rest := Sums.SumOf(m), Sums.SumOf(m - {d});
      && st.served == ServedBy(s)(d) + rest.served
      && st.peak == PeakOf(s)(d) + rest.peak
      && st.total == TotalOf(s)(d) + rest.total
  {
    Sums.SumSplit(m, d);
    hide Sums.SumOf, Pools.Report;
  }

  lemma TotalsAre(es: seq<Event>)
    requires Legal(INIT, es)
    ensures var s := After(INIT, es);
      && Total(Dprops(es), ServedBy(s)) == GrantedSince(es)
      && Total(Dprops(es), PeakOf(s)) == Total(Dprops(es), MostHeld(es))
      && Total(Dprops(es), TotalOf(s)) + Total(Dprops(es), AllGone(es)) == Total(Dprops(es), AllBrought(es))
  {
    var s := After(INIT, es);
    GrantedTotal(es);
    forall d ensures ServedBy(s)(d) == GrantedBy(es)(d) && PeakOf(s)(d) == MostHeld(es)(d) {
      ServedIs(es, d);
    }
    forall d ensures AllBrought(es)(d) == TotalOf(s)(d) + AllGone(es)(d) {
      ReportedTotal(es, d);
    }
    hide *;
    TotalSame(Dprops(es), ServedBy(s), GrantedBy(es));
    TotalSame(Dprops(es), PeakOf(s), MostHeld(es));
    TotalPlus(Dprops(es), TotalOf(s), AllGone(es), AllBrought(es));
  }

  /** Whenever the figures are printed: the requests granted since the last time; for all dprops
      together, the most cpus in use right after a grant since then; and all cpus that hosts
      brought in, less those on their way, drained, discarded or lost. */
  lemma {:induction false} FiguresMean(es: seq<Event>)
    requires Legal(INIT, es)
    ensures var st := Sums.SumOf(After(INIT, es).pools);
      && st.served == GrantedSince(es)
      && st.peak == Total(Dprops(es), MostHeld(es))
      && st.total + Total(Dprops(es), AllGone(es)) == Total(Dprops(es), AllBrought(es))
  {
    SumIs(After(INIT, es).pools, After(INIT, es));
    assert Dprops(es) == After(INIT, es).pools.Keys;
    hide *;
    TotalsAre(es);
  }
}
