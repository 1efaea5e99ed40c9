/**
 The report as a function of the reference pools: nothing in it depends on how the tiers and
 the sets of hosts happen to be stored.
 */
module PoolReports {
  import opened Types
  import opened Bags
  import opened SubDbs
  import opened Orders
  import opened Reports
  import Pools

  /** The hosts with a free cpu in the given tier. */
  ghost function FreeIn(p: Pools.Pool, tier: int): set<Ip> {
    set ip | ip in p.hosts && ip in p.free && p.hosts[ip].Tier() == tier
  }

  /** The tiers with a free cpu. */
  ghost function OpenTiers(p: Pools.Pool): set<int> {
    set ip | ip in p.hosts && ip in p.free :: p.hosts[ip].Tier()
  }

  /** The hosts of one tier, each with its number of free cpus. */
  ghost function PoolGroups(p: Pools.Pool, tier: int): seq<Group> {
    IpsOrdered();
    var ips := Listing(FreeIn(p, tier), IpLess);
    seq(|ips|, i requires 0 <= i < |ips| => Group(ips[i], p.free[ips[i]]))
  }

  ghost function PoolLines(p: Pools.Pool): seq<Item> {
    TiersOrdered();
    var tiers := Listing(OpenTiers(p), Higher);
    seq(|tiers|, i requires 0 <= i < |tiers| => TierLine(tiers[i], Printed(PoolGroups(p, tiers[i]))))
  }

  lemma LinesAreTiers(p: Pools.Pool)
    ensures forall i :: 0 <= i < |PoolLines(p)| ==> PoolLines(p)[i].TierLine?
  {
    hide PoolGroups, Printed, Listing;
  }

  ghost function PoolHosts(p: Pools.Pool): seq<Item> {
    IpsOrdered();
    HostLines(p.hosts, Listing(p.hosts.Keys, IpLess))
  }

  /** What the report says about one dprop. */
  ghost function PoolReport(d: Dprop, p: Pools.Pool): seq<Item> {
    [Section(d)] + PoolHosts(p) + PoolLines(p)
  }

  ghost function PoolSections(pools: map<Dprop, Pools.Pool>, order: seq<Dprop>): seq<Item>
    requires forall d :: d in order ==> d in pools
  {
    if order == [] then []
    else
      assert order[0] in order && forall d :: d in order[1..] ==> d in order;
      PoolReport(order[0], pools[order[0]]) + PoolSections(pools, order[1..])
  }

  /** What the server reports. */
  ghost function ServerReport(pools: map<Dprop, Pools.Pool>): seq<Item> {
    DpropsOrdered();
    PoolSections(pools, Listing(pools.Keys, Precedes))
  }

  // ------------------------------------------------------------------------ the same report

  /** The runs of a list are determined by its counts. */
  lemma RunsAre(gs: seq<Group>, l: seq<Ip>, ips: set<Ip>)
    requires Increasing(gs) && Counts(gs, l) && Total(IpLess) && forall ip :: ip in l <==> ip in ips
    ensures |gs| == |Listing(ips, IpLess)|
    ensures forall i :: 0 <= i < |gs| ==>
      gs[i].ip == Listing(ips, IpLess)[i] && gs[i].ip in ips && gs[i].n == multiset(l)[gs[i].ip]
  {
    var order := seq(|gs|, i requires 0 <= i < |gs| => gs[i].ip);
    forall ip ensures ip in order <==> ip in ips {
      RunsCover(gs, l, ip);
      if i :| 0 <= i < |gs| && gs[i].ip == ip {
        assert order[i] == ip;
      }
    }
    assert Ascending(order, IpLess);
    ListingUnique(order, ips, IpLess);
    assert forall i :: 0 <= i < |gs| ==> gs[i] in gs && gs[i].ip == order[i];
  }

  lemma GroupsAre(gs: seq<Group>, l: seq<Ip>, p: Pools.Pool, tier: int)
    requires Increasing(gs) && Counts(gs, l) && Total(IpLess)
    requires forall ip :: ip in l <==> ip in FreeIn(p, tier)
    requires forall ip :: ip in l ==> multiset(l)[ip] == p.free[ip]
    ensures gs == PoolGroups(p, tier)
  {
    hide Increasing, Counts, Total, FreeIn, Listing;
    RunsAre(gs, l, FreeIn(p, tier));
  }

  lemma SameGroups(s: SubDb, tier: int)
    requires Inv(s) && Total(IpLess)
    ensures Groups(Sort(ListOf(s, tier), IpLess)) == PoolGroups(View(s), tier)
  {
    hide Inv, View, FreeIn, Groups, Increasing, Counts, ListOf, Total, PoolGroups;
    var l := ListOf(s, tier);
    var sorted := Sort(l, IpLess);
    SortSorts(l, IpLess);
    hide Sort;
    GroupsCount(sorted);
    hide Sorted;
    SortedMembers(s, tier, sorted);
    forall ip | ip in sorted ensures multiset(sorted)[ip] == View(s).free[ip] {
      InList(s, tier, ip);
    }
    GroupsAre(Groups(sorted), sorted, View(s), tier);
  }

  lemma SortedMembers(s: SubDb, tier: int, sorted: seq<Ip>)
    requires Inv(s) && multiset(sorted) == multiset(ListOf(s, tier))
    ensures forall ip :: ip in sorted <==> ip in FreeIn(View(s), tier)
  {
    forall ip ensures ip in sorted <==> ip in FreeIn(View(s), tier) {
      InList(s, tier, ip);
      hide Inv, View, FreeIn, ListOf;
      assert ip in sorted <==> ip in multiset(sorted);
      assert ip in ListOf(s, tier) <==> ip in multiset(ListOf(s, tier));
    }
  }

  lemma ListFilled(s: SubDb, tier: int)
    requires Inv(s)
    ensures ListOf(s, tier) != [] <==> FreeIn(View(s), tier) != {}
  {
    hide Inv, View, FreeIn, ListOf;
    if ListOf(s, tier) != [] {
      InList(s, tier, ListOf(s, tier)[0]);
    }
    if ip :| ip in FreeIn(View(s), tier) {
      InList(s, tier, ip);
    }
  }

  /** A tier's list holds the free cpus of the tier's hosts. */
  lemma InList(s: SubDb, tier: int, ip: Ip)
    requires Inv(s)
    ensures ip in ListOf(s, tier) <==> ip in FreeIn(View(s), tier)
    ensures ip in ListOf(s, tier) ==> multiset(ListOf(s, tier))[ip] == View(s).free[ip]
  {
    FreeIsPlaced(s, ip);
    FreeWhere(s, ip);
    assert InTier(s.tiers, tier, ip) <==> ip in ListOf(s, tier);
    hide CalcTier, Bag;
  }

  /** The tiers of `order` whose list is not empty. */
  ghost function Filled(s: SubDb, order: seq<int>): seq<int> {
    if order == [] then []
    else if ListOf(s, order[0]) == [] then Filled(s, order[1..])
    else [order[0]] + Filled(s, order[1..])
  }

  lemma {:induction false} FilledMembers(s: SubDb, order: seq<int>)
    ensures forall t :: t in Filled(s, order) <==> t in order && ListOf(s, t) != []
  {
    hide ListOf;
    if order == [] {
      assert Filled(s, order) == [];
    } else {
      FilledMembers(s, order[1..]);
      assert order == [order[0]] + order[1..];
    }
  }

  lemma {:induction false} FilledAscends(s: SubDb, order: seq<int>)
    requires Ascending(order, Higher)
    ensures Ascending(Filled(s, order), Higher)
  {
    hide ListOf;
    if order == [] {
      assert Filled(s, order) == [];
    } else {
      var rest := Filled(s, order[1..]);
      FilledAscends(s, order[1..]);
      FilledMembers(s, order[1..]);
      forall j | 0 <= j < |rest| ensures Higher(order[0], rest[j]) {
        assert rest[j] in rest;
        var i :| 0 <= i < |order[1..]| && order[1..][i] == rest[j];
        assert Higher(order[0], order[i + 1]);
      }
      assert forall j :: 0 <= j < |rest| ==> ([order[0]] + rest)[j + 1] == rest[j];
    }
  }

  lemma {:induction false} TierLinesAre(s: SubDb, order: seq<int>)
    ensures var filled := Filled(s, order);
      TierLines(s, order)
        == seq(|filled|, i requires 0 <= i < |filled| => TierLineOf(filled[i], ListOf(s, filled[i])))
  {
    hide ListOf, TierLineOf;
    if order != [] {
      TierLinesAre(s, order[1..]);
    }
  }

  lemma FilledAre(s: SubDb)
    requires Inv(s) && Total(IpLess) && Total(Higher)
    ensures Filled(s, Listing(s.tiers.Keys, Higher)) == Listing(OpenTiers(View(s)), Higher)
  {
    var order := Listing(s.tiers.Keys, Higher);
    FilledMembers(s, order);
    FilledAscends(s, order);
    forall t ensures t in Filled(s, order) <==> t in OpenTiers(View(s)) {
      ListFilled(s, t);
      hide Inv, View, CalcTier;
      if t in OpenTiers(View(s)) {
        var ip :| ip in View(s).hosts && ip in View(s).free && View(s).hosts[ip].Tier() == t;
        assert ip in FreeIn(View(s), t);
      }
      if FreeIn(View(s), t) != {} {
        var ip :| ip in FreeIn(View(s), t);
      }
    }
    ListingUnique(Filled(s, order), OpenTiers(View(s)), Higher);
  }

  lemma SameLines(s: SubDb)
    requires Inv(s) && Total(IpLess) && Total(Higher)
    ensures TierLines(s, Listing(s.tiers.Keys, Higher)) == PoolLines(View(s))
  {
    var tiers := Listing(OpenTiers(View(s)), Higher);
    FilledAre(s);
    TierLinesAre(s, Listing(s.tiers.Keys, Higher));
    assert PoolLines(View(s)) ==
      seq(|tiers|, i requires 0 <= i < |tiers| => TierLine(tiers[i], Printed(PoolGroups(View(s), tiers[i]))));
    hide *;
    forall i | 0 <= i < |tiers|
      ensures TierLineOf(tiers[i], ListOf(s, tiers[i])) == TierLine(tiers[i], Printed(PoolGroups(View(s), tiers[i])))
    {
      SameLine(s, tiers[i]);
    }
  }

  lemma SameLine(s: SubDb, tier: int)
    requires Inv(s) && Total(IpLess)
    ensures TierLineOf(tier, ListOf(s, tier)) == TierLine(tier, Printed(PoolGroups(View(s), tier)))
  {
    SameGroups(s, tier);
    hide Inv, View, PoolGroups, Groups, Printed, Sort, ListOf;
  }

  /** The report on the six structures is the report on the pool they stand for. */
  lemma SameReport(s: SubDb)
    requires Inv(s)
    ensures ReportOf(s) == PoolReport(s.dprop, View(s))
  {
    IpsOrdered();
    TiersOrdered();
    SameLines(s);
    hide Inv, TierLines, PoolLines, Listing, Total;
  }

  lemma {:induction false} SameSections(subs: map<Dprop, SubDb>, pools: map<Dprop, Pools.Pool>, order: seq<Dprop>)
    requires forall d :: d in order ==>
      d in subs && d in pools && Inv(subs[d]) && View(subs[d]) == pools[d] && subs[d].dprop == d
    ensures Sections(subs, order) == PoolSections(pools, order)
  {
    hide Inv, View, ReportOf, PoolReport;
    if order != [] {
      assert order[0] in order && forall d :: d in order[1..] ==> d in order;
      SameReport(subs[order[0]]);
      SameSections(subs, pools, order[1..]);
    }
  }

  lemma SameFullReport(subs: map<Dprop, SubDb>, pools: map<Dprop, Pools.Pool>)
    requires subs.Keys == pools.Keys
    requires forall d :: d in subs ==> Inv(subs[d]) && View(subs[d]) == pools[d] && subs[d].dprop == d
    ensures FullReport(subs) == ServerReport(pools)
  {
    DpropsOrdered();
    SameSections(subs, pools, Listing(subs.Keys, Precedes));
  }
}
