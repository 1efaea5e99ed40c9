/**
 The contents of one sub-database as a value: the hosts of one dprop, the four sets that
 sort them by state, the tiered lists of free cpus, and the cpus in use.  Nothing in a tier
 list says whose cpu it is or why it is there; `Inv` is what keeps the six structures in
 agreement, and `View` is the reference pool they stand for.
 */
module SubDbs {
  import opened Types
  import opened Bags
  import Pools

  datatype SubDb = SubDb(
    dprop: Dprop,
    hosts: map<Ip, HostRec>,
    avail: set<Ip>,
    unavail: set<Ip>,
    silent: set<Ip>,
    overloaded: set<Ip>,
    tiers: map<int, seq<Ip>>,
    held: map<Socket, Ip>,
    served: nat,
    peak: nat)

  predicate InState(s: SubDb, ip: Ip, st: HostState) {
    ip in s.hosts && s.hosts[ip].state == st
  }

  ghost predicate Keyed(s: SubDb) {
    forall ip :: ip in s.hosts ==> s.hosts[ip].ip == ip && s.hosts[ip].dprop == s.dprop
  }

  ghost predicate Lists(members: set<Ip>, hosts: map<Ip, HostRec>, st: HostState) {
    forall ip :: ip in members <==> ip in hosts && hosts[ip].state == st
  }

  /** Every known host is in exactly the set of its state. */
  ghost predicate Partitioned(s: SubDb) {
    && Lists(s.avail, s.hosts, Available)
    && Lists(s.unavail, s.hosts, Unavailable)
    && Lists(s.silent, s.hosts, Silent)
    && Lists(s.overloaded, s.hosts, Overloaded)
  }

  predicate InTier(tiers: map<int, seq<Ip>>, t: int, ip: Ip) {
    t in tiers && ip in tiers[t]
  }

  /** A free cpu belongs to an available host, and lies in that host's current tier. */
  ghost predicate Placed(s: SubDb) {
    forall t, ip :: InTier(s.tiers, t, ip) ==> InState(s, ip, Available) && s.hosts[ip].Tier() == t
  }

  /** The tier of an available host has an entry in the table, possibly with an empty list. */
  ghost predicate TiersKnown(s: SubDb) {
    forall ip :: InState(s, ip, Available) ==> s.hosts[ip].Tier() in s.tiers
  }

  ghost predicate Inv(s: SubDb) {
    Keyed(s) && Partitioned(s) && Placed(s) && TiersKnown(s)
  }

  ghost function View(s: SubDb): Pools.Pool {
    Pools.Pool(s.hosts, Bag(s.tiers), s.held, s.served, s.peak)
  }

  function Empty(dprop: Dprop): SubDb {
    SubDb(dprop, map[], {}, {}, {}, {}, map[], map[], 0, 0)
  }

  // ---------------------------------------------------------------- primitive operations

  function ListOf(s: SubDb, tier: int): seq<Ip> {
    if tier in s.tiers then s.tiers[tier] else []
  }

  function AddCpus(s: SubDb, tier: int, ip: Ip, n: nat): SubDb {
    s.(tiers := s.tiers[tier := ListOf(s, tier) + Copies(n, ip)])
  }

  function DelCpus(s: SubDb, tier: int, ip: Ip): SubDb {
    if tier in s.tiers then s.(tiers := s.tiers[tier := Without(s.tiers[tier], ip)]) else s
  }

  function CountIn(s: SubDb, tier: int, ip: Ip): nat {
    multiset(ListOf(s, tier))[ip]
  }

  function MoveCpus(s: SubDb, ip: Ip, oldTier: int, newTier: int): SubDb {
    AddCpus(DelCpus(s, oldTier, ip), newTier, ip, CountIn(s, oldTier, ip))
  }

  function SetHost(s: SubDb, h: HostRec): SubDb {
    s.(hosts := s.hosts[h.ip := h])
  }

  function SetState(s: SubDb, ip: Ip, st: HostState): SubDb
    requires ip in s.hosts
  {
    s.(hosts := s.hosts[ip := s.hosts[ip].(state := st)])
  }

  /** Register a host under its current state; an available host brings its cpus. */
  function EnterDb(s: SubDb, ip: Ip): SubDb
    requires ip in s.hosts
  {
    var h := s.hosts[ip];
    match h.state
    case Available => AddCpus(s.(avail := s.avail + {ip}), h.Tier(), ip, h.ncpus)
    case Unavailable => s.(unavail := s.unavail + {ip})
    case Overloaded => s.(overloaded := s.overloaded + {ip})
    case Silent => s.(silent := s.silent + {ip})
  }

  /** Unregister a host from its current state. */
  function LeaveDb(s: SubDb, ip: Ip): SubDb
    requires ip in s.hosts
  {
    var h := s.hosts[ip];
    match h.state
    case Available =>
      if h.Tier() in s.tiers then DelCpus(s, h.Tier(), ip).(avail := s.avail - {ip}) else s
    case Unavailable => s.(unavail := s.unavail - {ip})
    case Overloaded => s.(overloaded := s.overloaded - {ip})
    case Silent => s.(silent := s.silent - {ip})
  }

  /** The full walk from one state to another. */
  function Transition(s: SubDb, ip: Ip, st: HostState): SubDb
    requires ip in s.hosts
  {
    var h := s.hosts[ip];
    var s1 := if h.state == Available then DelCpus(s, h.Tier(), ip) else s;
    EnterDb(SetState(LeaveDb(s1, ip), ip, st), ip)
  }

  /** A cpu is put into the tier of its host, if that is available. */
  function BackInTier(s: SubDb, ip: Ip): SubDb {
    if InState(s, ip, Available) then AddCpus(s, s.hosts[ip].Tier(), ip, 1) else s
  }

  function GivenBack(s: SubDb, k: Socket): SubDb
    requires k in s.held
  {
    BackInTier(s.(held := s.held - {k}), s.held[k])
  }

  // ------------------------------------------------------------ effect on the bag of cpus

  lemma AddCpusBag(s: SubDb, tier: int, ip: Ip, n: nat)
    ensures Bag(AddCpus(s, tier, ip, n).tiers) == Bag(s.tiers)[ip := Bag(s.tiers)[ip] + n]
  {
    BagPut(s.tiers, tier, ListOf(s, tier) + Copies(n, ip));
    CopiesCount(n, ip);
    assert multiset(ListOf(s, tier) + Copies(n, ip)) == multiset(ListOf(s, tier)) + multiset(Copies(n, ip));
  }

  lemma AddCpusMember(s: SubDb, tier: int, ip: Ip, n: nat)
    ensures var s' := AddCpus(s, tier, ip, n);
            && s' == s.(tiers := s'.tiers)
            && s'.tiers.Keys == s.tiers.Keys + {tier}
            && forall t, x :: InTier(s'.tiers, t, x) ==>
                 InTier(s.tiers, t, x) || (t == tier && x == ip && 0 < n)
  {
    assert forall x :: x in Copies(n, ip) ==> x == ip;
  }

  lemma DelCpusMember(s: SubDb, tier: int, ip: Ip)
    ensures var s' := DelCpus(s, tier, ip);
            && s' == s.(tiers := s'.tiers)
            && s'.tiers.Keys == s.tiers.Keys
            && forall t, x :: InTier(s'.tiers, t, x) ==> InTier(s.tiers, t, x) && (t != tier || x != ip)
  {
    if tier in s.tiers {
      WithoutMembers(s.tiers[tier], ip);
    }
  }

  lemma DelCpusBag(s: SubDb, tier: int, ip: Ip)
    ensures CountIn(s, tier, ip) <= Bag(s.tiers)[ip]
    ensures Bag(DelCpus(s, tier, ip).tiers) == Bag(s.tiers)[ip := Bag(s.tiers)[ip] - CountIn(s, tier, ip)]
  {
    if tier in s.tiers {
      WithoutCounts(s.tiers[tier], ip);
      BagPut(s.tiers, tier, Without(s.tiers[tier], ip));
    }
  }

  /** All free cpus of an available host are in its own tier; other hosts have none. */
  lemma FreeWhere(s: SubDb, ip: Ip)
    requires Inv(s)
    ensures Bag(s.tiers)[ip] == if InState(s, ip, Available) then CountIn(s, s.hosts[ip].Tier(), ip) else 0
  {
    hide CalcTier;
    assert forall t :: t in s.tiers && ip in s.tiers[t] ==> InTier(s.tiers, t, ip);
    if InState(s, ip, Available) {
      BagOnly(s.tiers, s.hosts[ip].Tier(), ip);
    } else {
      BagMember(s.tiers, ip);
    }
  }

  /** What is free in the view is what the tiers hold, and it belongs to available hosts. */
  lemma FreeIsPlaced(s: SubDb, ip: Ip)
    requires Inv(s)
    ensures ip in View(s).free <==>
      InState(s, ip, Available) && ip in ListOf(s, s.hosts[ip].Tier())
  {
    hide CalcTier;
    BagMember(s.tiers, ip);
    assert forall t :: t in s.tiers && ip in s.tiers[t] ==> InTier(s.tiers, t, ip);
  }

  // --------------------------------------------------------------------- the invariant is kept

  lemma EmptyKeeps(dprop: Dprop)
    ensures Inv(Empty(dprop)) && View(Empty(dprop)) == Pools.EMPTY
  {
  }

  /** Drained and unregistered: what is left of a host between two states. */
  ghost predicate Detached(s: SubDb, s1: SubDb, ip: Ip)
    requires ip in s.hosts
  {
    && s1 == s.(avail := s1.avail, unavail := s1.unavail, silent := s1.silent,
                overloaded := s1.overloaded, tiers := s1.tiers)
    && s1.avail == s.avail - {ip} && s1.unavail == s.unavail - {ip}
    && s1.silent == s.silent - {ip} && s1.overloaded == s.overloaded - {ip}
    && s1.tiers.Keys == s.tiers.Keys
    && (forall t, x :: InTier(s1.tiers, t, x) ==> x != ip && InTier(s.tiers, t, x))
    && Bag(s1.tiers) == Bag(s.tiers)[ip := 0]
  }

  lemma Drain(s: SubDb, ip: Ip)
    requires Inv(s) && InState(s, ip, Available)
    ensures var s1 := DelCpus(s, s.hosts[ip].Tier(), ip);
            var s2 := DelCpus(s1, s.hosts[ip].Tier(), ip);
            && s1 == s.(tiers := s1.tiers) && s1.tiers.Keys == s.tiers.Keys
            && s2 == s.(tiers := s2.tiers)
            && s2.tiers.Keys == s.tiers.Keys
            && (forall t, x :: InTier(s2.tiers, t, x) ==> x != ip && InTier(s.tiers, t, x))
            && Bag(s2.tiers) == Bag(s.tiers)[ip := 0]
  {
    hide CalcTier;
    var tier := s.hosts[ip].Tier();
    FreeWhere(s, ip);
    DelCpusBag(s, tier, ip);
    DelCpusBag(DelCpus(s, tier, ip), tier, ip);
    DelCpusMember(s, tier, ip);
    DelCpusMember(DelCpus(s, tier, ip), tier, ip);
  }

  lemma Detach(s: SubDb, ip: Ip)
    requires Inv(s) && ip in s.hosts
    ensures var h := s.hosts[ip];
            var s1 := if h.state == Available then DelCpus(s, h.Tier(), ip) else s;
            Detached(s, LeaveDb(s1, ip), ip)
  {
    hide CalcTier;
    hide DelCpus;
    if InState(s, ip, Available) {
      Drain(s, ip);
    } else {
      FreeWhere(s, ip);
    }
  }

  predicate IsListed(s: SubDb, ip: Ip, st: HostState) {
    match st
    case Available => ip in s.avail
    case Unavailable => ip in s.unavail
    case Overloaded => ip in s.overloaded
    case Silent => ip in s.silent
  }

  /** None of the database's complaints can occur: a host is in the set it is to leave and,
      once drained and unregistered, in none of the sets it may enter; the tier of an
      available host is known when it leaves; and an address without a host is in no set. */
  lemma NoComplaints(s: SubDb, ip: Ip)
    requires Inv(s)
    ensures forall st :: IsListed(s, ip, st) <==> InState(s, ip, st)
    ensures ip in s.hosts ==>
      var h := s.hosts[ip];
      var s1 := if h.state == Available then DelCpus(s, h.Tier(), ip) else s;
      && (h.state == Available ==> h.Tier() in s1.tiers)
      && (forall st :: IsListed(s1, ip, st) <==> st == h.state)
      && (forall st :: !IsListed(LeaveDb(s1, ip), ip, st))
  {
    hide CalcTier;
    if ip in s.hosts {
      Detach(s, ip);
    }
  }

  lemma Relisted(members: set<Ip>, hosts: map<Ip, HostRec>, ip: Ip, st: HostState, now: HostState)
    requires ip in hosts && Lists(members, hosts, st)
    ensures Lists(if st == now then members - {ip} + {ip} else members - {ip},
                  hosts[ip := hosts[ip].(state := now)], st)
  {
  }

  lemma Repartitioned(s: SubDb, s1: SubDb, ip: Ip, st: HostState)
    requires Inv(s) && ip in s.hosts && Detached(s, s1, ip)
    ensures Partitioned(EnterDb(SetState(s1, ip, st), ip))
  {
    hide CalcTier, ListOf, Lists;
    Relisted(s.avail, s.hosts, ip, Available, st);
    Relisted(s.unavail, s.hosts, ip, Unavailable, st);
    Relisted(s.silent, s.hosts, ip, Silent, st);
    Relisted(s.overloaded, s.hosts, ip, Overloaded, st);
  }

  lemma AttachAvailable(s: SubDb, s1: SubDb, ip: Ip)
    requires Inv(s) && ip in s.hosts && s.hosts[ip].state != Available && Detached(s, s1, ip)
    ensures var s3 := EnterDb(SetState(s1, ip, Available), ip);
            Inv(s3) && View(s3) == Pools.Move(View(s), ip, Available)
  {
    hide CalcTier;
    var s2 := SetState(s1, ip, Available);
    var h' := s2.hosts[ip];
    assert h'.Tier() == s.hosts[ip].Tier();
    var s3 := AddCpus(s2.(avail := s2.avail + {ip}), h'.Tier(), ip, h'.ncpus);
    AddCpusBag(s2.(avail := s2.avail + {ip}), h'.Tier(), ip, h'.ncpus);
    AddCpusMember(s2.(avail := s2.avail + {ip}), h'.Tier(), ip, h'.ncpus);
    Repartitioned(s, s1, ip, Available);
    hide AddCpus, Partitioned;
    assert TiersKnown(s3);
    assert Placed(s3);
  }

  lemma AttachOther(s: SubDb, s1: SubDb, ip: Ip, st: HostState)
    requires Inv(s) && ip in s.hosts && s.hosts[ip].state != st && Detached(s, s1, ip)
    requires st != Available
    ensures var s3 := EnterDb(SetState(s1, ip, st), ip);
            Inv(s3) && View(s3) == Pools.Move(View(s), ip, st)
  {
    hide CalcTier;
    var s3 := EnterDb(SetState(s1, ip, st), ip);
    Repartitioned(s, s1, ip, st);
    hide Partitioned;
    assert TiersKnown(s3);
    assert Placed(s3);
  }

  /** A transition keeps the six structures in agreement, and to the reference pool it is
      just the host changing state. */
  lemma TransitionKeeps(s: SubDb, ip: Ip, st: HostState)
    requires Inv(s) && ip in s.hosts && s.hosts[ip].state != st
    ensures Inv(Transition(s, ip, st))
    ensures View(Transition(s, ip, st)) == Pools.Move(View(s), ip, st)
  {
    hide CalcTier, EnterDb, LeaveDb, Inv, View, Detached;
    var h := s.hosts[ip];
    Detach(s, ip);
    var s1 := LeaveDb(if h.state == Available then DelCpus(s, h.Tier(), ip) else s, ip);
    if st == Available {
      AttachAvailable(s, s1, ip);
    } else {
      AttachOther(s, s1, ip, st);
    }
  }

  /** New loads that leave an available host in its tier disturb nothing. */
  lemma SetLoadsKeeps(s: SubDb, h: HostRec)
    requires Inv(s) && h.ip in s.hosts
    requires h == s.hosts[h.ip].(loads := h.loads, lastUpdate := h.lastUpdate)
    requires h.state == Available ==> h.Tier() == s.hosts[h.ip].Tier()
    ensures Inv(SetHost(s, h)) && View(SetHost(s, h)) == Pools.Update(View(s), h.ip, h)
  {
  }

  /** Moving the cpus first and storing the new loads afterwards keeps the agreement,
      whatever state the host is in. */
  lemma RetierKeeps(s: SubDb, h: HostRec)
    requires Inv(s) && h.ip in s.hosts
    requires h == s.hosts[h.ip].(loads := h.loads, lastUpdate := h.lastUpdate)
    requires h.Tier() != s.hosts[h.ip].Tier()
    ensures var s' := SetHost(MoveCpus(s, h.ip, s.hosts[h.ip].Tier(), h.Tier()), h);
            Inv(s') && View(s') == Pools.Update(View(s), h.ip, h)
  {
    hide CalcTier, Copies, ListOf;
    var oldTier, newTier, ip := s.hosts[h.ip].Tier(), h.Tier(), h.ip;
    var n := CountIn(s, oldTier, ip);
    FreeWhere(s, ip);
    DelCpusBag(s, oldTier, ip);
    var s1 := DelCpus(s, oldTier, ip);
    DelCpusMember(s, oldTier, ip);
    AddCpusBag(s1, newTier, ip, n);
    AddCpusMember(s1, newTier, ip, n);
    hide AddCpus, DelCpus, CountIn;
    var s2 := AddCpus(s1, newTier, ip, n);
    assert Bag(s2.tiers) == Bag(s.tiers);
    MovedPlaced(s, s2, h, n);
  }

  lemma MovedPlaced(s: SubDb, s2: SubDb, h: HostRec, n: nat)
    requires Inv(s) && h.ip in s.hosts && s2 == s.(tiers := s2.tiers)
    requires h == s.hosts[h.ip].(loads := h.loads, lastUpdate := h.lastUpdate)
    requires 0 < n ==> h.state == Available
    requires s.tiers.Keys + {h.Tier()} == s2.tiers.Keys + {h.Tier()} && h.Tier() in s2.tiers
    requires forall t, x :: InTier(s2.tiers, t, x) ==>
      if x == h.ip then t == h.Tier() && 0 < n else InTier(s.tiers, t, x)
    ensures Inv(SetHost(s2, h))
  {
    hide CalcTier;
    MovedInPlace(s, s2, h, n);
    MovedListed(s, s2, h);
    assert TiersKnown(SetHost(s2, h)) by { hide Placed, InTier, Keyed, Partitioned; }
    hide Placed, Keyed, Partitioned, TiersKnown;
  }

  lemma MovedListed(s: SubDb, s2: SubDb, h: HostRec)
    requires Keyed(s) && Partitioned(s) && h.ip in s.hosts && s2 == s.(tiers := s2.tiers)
    requires h == s.hosts[h.ip].(loads := h.loads, lastUpdate := h.lastUpdate)
    ensures Keyed(SetHost(s2, h)) && Partitioned(SetHost(s2, h))
  {
  }

  lemma MovedInPlace(s: SubDb, s2: SubDb, h: HostRec, n: nat)
    requires Placed(s) && h.ip in s.hosts && s2 == s.(tiers := s2.tiers)
    requires h.state == s.hosts[h.ip].state && (0 < n ==> h.state == Available)
    requires forall t, x :: InTier(s2.tiers, t, x) ==>
      if x == h.ip then t == h.Tier() && 0 < n else InTier(s.tiers, t, x)
    ensures Placed(SetHost(s2, h))
  {
    hide CalcTier;
  }

  /** A new host starts available, with all its cpus in the tier of its power index. */
  lemma EnrolKeeps(s: SubDb, h: HostRec)
    requires Inv(s) && h.ip !in s.hosts && h.dprop == s.dprop && h.state == Available
    ensures var s' := EnterDb(SetHost(s, h), h.ip);
            Inv(s') && View(s') == Pools.Enrol(View(s), h.ip, h)
  {
    var s1 := SetHost(s, h);
    FreeWhere(s, h.ip);
    AddCpusBag(s1.(avail := s1.avail + {h.ip}), h.Tier(), h.ip, h.ncpus);
    AddCpusMember(s1.(avail := s1.avail + {h.ip}), h.Tier(), h.ip, h.ncpus);
    hide CalcTier, AddCpus, InTier;
  }

  /** Which connection holds what, and the statistics, do not matter to the agreement. */
  lemma BooksKeep(s: SubDb, held: map<Socket, Ip>, served: nat, peak: nat)
    requires Inv(s)
    ensures var s' := s.(held := held, served := served, peak := peak);
            Inv(s') && View(s') == View(s).(held := held, served := served, peak := peak)
  {
  }

  /** A cpu given back by an available host goes to that host's tier of the moment. */
  lemma GiveBackKeeps(s: SubDb, ip: Ip)
    requires Inv(s) && InState(s, ip, Available)
    ensures var s' := AddCpus(s, s.hosts[ip].Tier(), ip, 1);
            Inv(s') && View(s') == View(s).(free := View(s).free + multiset{ip})
  {
    AddCpusBag(s, s.hosts[ip].Tier(), ip, 1);
    AddCpusMember(s, s.hosts[ip].Tier(), ip, 1);
    hide AddCpus, CalcTier;
  }

  lemma Shrink(s: SubDb, tier: int, l: seq<Ip>)
    requires Inv(s) && tier in s.tiers && forall x :: x in l ==> x in s.tiers[tier]
    ensures Inv(s.(tiers := s.tiers[tier := l]))
  {
    hide CalcTier;
    var s' := s.(tiers := s.tiers[tier := l]);
    assert forall t, x :: InTier(s'.tiers, t, x) ==> InTier(s.tiers, t, x);
    hide InTier;
  }

  lemma TopTier(s: SubDb, tier: int, ip: Ip)
    requires Inv(s) && tier in s.tiers && ip in s.tiers[tier]
    requires forall t :: t in s.tiers && t > tier ==> s.tiers[t] == []
    ensures Pools.Best(View(s), ip)
  {
    hide CalcTier;
    forall x ensures x in Bag(s.tiers) ==> x in s.hosts && s.hosts[x].Tier() <= tier {
      BagMember(s.tiers, x);
      if t :| t in s.tiers && x in s.tiers[t] {
        assert InTier(s.tiers, t, x);
      }
    }
    BagMember(s.tiers, ip);
    assert InTier(s.tiers, tier, ip);
  }

  lemma OneLess(l: seq<Ip>, n: nat)
    requires n < |l|
    ensures var rest := l[..n] + l[n + 1..];
      multiset(rest) == multiset(l) - multiset{l[n]} && l[n] in multiset(l) && forall x :: x in rest ==> x in l
  {
    assert l == l[..n] + [l[n]] + l[n + 1..];
  }

  /** Taking the nth cpu of a list that no higher tier can beat takes a best cpu. */
  lemma TakeKeeps(s: SubDb, tier: int, n: nat)
    requires Inv(s) && tier in s.tiers && n < |s.tiers[tier]|
    requires forall t :: t in s.tiers && t > tier ==> s.tiers[t] == []
    ensures var l := s.tiers[tier];
            var s' := s.(tiers := s.tiers[tier := l[..n] + l[n + 1..]]);
            && Inv(s')
            && Pools.Best(View(s), l[n])
            && View(s') == Pools.Take(View(s), l[n])
  {
    hide CalcTier, Inv, Pools.Best, InState;
    var l := s.tiers[tier];
    var rest := l[..n] + l[n + 1..];
    OneLess(l, n);
    TopTier(s, tier, l[n]);
    Shrink(s, tier, rest);
    BagPut(s.tiers, tier, rest);
    hide Bag;
    assert Bag(s.tiers[tier := rest]) == Bag(s.tiers) - multiset{l[n]};
  }

  /** With every list empty nothing is free. */
  lemma NothingFree(s: SubDb)
    requires Inv(s) && forall t :: t in s.tiers ==> s.tiers[t] == []
    ensures View(s).free == multiset{}
  {
    forall x ensures x !in Bag(s.tiers) {
      BagMember(s.tiers, x);
    }
  }
}
