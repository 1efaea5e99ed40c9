/**
 The host objects and the sub-database of one dprop, as objects that are changed in place.
 Host and database call each other, so both are here.  Every operation keeps the six
 structures in agreement (`Valid`) and is described by what it does to the reference pool.
 */
module DpropDbs {
  import opened Types
  import opened Bags
  import opened SubDbs
  import Orders
  import Pools
  import Reports
  import Text

  class Host {
    const ip: Ip
    const dprop: Dprop
    const ncpus: Positive
    const pindex: int
    var loads: Loads
    var lastUpdate: int
    var state: HostState

    function Rec(): HostRec
      reads this
    {
      HostRec(ip, dprop, ncpus, pindex, loads, lastUpdate, state)
    }

    constructor (ip: Ip, dprop: Dprop, info: HostInfo)
      ensures Rec() == NewHost(ip, dprop, info)
      ensures this.ip == ip && this.dprop == dprop && state == Available
    {
      this.ip, this.dprop, this.ncpus, this.pindex := ip, dprop, info.ncpus, info.pindex;
      loads, lastUpdate, state := NO_LOAD, 0, Available;
    }

    function GetTier(): int
      reads this
    {
      Rec().Tier()
    }

    // ------------------------------------------------------ registering with the database

    /** What each state's addToDb does. */
    method AddToDb(sub: DpropDb)
      requires sub.Registers(this)
      modifies sub
      ensures sub.allHosts == old(sub.allHosts)
      ensures sub.Snap() == EnterDb(old(sub.Snap()), ip)
    {
      match state
      case Available => sub.AddToAvailDb(this);
      case Unavailable => sub.AddToUnavailDb(this);
      case Overloaded => sub.AddToOverloadedDb(this);
      case Silent => sub.AddToSilentDb(this);
    }

    /** What each state's removeFromDb does. */
    method RemoveFromDb(sub: DpropDb)
      requires sub.Registers(this)
      modifies sub
      ensures sub.allHosts == old(sub.allHosts)
      ensures sub.Snap() == LeaveDb(old(sub.Snap()), ip)
    {
      match state
      case Available => sub.DelFromAvailDb(this);
      case Unavailable => sub.DelFromUnavailDb(this);
      case Overloaded => sub.DelFromOverloadedDb(this);
      case Silent => sub.DelFromSilentDb(this);
    }

    method ChangeState(sub: DpropDb, st: HostState)
      requires sub.Registers(this)
      modifies this`state, sub
      ensures state == st && sub.allHosts == old(sub.allHosts)
      ensures sub.Snap() == EnterDb(SetState(old(sub.Snap()), ip, st), ip)
    {
      state := st;
      assert sub.Snap() == SetState(old(sub.Snap()), ip, st);
      AddToDb(sub);
    }

    /** Leave the current state for another one. */
    method Transfer(sub: DpropDb, st: HostState)
      requires sub.Valid() && sub.Registers(this) && state != st
      modifies this`state, sub
      ensures sub.Valid() && sub.allHosts == old(sub.allHosts)
      ensures sub.View() == Pools.Move(old(sub.View()), ip, st)
    {
      TransitionKeeps(sub.Snap(), ip, st);
      if state == Available {
        var drained := sub.DelCpusFromTier(GetTier(), ip);
      }
      RemoveFromDb(sub);
      ChangeState(sub, st);
    }

    // -------------------------------------------------------------------- the four events

    method Avail(sub: DpropDb)
      requires sub.Valid() && sub.Registers(this)
      modifies this`state, sub
      ensures sub.Valid() && sub.allHosts == old(sub.allHosts)
      ensures sub.View() == Pools.Up(old(sub.View()), ip)
    {
      match state
      case Available =>
      case Unavailable =>
        if GetTier() == 0 {
          Transfer(sub, Overloaded);
        } else {
          Transfer(sub, Available);
        }
      case Overloaded => Transfer(sub, Available);
      case Silent => Transfer(sub, Available);
    }

    method Unavail(sub: DpropDb)
      requires sub.Valid() && sub.Registers(this)
      modifies this`state, sub
      ensures sub.Valid() && sub.allHosts == old(sub.allHosts)
      ensures sub.View() == Pools.Down(old(sub.View()), ip)
    {
      match state
      case Available => Transfer(sub, Unavailable);
      case Unavailable =>
      case Overloaded => Transfer(sub, Unavailable);
      case Silent => Transfer(sub, Unavailable);
    }

    method GoSilent(sub: DpropDb)
      requires sub.Valid() && sub.Registers(this)
      modifies this`state, sub
      ensures sub.Valid() && sub.allHosts == old(sub.allHosts)
      ensures sub.View() == if old(state) == Unavailable then old(sub.View())
                            else Pools.Move(old(sub.View()), ip, Silent)
    {
      match state
      case Available => Transfer(sub, Silent);
      case Unavailable =>
      case Overloaded => Transfer(sub, Silent);
      case Silent =>
    }

    method GoOverloaded(sub: DpropDb)
      requires sub.Valid() && sub.Registers(this)
      modifies this`state, sub
      ensures sub.Valid() && sub.allHosts == old(sub.allHosts)
      ensures sub.View() == if old(state) == Available then Pools.Move(old(sub.View()), ip, Overloaded)
                            else old(sub.View())
    {
      if state == Available {
        Transfer(sub, Overloaded);
      }
    }

    // --------------------------------------------------------------------------- the loads

    predicate SeemsDown(now: int)
      reads this
    {
      Rec().SeemsDown(now)
    }

    method SetLoads(sub: DpropDb, l: Loads, now: int)
      requires sub.Registers(this)
      modifies this`loads, this`lastUpdate
      ensures sub.allHosts == old(sub.allHosts)
      ensures sub.Snap() == SetHost(old(sub.Snap()), old(Rec()).(loads := l, lastUpdate := now))
    {
      loads := l;
      lastUpdate := now;
    }

    /** The cpus are moved, or the host is taken out of service, while the old loads are
        still in place: both find the host's cpus through its old tier. */
    method UpdateTier(sub: DpropDb, raw: Loads, now: int)
      requires sub.Valid() && sub.Registers(this)
      modifies this, sub
      ensures sub.Valid() && sub.allHosts == old(sub.allHosts)
      ensures sub.View() == Pools.Retune(old(sub.View()), ip, raw, now)
    {
      hide Inv, CalcTier;
      ghost var h' := Rec().Hearing(raw, now);
      ghost var s := sub.Snap();
      var l := PerCpu(raw, ncpus);
      var newTier := CalcTier(l, pindex);
      var oldTier := GetTier();
      if newTier != oldTier {
        if newTier == 0 {
          GoOverloaded(sub);
          SetLoadsKeeps(sub.Snap(), Rec().Hearing(raw, now));
        } else {
          RetierKeeps(s, h');
          sub.MoveCpus(this, oldTier, newTier);
        }
      } else {
        SetLoadsKeeps(s, h');
      }
      SetLoads(sub, l, now);
    }
  }

  // ============================================================================ sub-database

  class DpropDb {
    const dprop: Dprop
    var allHosts: map<Ip, Host>
    var availHosts: set<Ip>
    var unavailHosts: set<Ip>
    var silentHosts: set<Ip>
    var overloadedHosts: set<Ip>
    var availCpus: map<int, seq<Ip>>
    var assignedCpus: map<Socket, Ip>
    var numAssignedCpus: nat
    var numConcurrentAssigned: nat

    ghost function Recs(): map<Ip, HostRec>
      reads this`allHosts, allHosts.Values
    {
      map ip | ip in allHosts :: allHosts[ip].Rec()
    }

    lemma RecsKnown()
      ensures Recs().Keys == allHosts.Keys
      ensures forall ip :: ip in allHosts ==> Recs()[ip] == allHosts[ip].Rec()
    {
    }

    /** The contents of the database and of its hosts at this moment. */
    ghost function Snap(): SubDb
      reads this, allHosts.Values
    {
      SubDb(dprop, Recs(), availHosts, unavailHosts, silentHosts, overloadedHosts,
            availCpus, assignedCpus, numAssignedCpus, numConcurrentAssigned)
    }

    ghost predicate Valid()
      reads this, allHosts.Values
    {
      Wired() && Inv(Snap())
    }

    ghost function View(): Pools.Pool
      reads this, allHosts.Values
    {
      SubDbs.View(Snap())
    }

    lemma ViewKnows()
      ensures View().hosts.Keys == allHosts.Keys
    {
    }

    ghost predicate Wired()
      reads this`allHosts, allHosts.Values
    {
      forall ip :: ip in allHosts ==> allHosts[ip].ip == ip && allHosts[ip].dprop == dprop
    }

    twostate lemma SameView()
      requires unchanged(this) && forall h :: h in allHosts.Values ==> unchanged(h)
      ensures View() == old(View()) && Valid() == old(Valid())
    {
      hide SubDbs.View, Inv, Wired;
    }

    /** `h` is the host that this database knows under its address. */
    ghost predicate Registers(h: Host)
      reads this, allHosts.Values
    {
      Wired() && h.ip in allHosts && allHosts[h.ip] == h
    }

    constructor (dprop: Dprop)
      ensures this.dprop == dprop && allHosts == map[]
      ensures Valid() && View() == Pools.EMPTY
    {
      this.dprop := dprop;
      allHosts := map[];
      availHosts, unavailHosts, silentHosts, overloadedHosts := {}, {}, {}, {};
      availCpus, assignedCpus := map[], map[];
      numAssignedCpus, numConcurrentAssigned := 0, 0;
      new;
      assert Snap() == Empty(dprop);
      EmptyKeeps(dprop);
    }

    method GetHost(ip: Ip) returns (r: Option<Host>)
      ensures r == if ip in allHosts then Some(allHosts[ip]) else None
    {
      if ip in allHosts {
        r := Some(allHosts[ip]);
      } else {
        r := None;
      }
    }

    // -------------------------------------------------------------- the sets and the tiers

    method AddCpusToTier(tier: int, ip: Ip, n: nat)
      modifies this`availCpus
      ensures Snap() == AddCpus(old(Snap()), tier, ip, n)
    {
      if tier !in availCpus {
        availCpus := availCpus[tier := []];
      }
      availCpus := availCpus[tier := availCpus[tier] + Copies(n, ip)];
    }

    /** `count` is the number of cpus removed. */
    method DelCpusFromTier(tier: int, ip: Ip) returns (count: nat)
      modifies this`availCpus
      ensures Snap() == DelCpus(old(Snap()), tier, ip)
      ensures count == CountIn(old(Snap()), tier, ip)
    {
      if tier !in availCpus {
        return 0;
      }
      var l;
      l, count := EraseAll(availCpus[tier], ip);
      availCpus := availCpus[tier := l];
    }

    method MoveCpus(h: Host, oldTier: int, newTier: int)
      requires Registers(h)
      modifies this`availCpus
      ensures Snap() == SubDbs.MoveCpus(old(Snap()), h.ip, oldTier, newTier)
    {
      var n := DelCpusFromTier(oldTier, h.ip);
      AddCpusToTier(newTier, h.ip, n);
    }

    method AddToAvailDb(h: Host)
      modifies this`availHosts, this`availCpus
      ensures Snap() == AddCpus(old(Snap()).(avail := old(availHosts) + {h.ip}), h.GetTier(), h.ip, h.ncpus)
    {
      availHosts := availHosts + {h.ip};
      AddCpusToTier(h.GetTier(), h.ip, h.ncpus);
    }

    method DelFromAvailDb(h: Host)
      modifies this`availHosts, this`availCpus
      ensures Snap() == if h.GetTier() in old(availCpus)
                        then DelCpus(old(Snap()), h.GetTier(), h.ip).(avail := old(availHosts) - {h.ip})
                        else old(Snap())
    {
      if h.GetTier() !in availCpus {
        return;
      }
      availCpus := availCpus[h.GetTier() := Without(availCpus[h.GetTier()], h.ip)];
      availHosts := availHosts - {h.ip};
    }

    method AddToUnavailDb(h: Host)
      modifies this`unavailHosts
      ensures Snap() == old(Snap()).(unavail := old(unavailHosts) + {h.ip})
    {
      unavailHosts := unavailHosts + {h.ip};
    }

    method DelFromUnavailDb(h: Host)
      modifies this`unavailHosts
      ensures Snap() == old(Snap()).(unavail := old(unavailHosts) - {h.ip})
    {
      unavailHosts := unavailHosts - {h.ip};
    }

    method AddToOverloadedDb(h: Host)
      modifies this`overloadedHosts
      ensures Snap() == old(Snap()).(overloaded := old(overloadedHosts) + {h.ip})
    {
      overloadedHosts := overloadedHosts + {h.ip};
    }

    method DelFromOverloadedDb(h: Host)
      modifies this`overloadedHosts
      ensures Snap() == old(Snap()).(overloaded := old(overloadedHosts) - {h.ip})
    {
      overloadedHosts := overloadedHosts - {h.ip};
    }

    method AddToSilentDb(h: Host)
      modifies this`silentHosts
      ensures Snap() == old(Snap()).(silent := old(silentHosts) + {h.ip})
    {
      silentHosts := silentHosts + {h.ip};
    }

    method DelFromSilentDb(h: Host)
      modifies this`silentHosts
      ensures Snap() == old(Snap()).(silent := old(silentHosts) - {h.ip})
    {
      silentHosts := silentHosts - {h.ip};
    }

    /** Whatever host is passed: an address that is known already keeps its host, and the cpus
        are added all the same.  A new address enters with exactly its cpus. */
    method AddNewHost(h: Host)
      requires Wired() && h.dprop == dprop
      modifies this
      ensures allHosts == if h.ip in old(allHosts) then old(allHosts) else old(allHosts)[h.ip := h]
      ensures var s := old(Snap());
        var s1 := if h.ip in s.hosts then s else SetHost(s, h.Rec());
        Snap() == AddCpus(s1.(avail := s1.avail + {h.ip}), h.GetTier(), h.ip, h.ncpus)
      ensures old(Valid()) && h.ip !in old(allHosts) && h.state == Available ==>
        Valid() && View() == Pools.Enrol(old(View()), h.ip, h.Rec())
    {
      ghost var s, valid := Snap(), Valid();
      RecsKnown();
      if valid && h.ip !in allHosts && h.state == Available {
        EnrolKeeps(s, h.Rec());
      }
      hide Inv, CalcTier, Recs;
      AddToAllHosts(h);
      AddToAvailDb(h);
    }

    method AddToAllHosts(h: Host)
      requires Wired() && h.dprop == dprop
      modifies this`allHosts
      ensures Wired() && allHosts == if h.ip in old(allHosts) then old(allHosts) else old(allHosts)[h.ip := h]
      ensures Snap() == if h.ip in old(allHosts) then old(Snap()) else SetHost(old(Snap()), h.Rec())
    {
      if h.ip !in allHosts {
        allHosts := allHosts[h.ip := h];
        assert Recs() == old(Recs())[h.ip := h.Rec()];
      }
    }

    // ------------------------------------------------------------------------ cpus in use

    /** A random cpu of the highest tier that has one. */
    method GetBestAvailCpu() returns (r: Option<Ip>)
      requires Valid()
      modifies this`availCpus
      ensures Valid()
      ensures match r
              case Some(ip) => Pools.Best(old(View()), ip) && View() == Pools.Take(old(View()), ip)
              case None => old(View()).free == multiset{} && View() == old(View())
    {
      ghost var s := Snap();
      hide Inv, CalcTier, Recs, Wired, Pools.Best, Pools.Take;
      RecsKnown();
      var best := BestTier(availCpus);
      if best == None {
        NothingFree(s);
        return None;
      }
      var tier := best.value;
      var n :| 0 <= n < |availCpus[tier]|;
      TakeKeeps(s, tier, n);
      r := Some(availCpus[tier][n]);
      RemoveNth(tier, n);
    }

    method RemoveNth(tier: int, n: nat)
      requires tier in availCpus && n < |availCpus[tier]|
      modifies this`availCpus
      ensures var l := old(Snap()).tiers[tier];
              Snap() == old(Snap()).(tiers := old(Snap()).tiers[tier := l[..n] + l[n + 1..]])
    {
      var l := availCpus[tier];
      availCpus := availCpus[tier := l[..n] + l[n + 1..]];
    }

    method AssignCpuToClient(ip: Ip, k: Socket)
      requires Valid()
      modifies this
      ensures Valid() && allHosts == old(allHosts)
      ensures View() == Pools.Assign(old(View()), k, ip)
    {
      hide Inv, Recs;
      if k !in assignedCpus {
        assignedCpus := assignedCpus[k := ip];
      }
      numAssignedCpus := numAssignedCpus + 1;
      var t := |assignedCpus|;
      if t > numConcurrentAssigned {
        numConcurrentAssigned := t;
      }
      BooksKeep(old(Snap()), assignedCpus, numAssignedCpus, numConcurrentAssigned);
      assert Snap() == old(Snap()).(held := assignedCpus, served := numAssignedCpus, peak := numConcurrentAssigned);
    }

    /** The cpu comes back to the list of the tier that its host has now. */
    method ReleaseCpu(k: Socket)
      requires Valid()
      modifies this
      ensures Valid() && allHosts == old(allHosts)
      ensures View() == Pools.Release(old(View()), k)
      ensures Snap() == if k in old(assignedCpus) then GivenBack(old(Snap()), k) else old(Snap())
    {
      if k !in assignedCpus {
        return;
      }
      ghost var s := Snap();
      hide Inv, CalcTier, Recs, Wired;
      var ip := assignedCpus[k];
      BooksKeep(s, assignedCpus - {k}, numAssignedCpus, numConcurrentAssigned);
      assignedCpus := assignedCpus - {k};
      assert Snap() == s.(held := s.held - {k});
      TakeBack(ip);
    }

    method TakeBack(ip: Ip)
      requires Valid()
      modifies this`availCpus
      ensures Valid()
      ensures View() == var p := old(View());
                        if ip in p.hosts && p.hosts[ip].state == Available then p.(free := p.free + multiset{ip}) else p
      ensures Snap() == BackInTier(old(Snap()), ip)
    {
      hide Inv, CalcTier, Recs, Wired;
      RecsKnown();
      var h := GetHost(ip);
      if h.Some? && h.value.state == Available {
        GiveBackKeeps(Snap(), ip);
        AddCpusToTier(h.value.GetTier(), ip, 1);
      }
    }

    method CheckHost(ip: Ip, clock: Clock)
      requires Valid() && ip in allHosts
      modifies this, allHosts[ip]
      ensures Valid() && allHosts == old(allHosts)
      ensures ip in old(View()).hosts
      ensures View() == if Pools.Swept(old(View()).hosts[ip], clock) then Pools.Move(old(View()), ip, Silent)
                        else old(View())
    {
      hide Inv, CalcTier, Recs;
      RecsKnown();
      if allHosts[ip].SeemsDown(clock(dprop, ip)) {
        allHosts[ip].GoSilent(this);
      }
    }

    /** Every host that seems down is told so. */
    method HandleSilentHosts(clock: Clock)
      requires Valid()
      modifies this, allHosts.Values
      ensures Valid() && allHosts == old(allHosts)
      ensures View() == Pools.Sweep(old(View()), clock)
    {
      hide Valid, Snap, Recs, Pools.Hush, Pools.SweptSet;
      ghost var p := View();
      ViewKnows();
      var todo := allHosts.Keys;
      Pools.HushNone(p, clock);
      while todo != {}
        invariant todo <= allHosts.Keys && allHosts == old(allHosts)
        invariant Valid()
        invariant View() == Pools.Hush(p, Pools.SweptSet(p, clock) - todo)
        decreases todo
      {
        var ip :| ip in todo;
        CheckHost(ip, clock);
        Pools.HushStep(p, todo, ip, clock);
        todo := todo - {ip};
      }
      assert Pools.SweptSet(p, clock) - todo == Pools.SweptSet(p, clock);
    }

    method GetStatsFromDb() returns (st: Pools.Stats)
      requires Valid()
      modifies this
      ensures Valid() && allHosts == old(allHosts)
      ensures st == Pools.Report(old(View())) && View() == Pools.Restart(old(View()))
    {
      ghost var s := Snap();
      BooksKeep(s, assignedCpus, 0, 0);
      hide Inv, Recs, CalcTier, Wired;
      var served, peak := numAssignedCpus, numConcurrentAssigned;
      numAssignedCpus, numConcurrentAssigned := 0, 0;
      var total := TotalAvail();
      st := Pools.Stats(served, peak, total + |assignedCpus|);
      assert Snap() == s.(served := 0, peak := 0);
    }

    /** The number of free cpus, tier by tier. */
    method TotalAvail() returns (total: nat)
      ensures total == |Bag(availCpus)|
    {
      total := 0;
      var todo := availCpus.Keys;
      ghost var done: map<int, seq<Ip>> := map[];
      while todo != {}
        invariant todo <= availCpus.Keys
        invariant done == map t | t in availCpus && t !in todo :: availCpus[t]
        invariant total == |Bag(done)|
        decreases todo
      {
        SomeMember(todo);
        var t :| t in todo;
        total := total + |availCpus[t]|;
        BagPut(done, t, availCpus[t]);
        done := done[t := availCpus[t]];
        todo := todo - {t};
      }
      assert done == availCpus;
    }

    // -------------------------------------------------------------------------- the report

    method WriteHosts() returns (text: string)
      requires Wired()
      ensures text == Reports.HostsText(Snap(), Snap().hosts.Keys)
    {
      hide Text.Ntoa, Text.Decimal, Reports.HostsText, Orders.Total;
      RecsKnown();
      ghost var s := Snap();
      text := "";
      Reports.IpsOrdered();
      Reports.NoLines(s);
      var todo := allHosts.Keys;
      while todo != {}
        invariant todo <= allHosts.Keys
        invariant text + Reports.HostsText(s, todo) == Reports.HostsText(s, s.hosts.Keys)
        decreases todo
      {
        var ip := Orders.First(todo, Reports.IpLess);
        Reports.NextHostLine(s, ip, todo);
        var h := allHosts[ip];
        text := text + ("H: " + (Text.Ntoa(h.ip) + (" " + (Text.Decimal(Reports.Code(h.state)) + "\n"))));
        todo := todo - {ip};
      }
    }

    method WriteTiers() returns (text: string)
      ensures text == Reports.TiersText(Snap(), Snap().tiers.Keys)
    {
      hide Recs, Reports.Line, Reports.TierLineOf, Reports.TiersText, Orders.Total;
      ghost var s := Snap();
      text := "";
      Reports.TiersOrdered();
      Reports.NoLines(s);
      var todo := availCpus.Keys;
      while todo != {}
        invariant todo <= availCpus.Keys
        invariant text + Reports.TiersText(s, todo) == Reports.TiersText(s, s.tiers.Keys)
        decreases todo
      {
        var tier := Orders.First(todo, Reports.Higher);
        Reports.NextTierLine(s, tier, todo);
        if availCpus[tier] != [] {
          var line := Reports.WriteTier(tier, availCpus[tier]);
          text := text + line;
        }
        todo := todo - {tier};
      }
    }

    /** The report on this sub-database. */
    method Serialize() returns (text: string)
      requires Wired()
      ensures text == Reports.Render(Reports.ReportOf(Snap()))
    {
      var hosts := WriteHosts();
      var tiers := WriteTiers();
      text := "D: '" + (dprop + "'\n") + hosts + tiers;
      Reports.RenderParts(Snap());
    }
  }

  /** The loop that erases every occurrence of `ip` from a list while iterating over it. */
  method EraseAll(l0: seq<Ip>, ip: Ip) returns (l: seq<Ip>, count: nat)
    ensures l == Without(l0, ip)
    ensures count == multiset(l0)[ip] == |l0| - |l|
  {
    l, count := l0, 0;
    var i := 0;
    ghost var kept: seq<Ip>, rest: seq<Ip> := [], l0;
    while i < |l|
      invariant i == |kept| && l == kept + rest
      invariant Without(l0, ip) == kept + Without(rest, ip)
      invariant count == |l0| - |l|
      decreases |rest|
    {
      if l[i] == ip {
        l := l[..i] + l[i + 1..];
        count := count + 1;
      } else {
        i := i + 1;
        kept := kept + [rest[0]];
      }
      rest := rest[1..];
    }
    WithoutCounts(l0, ip);
  }

  /** The highest tier whose list is not empty. */
  method BestTier(tiers: map<int, seq<Ip>>) returns (r: Option<int>)
    ensures match r
            case Some(t) => t in tiers && tiers[t] != [] && forall u :: u in tiers && u > t ==> tiers[u] == []
            case None => forall u :: u in tiers ==> tiers[u] == []
  {
    Reports.TiersOrdered();
    var todo := tiers.Keys;
    while todo != {}
      invariant todo <= tiers.Keys
      invariant forall t :: t in tiers && t !in todo ==> tiers[t] == []
      decreases todo
    {
      var tier := Orders.First(todo, Reports.Higher);
      if tiers[tier] != [] {
        return Some(tier);
      }
      todo := todo - {tier};
    }
    r := None;
  }
}
