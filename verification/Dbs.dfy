/** The database of all dprops, and the index from connections to dprops. */
module Dbs {
  import opened Types
  import opened Pools
  import opened DpropDbs
  import opened Sums
  import SubDbs
  import Orders
  import Reports

  class Db {
    var dbDb: map<Dprop, DpropDb>
    var sock2Dprop: map<Socket, Dprop>
    ghost var Repr: set<object>

    ghost predicate Valid()
      reads this, Repr
    {
      && this in Repr
      && (forall d :: d in dbDb ==>
            && dbDb[d] in Repr && dbDb[d].allHosts.Values <= Repr
            && dbDb[d].dprop == d && dbDb[d].Valid())
      && (forall k :: k in sock2Dprop ==> sock2Dprop[k] in dbDb)
    }

    ghost function PoolMap(): map<Dprop, Pool>
      requires Valid()
      reads this, Repr
    {
      map d | d in dbDb :: dbDb[d].View()
    }

    ghost function PoolFor(d: Dprop): Pool
      requires Valid()
      reads this, Repr
    {
      if d in dbDb then dbDb[d].View() else EMPTY
    }

    ghost predicate Has(d: Dprop, ip: Ip)
      requires Valid()
      reads this, Repr
    {
      d in dbDb && ip in dbDb[d].allHosts
    }

    constructor ()
      ensures Valid() && fresh(Repr) && PoolMap() == map[] && sock2Dprop == map[]
    {
      dbDb, sock2Dprop, Repr := map[], map[], {this};
    }

    /** If only the sub-database of `d` and its hosts changed, only its pool changed. */
    twostate lemma OnlyPool(d: Dprop)
      requires old(Valid()) && this in Repr && d in dbDb && dbDb[d].dprop == d && dbDb[d].Valid()
      requires old(Repr) <= Repr && dbDb[d] in Repr && dbDb[d].allHosts.Values <= Repr
      requires dbDb.Keys == old(dbDb).Keys + {d}
      requires forall c :: c in old(dbDb) && c != d ==> dbDb[c] == old(dbDb[c]) && unchanged(dbDb[c])
      requires forall c, ip :: c in old(dbDb) && c != d && ip in old(dbDb[c].allHosts) ==>
        unchanged(old(dbDb[c].allHosts[ip]))
      requires forall k :: k in sock2Dprop ==> sock2Dprop[k] in dbDb
      ensures Valid() && PoolMap() == old(PoolMap())[d := dbDb[d].View()]
    {
      hide DpropDb.View, DpropDb.Valid;
      forall c | c in old(dbDb) && c != d
        ensures dbDb[c].View() == old(dbDb[c].View()) && dbDb[c].Valid()
      {
        assert old(dbDb[c].allHosts) == dbDb[c].allHosts;
        assert forall h :: h in dbDb[c].allHosts.Values ==> unchanged(h);
        dbDb[c].SameView();
      }
    }

    /** Hosts and sub-databases of different dprops are different objects. */
    lemma Apart(d: Dprop)
      requires Valid() && d in dbDb
      ensures forall c :: c in dbDb && c != d ==> dbDb[c] != dbDb[d]
      ensures forall c, ip :: c in dbDb && c != d && ip in dbDb[c].allHosts ==>
        dbDb[c].allHosts[ip].dprop == c && dbDb[c].allHosts[ip] !in dbDb[d].allHosts.Values
    {
      hide SubDbs.Inv;
    }

    lemma Known(d: Dprop, ip: Ip)
      requires Valid() && Has(d, ip)
      ensures PoolFor(d) == dbDb[d].View()
      ensures ip in PoolFor(d).hosts && PoolFor(d).hosts[ip] == dbDb[d].allHosts[ip].Rec()
      ensures dbDb[d].Registers(dbDb[d].allHosts[ip])
    {
      hide SubDbs.Inv;
    }

    method GetHost(ip: Ip, dprop: Dprop) returns (r: Option<Host>)
      requires Valid()
      ensures r.Some? <==> Has(dprop, ip)
      ensures r.Some? ==> r.value == dbDb[dprop].allHosts[ip]
    {
      if dprop in dbDb {
        r := dbDb[dprop].GetHost(ip);
      } else {
        r := None;
      }
    }

    // ------------------------------------------------------------------------------- new hosts

    /** The sub-database of a dprop, created when the first host of that dprop turns up. */
    method SubFor(dprop: Dprop) returns (sub: DpropDb)
      requires Valid()
      modifies this
      ensures Valid() && fresh(Repr - old(Repr)) && sock2Dprop == old(sock2Dprop)
      ensures dprop in dbDb && sub == dbDb[dprop]
      ensures if dprop in old(dbDb) then dbDb == old(dbDb) else sub.allHosts == map[]
      ensures PoolMap() == old(PoolMap())[dprop := old(PoolFor(dprop))]
    {
      hide DpropDb.View, DpropDb.Valid;
      if dprop in dbDb {
        sub := dbDb[dprop];
      } else {
        sub := new DpropDb(dprop);
        dbDb := dbDb[dprop := sub];
        Repr := Repr + {sub};
      }
      OnlyPool(dprop);
    }

    method AddHostTo(sub: DpropDb, ip: Ip, info: HostInfo)
      requires Valid() && sub.dprop in dbDb && sub == dbDb[sub.dprop] && !Has(sub.dprop, ip)
      modifies this, sub
      ensures Valid() && sock2Dprop == old(sock2Dprop) && fresh(Repr - old(Repr))
      ensures PoolMap() == old(PoolMap())[sub.dprop := Enrol(old(sub.View()), ip, NewHost(ip, sub.dprop, info))]
    {
      hide DpropDb.View, DpropDb.Valid, Enrol, SubDbs.AddCpus, SubDbs.SetHost;
      hide Host.GetTier, Host.Rec, DpropDb.Snap, DpropDb.Wired, NewHost;
      Apart(sub.dprop);
      assert sub.Wired() by { WiredAt(sub.dprop); }
      var h := new Host(ip, sub.dprop, info);
      sub.AddNewHost(h);
      Repr := Repr + {h};
      OnlyPool(sub.dprop);
    }

    /** Look the address up in the hosts-info file and, if it is there, add a new host. */
    method CreateHost(ip: Ip, dprop: Dprop, info: Option<HostInfo>)
      requires Valid() && !Has(dprop, ip)
      modifies Repr
      ensures Valid() && sock2Dprop == old(sock2Dprop) && fresh(Repr - old(Repr))
      ensures PoolMap() == if info.None? then old(PoolMap())
        else old(PoolMap())[dprop := Enrol(old(PoolFor(dprop)), ip, NewHost(ip, dprop, info.value))]
    {
      hide DpropDb.View, DpropDb.Valid;
      if info == None {
        return;
      }
      var sub := SubFor(dprop);
      assert sub.View() == PoolMap()[dprop];
      AddHostTo(sub, ip, info.value);
    }

    // ----------------------------------------------------------------------------- known hosts

    /** A load message for a host that is known. */
    method HostLoad(h: Host, raw: Loads, now: int)
      requires Valid() && Has(h.dprop, h.ip) && dbDb[h.dprop].allHosts[h.ip] == h
      modifies Repr
      ensures Valid() && sock2Dprop == old(sock2Dprop) && Repr == old(Repr)
      ensures h.ip in old(PoolFor(h.dprop)).hosts
      ensures PoolMap() == old(PoolMap())[h.dprop := HearLoad(old(PoolFor(h.dprop)), h.ip, raw, now)]
    {
      var sub := dbDb[h.dprop];
      Apart(h.dprop);
      Known(h.dprop, h.ip);
      HearLoadSteps(sub.View(), h.ip, raw, now);
      LoadInSub(sub, h, raw, now);
      hide DpropDb.View, DpropDb.Valid;
      OnlyPool(h.dprop);
    }

    static method LoadInSub(sub: DpropDb, h: Host, raw: Loads, now: int)
      requires sub.Valid() && sub.Registers(h)
      modifies h, sub
      ensures sub.Valid() && sub.allHosts == old(sub.allHosts)
      ensures h.ip in old(sub.View()).hosts
      ensures sub.View() == HearLoad(old(sub.View()), h.ip, raw, now)
    {
      hide SubDbs.Inv;
      sub.RecsKnown();
      HearLoadSteps(sub.View(), h.ip, raw, now);
      hide HearLoad;
      h.UpdateTier(sub, raw, now);
      sub.RecsKnown();
      hide Retune;
      if h.state == Silent || (h.state == Overloaded && h.GetTier() != 0) {
        h.Avail(sub);
      }
    }

    /** A status message for a host that is known. */
    method HostStatus(h: Host, up: bool)
      requires Valid() && Has(h.dprop, h.ip) && dbDb[h.dprop].allHosts[h.ip] == h
      modifies Repr
      ensures Valid() && sock2Dprop == old(sock2Dprop) && Repr == old(Repr)
      ensures h.ip in old(PoolFor(h.dprop)).hosts
      ensures PoolMap() == old(PoolMap())[h.dprop :=
        if up then Up(old(PoolFor(h.dprop)), h.ip) else Down(old(PoolFor(h.dprop)), h.ip)]
    {
      hide DpropDb.View, DpropDb.Valid, Up, Down;
      var sub := dbDb[h.dprop];
      Apart(h.dprop);
      Known(h.dprop, h.ip);
      if up {
        h.Avail(sub);
      } else {
        h.Unavail(sub);
      }
      OnlyPool(h.dprop);
    }

    // ----------------------------------------------------------------------------- cpus in use

    /** None stands for the exception thrown when nothing is free; a dprop that no host has
        yields the address 0.0.0.0 instead. */
    method GetBestAvailCpu(dprop: Dprop) returns (r: Option<Ip>)
      requires Valid()
      modifies Repr
      ensures Valid() && sock2Dprop == old(sock2Dprop) && Repr == old(Repr) && dbDb == old(dbDb)
      ensures if dprop !in dbDb then r == Some(NO_HOST) && PoolMap() == old(PoolMap())
              else match r
                   case Some(ip) => Best(old(PoolFor(dprop)), ip)
                     && PoolMap() == old(PoolMap())[dprop := Take(old(PoolFor(dprop)), ip)]
                   case None => old(PoolFor(dprop)).free == multiset{} && PoolMap() == old(PoolMap())
    {
      if dprop !in dbDb {
        return Some(NO_HOST);
      }
      hide DpropDb.View, DpropDb.Valid, Best, Take;
      Apart(dprop);
      r := dbDb[dprop].GetBestAvailCpu();
      OnlyPool(dprop);
    }

    method AssignCpuToClient(ip: Ip, dprop: Dprop, k: Socket)
      requires Valid() && dprop in dbDb
      modifies Repr
      ensures Valid() && Repr == old(Repr)
      ensures sock2Dprop == if k in old(sock2Dprop) then old(sock2Dprop) else old(sock2Dprop)[k := dprop]
      ensures PoolMap() == old(PoolMap())[dprop := Assign(old(PoolFor(dprop)), k, ip)]
    {
      hide DpropDb.View, DpropDb.Valid, Assign;
      Apart(dprop);
      if k !in sock2Dprop {
        sock2Dprop := sock2Dprop[k := dprop];
      }
      dbDb[dprop].AssignCpuToClient(ip, k);
      OnlyPool(dprop);
    }

    method ReleaseCpu(k: Socket)
      requires Valid()
      modifies Repr
      ensures Valid() && Repr == old(Repr)
      ensures if k !in old(sock2Dprop) then sock2Dprop == old(sock2Dprop) && PoolMap() == old(PoolMap())
              else && sock2Dprop == old(sock2Dprop) - {k}
                   && PoolMap() == old(PoolMap())[old(sock2Dprop[k]) := Release(old(PoolFor(sock2Dprop[k])), k)]
    {
      hide DpropDb.View, DpropDb.Valid, Release;
      if k !in sock2Dprop {
        return;
      }
      var dprop := sock2Dprop[k];
      Apart(dprop);
      sock2Dprop := sock2Dprop - {k};
      dbDb[dprop].ReleaseCpu(k);
      OnlyPool(dprop);
    }

    // -------------------------------------------------------------------- the background threads

    method SweepOne(dprop: Dprop, clock: Clock)
      requires Valid() && dprop in dbDb
      modifies Repr
      ensures Valid() && Repr == old(Repr) && dbDb == old(dbDb) && sock2Dprop == old(sock2Dprop)
      ensures PoolMap() == old(PoolMap())[dprop := Sweep(old(PoolMap())[dprop], clock)]
    {
      hide DpropDb.View, DpropDb.Valid, Sweep;
      Apart(dprop);
      dbDb[dprop].HandleSilentHosts(clock);
      OnlyPool(dprop);
    }

    method HandleSilentHosts(clock: Clock)
      requires Valid()
      modifies Repr
      ensures Valid() && Repr == old(Repr) && sock2Dprop == old(sock2Dprop)
      ensures PoolMap() == map d | d in old(PoolMap()) :: Sweep(old(PoolMap())[d], clock)
    {
      hide DpropDb.View, DpropDb.Valid, Sweep;
      ghost var m := PoolMap();
      var todo := dbDb.Keys;
      while todo != {}
        invariant Valid() && Repr == old(Repr) && dbDb == old(dbDb) && sock2Dprop == old(sock2Dprop)
        invariant todo <= dbDb.Keys && m.Keys == dbDb.Keys
        invariant PoolMap() == map d | d in m :: if d in todo then m[d] else Sweep(m[d], clock)
        decreases todo
      {
        var dprop :| dprop in todo;
        SweepOne(dprop, clock);
        todo := todo - {dprop};
      }
    }

    method CollectOne(dprop: Dprop) returns (st: Stats)
      requires Valid() && dprop in dbDb
      modifies Repr
      ensures Valid() && Repr == old(Repr) && dbDb == old(dbDb) && sock2Dprop == old(sock2Dprop)
      ensures st == Report(old(PoolMap())[dprop])
      ensures PoolMap() == old(PoolMap())[dprop := Restart(old(PoolMap())[dprop])]
    {
      hide DpropDb.View, DpropDb.Valid, Report, Restart;
      Apart(dprop);
      st := dbDb[dprop].GetStatsFromDb();
      OnlyPool(dprop);
    }

    method GetStatsFromDb() returns (st: Stats)
      requires Valid()
      modifies Repr
      ensures Valid() && Repr == old(Repr) && sock2Dprop == old(sock2Dprop)
      ensures st == SumOf(old(PoolMap()))
      ensures PoolMap() == map d | d in old(PoolMap()) :: Restart(old(PoolMap())[d])
    {
      hide DpropDb.View, DpropDb.Valid, Report, Restart, SumOf, Restarted, Reported;
      ghost var m := PoolMap();
      st := Stats(0, 0, 0);
      SumNone();
      NoneRestarted(m);
      AllRestarted(m);
      var todo := dbDb.Keys;
      while todo != {}
        invariant Valid() && Repr == old(Repr) && dbDb == old(dbDb) && sock2Dprop == old(sock2Dprop)
        invariant todo <= dbDb.Keys && m.Keys == dbDb.Keys
        invariant PoolMap() == Restarted(m, todo)
        invariant st == SumOf(Reported(m, todo))
        decreases todo
      {
        var dprop :| dprop in todo;
        OneRestarted(m, todo, dprop);
        var one := CollectOne(dprop);
        st := Stats(st.served + one.served, st.peak + one.peak, st.total + one.total);
        todo := todo - {dprop};
      }
    }

    // ------------------------------------------------------------------------------ the report

    ghost function Snaps(): map<Dprop, SubDbs.SubDb>
      requires Valid()
      reads this, Repr
    {
      map d | d in dbDb :: dbDb[d].Snap()
    }

    /** The reports of all sub-databases, one after the other. */
    method Serialize() returns (text: string)
      requires Valid()
      ensures text == Reports.Render(Reports.FullReport(Snaps()))
    {
      hide DpropDb.Snap, DpropDb.Valid, Orders.Total;
      hide Reports.SectionsText, Reports.FullReport, Reports.Render, Reports.ReportOf;
      ghost var subs := Snaps();
      text := "";
      Reports.DpropsOrdered();
      Reports.NoSections(subs);
      assert subs.Keys == dbDb.Keys;
      var todo := dbDb.Keys;
      while todo != {}
        invariant todo <= dbDb.Keys
        invariant text + Reports.SectionsText(subs, todo) == Reports.SectionsText(subs, subs.Keys)
        decreases todo
      {
        var dprop := Orders.First(todo, Reports.Precedes);
        Reports.NextSection(subs, dprop, todo);
        assert dbDb[dprop].Wired() by { WiredAt(dprop); }
        var one := dbDb[dprop].Serialize();
        text := text + one;
        todo := todo - {dprop};
      }
      Reports.WholeText(subs);
    }

    /** What is reported are the contents behind the pools. */
    lemma SnapsAre()
      requires Valid()
      ensures Snaps().Keys == PoolMap().Keys
      ensures forall d :: d in Snaps() ==> SubDbs.Inv(Snaps()[d]) && SubDbs.View(Snaps()[d]) == PoolMap()[d]
    {
    }

    lemma WiredAt(d: Dprop)
      requires Valid() && d in dbDb
      ensures dbDb[d].Wired()
    {
    }
  }
}
