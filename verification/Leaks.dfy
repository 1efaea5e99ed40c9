/** When a cpu stays assigned after its client has gone, and when it cannot. */
module Leaks {
  import opened Types
  import opened Pools
  import opened Protocol

  predicate Holds(s: State, k: Socket, d: Dprop) {
    d in s.pools && k in s.pools[d].held
  }

  ghost predicate Holder(s: State, k: Socket) {
    exists d :: Holds(s, k, d)
  }

  /** Every holder is indexed under the dprop it holds from, and is still watched. */
  ghost predicate Clean(s: State) {
    forall k, d :: Holds(s, k, d) ==> k in s.index && s.index[k] == d && k in s.fds
  }

  /** The messages that lose track of a cpu: any but a host request from a connection that
      holds a cpu, and a request from it for another dprop. */
  ghost predicate Careless(s: State, e: Event) {
    match e
    case Other(k) => Holder(s, k)
    case Load(k, _, _, _, _, _) => Holder(s, k)
    case Status(k, _, _, _, _) => Holder(s, k)
    case Record => !s.request.Idle? && s.request.sock in s.index && s.index[s.request.sock] != s.request.dprop
    case _ => false
  }

  lemma SameHolder(s: State, e: Event, k: Socket, d: Dprop)
    requires Invariant(s) && Enabled(s, e) && !e.Record? && !e.Close?
    ensures Holds(Step(s, e), k, d) <==> Holds(s, k, d)
  {
    StepOnPool(s, e, d);
    BooksStep(s, e, d);
    hide Step, PoolStep, Invariant, Enabled;
  }

  /** Who holds what changes only when an assignment is recorded or a connection closes. */
  lemma SameHolders(s: State, e: Event)
    requires Invariant(s) && Enabled(s, e) && !e.Record? && !e.Close?
    ensures Step(s, e).index == s.index
    ensures forall k, d :: Holds(Step(s, e), k, d) <==> Holds(s, k, d)
  {
    forall k, d ensures Holds(Step(s, e), k, d) <==> Holds(s, k, d) {
      SameHolder(s, e, k, d);
    }
    SameIndex(s, e);
    hide Step, Invariant, Enabled, Holds;
  }

  lemma SameIndex(s: State, e: Event)
    requires !e.Record? && !e.Close?
    ensures Step(s, e).index == s.index
  {
    if e.Load? {
      LoadPoolsOnly(s, e.dprop, e.ip, e.raw, e.now, e.info);
    } else if e.Status? {
      StatusPoolsOnly(s, e.dprop, e.ip, e.up, e.info);
    }
    hide OnLoad, OnStatus, PoolOf, Sweep, Restart, Take;
  }

  lemma CloseIsClean(s: State, k: Socket)
    requires Invariant(s) && Enabled(s, Close(k)) && Clean(s)
    ensures Clean(Step(s, Close(k)))
  {
    hide PoolOk, InService;
    var t := Step(s, Close(k));
    forall j, d | Holds(t, j, d) ensures j in t.index && t.index[j] == d && j in t.fds {
      assert Holds(s, j, d);
    }
  }

  lemma RecordIsClean(s: State)
    requires Invariant(s) && s.request.Resolved? && Clean(s)
    ensures Clean(Step(s, Record)) <==> !Careless(s, Record)
  {
    hide PoolOk;
    var t := Step(s, Record);
    var k, d := s.request.sock, s.request.dprop;
    assert Holds(t, k, d);
    assert forall j, c :: Holds(t, j, c) ==> Holds(s, j, c) || (j == k && c == d);
  }

  /** Exactly the careless messages break the agreement between holders, index and watched
      connections. */
  lemma CleanStep(s: State, e: Event)
    requires Invariant(s) && Enabled(s, e) && Clean(s)
    ensures Clean(Step(s, e)) <==> !Careless(s, e)
  {
    hide PoolOk, InService;
    match e {
      case Record => RecordIsClean(s);
      case Close(k) => CloseIsClean(s, k);
      case _ =>
        SameHolders(s, e);
        FdsDecide(s, e);
    }
  }

  lemma FdsDecide(s: State, e: Event)
    requires Invariant(s) && Enabled(s, e) && Clean(s) && !e.Record? && !e.Close?
    requires forall k, d :: Holds(Step(s, e), k, d) <==> Holds(s, k, d)
    requires Step(s, e).index == s.index
    ensures Clean(Step(s, e)) <==> !Careless(s, e)
  {
    hide Holds, Invariant, Sweep, Restart, OnLoad, OnStatus;
    var t := Step(s, e);
    assert t.fds == s.fds || (e.Accept? && t.fds == s.fds + {e.sock})
        || ((e.Other? || e.Load? || e.Status?) && t.fds == s.fds - {e.sock}) by {
      FdsOf(s, e);
    }
    if Careless(s, e) {
      var d :| Holds(s, e.sock, d);
      assert Holds(t, e.sock, d);
      FdsOf(s, e);
    } else {
      FdsOf(s, e);
    }
  }

  /** Which connections are watched after a step. */
  lemma FdsOf(s: State, e: Event)
    ensures Step(s, e).fds ==
      match e
      case Accept(k) => s.fds + {k}
      case Close(k) => s.fds - {k}
      case Other(k) => s.fds - {k}
      case Load(k, _, _, _, _, _) => s.fds - {k}
      case Status(k, _, _, _, _) => s.fds - {k}
      case _ => s.fds
  {
  }

  /** No message of the run was careless when it was handled. */
  ghost predicate Careful(es: seq<Event>) {
    es == [] || (Careful(es[..|es| - 1]) && !Careless(After(INIT, es[..|es| - 1]), es[|es| - 1]))
  }

  lemma {:induction false} CarefulIsClean(es: seq<Event>)
    requires Legal(INIT, es) && Careful(es)
    ensures Clean(After(INIT, es))
  {
    if es != [] {
      hide Invariant, Enabled, Clean, Careless, Step;
      var init := es[..|es| - 1];
      CarefulIsClean(init);
      Reachable(init);
      CleanStep(After(INIT, init), es[|es| - 1]);
    } else {
      assert Clean(INIT);
    }
  }

  /** If clients are careful, then once every connection has closed nothing is assigned. */
  lemma {:induction false} EverythingComesBack(es: seq<Event>, d: Dprop)
    requires Legal(INIT, es) && Careful(es) && After(INIT, es).fds == {}
    ensures PoolOf(After(INIT, es), d).held == map[] && After(INIT, es).index == map[]
  {
    var s := After(INIT, es);
    CarefulIsClean(es);
    Reachable(es);
    assert forall k :: k in PoolOf(s, d).held ==> Holds(s, k, d);
    if k :| k in s.index {
      assert Holds(s, k, s.index[k]);
    }
  }

  // ------------------------------------------------------------------------ without that care

  /** Closing the connection will not give this cpu back: the connection is gone already, or
      is indexed under another dprop. */
  ghost predicate Stuck(s: State, k: Socket, d: Dprop) {
    Holds(s, k, d) && (k in s.fds ==> k in s.index && s.index[k] != d)
  }

  lemma CloseKeepsStuck(s: State, j: Socket, k: Socket, d: Dprop)
    requires Invariant(s) && Enabled(s, Close(j)) && Stuck(s, k, d)
    ensures Stuck(Step(s, Close(j)), k, d)
  {
    hide PoolOk, InService;
  }

  lemma RecordKeepsStuck(s: State, k: Socket, d: Dprop)
    requires Invariant(s) && Enabled(s, Record) && Stuck(s, k, d)
    ensures Stuck(Step(s, Record), k, d)
  {
    hide PoolOk;
  }

  /** Only a new connection with the same handle can free a stuck cpu. */
  lemma StuckStep(s: State, e: Event, k: Socket, d: Dprop)
    requires Invariant(s) && Enabled(s, e) && Stuck(s, k, d) && e != Accept(k)
    ensures Stuck(Step(s, e), k, d)
  {
    match e {
      case Record => RecordKeepsStuck(s, k, d);
      case Close(j) => CloseKeepsStuck(s, j, k, d);
      case _ =>
        SameHolders(s, e);
        FdsOf(s, e);
        hide Step, Invariant, Enabled, Holds;
    }
  }

  lemma {:induction false} StuckStays(s: State, es: seq<Event>, k: Socket, d: Dprop)
    requires Invariant(s) && Legal(s, es) && Stuck(s, k, d) && Accept(k) !in es
    ensures Stuck(After(s, es), k, d)
  {
    if es != [] {
      hide Invariant, Step, Enabled, Stuck;
      var init, e := es[..|es| - 1], es[|es| - 1];
      StuckStays(s, init, k, d);
      KeepsInvariant(s, init);
      StuckStep(After(s, init), e, k, d);
    }
  }

  /** A handle that is used again does free it, if it was stuck under its indexed dprop. */
  lemma ReuseReleases(s: State, k: Socket)
    requires Invariant(s) && s.request.Idle? && k !in s.fds && k in s.index
    ensures Legal(s, [Accept(k), Close(k)])
    ensures !Holds(After(s, [Accept(k), Close(k)]), k, s.index[k])
  {
    Snoc(s, [], Accept(k));
    Snoc(s, [Accept(k)], Close(k));
    assert [] + [Accept(k)] == [Accept(k)] && [Accept(k)] + [Close(k)] == [Accept(k), Close(k)];
    hide PoolOk, InService;
  }

  ghost function Accepted(es: seq<Event>): set<Socket> {
    if es == [] then {}
    else
      var e := es[|es| - 1];
      Accepted(es[..|es| - 1]) + if e.Accept? then {e.sock} else {}
  }

  /** No handle is used for two connections. */
  ghost predicate NoReuse(es: seq<Event>) {
    forall i, j :: 0 <= i < j < |es| && es[i].Accept? && es[j].Accept? ==> es[i].sock != es[j].sock
  }

  lemma {:induction false} AcceptedAre(es: seq<Event>, k: Socket)
    ensures k in Accepted(es) <==> Accept(k) in es
  {
    if es != [] {
      var init := es[..|es| - 1];
      AcceptedAre(init, k);
      assert es == init + [es[|es| - 1]];
    }
  }

  /** Whoever is watched or holds a cpu has been accepted once. */
  ghost predicate AllAccepted(s: State, accepted: set<Socket>) {
    s.fds <= accepted && forall k, d :: Holds(s, k, d) ==> k in accepted
  }

  lemma AcceptedStep(s: State, e: Event, accepted: set<Socket>)
    requires Invariant(s) && Enabled(s, e) && AllAccepted(s, accepted)
    ensures AllAccepted(Step(s, e), accepted + if e.Accept? then {e.sock} else {})
  {
    NewHolders(s, e);
    if !e.Close? {
      FdsOf(s, e);
    }
    assert e.Close? ==> Step(s, e).fds <= s.fds;
    hide Step, Invariant, Enabled, Holds;
  }

  lemma NewHolders(s: State, e: Event)
    requires Invariant(s) && Enabled(s, e)
    ensures forall k, d :: Holds(Step(s, e), k, d) ==> Holds(s, k, d) || k in s.fds
  {
    if !e.Record? && !e.Close? {
      SameHolders(s, e);
      hide Step, Invariant, Enabled, Holds;
    } else if e.Record? {
      hide PoolOk;
    } else {
      hide PoolOk, InService;
    }
  }

  lemma {:induction false} AlwaysAccepted(es: seq<Event>)
    requires Legal(INIT, es)
    ensures AllAccepted(After(INIT, es), Accepted(es))
  {
    if es != [] {
      hide Invariant, Step, Enabled, AllAccepted;
      var init, e := es[..|es| - 1], es[|es| - 1];
      AlwaysAccepted(init);
      Reachable(init);
      AcceptedStep(After(INIT, init), e, Accepted(init));
    } else {
      assert AllAccepted(INIT, {});
    }
  }

  /** A careless message leaves a stuck cpu behind. */
  lemma CarelessSticks(s: State, e: Event)
    requires Invariant(s) && Enabled(s, e) && Careless(s, e)
    ensures exists k, d :: Stuck(Step(s, e), k, d)
  {
    if e.Record? {
      hide PoolOk;
      assert Stuck(Step(s, e), s.request.sock, s.request.dprop);
    } else {
      var d :| Holds(s, e.sock, d);
      SameHolders(s, e);
      FdsOf(s, e);
      hide Step, Invariant, Enabled, Holds;
      assert Stuck(Step(s, e), e.sock, d);
    }
  }

  lemma {:induction false} CarelessStaysStuck(es: seq<Event>)
    requires Legal(INIT, es) && NoReuse(es) && !Careful(es)
    ensures exists k, d :: Stuck(After(INIT, es), k, d)
  {
    hide Invariant, Step, Enabled, Careless, Stuck;
    var init, e := es[..|es| - 1], es[|es| - 1];
    assert es == init + [e];
    Reachable(init);
    if Careful(init) {
      CarelessSticks(After(INIT, init), e);
      var k, d :| Stuck(Step(After(INIT, init), e), k, d);
      assert Stuck(After(INIT, es), k, d) by { Snoc(INIT, init, e); }
    } else {
      assert NoReuse(init) by {
        assert forall i :: 0 <= i < |init| ==> init[i] == es[i];
      }
      CarelessStaysStuck(init);
      var k, d :| Stuck(After(INIT, init), k, d);
      NotAgain(init, e, k, d);
      StuckStep(After(INIT, init), e, k, d);
      assert Stuck(After(INIT, es), k, d) by { Snoc(INIT, init, e); }
    }
  }

  lemma NotAgain(init: seq<Event>, e: Event, k: Socket, d: Dprop)
    requires Legal(INIT, init) && NoReuse(init + [e]) && Stuck(After(INIT, init), k, d)
    ensures e != Accept(k)
  {
    AlwaysAccepted(init);
    AcceptedAre(init, k);
    hide After, Legal;
    var i :| 0 <= i < |init| && init[i] == Accept(k);
    assert (init + [e])[i] == init[i] && (init + [e])[|init|] == e;
  }

  /** Once every connection has closed, and if no handle was used twice, nothing is assigned
      if and only if every client was careful. */
  lemma {:induction false} NothingHeldIff(es: seq<Event>)
    requires Legal(INIT, es) && NoReuse(es) && After(INIT, es).fds == {}
    ensures (forall d :: PoolOf(After(INIT, es), d).held == map[]) <==> Careful(es)
  {
    var s := After(INIT, es);
    if Careful(es) {
      forall d ensures PoolOf(s, d).held == map[] {
        EverythingComesBack(es, d);
      }
    } else {
      CarelessStaysStuck(es);
      var k, d :| Stuck(s, k, d);
      assert k in PoolOf(s, d).held;
    }
  }

  /** A client that gets a cpu and then asks for a report: a host with one cpu has come up. */
  function LeakRun(k0: Socket, k: Socket, d: Dprop, ip: Ip): seq<Event> {
    [Accept(k0), Status(k0, d, ip, true, Some(HostInfo(1, 1))), Accept(k)]
      + [Grab(k, d, ip), Resolve, Record, Other(k)]
  }

  /** In that run the client keeps the cpu after its connection is gone.  No continuation frees
      it until the connection's handle is used again; that frees it. */
  lemma {:induction false} CarelessClientLeaks(k0: Socket, k: Socket, d: Dprop, ip: Ip)
    requires k0 != k
    ensures var es := LeakRun(k0, k, d, ip);
      var s := After(INIT, es);
      && Legal(INIT, es) && s.fds == {} && Holds(s, k, d)
      && (forall more :: Legal(s, more) && Accept(k) !in more ==> Holds(After(s, more), k, d))
      && Legal(s, [Accept(k), Close(k)]) && !Holds(After(s, [Accept(k), Close(k)]), k, d)
  {
    var tail := [Grab(k, d, ip), Resolve, Record, Other(k)];
    var start := LeakRun(k0, k, d, ip)[..3];
    var one := State(
      map[d := Pool(map[ip := NewHost(ip, d, HostInfo(1, 1))], multiset{ip}, map[], 0, 0)], map[], {k}, Idle);
    LeakStart(k0, k, d, ip);
    assert Best(one.pools[d], ip);
    hide Enabled, Step, Best;
    LeakTail(one, k, d, ip);
    Append(INIT, start, tail);
    assert start == [Accept(k0), Status(k0, d, ip, true, Some(HostInfo(1, 1))), Accept(k)];
    hide After, Legal;
    assert LeakRun(k0, k, d, ip) == start + tail;
    LeakLasts(LeakRun(k0, k, d, ip), k, d);
  }

  lemma LeakLasts(es: seq<Event>, k: Socket, d: Dprop)
    requires Legal(INIT, es)
    requires var s := After(INIT, es);
      s.fds == {} && s.request.Idle? && Holds(s, k, d) && k in s.index && s.index[k] == d
    ensures var s := After(INIT, es);
      && (forall more :: Legal(s, more) && Accept(k) !in more ==> Holds(After(s, more), k, d))
      && Legal(s, [Accept(k), Close(k)]) && !Holds(After(s, [Accept(k), Close(k)]), k, d)
  {
    var s := After(INIT, es);
    Reachable(es);
    ReuseReleases(s, k);
    hide Invariant, Holds;
    forall more | Legal(s, more) && Accept(k) !in more ensures Holds(After(s, more), k, d) {
      StuckStays(s, more, k, d);
    }
  }

  /** A host with one cpu has come up, and one client is connected. */
  lemma LeakStart(k0: Socket, k: Socket, d: Dprop, ip: Ip)
    requires k0 != k
    ensures var es := [Accept(k0), Status(k0, d, ip, true, Some(HostInfo(1, 1))), Accept(k)];
      Legal(INIT, es) && After(INIT, es) ==
        State(map[d := Pool(map[ip := NewHost(ip, d, HostInfo(1, 1))], multiset{ip}, map[], 0, 0)], map[], {k}, Idle)
  {
    var up := Status(k0, d, ip, true, Some(HostInfo(1, 1)));
    Snoc(INIT, [], Accept(k0));
    Snoc(INIT, [Accept(k0)], up);
    Snoc(INIT, [Accept(k0), up], Accept(k));
    assert [] + [Accept(k0)] == [Accept(k0)];
    assert [Accept(k0)] + [up] == [Accept(k0), up];
    assert [Accept(k0), up] + [Accept(k)] == [Accept(k0), up, Accept(k)];
    var h := NewHost(ip, d, HostInfo(1, 1));
    assert EMPTY.hosts[ip := h] == map[ip := h] && EMPTY.free[ip := 1] == multiset{ip};
  }

  lemma LeakTail(s: State, k: Socket, d: Dprop, ip: Ip)
    requires s.request.Idle? && s.fds == {k} && d in s.pools && s.pools[d].held == map[]
    requires Best(s.pools[d], ip) && s.index == map[]
    ensures var es := [Grab(k, d, ip), Resolve, Record, Other(k)];
      var t := After(s, es);
      && Legal(s, es) && t.fds == {} && Holds(t, k, d)
      && t.request.Idle? && k in t.index && t.index[k] == d
  {
    var grab, other := Grab(k, d, ip), Other(k);
    LeakSteps(s, k, d, ip);
    hide Step, Enabled, Holds;
    Snoc(s, [], grab);
    Snoc(s, [grab], Resolve);
    Snoc(s, [grab, Resolve], Record);
    Snoc(s, [grab, Resolve, Record], other);
    assert [] + [grab] == [grab];
    assert [grab] + [Resolve] == [grab, Resolve];
    assert [grab, Resolve] + [Record] == [grab, Resolve, Record];
    assert [grab, Resolve, Record] + [other] == [grab, Resolve, Record, other];
  }

  lemma LeakSteps(s: State, k: Socket, d: Dprop, ip: Ip)
    requires s.request.Idle? && s.fds == {k} && d in s.pools && s.pools[d].held == map[]
    requires Best(s.pools[d], ip) && s.index == map[]
    ensures var s1 := Step(s, Grab(k, d, ip));
      var s2 := Step(s1, Resolve);
      var s3 := Step(s2, Record);
      var s4 := Step(s3, Other(k));
      && Enabled(s, Grab(k, d, ip)) && Enabled(s1, Resolve) && Enabled(s2, Record) && Enabled(s3, Other(k))
      && s4.fds == {} && Holds(s4, k, d)
      && s4.request.Idle? && k in s4.index && s4.index[k] == d
  {
    hide HostRec.Tier;
  }
}
