/**
 The server program: the event loop's list of watched connections and the handlers of all
 messages.  Every input is handled by exactly the steps and outputs that `Behaviour` gives for
 it; so everything proved about the protocol's runs and about behaviours holds of this program.
 */
module Servers {
  import opened Types
  import opened Bags
  import opened DpropDbs
  import opened Behaviour
  import Pools
  import Dbs
  import Guarantees
  import PoolReports
  import Reports
  import Requests
  import Sums
  import P = Protocol

  class Server {
    const db: Dbs.Db
    var fdList: seq<Socket>

    ghost predicate Valid()
      reads this, db, db.Repr
    {
      this !in db.Repr && db.Valid()
    }

    ghost function Watched(): set<Socket>
      reads this
    {
      set k | k in fdList
    }

    ghost function View(): P.State
      requires Valid()
      reads this, db, db.Repr
    {
      P.State(db.PoolMap(), db.sock2Dprop, Watched(), P.Idle)
    }

    lemma Knows(d: Dprop, ip: Ip)
      requires Valid()
      ensures P.Knows(View(), d, ip) <==> db.Has(d, ip)
      ensures P.PoolOf(View(), d) == db.PoolFor(d)
    {
    }

    constructor ()
      ensures Valid() && View() == P.INIT && fresh(db) && fresh(db.Repr)
    {
      db := new Dbs.Db();
      fdList := [];
    }

    // ------------------------------------------------------------------ watched connections

    method AddFd(k: Socket)
      requires Valid()
      modifies this
      ensures Valid() && View() == old(View()).(fds := old(View()).fds + {k})
    {
      hide Dbs.Db.Valid, Dbs.Db.PoolMap;
      fdList := fdList + [k];
    }

    method RemoveFd(k: Socket)
      requires Valid()
      modifies this
      ensures Valid() && View() == old(View()).(fds := old(View()).fds - {k})
    {
      hide Dbs.Db.Valid, Dbs.Db.PoolMap;
      WithoutMembers(fdList, k);
      fdList := Without(fdList, k);
    }

    // ------------------------------------------------------------------------- the handlers

    method HandleClose(k: Socket)
      requires Valid()
      modifies this, db, db.Repr
      ensures Valid() && db.Repr == old(db.Repr)
      ensures View() == P.Step(old(View()), P.Close(k))
    {
      hide Pools.Release;
      db.ReleaseCpu(k);
      RemoveFd(k);
    }

    /** A monitor is sent the report. */
    method HandleMonitor(k: Socket) returns (reply: string)
      requires Valid()
      modifies this
      ensures Valid() && View() == old(View()).(fds := old(View()).fds - {k})
      ensures reply == Reports.Render(PoolReports.ServerReport(old(View()).pools))
    {
      hide Reports.Render, PoolReports.ServerReport, Dbs.Db.Valid, Dbs.Db.PoolMap;
      reply := WriteReport();
      RemoveFd(k);
    }

    method WriteReport() returns (text: string)
      requires Valid()
      ensures text == Reports.Render(PoolReports.ServerReport(View().pools))
    {
      hide Reports.Render, Reports.FullReport, PoolReports.ServerReport;
      ReportIs();
      hide db.Snaps, Dbs.Db.Valid, Dbs.Db.PoolMap, Watched;
      text := db.Serialize();
    }

    /** The report on the database's contents is the report on the pools. */
    lemma ReportIs()
      requires Valid()
      ensures Reports.FullReport(db.Snaps()) == PoolReports.ServerReport(View().pools)
    {
      hide Reports.FullReport, PoolReports.ServerReport;
      db.SnapsAre();
      hide db.Snaps, Dbs.Db.Valid, Dbs.Db.PoolMap;
      PoolReports.SameFullReport(db.Snaps(), db.PoolMap());
    }

    method HandleLoad(k: Socket, dprop: Dprop, ip: Ip, raw: Loads, now: int, info: Option<HostInfo>)
      requires Valid()
      modifies this, db, db.Repr
      ensures Valid() && fresh(db.Repr - old(db.Repr))
      ensures View() == P.Step(old(View()), P.Load(k, dprop, ip, raw, now, info))
    {
      hide P.OnLoad;
      P.LoadPoolsOnly(View(), dprop, ip, raw, now, info);
      LoadDb(dprop, ip, raw, now, info);
      RemoveFd(k);
    }

    method LoadDb(dprop: Dprop, ip: Ip, raw: Loads, now: int, info: Option<HostInfo>)
      requires Valid()
      modifies db, db.Repr
      ensures Valid() && fresh(db.Repr - old(db.Repr)) && db.sock2Dprop == old(db.sock2Dprop)
      ensures db.PoolMap() == P.OnLoad(old(View()), dprop, ip, raw, now, info).pools
    {
      hide Pools.HearLoad, Pools.Enrol, NewHost, Watched;
      Knows(dprop, ip);
      P.LoadPools(View(), dprop, ip, raw, now, info);
      hide P.OnLoad, P.PoolOf, P.Knows, db.PoolFor, Dbs.Db.Valid, Dbs.Db.PoolMap;
      var h := db.GetHost(ip, dprop);
      if h.Some? {
        db.HostLoad(h.value, raw, now);
      } else {
        // The new host's pointer never reaches the caller, so these loads are not applied.
        db.CreateHost(ip, dprop, info);
      }
    }

    method HandleStatus(k: Socket, dprop: Dprop, ip: Ip, up: bool, info: Option<HostInfo>)
      requires Valid()
      modifies this, db, db.Repr
      ensures Valid() && fresh(db.Repr - old(db.Repr))
      ensures View() == P.Step(old(View()), P.Status(k, dprop, ip, up, info))
      ensures !up && P.Knows(old(View()), dprop, ip) ==> Guarantees.IsDown(View(), dprop, ip)
    {
      hide P.OnStatus, Guarantees.IsDown, P.Knows;
      ghost var s := View();
      P.StatusPoolsOnly(s, dprop, ip, up, info);
      StatusDb(dprop, ip, up, info);
      RemoveFd(k);
      if !up && P.Knows(s, dprop, ip) {
        Guarantees.DownTakesEffect(s, k, dprop, ip, info);
      }
    }

    method StatusDb(dprop: Dprop, ip: Ip, up: bool, info: Option<HostInfo>)
      requires Valid()
      modifies db, db.Repr
      ensures Valid() && fresh(db.Repr - old(db.Repr)) && db.sock2Dprop == old(db.sock2Dprop)
      ensures db.PoolMap() == P.OnStatus(old(View()), dprop, ip, up, info).pools
    {
      hide Pools.Up, Pools.Down, Pools.Enrol, NewHost, Watched;
      Knows(dprop, ip);
      P.StatusPools(View(), dprop, ip, up, info);
      hide P.OnStatus, P.PoolOf, P.Knows, db.PoolFor, Dbs.Db.Valid, Dbs.Db.PoolMap;
      var h := db.GetHost(ip, dprop);
      if h.Some? {
        db.HostStatus(h.value, up);
      } else if up {
        db.CreateHost(ip, dprop, info);
      }
    }

    // ------------------------------------------------------------------ the background threads

    /** One run of the silent-host thread; `r` is the request it may have interrupted. */
    method SilentSearchOnce(clock: Clock, ghost r: P.Request)
      requires Valid()
      modifies db, db.Repr
      ensures Valid() && db.Repr == old(db.Repr)
      ensures View().(request := r) == P.Step(old(View()).(request := r), P.Tick(clock))
      ensures P.Invariant(old(View())) ==>
        forall d, ip :: P.Knows(old(View()), d, ip) ==> Guarantees.Silenced(old(View()), View(), clock, d, ip)
    {
      hide Pools.Sweep;
      ghost var s := View();
      db.HandleSilentHosts(clock);
      assert View() == P.Step(s, P.Tick(clock));
      hide P.Step, P.Invariant, Dbs.Db.PoolMap, Dbs.Db.Valid, P.PoolOf;
      if P.Invariant(s) {
        forall d, ip | P.Knows(s, d, ip) ensures Guarantees.Silenced(s, View(), clock, d, ip) {
          Guarantees.SweepSilences(s, clock, d, ip);
        }
      }
    }

    /** One run of the statistics thread. */
    method UpdateStatsOnce(ghost r: P.Request) returns (st: Pools.Stats)
      requires Valid()
      modifies db, db.Repr
      ensures Valid() && db.Repr == old(db.Repr)
      ensures st == Sums.SumOf(old(View()).pools)
      ensures View().(request := r) == P.Step(old(View()).(request := r), P.Collect)
    {
      hide Pools.Restart, Dbs.Db.Valid, Dbs.Db.PoolMap, Watched;
      st := db.GetStatsFromDb();
    }

    method InterruptOnce(b: Interrupt, ghost r: P.Request) returns (figures: seq<Output>)
      requires Valid()
      modifies db, db.Repr
      ensures Valid() && db.Repr == old(db.Repr)
      ensures View().(request := r) == P.Step(old(View()).(request := r), Interruption(b))
      ensures figures == if b.Reporting? then [Figures(Sums.SumOf(old(View()).pools))] else []
    {
      hide P.Step;
      figures := [];
      match b
      case Silencing(clock) => SilentSearchOnce(clock, r);
      case Reporting =>
        var st := UpdateStatsOnce(r);
        figures := [Figures(st)];
    }

    /** The background threads between two locked sections of request `r`. */
    method Interrupted(bs: seq<Interrupt>, ghost r: P.Request) returns (figures: seq<Output>)
      requires Valid()
      modifies db, db.Repr
      ensures Valid() && db.Repr == old(db.Repr)
      ensures View().(request := r) == P.After(old(View()).(request := r), Interruptions(bs))
      ensures figures == FiguresOf(old(View()).(request := r), Interruptions(bs))
    {
      hide P.Step, Dbs.Db.Valid, Dbs.Db.PoolMap, Watched;
      figures := [];
      ghost var s := View().(request := r);
      for i := 0 to |bs|
        invariant Valid() && db.Repr == old(db.Repr)
        invariant View().(request := r) == P.After(s, Interruptions(bs[..i]))
        invariant figures == FiguresOf(s, Interruptions(bs[..i]))
      {
        OneMore(s, bs, i);
        var more := InterruptOnce(bs[i], r);
        figures := figures + more;
      }
      assert bs[..|bs|] == bs;
    }

    // ----------------------------------------------------------------------- a host request

    /** First locked section. */
    method TakeCpu(k: Socket, dprop: Dprop) returns (r: Option<Ip>)
      requires Valid() && k in View().fds
      modifies db, db.Repr
      ensures Valid() && db.Repr == old(db.Repr)
      ensures Yields(old(View()), k, dprop, r)
      ensures if r == None then View() == old(View())
              else View().(request := P.Taken(k, dprop, r.value)) == Yielded(old(View()), k, dprop, r)
    {
      hide Pools.Best, Pools.Take, Dbs.Db.Valid, Watched;
      Knows(dprop, NO_HOST);
      hide Dbs.Db.PoolMap, Dbs.Db.PoolFor, P.PoolOf, Yields, Yielded;
      ghost var s := View();
      r := db.GetBestAvailCpu(dprop);
      Yielding(s, k, dprop, r);
      if r != None && dprop in s.pools {
        assert View() == s.(pools := s.pools[dprop := Pools.Take(P.PoolOf(s, dprop), r.value)]);
      }
    }

    /** Second locked section: find the host's name; false stands for the exception. */
    method LookUp(dprop: Dprop, ip: Ip) returns (found: bool)
      requires Valid()
      ensures found <==> P.Knows(View(), dprop, ip)
    {
      Knows(dprop, ip);
      var h := db.GetHost(ip, dprop);
      found := h.Some?;
    }

    /** Third locked section. */
    method RecordCpu(k: Socket, dprop: Dprop, ip: Ip)
      requires Valid() && dprop in View().pools
      modifies db, db.Repr
      ensures Valid() && db.Repr == old(db.Repr)
      ensures View() == P.Step(old(View()).(request := P.Resolved(k, dprop, ip)), P.Record)
    {
      hide Pools.Assign;
      Knows(dprop, ip);
      ghost var s := View().(request := P.Resolved(k, dprop, ip));
      assert P.Step(s, P.Record) == P.OnRecord(s, k, dprop, ip);
      hide Dbs.Db.Valid, Dbs.Db.PoolMap, Dbs.Db.PoolFor, Watched, P.PoolOf, P.Step;
      db.AssignCpuToClient(ip, dprop, k);
    }

    /** The second and third locked sections, with the interruptions before each of them. */
    method LookUpAndRecord(k: Socket, dprop: Dprop, ip: Ip, early: seq<Interrupt>, late: seq<Interrupt>)
      returns (figures: seq<Output>)
      requires Valid()
      modifies db, db.Repr
      ensures Valid() && db.Repr == old(db.Repr)
      ensures var s := old(View()).(request := P.Taken(k, dprop, ip));
        View() == Finish(s, early, late).(request := P.Idle) && figures == FinishFigures(s, early, late)
    {
      hide P.After, P.Legal, P.Step, Dbs.Db.Valid, Dbs.Db.PoolMap, Watched, FiguresOf;
      ghost var s := View().(request := P.Taken(k, dprop, ip));
      figures := Interrupted(early, s.request);
      var found := LookUp(dprop, ip);
      if found {
        var more := RecordLater(k, dprop, ip, late);
        figures := figures + more;
      }
    }

    /** The third locked section, with the interruptions before it. */
    method RecordLater(k: Socket, dprop: Dprop, ip: Ip, late: seq<Interrupt>) returns (figures: seq<Output>)
      requires Valid() && dprop in View().pools
      modifies db, db.Repr
      ensures Valid() && db.Repr == old(db.Repr)
      ensures var s := old(View()).(request := P.Resolved(k, dprop, ip));
        && View() == P.Step(P.After(s, Interruptions(late)), P.Record)
        && figures == FiguresOf(s, Interruptions(late))
    {
      hide P.After, P.Legal, P.Step, Dbs.Db.Valid, Dbs.Db.PoolMap, Watched, FiguresOf;
      ghost var s := View().(request := P.Resolved(k, dprop, ip));
      Guarantees.BackgroundKeepsBooks(s, Interruptions(late));
      figures := Interrupted(late, s.request);
      RecordCpu(k, dprop, ip);
    }

    /** The handler releases the database lock after taking a cpu and again after looking the
        host up; the background threads run as `early` and `late` say in between. */
    method HandleHostReq(k: Socket, dprop: Dprop, early: seq<Interrupt>, late: seq<Interrupt>)
      returns (reply: Ip, figures: seq<Output>, ghost es: seq<P.Event>)
      requires Valid() && k in View().fds
      modifies db, db.Repr
      ensures Valid() && db.Repr == old(db.Repr)
      ensures Answers(old(View()), k, dprop, early, late, reply, es)
      ensures figures == FiguresOf(old(View()), es)
      ensures P.Legal(old(View()), es) && View() == P.After(old(View()), es)
      ensures P.Invariant(old(View())) && P.PoolOf(old(View()), dprop).free != multiset{} ==>
        Guarantees.IsBestHost(P.PoolOf(old(View()), dprop), reply)
      ensures var p, q := P.PoolOf(old(View()), dprop), P.PoolOf(View(), dprop);
        if p.free == multiset{} then q.held == p.held
        else q.held == if k in p.held then p.held else p.held[k := reply]
      ensures k !in P.PoolOf(old(View()), dprop).held && NO_HOST !in P.PoolOf(old(View()), dprop).hosts ==>
        (reply != NO_HOST <==> k in P.PoolOf(View(), dprop).held)
    {
      hide Dbs.Db.Valid, Watched, P.After, P.Legal, P.Step, Finish, FinishFigures, FiguresOf;
      hide Pools.Best, Yields, Yielded, P.PoolOf, Answers;
      ghost var s := View();
      reply, figures := NO_HOST, [];
      var cpu := TakeCpu(k, dprop);
      if P.Invariant(s) && P.PoolOf(s, dprop).free != multiset{} {
        BestYield(s, k, dprop, cpu);
      }
      hide P.Invariant, Guarantees.IsBestHost;
      es := Outcome(s, k, dprop, cpu, early, late);
      if cpu.Some? {
        reply := cpu.value;
        figures := LookUpAndRecord(k, dprop, reply, early, late);
      }
    }

    // -------------------------------------------------------------------------- the event loop

    /** A request, or the end of the connection. */
    method HandleReq(k: Socket, text: Option<string>, env: Env) returns (outs: seq<Output>, ghost es: seq<P.Event>)
      requires Valid() && k in View().fds && Data(k, text, env).Fits()
      modifies this, db, db.Repr
      ensures Valid() && fresh(db.Repr - old(db.Repr))
      ensures Handles(old(View()), Data(k, text, env), es, outs)
      ensures P.Legal(old(View()), es) && View() == P.After(old(View()), es)
    {
      hide P.After, P.Legal, P.Step, Dbs.Db.Valid, Dbs.Db.PoolMap, Watched, HandlesText;
      if text == None {
        outs := [];
        es := P.Single(View(), P.Close(k));
        HandleClose(k);
      } else {
        outs, es := HandleText(k, text.value, env);
      }
    }

    method HandleText(k: Socket, text: string, env: Env) returns (outs: seq<Output>, ghost es: seq<P.Event>)
      requires Valid() && k in View().fds && !Requests.Meaning(text).Overrun?
      modifies this, db, db.Repr
      ensures Valid() && fresh(db.Repr - old(db.Repr))
      ensures HandlesText(old(View()), k, text, env, es, outs)
      ensures P.Legal(old(View()), es) && View() == P.After(old(View()), es)
    {
      hide P.After, P.Legal, P.Step, Dbs.Db.Valid, Dbs.Db.PoolMap, Watched, Answers, FiguresOf, Requests.Meaning;
      hide Reports.Render, PoolReports.ServerReport, Sums.SumOf;
      ghost var s := View();
      outs := [];
      var msg := Requests.ParseMsg(text);
      if msg.Host? {
        var reply;
        reply, outs, es := HandleHostReq(k, msg.dprop, env.early, env.late);
        outs := outs + [Reply(k, reply)];
      } else if msg.Status? {
        var ip := env.address(msg.host);
        es := P.Single(s, P.Status(k, msg.dprop, ip, msg.up, env.info(ip)));
        HandleStatus(k, msg.dprop, ip, msg.up, env.info(ip));
      } else if msg.Load? {
        es := HandleLoadText(k, env.loads(msg.text), env);
      } else if msg.Monitor? {
        es := Closes(s, k);
        var report := HandleMonitor(k);
        outs := [Report(k, report)];
      } else {
        es := Closes(s, k);
        RemoveFd(k);
      }
    }

    /** A load message that cannot be read is dropped. */
    method HandleLoadText(k: Socket, msg: Option<LoadMsg>, env: Env) returns (ghost es: seq<P.Event>)
      requires Valid() && k in View().fds
      modifies this, db, db.Repr
      ensures Valid() && fresh(db.Repr - old(db.Repr))
      ensures es == match msg
                    case Some(m) => [P.Load(k, m.dprop, m.ip, m.raw, env.now, env.info(m.ip))]
                    case None => [P.Other(k)]
      ensures P.Legal(old(View()), es) && View() == P.After(old(View()), es)
    {
      hide P.After, P.Legal, P.Step, Dbs.Db.Valid;
      ghost var s := View();
      match msg {
        case None =>
          es := Closes(s, k);
          RemoveFd(k);
        case Some(m) =>
          es := P.Single(s, P.Load(k, m.dprop, m.ip, m.raw, env.now, env.info(m.ip)));
          HandleLoad(k, m.dprop, m.ip, m.raw, env.now, env.info(m.ip));
      }
    }

    /** Everything that may happen, in any order; a message on a connection that is not watched
        is never seen, and a new connection is not one of the watched ones. */
    method Serve(input: Input) returns (outs: seq<Output>, ghost es: seq<P.Event>)
      requires Valid() && input.Fits()
      modifies this, db, db.Repr
      ensures Valid() && fresh(db.Repr - old(db.Repr))
      ensures Handles(old(View()), input, es, outs)
      ensures P.Legal(old(View()), es) && View() == P.After(old(View()), es)
    {
      hide P.After, P.Legal, P.Step, Dbs.Db.Valid, Dbs.Db.PoolMap, Requests.Meaning, HandlesText, Sums.SumOf;
      ghost var s := View();
      outs, es := [], [];
      P.Nothing(s);
      match input {
        case Connect(k) =>
          if k !in fdList {
            es := P.Single(s, P.Accept(k));
            P.AcceptOrOther(s, k);
            AddFd(k);
          }
        case Data(k, text, env) =>
          if k in fdList {
            outs, es := HandleReq(k, text, env);
          }
        case SilentSearch(clock) =>
          es := P.Single(s, P.Tick(clock));
          SilentSearchOnce(clock, P.Idle);
        case UpdateStats =>
          es := P.Single(s, P.Collect);
          var st := UpdateStatsOnce(P.Idle);
          outs := [Figures(st)];
      }
    }
  }

  /** The server program: started empty and fed any inputs, it behaves as specified, its steps
      are a legal run of the protocol, and every sub-database ends in agreement with itself. */
  method Run(inputs: seq<Input>)
    returns (server: Server, outs: seq<seq<Output>>, ghost ess: seq<seq<P.Event>>)
    requires forall i :: 0 <= i < |inputs| ==> inputs[i].Fits()
    ensures fresh(server) && server.Valid()
    ensures Behaves(inputs, ess, outs)
    ensures P.Legal(P.INIT, Flat(ess)) && server.View() == P.After(P.INIT, Flat(ess))
    ensures P.Invariant(server.View())
  {
    hide P.After, P.Legal, Dbs.Db.Valid, Input.Fits, Handles, P.Invariant, Behaves;
    server := new Server();
    outs, ess := [], [];
    P.Nothing(P.INIT);
    NothingYet();
    for i := 0 to |inputs|
      invariant fresh(server) && fresh(server.db) && fresh(server.db.Repr) && server.Valid()
      invariant Behaves(inputs[..i], ess, outs)
      invariant P.Legal(P.INIT, Flat(ess)) && server.View() == P.After(P.INIT, Flat(ess))
    {
      var out;
      ghost var es;
      out, es := server.Serve(inputs[i]);
      BehavesMore(inputs[..i], ess, outs, inputs[i], es, out);
      FlatMore(ess, es);
      P.Append(P.INIT, Flat(ess), es);
      assert inputs[..i + 1] == inputs[..i] + [inputs[i]];
      outs, ess := outs + [out], ess + [es];
    }
    assert inputs[..|inputs|] == inputs;
    P.Reachable(Flat(ess));
  }

  lemma NothingYet()
    ensures Behaves([], [], []) && Flat([]) == []
  {
  }

  // ------------------------------------------------------------------- the steps of a request

  lemma OneMore(s: P.State, bs: seq<Interrupt>, i: nat)
    requires i < |bs|
    ensures var es, t := Interruptions(bs[..i]), P.After(s, Interruptions(bs[..i]));
      && P.After(s, Interruptions(bs[..i + 1])) == P.Step(t, Interruption(bs[i]))
      && FiguresOf(s, Interruptions(bs[..i + 1]))
           == FiguresOf(s, es) + if bs[i].Reporting? then [Figures(Sums.SumOf(t.pools))] else []
  {
    hide P.Step, Sums.SumOf;
    assert Interruptions(bs[..i + 1]) == Interruptions(bs[..i]) + [Interruption(bs[i])];
    P.Snoc(s, Interruptions(bs[..i]), Interruption(bs[i]));
  }

  /** Closing a connection without looking at the database is a step. */
  lemma Closes(s: P.State, k: Socket) returns (es: seq<P.Event>)
    requires s.request.Idle? && k in s.fds
    ensures es == [P.Other(k)] && P.Legal(s, es) && P.After(s, es) == s.(fds := s.fds - {k})
  {
    es := P.Single(s, P.Other(k));
    P.AcceptOrOther(s, k);
  }

  /** What the first section may yield in state `s`. */
  ghost predicate Yields(s: P.State, k: Socket, d: Dprop, cpu: Option<Ip>) {
    if d !in s.pools then cpu == Some(NO_HOST)
    else match cpu
         case None => P.PoolOf(s, d).free == multiset{}
         case Some(ip) => P.Enabled(s, P.Grab(k, d, ip))
  }

  /** The state in which the first section leaves the request. */
  ghost function Yielded(s: P.State, k: Socket, d: Dprop, cpu: Option<Ip>): P.State {
    if cpu == None then s
    else if d in s.pools then P.Step(s, P.Grab(k, d, cpu.value))
    else s.(request := P.Taken(k, d, cpu.value))
  }

  lemma Yielding(s: P.State, k: Socket, d: Dprop, cpu: Option<Ip>)
    requires s.request.Idle? && k in s.fds
    requires d in s.pools && cpu.Some? ==> Pools.Best(P.PoolOf(s, d), cpu.value)
    requires d in s.pools && cpu == None ==> P.PoolOf(s, d).free == multiset{}
    requires d !in s.pools ==> cpu == Some(NO_HOST)
    ensures Yields(s, k, d, cpu)
    ensures Yielded(s, k, d, cpu) ==
      if cpu == None then s
      else if d !in s.pools then s.(request := P.Taken(k, d, cpu.value))
      else s.(pools := s.pools[d := Pools.Take(P.PoolOf(s, d), cpu.value)], request := P.Taken(k, d, cpu.value))
  {
    hide Pools.Best, Pools.Take, P.PoolOf;
  }

  /** The rest of a request in state `s`; nothing is recorded if the host is not found. */
  ghost function Finish(s: P.State, early: seq<Interrupt>, late: seq<Interrupt>): P.State
    requires s.request.Taken?
  {
    var s1 := P.After(s, Interruptions(early));
    if P.Knows(s1, s.request.dprop, s.request.ip)
    then P.Step(P.After(Found(s, s1), Interruptions(late)), P.Record)
    else s1
  }

  ghost function Found(s: P.State, s1: P.State): P.State
    requires s.request.Taken?
  {
    s1.(request := P.Resolved(s.request.sock, s.request.dprop, s.request.ip))
  }

  /** The figures printed meanwhile. */
  ghost function FinishFigures(s: P.State, early: seq<Interrupt>, late: seq<Interrupt>): seq<Output>
    requires s.request.Taken?
  {
    var s1 := P.After(s, Interruptions(early));
    FiguresOf(s, Interruptions(early))
      + if P.Knows(s1, s.request.dprop, s.request.ip) then FiguresOf(Found(s, s1), Interruptions(late)) else []
  }

  lemma BestYield(s: P.State, k: Socket, d: Dprop, cpu: Option<Ip>)
    requires P.Invariant(s) && Yields(s, k, d, cpu) && P.PoolOf(s, d).free != multiset{}
    ensures cpu.Some? && Guarantees.IsBestHost(P.PoolOf(s, d), cpu.value)
  {
    Guarantees.BestHost(s, k, d, cpu.value);
    hide P.Invariant, Pools.Best;
  }

  /** What is left of the handler after the first section. */
  ghost predicate Completes(
    s: P.State, k: Socket, d: Dprop, cpu: Option<Ip>, early: seq<Interrupt>, late: seq<Interrupt>,
    t: P.State, figures: seq<Output>)
  {
    var s1 := Yielded(s, k, d, cpu);
    if cpu.Some? && s1.request.Taken? then
      t == Finish(s1, early, late).(request := P.Idle) && figures == FinishFigures(s1, early, late)
    else t == s && figures == []
  }

  lemma Outcome(
    s: P.State, k: Socket, d: Dprop, cpu: Option<Ip>, early: seq<Interrupt>, late: seq<Interrupt>)
    returns (es: seq<P.Event>)
    requires s.request.Idle? && k in s.fds && Yields(s, k, d, cpu)
    ensures Answers(s, k, d, early, late, if cpu == None then NO_HOST else cpu.value, es)
    ensures P.Legal(s, es) && Completes(s, k, d, cpu, early, late, P.After(s, es), FiguresOf(s, es))
    ensures var p, q := P.PoolOf(s, d), P.PoolOf(P.After(s, es), d);
      if p.free == multiset{} then (cpu == None || cpu == Some(NO_HOST)) && q.held == p.held
      else cpu.Some? && cpu.value in p.hosts
           && q.held == if k in p.held then p.held else p.held[k := cpu.value]
  {
    hide P.After, P.Legal, Finish, FinishFigures, FiguresOf, P.Step;
    if cpu == None {
      es := Refusal(s, k, d, []);
    } else if d in s.pools {
      es := Granting(s, k, d, cpu.value, early, late);
    } else {
      es := Refusal(s, k, d, early);
      UnknownDprop(s, k, d, early, late);
    }
  }

  lemma Refusal(s: P.State, k: Socket, d: Dprop, early: seq<Interrupt>) returns (es: seq<P.Event>)
    requires P.Enabled(s, P.Refuse(k, d))
    requires d in s.pools ==> early == []
    ensures es == [P.Refuse(k, d)] + Interruptions(early)
    ensures P.Legal(s, es) && P.After(s, es) == P.After(s, Interruptions(early))
    ensures FiguresOf(s, es) == FiguresOf(s, Interruptions(early))
    ensures P.PoolOf(P.After(s, es), d).held == P.PoolOf(s, d).held
    ensures early == [] ==> es == [P.Refuse(k, d)] && P.After(s, es) == s && FiguresOf(s, es) == []
  {
    var refuse := P.Refuse(k, d);
    es := [refuse] + Interruptions(early);
    var one := P.Single(s, refuse);
    NoFigures(s, refuse);
    P.Append(s, [refuse], Interruptions(early));
    FiguresJoin(s, [refuse], Interruptions(early));
    Guarantees.BackgroundKeepsBooks(s, Interruptions(early));
    assert early == [] ==> Interruptions(early) == [];
  }

  /** For a dprop without a pool the lookup fails, whatever the background threads do. */
  lemma UnknownDprop(s: P.State, k: Socket, d: Dprop, early: seq<Interrupt>, late: seq<Interrupt>)
    requires d !in s.pools && s.request.Idle?
    ensures var s' := s.(request := P.Taken(k, d, NO_HOST));
      && Finish(s', early, late).(request := P.Idle) == P.After(s, Interruptions(early))
      && FinishFigures(s', early, late) == FiguresOf(s, Interruptions(early))
  {
    var s' := s.(request := P.Taken(k, d, NO_HOST));
    Guarantees.BackgroundKeepsBooks(s', Interruptions(early));
    Guarantees.BackgroundKeepsBooks(s, Interruptions(early));
    IgnoreRequest(s, s'.request, early);
    hide P.After, P.Legal, FiguresOf;
  }

  lemma {:induction false} IgnoreRequest(s: P.State, r: P.Request, bs: seq<Interrupt>)
    ensures P.After(s.(request := r), Interruptions(bs)) == P.After(s, Interruptions(bs)).(request := r)
    ensures FiguresOf(s.(request := r), Interruptions(bs)) == FiguresOf(s, Interruptions(bs))
  {
    if bs == [] {
      assert Interruptions(bs) == [];
    } else {
      hide Sums.SumOf, P.Step, Interruption, Interruptions, P.After, FiguresOf;
      var init := bs[..|bs| - 1];
      IgnoreRequest(s, r, init);
      assert bs[..|bs|] == bs;
      OneMore(s, bs, |bs| - 1);
      OneMore(s.(request := r), bs, |bs| - 1);
      OneIgnores(P.After(s, Interruptions(init)), r, bs[|bs| - 1]);
    }
  }

  lemma OneIgnores(s: P.State, r: P.Request, b: Interrupt)
    ensures P.Step(s.(request := r), Interruption(b)) == P.Step(s, Interruption(b)).(request := r)
  {
    hide Pools.Sweep, Pools.Restart;
  }

  lemma Granting(s: P.State, k: Socket, d: Dprop, ip: Ip, early: seq<Interrupt>, late: seq<Interrupt>)
    returns (es: seq<P.Event>)
    requires P.Enabled(s, P.Grab(k, d, ip))
    ensures es == GrantSteps(k, d, ip, early, late)
    ensures P.Step(s, P.Grab(k, d, ip)).request.Taken?
    ensures var s1 := P.Step(s, P.Grab(k, d, ip));
      && P.After(s, es) == Finish(s1, early, late) && P.After(s, es).request == P.Idle
      && FiguresOf(s, es) == FinishFigures(s1, early, late)
    ensures P.Legal(s, es)
    ensures var p, q := P.PoolOf(s, d), P.PoolOf(P.After(s, es), d);
      q.held == if k in p.held then p.held else p.held[k := ip]
  {
    var grab := P.Grab(k, d, ip);
    var s1 := P.Step(s, grab);
    var bg1, bg2 := Interruptions(early), Interruptions(late);
    var tail := (bg1 + [P.Resolve]) + (bg2 + [P.Record]);
    var one := P.Single(s, grab);
    NoFigures(s, grab);
    es := [grab] + tail;
    P.Append(s, [grab], tail);
    FiguresJoin(s, [grab], tail);
    hide P.After, P.Legal, FiguresOf;
    Finishing(s1, early, late);
    hide Finish, FinishFigures;
    Guarantees.RequestRuns(s1, bg1, bg2);
  }

  lemma Finishing(s: P.State, early: seq<Interrupt>, late: seq<Interrupt>)
    requires s.request.Taken? && P.Knows(s, s.request.dprop, s.request.ip)
    ensures var es := (Interruptions(early) + [P.Resolve]) + (Interruptions(late) + [P.Record]);
      P.After(s, es) == Finish(s, early, late) && FiguresOf(s, es) == FinishFigures(s, early, late)
  {
    hide P.After, P.Legal, P.Step, FiguresOf;
    var bg1, bg2 := Interruptions(early), Interruptions(late);
    Guarantees.BackgroundKeepsBooks(s, bg1);
    Guarantees.ResolveSucceeds(s, bg1);
    var s2 := P.After(s, bg1 + [P.Resolve]);
    P.Append(s, bg1 + [P.Resolve], bg2 + [P.Record]);
    P.Snoc(s2, bg2, P.Record);
    FiguresJoin(s, bg1 + [P.Resolve], bg2 + [P.Record]);
    FiguresJoin(s, bg1, [P.Resolve]);
    FiguresJoin(s2, bg2, [P.Record]);
    NoFigures(P.After(s, bg1), P.Resolve);
    NoFigures(P.After(s2, bg2), P.Record);
  }
}
