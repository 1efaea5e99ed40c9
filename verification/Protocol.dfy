/**
 The whole server as a state machine over its events.

 The main thread handles one message at a time.  Every handler is one step, except that of a
 host request, which takes the database lock three times: to take a cpu, to look the host
 up again, and to record the assignment.  Sweeps and statistics reports run in their own
 threads, so they may fall between any two steps, also between those three.
 */
module Protocol {
  import opened Types
  import opened Pools

  /** Where the handler of a host request stands. */
  datatype Request =
    | Idle
    | Taken(sock: Socket, dprop: Dprop, ip: Ip)
    | Resolved(sock: Socket, dprop: Dprop, ip: Ip)

  datatype State = State(
    pools: map<Dprop, Pool>,
    index: map<Socket, Dprop>,
    fds: set<Socket>,
    request: Request)

  datatype Event =
    | Accept(sock: Socket)
    | Close(sock: Socket)
    | Other(sock: Socket)   // a monitor request, or a message that does not parse
    | Load(sock: Socket, dprop: Dprop, ip: Ip, raw: Loads, now: int, info: Option<HostInfo>)
    | Status(sock: Socket, dprop: Dprop, ip: Ip, up: bool, info: Option<HostInfo>)
    | Refuse(sock: Socket, dprop: Dprop)
    | Grab(sock: Socket, dprop: Dprop, ip: Ip)
    | Resolve
    | Record
    | Tick(clock: Clock)
    | Collect

  const INIT := State(map[], map[], {}, Idle)

  function PoolOf(s: State, d: Dprop): Pool {
    if d in s.pools then s.pools[d] else EMPTY
  }

  predicate Knows(s: State, d: Dprop, ip: Ip) {
    ip in PoolOf(s, d).hosts
  }

  // ------------------------------------------------------------------------------ the steps

  /** Which events may come next.  Only the two background threads can interrupt a request. */
  ghost predicate Enabled(s: State, e: Event) {
    match e
    case Tick(_) => true
    case Collect => true
    case Resolve => s.request.Taken?
    case Record => s.request.Resolved?
    case Accept(k) => s.request.Idle? && k !in s.fds
    case Refuse(k, d) => s.request.Idle? && k in s.fds && PoolOf(s, d).free == multiset{}
    case Grab(k, d, ip) => s.request.Idle? && k in s.fds && Best(PoolOf(s, d), ip)
    case _ => s.request.Idle? && e.sock in s.fds
  }

  /** A host nobody knew yet; without an entry in the hosts-info file it stays unknown. */
  function Create(s: State, d: Dprop, ip: Ip, info: Option<HostInfo>): State {
    match info
    case None => s
    case Some(i) => s.(pools := s.pools[d := Enrol(PoolOf(s, d), ip, NewHost(ip, d, i))])
  }

  function OnLoad(s: State, d: Dprop, ip: Ip, raw: Loads, now: int, info: Option<HostInfo>): State {
    if Knows(s, d, ip) then s.(pools := s.pools[d := HearLoad(PoolOf(s, d), ip, raw, now)])
    else Create(s, d, ip, info)
  }

  function OnStatus(s: State, d: Dprop, ip: Ip, up: bool, info: Option<HostInfo>): State {
    if Knows(s, d, ip) then
      s.(pools := s.pools[d := if up then Pools.Up(PoolOf(s, d), ip) else Pools.Down(PoolOf(s, d), ip)])
    else if up then Create(s, d, ip, info)
    else s
  }

  function OnClose(s: State, k: Socket): State {
    if k !in s.index then s
    else s.(index := s.index - {k},
            pools := s.pools[s.index[k] := Pools.Release(PoolOf(s, s.index[k]), k)])
  }

  function OnRecord(s: State, k: Socket, d: Dprop, ip: Ip): State {
    s.(index := if k in s.index then s.index else s.index[k := d],
       pools := s.pools[d := Pools.Assign(PoolOf(s, d), k, ip)],
       request := Idle)
  }

  ghost function Step(s: State, e: Event): State {
    match e
    case Accept(k) => s.(fds := s.fds + {k})
    case Close(k) => OnClose(s, k).(fds := s.fds - {k})
    case Other(k) => s.(fds := s.fds - {k})
    case Load(k, d, ip, raw, now, info) => OnLoad(s, d, ip, raw, now, info).(fds := s.fds - {k})
    case Status(k, d, ip, up, info) => OnStatus(s, d, ip, up, info).(fds := s.fds - {k})
    case Refuse(_, _) => s
    case Grab(k, d, ip) =>
      s.(pools := s.pools[d := Pools.Take(PoolOf(s, d), ip)], request := Taken(k, d, ip))
    case Resolve =>
      if !s.request.Taken? then s
      else if Knows(s, s.request.dprop, s.request.ip)
      then s.(request := Resolved(s.request.sock, s.request.dprop, s.request.ip))
      else s.(request := Idle)   // the exception: the cpu is neither free nor recorded
    case Record =>
      if s.request.Resolved? then OnRecord(s, s.request.sock, s.request.dprop, s.request.ip) else s
    case Tick(clock) => s.(pools := map d | d in s.pools :: Sweep(s.pools[d], clock))
    case Collect => s.(pools := map d | d in s.pools :: Restart(s.pools[d]))
  }

  /** Messages about hosts change the pools and nothing else. */
  lemma LoadPoolsOnly(s: State, d: Dprop, ip: Ip, raw: Loads, now: int, info: Option<HostInfo>)
    ensures var t := OnLoad(s, d, ip, raw, now, info); t == s.(pools := t.pools)
  {
  }

  lemma StatusPoolsOnly(s: State, d: Dprop, ip: Ip, up: bool, info: Option<HostInfo>)
    ensures var t := OnStatus(s, d, ip, up, info); t == s.(pools := t.pools)
  {
  }

  lemma LoadPools(s: State, d: Dprop, ip: Ip, raw: Loads, now: int, info: Option<HostInfo>)
    ensures OnLoad(s, d, ip, raw, now, info).pools ==
      if Knows(s, d, ip) then s.pools[d := HearLoad(PoolOf(s, d), ip, raw, now)]
      else if info.Some? then s.pools[d := Enrol(PoolOf(s, d), ip, NewHost(ip, d, info.value))]
      else s.pools
  {
  }

  lemma StatusPools(s: State, d: Dprop, ip: Ip, up: bool, info: Option<HostInfo>)
    ensures OnStatus(s, d, ip, up, info).pools ==
      if Knows(s, d, ip) then
        s.pools[d := if up then Pools.Up(PoolOf(s, d), ip) else Pools.Down(PoolOf(s, d), ip)]
      else if up && info.Some? then s.pools[d := Enrol(PoolOf(s, d), ip, NewHost(ip, d, info.value))]
      else s.pools
  {
  }

  // ------------------------------------------------------------------------------- the runs

  ghost function After(s: State, es: seq<Event>): State {
    if es == [] then s else Step(After(s, es[..|es| - 1]), es[|es| - 1])
  }

  ghost predicate Legal(s: State, es: seq<Event>) {
    es == [] || (Legal(s, es[..|es| - 1]) && Enabled(After(s, es[..|es| - 1]), es[|es| - 1]))
  }

  lemma Snoc(s: State, es: seq<Event>, e: Event)
    ensures After(s, es + [e]) == Step(After(s, es), e)
    ensures Legal(s, es + [e]) <==> Legal(s, es) && Enabled(After(s, es), e)
  {
    assert (es + [e])[..|es + [e]| - 1] == es;
  }

  lemma Nothing(s: State)
    ensures Legal(s, []) && After(s, []) == s
  {
  }

  lemma Single(s: State, e: Event) returns (es: seq<Event>)
    requires Enabled(s, e)
    ensures es == [e] && Legal(s, es) && After(s, es) == Step(s, e)
  {
    es := [e];
    Snoc(s, [], e);
    assert [] + [e] == [e];
  }

  lemma AcceptOrOther(s: State, k: Socket)
    ensures Step(s, Accept(k)) == s.(fds := s.fds + {k})
    ensures Step(s, Other(k)) == s.(fds := s.fds - {k})
  {
  }

  lemma {:induction false} Append(s: State, es: seq<Event>, fs: seq<Event>)
    ensures After(s, es + fs) == After(After(s, es), fs)
    ensures Legal(s, es + fs) <==> Legal(s, es) && Legal(After(s, es), fs)
  {
    if fs == [] {
      assert es + fs == es;
    } else {
      var init, last := fs[..|fs| - 1], fs[|fs| - 1];
      Append(s, es, init);
      assert es + fs == es + init + [last] && fs == init + [last];
      Snoc(s, es + init, last);
    }
  }

  // -------------------------------------------------------------------------- the invariant

  predicate InService(p: Pool, ip: Ip) {
    ip in p.hosts && p.hosts[ip].state == Available
  }

  ghost predicate PoolOk(p: Pool, d: Dprop) {
    && (forall ip :: ip in p.hosts ==> p.hosts[ip].ip == ip && p.hosts[ip].dprop == d)
    && (forall ip :: ip in p.free ==> InService(p, ip))
    && (forall ip :: ip in p.hosts && p.hosts[ip].state == Overloaded ==> p.hosts[ip].Tier() == 0)
    && (forall k :: k in p.held ==> p.held[k] in p.hosts)
  }

  ghost predicate Invariant(s: State) {
    && (forall d :: d in s.pools ==> PoolOk(s.pools[d], d))
    && (forall k :: k in s.index ==> s.index[k] in s.pools && k in s.pools[s.index[k]].held)
    && (!s.request.Idle? ==>
          s.request.sock in s.fds && s.request.dprop in s.pools && Knows(s, s.request.dprop, s.request.ip))
  }

  lemma PutHostOk(p: Pool, d: Dprop, ip: Ip, h: HostRec, n: nat)
    requires PoolOk(p, d) && h.ip == ip && h.dprop == d
    requires h.state == Overloaded ==> h.Tier() == 0
    requires 0 < n ==> h.state == Available
    ensures PoolOk(p.(hosts := p.hosts[ip := h], free := p.free[ip := n]), d)
  {
    hide CalcTier;
  }

  lemma HearLoadOk(p: Pool, d: Dprop, ip: Ip, raw: Loads, now: int)
    requires PoolOk(p, d) && ip in p.hosts
    ensures var q := HearLoad(p, ip, raw, now);
            PoolOk(q, d) && q.hosts.Keys == p.hosts.Keys && q.held == p.held
  {
    hide CalcTier;
    var q := HearLoad(p, ip, raw, now);
    HeardHost(p, d, ip, raw, now);
    hide HearLoad;
    PutHostOk(p, d, ip, q.hosts[ip], q.free[ip]);
    hide PoolOk;
  }

  /** A load message touches one host's record and its free cpus. */
  lemma HeardHost(p: Pool, d: Dprop, ip: Ip, raw: Loads, now: int)
    requires PoolOk(p, d) && ip in p.hosts
    ensures var q := HearLoad(p, ip, raw, now);
      && ip in q.hosts
      && q == p.(hosts := p.hosts[ip := q.hosts[ip]], free := p.free[ip := q.free[ip]])
      && q.hosts[ip].ip == ip && q.hosts[ip].dprop == d
      && (q.hosts[ip].state == Overloaded ==> q.hosts[ip].Tier() == 0)
      && (0 < q.free[ip] ==> q.hosts[ip].state == Available)
  {
    hide CalcTier;
  }

  lemma MoveOk(p: Pool, d: Dprop, ip: Ip, st: HostState)
    requires PoolOk(p, d) && ip in p.hosts && (st == Overloaded ==> p.hosts[ip].Tier() == 0)
    ensures PoolOk(Move(p, ip, st), d)
  {
    hide CalcTier;
    var q := Move(p, ip, st);
    PutHostOk(p, d, ip, q.hosts[ip], q.free[ip]);
    hide PoolOk;
    assert q == p.(hosts := p.hosts[ip := q.hosts[ip]], free := p.free[ip := q.free[ip]]);
  }

  lemma UpDownOk(p: Pool, d: Dprop, ip: Ip, up: bool)
    requires PoolOk(p, d) && ip in p.hosts
    ensures var q := if up then Pools.Up(p, ip) else Pools.Down(p, ip);
            PoolOk(q, d) && q.hosts.Keys == p.hosts.Keys && q.held == p.held
  {
    hide CalcTier, PoolOk;
    var h := p.hosts[ip];
    if up {
      MoveOk(p, d, ip, if h.state == Unavailable && h.Tier() == 0 then Overloaded else Available);
    } else {
      MoveOk(p, d, ip, Unavailable);
    }
  }

  lemma SweepOk(p: Pool, d: Dprop, clock: Clock)
    requires PoolOk(p, d)
    ensures PoolOk(Sweep(p, clock), d)
  {
    hide CalcTier;
  }

  lemma EnrolOk(p: Pool, d: Dprop, ip: Ip, i: HostInfo)
    requires PoolOk(p, d)
    ensures PoolOk(Enrol(p, ip, NewHost(ip, d, i)), d)
  {
    hide CalcTier;
  }

  lemma TakeOk(p: Pool, d: Dprop, ip: Ip)
    requires PoolOk(p, d)
    ensures PoolOk(Pools.Take(p, ip), d)
  {
    hide CalcTier;
  }

  lemma AssignOk(p: Pool, d: Dprop, k: Socket, ip: Ip)
    requires PoolOk(p, d) && ip in p.hosts
    ensures PoolOk(Pools.Assign(p, k, ip), d)
  {
    hide CalcTier;
  }

  lemma ReleaseOk(p: Pool, d: Dprop, k: Socket)
    requires PoolOk(p, d)
    ensures PoolOk(Pools.Release(p, k), d)
  {
    hide CalcTier;
    var q := Pools.Release(p, k);
    assert forall x :: x in q.free ==> x in p.free || (k in p.held && x == p.held[k] && InService(p, x));
  }

  lemma RestartOk(p: Pool, d: Dprop)
    requires PoolOk(p, d)
    ensures PoolOk(Restart(p), d)
  {
    hide CalcTier;
  }

  lemma EmptyOk(d: Dprop)
    ensures PoolOk(EMPTY, d)
  {
  }

  /** Replacing one pool by a sound one that knows the same hosts or more, and holds what
      the index says it holds. */
  lemma PutPool(s: State, d: Dprop, p: Pool)
    requires Invariant(s) && PoolOk(p, d)
    requires PoolOf(s, d).hosts.Keys <= p.hosts.Keys && PoolOf(s, d).held.Keys <= p.held.Keys
    ensures Invariant(s.(pools := s.pools[d := p]))
  {
    hide PoolOk;
  }

  lemma {:induction false} StepKeepsInvariant(s: State, e: Event)
    requires Invariant(s) && Enabled(s, e)
    ensures Invariant(Step(s, e))
  {
    hide PoolOk, HearLoad, Pools.Up, Pools.Down, Best, Enrol, Sweep, Restart, OnRecord, OnClose;
    match e {
      case Accept(_) =>
      case Close(k) => CloseKeeps(s, k);
      case Other(_) =>
      case Load(k, d, ip, raw, now, info) =>
        EmptyOk(d);
        if Knows(s, d, ip) {
          HearLoadOk(PoolOf(s, d), d, ip, raw, now);
          PutPool(s, d, HearLoad(PoolOf(s, d), ip, raw, now));
        } else {
          CreateKeeps(s, d, ip, info);
        }
      case Status(k, d, ip, up, info) =>
        EmptyOk(d);
        if Knows(s, d, ip) {
          UpDownOk(PoolOf(s, d), d, ip, up);
          PutPool(s, d, if up then Pools.Up(PoolOf(s, d), ip) else Pools.Down(PoolOf(s, d), ip));
        } else {
          CreateKeeps(s, d, ip, info);
        }
      case Refuse(_, _) =>
      case Grab(k, d, ip) =>
        GrabKeeps(s, k, d, ip);
      case Resolve =>
      case Record => RecordKeeps(s);
      case Tick(clock) => TickKeeps(s, clock);
      case Collect => CollectKeeps(s);
    }
  }

  lemma GrabKeeps(s: State, k: Socket, d: Dprop, ip: Ip)
    requires Invariant(s) && Enabled(s, Grab(k, d, ip))
    ensures Invariant(Step(s, Grab(k, d, ip)))
  {
    hide PoolOk;
    TakeOk(s.pools[d], d, ip);
    PutPool(s, d, Pools.Take(s.pools[d], ip));
  }

  lemma TickKeeps(s: State, clock: Clock)
    requires Invariant(s)
    ensures Invariant(Step(s, Tick(clock)))
  {
    hide CalcTier, PoolOk, SweptSet, Except;
    var t := Step(s, Tick(clock));
    forall d | d in s.pools
      ensures PoolOk(t.pools[d], d)
      ensures t.pools[d].held == s.pools[d].held && t.pools[d].hosts.Keys == s.pools[d].hosts.Keys
    {
      SweepOk(s.pools[d], d, clock);
    }
    hide Sweep;
  }

  lemma CollectKeeps(s: State)
    requires Invariant(s)
    ensures Invariant(Step(s, Collect))
  {
    hide PoolOk;
    forall d | d in s.pools ensures PoolOk(Restart(s.pools[d]), d) { RestartOk(s.pools[d], d); }
  }

  lemma CreateKeeps(s: State, d: Dprop, ip: Ip, info: Option<HostInfo>)
    requires Invariant(s) && !Knows(s, d, ip)
    ensures Invariant(Create(s, d, ip, info))
  {
    hide PoolOk;
    EmptyOk(d);
    if info.Some? {
      EnrolOk(PoolOf(s, d), d, ip, info.value);
      PutPool(s, d, Enrol(PoolOf(s, d), ip, NewHost(ip, d, info.value)));
    }
  }

  lemma CloseKeeps(s: State, k: Socket)
    requires Invariant(s) && s.request.Idle?
    ensures Invariant(OnClose(s, k).(fds := s.fds - {k}))
  {
    hide PoolOk;
    if k in s.index {
      var d := s.index[k];
      ReleaseOk(s.pools[d], d, k);
    }
  }

  lemma RecordKeeps(s: State)
    requires Invariant(s) && s.request.Resolved?
    ensures Invariant(Step(s, Record))
  {
    hide PoolOk;
    var d, k, ip := s.request.dprop, s.request.sock, s.request.ip;
    AssignOk(s.pools[d], d, k, ip);
    PutPool(s, d, Pools.Assign(s.pools[d], k, ip));
  }

  lemma {:induction false} KeepsInvariant(s: State, es: seq<Event>)
    requires Invariant(s) && Legal(s, es)
    ensures Invariant(After(s, es))
  {
    if es != [] {
      KeepsInvariant(s, es[..|es| - 1]);
      StepKeepsInvariant(After(s, es[..|es| - 1]), es[|es| - 1]);
    }
  }

  /** Every state that any legal sequence of events can reach satisfies the invariant. */
  lemma {:induction false} Reachable(es: seq<Event>)
    requires Legal(INIT, es)
    ensures Invariant(After(INIT, es))
  {
    KeepsInvariant(INIT, es);
  }

  // ----------------------------------------------------------------- one step, seen by one pool

  /** What a step does to the pool of one dprop. */
  ghost function PoolStep(s: State, e: Event, d: Dprop): Pool {
    var p := PoolOf(s, d);
    match e
    case Load(_, c, ip, raw, now, info) =>
      if c != d then p
      else if ip in p.hosts then HearLoad(p, ip, raw, now)
      else if info.Some? then Enrol(p, ip, NewHost(ip, d, info.value)) else p
    case Status(_, c, ip, up, info) =>
      if c != d then p
      else if ip in p.hosts then (if up then Pools.Up(p, ip) else Pools.Down(p, ip))
      else if up && info.Some? then Enrol(p, ip, NewHost(ip, d, info.value)) else p
    case Close(k) => if k in s.index && s.index[k] == d then Pools.Release(p, k) else p
    case Grab(_, c, ip) => if c == d then Pools.Take(p, ip) else p
    case Record =>
      if s.request.Resolved? && s.request.dprop == d then Pools.Assign(p, s.request.sock, s.request.ip) else p
    case Tick(clock) => Sweep(p, clock)
    case Collect => Restart(p)
    case _ => p
  }

  lemma NothingToDo(clock: Clock)
    ensures Sweep(EMPTY, clock) == EMPTY && Restart(EMPTY) == EMPTY
  {
    assert SweptSet(EMPTY, clock) == {};
  }

  lemma BackgroundOnPool(s: State, e: Event, d: Dprop)
    requires e.Tick? || e.Collect?
    ensures PoolOf(Step(s, e), d) == PoolStep(s, e, d)
  {
    NothingToDo(if e.Tick? then e.clock else (_, _) => 0);
    hide Sweep, Restart;
  }

  lemma MessageOnPool(s: State, e: Event, d: Dprop)
    requires e.Load? || e.Status?
    ensures PoolOf(Step(s, e), d) == PoolStep(s, e, d)
  {
    hide HearLoad, Enrol, NewHost, Pools.Up, Pools.Down;
    match e {
      case Load(_, c, ip, raw, now, info) => assert Step(s, e).pools == OnLoad(s, c, ip, raw, now, info).pools;
      case Status(_, c, ip, up, info) => assert Step(s, e).pools == OnStatus(s, c, ip, up, info).pools;
    }
    hide Step;
  }

  lemma StepOnPool(s: State, e: Event, d: Dprop)
    requires Invariant(s) && Enabled(s, e)
    ensures PoolOf(Step(s, e), d) == PoolStep(s, e, d)
  {
    if e.Tick? || e.Collect? {
      BackgroundOnPool(s, e, d);
      hide Step, PoolStep, Invariant, Enabled;
    } else if e.Load? || e.Status? {
      MessageOnPool(s, e, d);
      hide Step, PoolStep, Invariant, Enabled;
    } else {
      hide PoolOk, Pools.Take, Pools.Assign, Pools.Release, Best, OnLoad, OnStatus, Sweep, Restart;
    }
  }

  /** Who holds what, and the counters. */
  predicate SameBooks(p: Pool, q: Pool) {
    q.held == p.held && q.served == p.served && q.peak == p.peak
  }

  lemma LoadKeepsBooks(p: Pool, ip: Ip, raw: Loads, now: int)
    requires ip in p.hosts
    ensures SameBooks(p, HearLoad(p, ip, raw, now))
  {
    hide CalcTier;
  }

  lemma StatusKeepsBooks(p: Pool, ip: Ip)
    requires ip in p.hosts
    ensures SameBooks(p, Pools.Up(p, ip)) && SameBooks(p, Pools.Down(p, ip))
  {
    hide CalcTier;
  }

  lemma EnrolKeepsBooks(p: Pool, ip: Ip, h: HostRec)
    ensures SameBooks(p, Enrol(p, ip, h))
  {
  }

  lemma TakeKeepsBooks(p: Pool, ip: Ip)
    ensures SameBooks(p, Pools.Take(p, ip))
  {
  }

  lemma SweepKeepsBooks(p: Pool, clock: Clock)
    ensures SameBooks(p, Sweep(p, clock))
  {
    hide SweptSet, Except;
  }

  lemma MessageKeepsBooks(s: State, e: Event, d: Dprop)
    requires e.Load? || e.Status?
    ensures SameBooks(PoolOf(s, d), PoolStep(s, e, d))
  {
    var p := PoolOf(s, d);
    hide HearLoad, Pools.Up, Pools.Down, Enrol, NewHost, PoolOf, SameBooks;
    assert SameBooks(p, p) by { NoBooks(p); }
    if e.info.Some? {
      EnrolKeepsBooks(p, e.ip, NewHost(e.ip, d, e.info.value));
    }
    if e.ip in p.hosts {
      StatusKeepsBooks(p, e.ip);
      if e.Load? {
        LoadKeepsBooks(p, e.ip, e.raw, e.now);
      }
    }
  }

  lemma NoBooks(p: Pool)
    ensures SameBooks(p, p)
  {
  }

  /** Only a recorded request, a closing connection and a report change the books. */
  lemma BooksStep(s: State, e: Event, d: Dprop)
    ensures var p, q := PoolOf(s, d), PoolStep(s, e, d);
      match e
      case Close(k) => q.held == (if k in s.index && s.index[k] == d then p.held - {k} else p.held)
      case Record =>
        if s.request.Resolved? && s.request.dprop == d then q == Pools.Assign(p, s.request.sock, s.request.ip)
        else q == p
      case Collect => q == Restart(p)
      case _ => SameBooks(p, q)
    ensures e.Close? ==> PoolStep(s, e, d).served == PoolOf(s, d).served && PoolStep(s, e, d).peak == PoolOf(s, d).peak
  {
    var p := PoolOf(s, d);
    if e.Load? || e.Status? {
      MessageKeepsBooks(s, e, d);
      hide PoolStep, PoolOf, SameBooks;
    } else {
      NoBooks(p);
      hide Sweep, Restart, Pools.Take, Pools.Assign, PoolOf, SameBooks;
      match e {
        case Grab(_, _, ip) => TakeKeepsBooks(p, ip);
        case Tick(clock) => SweepKeepsBooks(p, clock);
        case _ =>
      }
    }
  }
}
