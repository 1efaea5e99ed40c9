/**
 What the server does with what it is given: for every input, the steps it makes and the
 outputs it produces.  Nothing else is left to choose but which of several equally good hosts
 a client gets.
 */
module Behaviour {
  import opened Types
  import opened Protocol
  import Pools
  import Sums
  import Requests
  import Reports
  import PoolReports

  /** A load message, read. */
  datatype LoadMsg = LoadMsg(ip: Ip, raw: Loads, dprop: Dprop)

  /** A background thread gets hold of the database in the middle of a host request. */
  datatype Interrupt = Silencing(clock: Clock) | Reporting

  /** What the server asks of its surroundings while it handles a message: the clock, the
      hosts-info file, how addresses and load averages are written, and which background
      threads run after the first and after the second locked section of a host request. */
  datatype Env = Env(
    now: int, info: Ip -> Option<HostInfo>, address: string -> Ip, loads: string -> Option<LoadMsg>,
    early: seq<Interrupt>, late: seq<Interrupt>)

  /** What the outside world does to the server: connections, texts on a connection (None when
      the peer has closed it), and the moments at which the two background threads run. */
  datatype Input =
    | Connect(sock: Socket)
    | Data(sock: Socket, text: Option<string>, env: Env)
    | SilentSearch(clock: Clock)
    | UpdateStats
  {
    /** The words of a message fit the buffers they are read into. */
    predicate Fits() {
      Data? && text.Some? ==> !Requests.Meaning(text.value).Overrun?
    }
  }

  datatype Output =
    | Reply(sock: Socket, ip: Ip)
    | Report(sock: Socket, text: string)
    | Figures(st: Pools.Stats)

  // ------------------------------------------------------------------------------ the relation

  function Interruption(b: Interrupt): Event {
    match b
    case Silencing(clock) => Tick(clock)
    case Reporting => Collect
  }

  function Interruptions(bs: seq<Interrupt>): seq<Event> {
    seq(|bs|, i requires 0 <= i < |bs| => Interruption(bs[i]))
  }

  /** The figures printed during a run from `s`: one line for every report. */
  ghost function FiguresOf(s: State, es: seq<Event>): seq<Output> {
    if es == [] then []
    else
      var init := es[..|es| - 1];
      FiguresOf(s, init) + if es[|es| - 1].Collect? then [Figures(Sums.SumOf(After(s, init).pools))] else []
  }

  /** The steps of a request that is granted. */
  function GrantSteps(k: Socket, d: Dprop, ip: Ip, early: seq<Interrupt>, late: seq<Interrupt>): seq<Event> {
    [Grab(k, d, ip)] + ((Interruptions(early) + [Resolve]) + (Interruptions(late) + [Record]))
  }

  /** The steps of a request that is refused.  For a dprop that has never had a host the failure
      comes from the second section, so the first interruptions are still inside it. */
  function RefusalSteps(s: State, k: Socket, d: Dprop, early: seq<Interrupt>): seq<Event> {
    [Refuse(k, d)] + if d in s.pools then [] else Interruptions(early)
  }

  /** A request in state `s` gets the reply `ip` by the steps `es`. */
  ghost predicate Answers(
    s: State, k: Socket, d: Dprop, early: seq<Interrupt>, late: seq<Interrupt>, ip: Ip, es: seq<Event>)
  {
    if PoolOf(s, d).free == multiset{} then ip == NO_HOST && es == RefusalSteps(s, k, d, early)
    else Pools.Best(PoolOf(s, d), ip) && es == GrantSteps(k, d, ip, early, late)
  }

  ghost predicate HandlesHost(
    s: State, k: Socket, d: Dprop, env: Env, es: seq<Event>, outs: seq<Output>)
  {
    exists ip :: Answers(s, k, d, env.early, env.late, ip, es) && outs == FiguresOf(s, es) + [Reply(k, ip)]
  }

  /** A message on a watched connection. */
  ghost predicate HandlesText(s: State, k: Socket, text: string, env: Env, es: seq<Event>, outs: seq<Output>) {
    match Requests.Meaning(text)
    case Host(d) => HandlesHost(s, k, d, env, es, outs)
    case Status(h, up, d) =>
      es == [Status(k, d, env.address(h), up, env.info(env.address(h)))] && outs == []
    case Load(t) =>
      && outs == []
      && (match env.loads(t)
          case Some(m) => es == [Load(k, m.dprop, m.ip, m.raw, env.now, env.info(m.ip))]
          case None => es == [Other(k)])
    case Monitor =>
      es == [Other(k)] && outs == [Report(k, Reports.Render(PoolReports.ServerReport(s.pools)))]
    case _ => es == [Other(k)] && outs == []
  }

  /** In state `s` the server handles an input by the steps `es` and with the outputs `outs`. */
  ghost predicate Handles(s: State, input: Input, es: seq<Event>, outs: seq<Output>) {
    match input
    case Connect(k) => es == (if k in s.fds then [] else [Accept(k)]) && outs == []
    case Data(k, text, env) =>
      if k !in s.fds then es == [] && outs == []
      else if text == None then es == [Close(k)] && outs == []
      else HandlesText(s, k, text.value, env, es, outs)
    case SilentSearch(clock) => es == [Tick(clock)] && outs == []
    case UpdateStats => es == [Collect] && outs == [Figures(Sums.SumOf(s.pools))]
  }

  function Flat(ess: seq<seq<Event>>): seq<Event> {
    if ess == [] then [] else Flat(ess[..|ess| - 1]) + ess[|ess| - 1]
  }

  /** The state before the i-th input. */
  ghost function Before(ess: seq<seq<Event>>, i: nat): State
    requires i <= |ess|
  {
    After(INIT, Flat(ess[..i]))
  }

  /** The server, started empty and given `inputs`, makes the steps `ess` and the outputs `outs`. */
  ghost predicate Behaves(inputs: seq<Input>, ess: seq<seq<Event>>, outs: seq<seq<Output>>) {
    && |ess| == |inputs| == |outs|
    && forall i :: 0 <= i < |inputs| ==> Handles(Before(ess, i), inputs[i], ess[i], outs[i])
  }

  // ----------------------------------------------------------------------------- composition

  lemma {:induction false} FiguresJoin(s: State, es: seq<Event>, fs: seq<Event>)
    ensures FiguresOf(s, es + fs) == FiguresOf(s, es) + FiguresOf(After(s, es), fs)
  {
    hide Step;
    if fs == [] {
      assert es + fs == es;
    } else {
      var init, last := fs[..|fs| - 1], fs[|fs| - 1];
      FiguresJoin(s, es, init);
      Append(s, es, init);
      assert (es + fs)[..|es + fs| - 1] == es + init;
    }
  }

  lemma NoFigures(s: State, e: Event)
    requires !e.Collect?
    ensures FiguresOf(s, [e]) == []
  {
    assert [e][..0] == [];
    assert FiguresOf(s, []) == [];
  }

  lemma FlatMore(ess: seq<seq<Event>>, es: seq<Event>)
    ensures Flat(ess + [es]) == Flat(ess) + es
  {
    assert (ess + [es])[..|ess|] == ess;
  }

  lemma BehavesMore(
    inputs: seq<Input>, ess: seq<seq<Event>>, outs: seq<seq<Output>>, input: Input, es: seq<Event>, out: seq<Output>)
    requires Behaves(inputs, ess, outs) && Handles(After(INIT, Flat(ess)), input, es, out)
    ensures Behaves(inputs + [input], ess + [es], outs + [out])
  {
    hide Handles, After, Flat;
    assert (ess + [es])[..|ess|] == ess;
    forall i | 0 <= i < |inputs| ensures Before(ess + [es], i) == Before(ess, i) {
      assert (ess + [es])[..i] == ess[..i];
    }
  }
}
