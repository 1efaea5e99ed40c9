/**
 What the inputs and outputs of the server promise to those outside: theorems about all
 behaviours, in terms of the messages sent and the replies received.
 */
module Promises {
  import opened Types
  import opened Protocol
  import opened Behaviour
  import Framing
  import Guarantees
  import Monitor
  import PoolReports
  import Pools
  import Reports
  import Requests
  import Sums

  // ------------------------------------------------------------------------- all is legal

  lemma InterruptionsAreBackground(bs: seq<Interrupt>)
    ensures Guarantees.Background(Interruptions(bs))
  {
  }

  lemma RefusalLegal(s: State, k: Socket, d: Dprop, early: seq<Interrupt>)
    requires s.request.Idle? && k in s.fds && PoolOf(s, d).free == multiset{}
    ensures Legal(s, RefusalSteps(s, k, d, early)) && After(s, RefusalSteps(s, k, d, early)).request.Idle?
  {
    var refuse := Refuse(k, d);
    var bg := if d in s.pools then [] else Interruptions(early);
    InterruptionsAreBackground(early);
    var one := Single(s, refuse);
    Guarantees.BackgroundKeepsBooks(s, bg);
    Append(s, [refuse], bg);
    hide After, Legal;
  }

  lemma GrantLegal(s: State, k: Socket, d: Dprop, ip: Ip, early: seq<Interrupt>, late: seq<Interrupt>)
    requires s.request.Idle? && k in s.fds && Pools.Best(PoolOf(s, d), ip)
    ensures Legal(s, GrantSteps(k, d, ip, early, late)) && After(s, GrantSteps(k, d, ip, early, late)).request.Idle?
  {
    var grab := Grab(k, d, ip);
    var tail := (Interruptions(early) + [Resolve]) + (Interruptions(late) + [Record]);
    InterruptionsAreBackground(early);
    InterruptionsAreBackground(late);
    var one := Single(s, grab);
    Guarantees.RequestRuns(Step(s, grab), Interruptions(early), Interruptions(late));
    Append(s, [grab], tail);
    hide After, Legal;
  }

  lemma OneStepLegal(s: State, e: Event)
    requires s.request.Idle? && Enabled(s, e) && !e.Grab?
    ensures Legal(s, [e]) && After(s, [e]).request.Idle?
  {
    var one := Single(s, e);
    hide Pools.Sweep, Pools.Restart, OnLoad, OnStatus;
    if e.Load? {
      LoadPoolsOnly(s, e.dprop, e.ip, e.raw, e.now, e.info);
    } else if e.Status? {
      StatusPoolsOnly(s, e.dprop, e.ip, e.up, e.info);
    }
  }

  lemma HandledLegally(s: State, input: Input, es: seq<Event>, outs: seq<Output>)
    requires s.request.Idle? && Handles(s, input, es, outs)
    ensures Legal(s, es) && After(s, es).request.Idle?
  {
    hide Requests.Meaning, FiguresOf, Legal, After, RefusalSteps, GrantSteps, Step;
    hide Reports.Render, PoolReports.ServerReport, Sums.SumOf;
    if es == [] {
      Nothing(s);
    } else if input.Data? && input.text.Some? && Requests.Meaning(input.text.value).Host? {
      var d := Requests.Meaning(input.text.value).dprop;
      var ip :| Answers(s, input.sock, d, input.env.early, input.env.late, ip, es);
      if PoolOf(s, d).free == multiset{} {
        RefusalLegal(s, input.sock, d, input.env.early);
      } else {
        GrantLegal(s, input.sock, d, ip, input.env.early, input.env.late);
      }
    } else {
      OneStepLegal(s, es[0]);
    }
  }

  lemma {:induction false} FlatJoin(x: seq<seq<Event>>, y: seq<seq<Event>>)
    ensures Flat(x + y) == Flat(x) + Flat(y)
  {
    if y == [] {
      assert x + y == x;
    } else {
      FlatJoin(x, y[..|y| - 1]);
      assert (x + y)[..|x + y| - 1] == x + y[..|y| - 1];
    }
  }

  /** Every behaviour is a legal run of the protocol, and between inputs no request is open. */
  lemma {:induction false} BehavesLegally(
    inputs: seq<Input>, ess: seq<seq<Event>>, outs: seq<seq<Output>>, i: nat)
    requires Behaves(inputs, ess, outs) && i <= |inputs|
    ensures Legal(INIT, Flat(ess[..i])) && Before(ess, i).request.Idle? && Invariant(Before(ess, i))
  {
    hide Handles, Invariant;
    if i == 0 {
      assert ess[..0] == [] && Flat([]) == [];
      Nothing(INIT);
    } else {
      BehavesLegally(inputs, ess, outs, i - 1);
      HandledLegally(Before(ess, i - 1), inputs[i - 1], ess[i - 1], outs[i - 1]);
      hide Legal, After;
      assert ess[..i] == ess[..i - 1] + [ess[i - 1]];
      FlatMore(ess[..i - 1], ess[i - 1]);
      Append(INIT, Flat(ess[..i - 1]), ess[i - 1]);
    }
    Reachable(Flat(ess[..i]));
  }

  lemma Between(inputs: seq<Input>, ess: seq<seq<Event>>, outs: seq<seq<Output>>, i: nat, j: nat)
    requires Behaves(inputs, ess, outs) && i <= j <= |inputs|
    ensures Legal(Before(ess, i), Flat(ess[i..j])) && Before(ess, j) == After(Before(ess, i), Flat(ess[i..j]))
  {
    BehavesLegally(inputs, ess, outs, j);
    assert ess[..j] == ess[..i] + ess[i..j];
    FlatJoin(ess[..i], ess[i..j]);
    Append(INIT, Flat(ess[..i]), Flat(ess[i..j]));
    hide Legal, After, Behaves;
  }

  lemma Handled(inputs: seq<Input>, ess: seq<seq<Event>>, outs: seq<seq<Output>>, i: nat)
    requires Behaves(inputs, ess, outs) && i < |inputs|
    ensures Handles(Before(ess, i), inputs[i], ess[i], outs[i])
    ensures Flat(ess[..i + 1]) == Flat(ess[..i]) + ess[i]
  {
    hide Handles;
    assert ess[..i + 1] == ess[..i] + [ess[i]];
    FlatMore(ess[..i], ess[i]);
  }

  /** An input that is handled by one step. */
  lemma OneStep(inputs: seq<Input>, ess: seq<seq<Event>>, outs: seq<seq<Output>>, i: nat, e: Event)
    requires Behaves(inputs, ess, outs) && i < |inputs|
    requires ess[i] == [e]
    ensures Before(ess, i + 1) == Step(Before(ess, i), e)
  {
    hide Handles, Step;
    assert ess[i] == [e];
    assert ess[..i + 1] == ess[..i] + [ess[i]];
    FlatMore(ess[..i], ess[i]);
    Snoc(INIT, Flat(ess[..i]), e);
  }

  lemma {:induction false} InFlat(ess: seq<seq<Event>>, e: Event)
    requires e in Flat(ess)
    ensures exists i :: 0 <= i < |ess| && e in ess[i]
  {
    if e in ess[|ess| - 1] {
    } else {
      InFlat(ess[..|ess| - 1], e);
      var i :| 0 <= i < |ess| - 1 && e in ess[..|ess| - 1][i];
      assert e in ess[i];
    }
  }

  // ------------------------------------------------------------------------- reading a message

  /** A status message about host `ip` of dprop `d`. */
  predicate Tells(input: Input, up: bool, d: Dprop, ip: Ip) {
    && input.Data? && input.text.Some?
    && var m := Requests.Meaning(input.text.value);
       m.Status? && m.up == up && m.dprop == d && input.env.address(m.host) == ip
  }

  predicate AsksFor(input: Input, d: Dprop) {
    input.Data? && input.text.Some? && Requests.Meaning(input.text.value) == Requests.Host(d)
  }

  predicate AsksForReport(input: Input) {
    input.Data? && input.text.Some? && Requests.Meaning(input.text.value).Monitor?
  }

  lemma InterruptionIsBackground(bs: seq<Interrupt>, e: Event)
    requires e in Interruptions(bs)
    ensures e.Tick? || e.Collect?
  {
  }

  /** The only way to tell the protocol that a host is up is to send that message. */
  lemma UpWasSent(s: State, input: Input, es: seq<Event>, outs: seq<Output>, e: Event, d: Dprop, ip: Ip)
    requires Handles(s, input, es, outs) && e in es && Guarantees.TellsUp(e, d, ip)
    ensures Tells(input, true, d, ip)
  {
    hide Requests.Meaning, FiguresOf, Reports.Render, PoolReports.ServerReport, Sums.SumOf, Pools.Best;
    if input.Data? && input.text.Some? && Requests.Meaning(input.text.value).Host? {
      if e in Interruptions(input.env.early) {
        InterruptionIsBackground(input.env.early, e);
      }
      if e in Interruptions(input.env.late) {
        InterruptionIsBackground(input.env.late, e);
      }
    }
  }

  lemma {:induction false} OnlyFigures(s: State, es: seq<Event>, x: Output)
    requires x in FiguresOf(s, es)
    ensures x.Figures?
  {
    hide Step, Sums.SumOf;
    if es != [] && x in FiguresOf(s, es[..|es| - 1]) {
      OnlyFigures(s, es[..|es| - 1], x);
    }
  }

  /** The address in the reply is that of the cpu that was taken. */
  lemma ReplyWasTaken(s: State, input: Input, es: seq<Event>, outs: seq<Output>, d: Dprop, k: Socket, ip: Ip)
    requires Handles(s, input, es, outs) && AsksFor(input, d) && Reply(k, ip) in outs && ip != NO_HOST
    ensures Grab(k, d, ip) in es
  {
    hide FiguresOf, Pools.Best;
    if Reply(k, ip) in FiguresOf(s, es) {
      OnlyFigures(s, es, Reply(k, ip));
    }
    assert es[0] in es;
  }

  // ------------------------------------------------------------------------------ the promises

  /** After a "down" message for a known host, and until an "up" message for it, whatever else
      is sent, no client of its dprop is given its address. */
  lemma {:induction false} DownMeansDown(
    inputs: seq<Input>, ess: seq<seq<Event>>, outs: seq<seq<Output>>, i: nat, j: nat, d: Dprop, ip: Ip)
    requires Behaves(inputs, ess, outs) && i < j < |inputs|
    requires Tells(inputs[i], false, d, ip) && inputs[i].sock in Before(ess, i).fds && Knows(Before(ess, i), d, ip)
    requires forall m :: i < m < j ==> !Tells(inputs[m], true, d, ip)
    ensures Guarantees.IsDown(Before(ess, j), d, ip)
    ensures AsksFor(inputs[j], d) && ip != NO_HOST ==> forall k :: Reply(k, ip) !in outs[j]
  {
    StaysDownUntil(inputs, ess, outs, i, j, d, ip);
    if AsksFor(inputs[j], d) && ip != NO_HOST {
      forall k ensures Reply(k, ip) !in outs[j] {
        NotGivenOut(inputs, ess, outs, j, d, k, ip);
      }
    }
  }

  lemma StaysDownUntil(
    inputs: seq<Input>, ess: seq<seq<Event>>, outs: seq<seq<Output>>, i: nat, j: nat, d: Dprop, ip: Ip)
    requires Behaves(inputs, ess, outs) && i < j <= |inputs|
    requires Tells(inputs[i], false, d, ip) && inputs[i].sock in Before(ess, i).fds && Knows(Before(ess, i), d, ip)
    requires forall m :: i < m < j ==> !Tells(inputs[m], true, d, ip)
    ensures Guarantees.IsDown(Before(ess, j), d, ip)
  {
    hide Legal, After, Invariant, Handles, Guarantees.IsDown, Guarantees.TellsUp, Tells;
    IsDownNext(inputs, ess, outs, i, d, ip);
    Between(inputs, ess, outs, i + 1, j);
    BehavesLegally(inputs, ess, outs, i + 1);
    NoUpBetween(inputs, ess, outs, i, j, d, ip);
    hide Behaves, Flat, Before;
    var es := Flat(ess[i + 1..j]);
    assert forall x :: 0 <= x < |es| ==> es[x] in es;
    Guarantees.DownIsSticky(Before(ess, i + 1), es, d, ip);
  }

  lemma NotGivenOut(
    inputs: seq<Input>, ess: seq<seq<Event>>, outs: seq<seq<Output>>, j: nat, d: Dprop, k: Socket, ip: Ip)
    requires Behaves(inputs, ess, outs) && j < |inputs|
    requires Guarantees.IsDown(Before(ess, j), d, ip) && AsksFor(inputs[j], d) && ip != NO_HOST
    ensures Reply(k, ip) !in outs[j]
  {
    var s := Before(ess, j);
    BehavesLegally(inputs, ess, outs, j);
    HandledLegally(s, inputs[j], ess[j], outs[j]);
    forall x | 0 <= x < |ess[j]| ensures !Guarantees.TellsUp(ess[j][x], d, ip) {
      if Guarantees.TellsUp(ess[j][x], d, ip) {
        UpWasSent(s, inputs[j], ess[j], outs[j], ess[j][x], d, ip);
      }
    }
    hide Legal, After, Invariant, Handles, Guarantees.IsDown, Guarantees.TellsUp, Behaves;
    Guarantees.DownIsSticky(s, ess[j], d, ip);
    if Reply(k, ip) in outs[j] {
      ReplyWasTaken(s, inputs[j], ess[j], outs[j], d, k, ip);
    }
  }

  lemma IsDownNext(
    inputs: seq<Input>, ess: seq<seq<Event>>, outs: seq<seq<Output>>, i: nat, d: Dprop, ip: Ip)
    requires Behaves(inputs, ess, outs) && i < |inputs|
    requires Tells(inputs[i], false, d, ip) && inputs[i].sock in Before(ess, i).fds && Knows(Before(ess, i), d, ip)
    ensures Guarantees.IsDown(Before(ess, i + 1), d, ip)
  {
    var s, env := Before(ess, i), inputs[i].env;
    var down := Status(inputs[i].sock, d, ip, false, env.info(ip));
    assert Handles(s, inputs[i], ess[i], outs[i]);
    OneStep(inputs, ess, outs, i, down);
    Guarantees.DownTakesEffect(s, inputs[i].sock, d, ip, env.info(ip));
    hide Step, After, Legal, Handles, Before;
  }

  lemma NoUpBetween(
    inputs: seq<Input>, ess: seq<seq<Event>>, outs: seq<seq<Output>>, i: nat, j: nat, d: Dprop, ip: Ip)
    requires Behaves(inputs, ess, outs) && i < j <= |inputs|
    requires forall m :: i < m < j ==> !Tells(inputs[m], true, d, ip)
    ensures forall e :: e in Flat(ess[i + 1..j]) ==> !Guarantees.TellsUp(e, d, ip)
  {
    hide Handles, Tells, Guarantees.TellsUp;
    forall e | e in Flat(ess[i + 1..j]) ensures !Guarantees.TellsUp(e, d, ip) {
      InFlat(ess[i + 1..j], e);
      var m :| 0 <= m < |ess[i + 1..j]| && e in ess[i + 1..j][m];
      var n := i + 1 + m;
      assert ess[n] == ess[i + 1..j][m];
      if Guarantees.TellsUp(e, d, ip) {
        UpWasSent(Before(ess, n), inputs[n], ess[n], outs[n], e, d, ip);
      }
    }
  }

  /** Every request on a watched connection gets one reply: 0.0.0.0 if no host of the dprop has a
      free cpu, and otherwise a host in service that no host with a free cpu beats. */
  lemma {:induction false} BestReply(
    inputs: seq<Input>, ess: seq<seq<Event>>, outs: seq<seq<Output>>, j: nat, d: Dprop)
    requires Behaves(inputs, ess, outs) && j < |inputs|
    requires AsksFor(inputs[j], d) && inputs[j].sock in Before(ess, j).fds
    ensures var s := Before(ess, j);
      exists ip ::
        && outs[j] == FiguresOf(s, ess[j]) + [Reply(inputs[j].sock, ip)]
        && (if forall x :: Knows(s, d, x) ==> PoolOf(s, d).free[x] == 0 then ip == NO_HOST
            else Guarantees.IsBestHost(PoolOf(s, d), ip))
  {
    var s, k, env := Before(ess, j), inputs[j].sock, inputs[j].env;
    BehavesLegally(inputs, ess, outs, j);
    hide Invariant, Legal, After, FiguresOf, Guarantees.IsBestHost;
    assert HandlesHost(s, k, d, env, ess[j], outs[j]);
    var ip :| Answers(s, k, d, env.early, env.late, ip, ess[j]) && outs[j] == FiguresOf(s, ess[j]) + [Reply(k, ip)];
    Guarantees.RefusedIff(s, k, d);
    if PoolOf(s, d).free != multiset{} {
      Guarantees.BestHost(s, k, d, ip);
    }
    assert outs[j] == FiguresOf(s, ess[j]) + [Reply(k, ip)];
  }

  lemma ReportSent(inputs: seq<Input>, ess: seq<seq<Event>>, outs: seq<seq<Output>>, j: nat)
    requires Behaves(inputs, ess, outs) && j < |inputs|
    requires AsksForReport(inputs[j]) && inputs[j].sock in Before(ess, j).fds
    ensures outs[j] == [Report(inputs[j].sock, Reports.Render(PoolReports.ServerReport(Before(ess, j).pools)))]
  {
    hide Before, Reports.Render, PoolReports.ServerReport, Requests.Meaning;
    assert Handles(Before(ess, j), inputs[j], ess[j], outs[j]);
  }

  /** The report fits the monitor: no dprop holds white space or a NUL, every number fits in an
      int, and the text fits the buffer. */
  ghost predicate Presentable(items: seq<Reports.Item>) {
    && Monitor.Plain(items)
    && (forall i :: 0 <= i < |items| ==> Monitor.InRange(items[i]))
    && (forall i :: 0 <= i < |items| && items[i].Section? ==> Framing.NulFree(items[i].dprop))
    && |Reports.Render(items)| < 8194
  }

  /** A monitor that asks for the report then sees exactly the hosts and the free cpus of that
      moment. */
  lemma {:induction false} MonitorSees(
    inputs: seq<Input>, ess: seq<seq<Event>>, outs: seq<seq<Output>>, j: nat, name: string -> string)
    requires Behaves(inputs, ess, outs) && j < |inputs|
    requires AsksForReport(inputs[j]) && inputs[j].sock in Before(ess, j).fds
    requires Presentable(PoolReports.ServerReport(Before(ess, j).pools))
    ensures var text := Reports.Render(PoolReports.ServerReport(Before(ess, j).pools));
      && outs[j] == [Report(inputs[j].sock, text)]
      && Framing.Received(Framing.Encode([text]), Monitor.RESULT_MAX - 2) == [text]
      && Monitor.Parse(text).Some?
      && Monitor.Finished(Monitor.DisplayAll(Monitor.BLANK, Monitor.Parse(text).value, name))
           == Monitor.ScreenText(Before(ess, j).pools, name)
  {
    ReportSent(inputs, ess, outs, j);
    var pools := Before(ess, j).pools;
    var items := PoolReports.ServerReport(pools);
    assert Presentable(items);
    var text := Reports.Render(items);
    assert Framing.NulFree(text) && |text| < 8194 by {
      Monitor.RenderNulFree(items);
    }
    assert Monitor.Plain(items) && forall i :: 0 <= i < |items| ==> Monitor.InRange(items[i]);
    hide *;
    Monitor.ReportArrives(text);
    Monitor.MonitorShows(pools, name);
  }
}
