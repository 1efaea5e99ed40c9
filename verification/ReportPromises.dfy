/**
 What the figures and the report say, for every behaviour of the server.
 */
module ReportPromises {
  import opened Types
  import opened Protocol
  import opened Behaviour
  import opened Promises
  import Figures
  import Framing
  import Monitor
  import Orders
  import PoolReports
  import Pools
  import Reports
  import Requests
  import Screens
  import Statistics
  import Sums
  import Text

  // ------------------------------------------------------------------------------ the figures

  /** The figures after the run `es`: the requests granted since figures were last printed; for all
      dprops together, the most cpus in use right after a grant since then; and all cpus that
      hosts brought in, less those on their way, drained, discarded or lost. */
  ghost predicate Describes(st: Pools.Stats, es: seq<Event>) {
    && st.served == Figures.GrantedSince(es)
    && st.peak == Figures.Total(Figures.Dprops(es), Figures.MostHeld(es))
    && st.total + Figures.Total(Figures.Dprops(es), Figures.AllGone(es))
         == Figures.Total(Figures.Dprops(es), Figures.AllBrought(es))
  }

  /** Printed figures are sums over the pools at that point. */
  lemma {:induction false} FigureTaken(s: State, es: seq<Event>, st: Pools.Stats) returns (n: nat)
    requires Behaviour.Figures(st) in FiguresOf(s, es)
    ensures n < |es| && st == Sums.SumOf(After(s, es[..n]).pools)
  {
    hide Step, Sums.SumOf;
    var init := es[..|es| - 1];
    if Behaviour.Figures(st) in FiguresOf(s, init) {
      n := FigureTaken(s, init, st);
      assert init[..n] == es[..n];
    } else {
      n := |es| - 1;
    }
  }

  /** Where the figures in the output of an input come from. */
  lemma FiguresFrom(s: State, input: Input, es: seq<Event>, outs: seq<Output>, st: Pools.Stats)
    requires Handles(s, input, es, outs) && Behaviour.Figures(st) in outs
    ensures Behaviour.Figures(st) in FiguresOf(s, es)
  {
    hide Requests.Meaning, Sums.SumOf, Pools.Best, Reports.Render, PoolReports.ServerReport, Step;
    if input.UpdateStats? {
      assert FiguresOf(s, [Collect]) == FiguresOf(s, []) + [Behaviour.Figures(Sums.SumOf(After(s, []).pools))] by {
        assert [Collect][..0] == [];
      }
      Nothing(s);
      assert FiguresOf(s, []) == [];
    } else {
      hide FiguresOf;
    }
  }

  /** Whenever figures are printed, also in the middle of a host request, they describe the run up
      to that point. */
  lemma {:induction false} FiguresPrinted(
    inputs: seq<Input>, ess: seq<seq<Event>>, outs: seq<seq<Output>>, j: nat, st: Pools.Stats)
    requires Behaves(inputs, ess, outs) && j < |inputs| && Behaviour.Figures(st) in outs[j]
    ensures exists n :: 0 <= n < |ess[j]| && Describes(st, Flat(ess[..j]) + ess[j][..n])
  {
    var s := Before(ess, j);
    assert Handles(s, inputs[j], ess[j], outs[j]);
    hide Handles, Describes, Sums.SumOf, FiguresOf;
    FiguresFrom(s, inputs[j], ess[j], outs[j], st);
    var n := FigureTaken(s, ess[j], st);
    UpTo(inputs, ess, outs, j, n);
    hide Before, Behaves, Legal, After, Flat;
    DescribesIs(Flat(ess[..j]) + ess[j][..n]);
  }

  lemma PrefixLegal(a: seq<Event>, b: seq<Event>, n: nat)
    requires Legal(INIT, a + b) && n <= |b|
    ensures Legal(INIT, a + b[..n]) && After(INIT, a + b[..n]) == After(After(INIT, a), b[..n])
  {
    hide Legal, After;
    assert a + b == a + b[..n] + b[n..];
    Append(INIT, a + b[..n], b[n..]);
    Append(INIT, a, b[..n]);
  }

  lemma UpTo(inputs: seq<Input>, ess: seq<seq<Event>>, outs: seq<seq<Output>>, j: nat, n: nat)
    requires Behaves(inputs, ess, outs) && j < |inputs| && n <= |ess[j]|
    ensures var es := Flat(ess[..j]) + ess[j][..n];
      Legal(INIT, es) && After(INIT, es) == After(Before(ess, j), ess[j][..n])
  {
    assert Before(ess, j) == After(INIT, Flat(ess[..j]));
    hide *;
    BehavesLegally(inputs, ess, outs, j + 1);
    Handled(inputs, ess, outs, j);
    PrefixLegal(Flat(ess[..j]), ess[j], n);
  }

  lemma DescribesIs(es: seq<Event>)
    requires Legal(INIT, es)
    ensures Describes(Sums.SumOf(After(INIT, es).pools), es)
  {
    Figures.FiguresMean(es);
  }

  // ------------------------------------------------------------------------------ the screen

  /** A monitor that asks for the report and is sent one that fits it shows, line by line and
      word by word, the sections of all dprops at that moment. */
  lemma {:induction false} MonitorReads(
    inputs: seq<Input>, ess: seq<seq<Event>>, outs: seq<seq<Output>>, j: nat, name: string -> string)
    requires Behaves(inputs, ess, outs) && j < |inputs|
    requires AsksForReport(inputs[j]) && inputs[j].sock in Before(ess, j).fds
    requires Presentable(PoolReports.ServerReport(Before(ess, j).pools))
    requires var pools := Before(ess, j).pools;
      forall d :: d in pools ==> Text.SpaceFree(d) && Screens.AllNamed(pools[d], name)
    ensures Orders.Total(Reports.Precedes)
    ensures exists text ::
      && outs[j] == [Report(inputs[j].sock, text)]
      && Framing.Received(Framing.Encode([text]), Monitor.RESULT_MAX - 2) == [text]
      && Monitor.Parse(text).Some?
      && var pools := Before(ess, j).pools;
         Screens.Rows(Monitor.Finished(Monitor.DisplayAll(Monitor.BLANK, Monitor.Parse(text).value, name)))
           == Screens.AllRows(pools, Orders.Listing(pools.Keys, Reports.Precedes), name) + [[]]
  {
    var pools := Before(ess, j).pools;
    var text := Reports.Render(PoolReports.ServerReport(pools));
    MonitorSees(inputs, ess, outs, j, name);
    Screens.ScreenReads(pools, name);
    assert outs[j] == [Report(inputs[j].sock, text)];
    hide *;
  }
}
