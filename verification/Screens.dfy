/**
 What a reader finds on the monitor's screen, line by line and word by word.
 */
module Screens {
  import opened Types
  import opened Orders
  import opened Text
  import opened Monitor
  import PoolReports
  import Pools
  import Reports

  // ---------------------------------------------------------------------------- reading a text

  function WordsOf(s: string): seq<string>
    decreases |s|
  {
    match ReadWord(s)
    case None => []
    case Some(w) => [w.value] + WordsOf(w.rest)
  }

  /** The lines of a text, each as its words. */
  function Rows(s: string): seq<seq<string>>
    decreases |s|
  {
    var k := UpTo(s, '\n');
    if k == |s| then [] else [WordsOf(s[..k])] + Rows(s[k + 1..])
  }

  lemma RowsFrom(line: string, rest: string)
    requires '\n' !in line
    ensures Rows(line + "\n" + rest) == [WordsOf(line)] + Rows(rest)
  {
    var s := line + "\n" + rest;
    assert s == line + ("\n" + rest);
    UpToIs(line, '\n', "\n" + rest);
    assert s[..|line|] == line && s[|line| + 1..] == rest;
    hide UpTo, WordsOf;
  }

  predicate IsWord(w: string) {
    w != "" && SpaceFree(w)
  }

  predicate AllWords(ws: seq<string>) {
    forall i :: 0 <= i < |ws| ==> IsWord(ws[i])
  }

  /** Words, each with a space behind it. */
  function Padded(ws: seq<string>): string {
    if ws == [] then "" else ws[0] + (" " + Padded(ws[1..]))
  }

  lemma NoWords()
    ensures WordsOf("") == [] && WordsOf(" ") == []
  {
    assert " "[1..] == "" && SkipSpace("") == "" && SkipSpace(" ") == "";
  }

  lemma WordThen(w: string, rest: string)
    requires IsWord(w)
    ensures WordsOf(w + (" " + rest)) == [w] + WordsOf(rest)
  {
    ReadsWord(w, " " + rest);
    assert w + (" " + rest) == w + " " + rest;
    SpaceFirst(rest);
    hide ReadWord;
  }

  lemma SpaceFirst(s: string)
    ensures WordsOf(" " + s) == WordsOf(s)
  {
    assert (" " + s)[1..] == s;
    assert SkipSpace(" " + s) == SkipSpace(s);
    hide SkipSpace, WordSpan;
  }

  lemma {:induction false} PaddedWords(ws: seq<string>)
    requires AllWords(ws)
    ensures WordsOf(Padded(ws)) == ws && '\n' !in Padded(ws)
  {
    if ws == [] {
      NoWords();
    } else {
      assert ws == [ws[0]] + ws[1..];
      PaddedWords(ws[1..]);
      WordThen(ws[0], Padded(ws[1..]));
      hide WordsOf;
    }
  }

  lemma {:induction false} PaddedMore(ws: seq<string>, w: string)
    ensures Padded(ws + [w]) == Padded(ws) + (w + " ")
  {
    if ws == [] {
      assert (ws + [w])[1..] == [] && Padded([]) == "";
    } else {
      assert (ws + [w])[1..] == ws[1..] + [w];
      PaddedMore(ws[1..], w);
    }
  }

  // ------------------------------------------------------------------------- the parts of a section

  function NameWords(order: seq<Ip>, name: string -> string): seq<string> {
    seq(|order|, i requires 0 <= i < |order| => name(Ntoa(order[i])))
  }

  lemma {:induction false} NamesArePadded(order: seq<Ip>, name: string -> string)
    ensures NamesOf(order, name) == Padded(NameWords(order, name))
  {
    hide Ntoa;
    if order == [] {
      assert NameWords(order, name) == [];
    } else {
      var init, ip := order[..|order| - 1], order[|order| - 1];
      NamesArePadded(init, name);
      PaddedMore(NameWords(init, name), name(Ntoa(ip)));
      assert NameWords(order, name) == NameWords(init, name) + [name(Ntoa(ip))];
    }
  }

  function CountWords(gs: seq<Reports.Group>, name: string -> string): seq<string> {
    seq(|gs|, i requires 0 <= i < |gs| => name(Ntoa(gs[i].ip)) + "/" + Decimal(gs[i].n))
  }

  lemma {:induction false} CountsArePadded(gs: seq<Reports.Group>, name: string -> string)
    ensures CpusText(ShownCpus(gs), name) == Padded(CountWords(gs, name))
  {
    hide Ntoa, Decimal;
    if gs == [] {
      assert CountWords(gs, name) == [];
    } else {
      CountsArePadded(gs[1..], name);
      assert CountWords(gs, name)[1..] == CountWords(gs[1..], name);
      var first := name(Ntoa(gs[0].ip)) + "/" + Decimal(gs[0].n);
      assert ShownCpus(gs)[1..] == ShownCpus(gs[1..]);
      assert CpuText(ShownCpus(gs)[0], name) == first + " ";
    }
  }

  /** Every host of these has a name that is one word. */
  predicate Named(ips: seq<Ip>, name: string -> string) {
    forall i :: 0 <= i < |ips| ==> IsWord(name(Ntoa(ips[i])))
  }

  predicate GroupsNamed(gs: seq<Reports.Group>, name: string -> string) {
    forall i :: 0 <= i < |gs| ==> IsWord(name(Ntoa(gs[i].ip)))
  }

  lemma TierWords(tier: int, gs: seq<Reports.Group>, name: string -> string)
    requires GroupsNamed(gs, name)
    ensures AllWords(["Tier", Decimal(tier) + ":"] + CountWords(gs, name))
  {
    DecimalIsWord(tier);
    forall i | 0 <= i < |gs| ensures IsWord(CountWords(gs, name)[i]) {
      DecimalIsWord(gs[i].n);
    }
  }

  lemma TwoMore(a: string, b: string, ws: seq<string>)
    ensures Padded([a, b] + ws) == a + " " + b + " " + Padded(ws)
  {
    assert ([a, b] + ws)[1..] == [b] + ws && ([b] + ws)[1..] == ws;
  }

  lemma TierPadded(tier: int, gs: seq<Reports.Group>, name: string -> string)
    ensures TierText(tier, ShownCpus(gs), name) == Padded(["Tier", Decimal(tier) + ":"] + CountWords(gs, name)) + "\n"
  {
    CountsArePadded(gs, name);
    TwoMore("Tier", Decimal(tier) + ":", CountWords(gs, name));
    hide Padded, CountWords, Decimal, CpusText;
  }

  /** A tier line. */
  lemma TierRow(tier: int, gs: seq<Reports.Group>, name: string -> string, rest: string)
    requires GroupsNamed(gs, name)
    ensures Rows(TierText(tier, ShownCpus(gs), name) + rest)
         == [["Tier", Decimal(tier) + ":"] + CountWords(gs, name)] + Rows(rest)
  {
    var ws := ["Tier", Decimal(tier) + ":"] + CountWords(gs, name);
    TierWords(tier, gs, name);
    TierPadded(tier, gs, name);
    hide *;
    PaddedWords(ws);
    RowsFrom(Padded(ws), rest);
  }

  /** A line of the summary; there is none for a state without hosts. */
  lemma StateRow(title: string, order: seq<Ip>, name: string -> string, rest: string)
    requires IsWord(title) && Named(order, name)
    ensures Rows(Labelled(title + " ", NamesOf(order, name)) + rest)
         == (if order == [] then [] else [[title] + NameWords(order, name)]) + Rows(rest)
  {
    NamesArePadded(order, name);
    if order == [] {
      assert NameWords(order, name) == [];
      assert Labelled(title + " ", NamesOf(order, name)) + rest == rest;
    } else {
      var ws := [title] + NameWords(order, name);
      assert AllWords(ws);
      assert NameWords(order, name) != [];
      assert ws[1..] == NameWords(order, name);
      assert Padded(ws) == title + " " + NamesOf(order, name);
      assert Labelled(title + " ", NamesOf(order, name)) + rest == Padded(ws) + "\n" + rest;
      hide IsWord, Padded, Labelled, NameWords;
      PaddedWords(ws);
      RowsFrom(Padded(ws), rest);
    }
  }

  lemma NoNewline(word: string)
    requires SpaceFree(word)
    ensures '\n' !in "***" + (" " + (word + (" " + "hosts:")))
  {
    assert '\n' !in word;
  }

  lemma HeadingWords(word: string)
    requires IsWord(word)
    ensures var line := "***" + (" " + (word + (" " + "hosts:")));
      WordsOf(line) == ["***", word, "hosts:"] && '\n' !in line
  {
    NoNewline(word);
    assert IsWord("***") && IsWord("hosts:");
    hide *;
    LastOne("hosts:");
    WordThen(word, "hosts:");
    WordThen("***", word + (" " + "hosts:"));
  }

  lemma HeadingRow(d: Dprop, rest: string)
    requires SpaceFree(d)
    ensures Rows(Heading("'" + (d + "'")) + rest)
         == (if d == "" then [] else [["***", "'" + d + "'", "hosts:"]]) + Rows(rest)
  {
    var word := "'" + (d + "'");
    assert word == "'" + d + "'";
    if d == "" {
      assert word == "''";
      assert Heading(word) + rest == rest;
    } else {
      assert |word| > 2 && IsWord(word);
      var line := "***" + (" " + (word + (" " + "hosts:")));
      assert Heading(word) + rest == line + "\n" + rest;
      hide *;
      HeadingWords(word);
      RowsFrom(line, rest);
    }
  }

  lemma LastOne(w: string)
    requires IsWord(w)
    ensures WordsOf(w) == [w]
  {
    ReadsWord(w, "");
    assert w + "" == w;
    NoWords();
    hide ReadWord;
  }

  // -------------------------------------------------------------------------------- the screen

  /** The rows of tier lines: the tier, and for each host its name and its number of cpus. */
  function TierRows(lines: seq<Reports.Item>, name: string -> string): seq<seq<string>>
    requires forall i :: 0 <= i < |lines| ==> lines[i].TierLine?
  {
    if lines == [] then []
    else [["Tier", Decimal(lines[0].tier) + ":"] + CountWords(lines[0].cpus, name)] + TierRows(lines[1..], name)
  }

  lemma {:induction false} TiersRead(lines: seq<Reports.Item>, name: string -> string, rest: string)
    requires forall i :: 0 <= i < |lines| ==> lines[i].TierLine?
    requires forall i :: 0 <= i < |lines| ==> GroupsNamed(lines[i].cpus, name)
    ensures Rows(TierTexts(lines, name) + rest) == TierRows(lines, name) + Rows(rest)
    decreases |lines|
  {
    if lines == [] {
      assert TierTexts(lines, name) == "" && TierRows(lines, name) == [];
      hide *;
      NothingBefore(rest);
    } else {
      TiersFrom(lines, name, rest);
      var rest1 := lines[1..];
      assert forall i :: 0 <= i < |rest1| ==> rest1[i].TierLine? && GroupsNamed(rest1[i].cpus, name);
      hide *;
      TiersRead(rest1, name, rest);
      var row := ["Tier", Decimal(lines[0].tier) + ":"] + CountWords(lines[0].cpus, name);
      RowsAssoc(row, TierRows(rest1, name), Rows(rest));
    }
  }

  lemma NothingBefore(rest: string)
    ensures "" + rest == rest && [] + Rows(rest) == Rows(rest)
  {
  }

  lemma TiersFrom(lines: seq<Reports.Item>, name: string -> string, rest: string)
    requires lines != [] && forall i :: 0 <= i < |lines| ==> lines[i].TierLine?
    requires GroupsNamed(lines[0].cpus, name)
    ensures var row := ["Tier", Decimal(lines[0].tier) + ":"] + CountWords(lines[0].cpus, name);
      && TierRows(lines, name) == [row] + TierRows(lines[1..], name)
      && Rows(TierTexts(lines, name) + rest) == [row] + Rows(TierTexts(lines[1..], name) + rest)
  {
    var text, more := TierText(lines[0].tier, ShownCpus(lines[0].cpus), name), TierTexts(lines[1..], name);
    assert TierTexts(lines, name) == text + more;
    hide Rows, TierText, TierTexts, CountWords, Decimal;
    TierRow(lines[0].tier, lines[0].cpus, name, more + rest);
    Regroup3(text, more, rest);
  }

  lemma RowsAssoc(row: seq<string>, a: seq<seq<string>>, b: seq<seq<string>>)
    ensures [row] + a + b == [row] + (a + b)
  {
  }

  /** The hosts in one state, by ascending address. */
  ghost function InOrder(p: Pools.Pool, st: HostState): seq<Ip> {
    Reports.IpsOrdered();
    Listing(HostsIn(p.hosts, st), Reports.IpLess)
  }

  /** The name of every host is one word. */
  ghost predicate AllNamed(p: Pools.Pool, name: string -> string) {
    forall ip :: ip in p.hosts ==> IsWord(name(Ntoa(ip)))
  }

  /** No line, or the line of a state's hosts. */
  function StateRows(title: string, order: seq<Ip>, name: string -> string): seq<seq<string>> {
    if order == [] then [] else [[title] + NameWords(order, name)]
  }

  lemma FourRows(a: seq<Ip>, b: seq<Ip>, c: seq<Ip>, d: seq<Ip>, name: string -> string, rest: string)
    requires Named(a, name) && Named(b, name) && Named(c, name) && Named(d, name)
    ensures Rows(Labelled("Avail: ", NamesOf(a, name)) + (Labelled("Overloaded: ", NamesOf(b, name))
        + (Labelled("Unavail: ", NamesOf(c, name)) + (Labelled("Silent: ", NamesOf(d, name)) + rest))))
      == StateRows("Avail:", a, name) + (StateRows("Overloaded:", b, name)
        + (StateRows("Unavail:", c, name) + (StateRows("Silent:", d, name) + Rows(rest))))
  {
    assert IsWord("Avail:") && IsWord("Overloaded:") && IsWord("Unavail:") && IsWord("Silent:");
    assert "Avail:" + " " == "Avail: " && "Overloaded:" + " " == "Overloaded: ";
    assert "Unavail:" + " " == "Unavail: " && "Silent:" + " " == "Silent: ";
    hide Rows, Labelled, NamesOf, NameWords, Named, IsWord;
    var l4 := Labelled("Silent: ", NamesOf(d, name)) + rest;
    var l3 := Labelled("Unavail: ", NamesOf(c, name)) + l4;
    var l2 := Labelled("Overloaded: ", NamesOf(b, name)) + l3;
    StateRow("Silent:", d, name, rest);
    StateRow("Unavail:", c, name, l4);
    StateRow("Overloaded:", b, name, l3);
    StateRow("Avail:", a, name, l2);
  }

  lemma NamesInOrder(p: Pools.Pool, st: HostState, name: string -> string)
    ensures Names(HostsIn(p.hosts, st), name) == NamesOf(InOrder(p, st), name)
  {
  }

  lemma Regroup4(a: string, b: string, c: string, d: string, rest: string)
    ensures a + b + c + d + "" + rest == a + (b + (c + (d + rest)))
  {
  }

  lemma SummaryText(p: Pools.Pool, name: string -> string, rest: string)
    ensures Summary(AfterSection(BLANK, "", p, name).(out := "")) + rest ==
      Labelled("Avail: ", NamesOf(InOrder(p, Available), name))
      + (Labelled("Overloaded: ", NamesOf(InOrder(p, Overloaded), name))
      + (Labelled("Unavail: ", NamesOf(InOrder(p, Unavailable), name))
      + (Labelled("Silent: ", NamesOf(InOrder(p, HostState.Silent), name)) + rest)))
  {
    var a, b := Labelled("Avail: ", NamesOf(InOrder(p, Available), name)),
      Labelled("Overloaded: ", NamesOf(InOrder(p, Overloaded), name));
    var c, d := Labelled("Unavail: ", NamesOf(InOrder(p, Unavailable), name)),
      Labelled("Silent: ", NamesOf(InOrder(p, HostState.Silent), name));
    NamesInOrder(p, Available, name);
    NamesInOrder(p, Overloaded, name);
    NamesInOrder(p, Unavailable, name);
    NamesInOrder(p, HostState.Silent, name);
    assert Labelled("Unknown state: ", "") == "";
    assert Summary(AfterSection(BLANK, "", p, name).(out := "")) == a + b + c + d + "" by {
      hide Labelled, NamesOf, InOrder, Names, HostsIn, Heading, TierTexts;
    }
    hide *;
    Regroup4(a, b, c, d, rest);
  }

  /** The hosts whose cpus a tier line counts, by ascending address. */
  lemma GroupsOf(p: Pools.Pool, tier: int, name: string -> string)
    requires AllNamed(p, name)
    ensures GroupsNamed(Reports.Printed(PoolReports.PoolGroups(p, tier)), name)
  {
    Reports.IpsOrdered();
    var gs, order := PoolReports.PoolGroups(p, tier), Listing(PoolReports.FreeIn(p, tier), Reports.IpLess);
    assert PoolReports.FreeIn(p, tier) <= p.hosts.Keys;
    assert forall i :: 0 <= i < |gs| ==> gs[i].ip == order[i] && order[i] in order;
    assert forall g :: g in gs ==> g.ip in p.hosts;
    hide *;
    Reports.PrintedFrom(gs);
    ManyNamed(p, gs, Reports.Printed(gs), name);
  }

  lemma ManyNamed(p: Pools.Pool, gs: seq<Reports.Group>, printed: seq<Reports.Group>, name: string -> string)
    requires AllNamed(p, name) && forall g :: g in gs ==> g.ip in p.hosts
    requires forall i :: 0 <= i < |printed| ==> printed[i] in gs
    ensures GroupsNamed(printed, name)
  {
    hide IsWord, Ntoa;
  }

  lemma LinesNamed(p: Pools.Pool, name: string -> string)
    requires AllNamed(p, name)
    ensures var lines := PoolReports.PoolLines(p);
      forall i :: 0 <= i < |lines| ==> lines[i].TierLine? && GroupsNamed(lines[i].cpus, name)
  {
    forall tier ensures GroupsNamed(Reports.Printed(PoolReports.PoolGroups(p, tier)), name) {
      GroupsOf(p, tier, name);
    }
    hide PoolReports.PoolGroups, Reports.Printed, AllNamed, GroupsNamed, Listing;
  }

  lemma OrderNamed(p: Pools.Pool, st: HostState, name: string -> string)
    requires AllNamed(p, name)
    ensures Named(InOrder(p, st), name)
  {
    Reports.IpsOrdered();
    var order := InOrder(p, st);
    assert forall i :: 0 <= i < |order| ==> order[i] in HostsIn(p.hosts, st);
    hide InOrder, Listing, Total, IsWord, Ntoa;
  }

  lemma SummaryReads(p: Pools.Pool, name: string -> string, rest: string)
    requires AllNamed(p, name)
    ensures Rows(Summary(AfterSection(BLANK, "", p, name).(out := "")) + rest)
      == StateRows("Avail:", InOrder(p, Available), name) + (StateRows("Overloaded:", InOrder(p, Overloaded), name)
        + (StateRows("Unavail:", InOrder(p, Unavailable), name)
        + (StateRows("Silent:", InOrder(p, HostState.Silent), name) + Rows(rest))))
  {
    OrderNamed(p, Available, name);
    OrderNamed(p, Overloaded, name);
    OrderNamed(p, Unavailable, name);
    OrderNamed(p, HostState.Silent, name);
    hide *;
    SummaryText(p, name, rest);
    FourRows(InOrder(p, Available), InOrder(p, Overloaded), InOrder(p, Unavailable), InOrder(p, HostState.Silent),
             name, rest);
  }

  /** The summary of a section is the same whatever came before it. */
  lemma SummaryAlone(d: Dprop, p: Pools.Pool, name: string -> string)
    ensures AfterSection(BLANK, d, p, name).(out := "") == AfterSection(BLANK, "", p, name).(out := "")
  {
    hide Names, Heading, TierTexts, Summary;
  }

  /** One section on the screen: its heading, unless the dprop is empty; a line for each tier with
      free cpus, from the highest down, with each host's name and number of cpus; and a line for
      each state that has hosts, with their names by ascending address. */
  lemma {:induction false} SectionReads(d: Dprop, p: Pools.Pool, name: string -> string, rest: string)
    requires SpaceFree(d) && AllNamed(p, name)
    ensures forall i :: 0 <= i < |PoolReports.PoolLines(p)| ==> PoolReports.PoolLines(p)[i].TierLine?
    ensures Rows(SectionText(d, p, name) + rest) ==
        (if d == "" then [] else [["***", "'" + d + "'", "hosts:"]])
        + (TierRows(PoolReports.PoolLines(p), name)
        + (StateRows("Avail:", InOrder(p, Available), name)
        + (StateRows("Overloaded:", InOrder(p, Overloaded), name)
        + (StateRows("Unavail:", InOrder(p, Unavailable), name)
        + (StateRows("Silent:", InOrder(p, HostState.Silent), name) + Rows(rest))))))
  {
    var lines := PoolReports.PoolLines(p);
    var heading, tiers := Heading("'" + (d + "'")), TierTexts(lines, name);
    var summary := Summary(AfterSection(BLANK, "", p, name).(out := ""));
    LinesNamed(p, name);
    SummaryAlone(d, p, name);
    assert SectionText(d, p, name) == heading + tiers + summary;
    hide *;
    HeadingRow(d, tiers + (summary + rest));
    TiersRead(lines, name, summary + rest);
    SummaryReads(p, name, rest);
    Regroup2(heading, tiers, summary, rest);
  }

  lemma Regroup2(a: string, b: string, c: string, rest: string)
    ensures a + b + c + rest == a + (b + (c + rest))
  {
  }

  /** The rows of one section, in a list. */
  ghost function SectionRows(d: Dprop, p: Pools.Pool, name: string -> string): seq<seq<string>> {
    PoolReports.LinesAreTiers(p);
    (if d == "" then [] else [["***", "'" + d + "'", "hosts:"]])
    + (TierRows(PoolReports.PoolLines(p), name)
    + (StateRows("Avail:", InOrder(p, Available), name)
    + (StateRows("Overloaded:", InOrder(p, Overloaded), name)
    + (StateRows("Unavail:", InOrder(p, Unavailable), name)
    + StateRows("Silent:", InOrder(p, HostState.Silent), name)))))
  }

  lemma SectionFirst(d: Dprop, p: Pools.Pool, name: string -> string, rest: string)
    requires SpaceFree(d) && AllNamed(p, name)
    ensures Rows(SectionText(d, p, name) + rest) == SectionRows(d, p, name) + Rows(rest)
  {
    SectionReads(d, p, name, rest);
    var head := if d == "" then [] else [["***", "'" + d + "'", "hosts:"]];
    var tiers := TierRows(PoolReports.PoolLines(p), name);
    var a := StateRows("Avail:", InOrder(p, Available), name);
    var b := StateRows("Overloaded:", InOrder(p, Overloaded), name);
    var c := StateRows("Unavail:", InOrder(p, Unavailable), name);
    var e := StateRows("Silent:", InOrder(p, HostState.Silent), name);
    assert SectionRows(d, p, name) == head + (tiers + (a + (b + (c + e))));
    hide *;
    RowsRegroup(head, tiers, a, b, c, e, Rows(rest));
  }

  lemma RowsRegroup<T>(h: seq<T>, t: seq<T>, a: seq<T>, b: seq<T>, c: seq<T>, e: seq<T>, r: seq<T>)
    ensures h + (t + (a + (b + (c + (e + r))))) == h + (t + (a + (b + (c + e)))) + r
  {
  }

  ghost function AllRows(pools: map<Dprop, Pools.Pool>, order: seq<Dprop>, name: string -> string): seq<seq<string>>
    requires forall d :: d in order ==> d in pools
  {
    if order == [] then []
    else
      assert order[0] in order && forall d :: d in order[1..] ==> d in order;
      SectionRows(order[0], pools[order[0]], name) + AllRows(pools, order[1..], name)
  }

  lemma {:induction false} SectionsRead(
    pools: map<Dprop, Pools.Pool>, order: seq<Dprop>, name: string -> string, rest: string)
    requires forall d :: d in order ==> d in pools && SpaceFree(d) && AllNamed(pools[d], name)
    ensures Rows(SectionTexts(pools, order, name) + rest) == AllRows(pools, order, name) + Rows(rest)
    decreases |order|
  {
    if order == [] {
      assert SectionTexts(pools, order, name) == "" && AllRows(pools, order, name) == [];
      hide *;
      NothingBefore(rest);
    } else {
      assert order[0] in order && forall d :: d in order[1..] ==> d in order;
      var text, more := SectionText(order[0], pools[order[0]], name), SectionTexts(pools, order[1..], name);
      var rows, rows1 := SectionRows(order[0], pools[order[0]], name), AllRows(pools, order[1..], name);
      assert SectionTexts(pools, order, name) == text + more && AllRows(pools, order, name) == rows + rows1;
      hide *;
      SectionFirst(order[0], pools[order[0]], name, more + rest);
      SectionsRead(pools, order[1..], name, rest);
      Regroup3(text, more, rest);
      TwoParts(rows, rows1, Rows(rest));
    }
  }

  lemma TwoParts<T>(a: seq<T>, b: seq<T>, c: seq<T>)
    ensures a + b + c == a + (b + c)
  {
  }

  /** The whole screen: the sections of all dprops in dictionary order, and an empty line. */
  lemma {:induction false} ScreenReads(pools: map<Dprop, Pools.Pool>, name: string -> string)
    requires forall d :: d in pools ==> SpaceFree(d) && AllNamed(pools[d], name)
    ensures Total(Reports.Precedes)
    ensures Rows(ScreenText(pools, name)) == AllRows(pools, Listing(pools.Keys, Reports.Precedes), name) + [[]]
  {
    Reports.DpropsOrdered();
    var order := Listing(pools.Keys, Reports.Precedes);
    assert ScreenText(pools, name) == SectionTexts(pools, order, name) + "\n";
    assert Rows("\n") == [[]] by {
      NoWords();
      assert "" + "\n" + "" == "\n" && Rows("") == [];
      RowsFrom("", "");
    }
    hide AllRows, SectionTexts, Rows, AllNamed, SpaceFree, Listing, Total;
    SectionsRead(pools, order, name, "\n");
  }
}
