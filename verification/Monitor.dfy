/**
 The monitor: how it reads a report, and what it puts on the screen.  Host names are looked up
 with an unknown function from dotted addresses.
 */
module Monitor {
  import opened Types
  import opened Orders
  import opened Text
  import Framing
  import Pools
  import PoolReports
  import Reports

  datatype Cpus = Cpus(name: string, count: int)

  /** What the monitor recognises in a text. */
  datatype Seen =
    | DpropSeen(word: string)
    | HostSeen(word: string, state: int)
    | TierSeen(tier: int, cpus: seq<Cpus>)
    | LineSeen(line: string)

  // -------------------------------------------------------------------------------- reading

  function Ignore(s: string, n: nat): (r: string)
    ensures |r| <= |s|
  {
    if n <= |s| then s[n..] else ""
  }

  /** Up to the first occurrence of `c`, or to the end. */
  function UpTo(s: string, c: char): (k: nat)
    ensures k <= |s| && c !in s[..k] && (k < |s| ==> s[k] == c)
  {
    if s == [] || s[0] == c then 0
    else
      assert s[..UpTo(s[1..], c) + 1] == [s[0]] + s[1..][..UpTo(s[1..], c)];
      1 + UpTo(s[1..], c)
  }

  /** An address field holds at most this many characters. */
  const FIELD_MAX := 31

  /** How much of a line the next address field takes. */
  function FieldSpan(s: string): (k: nat)
    ensures k <= |s|
  {
    var k := UpTo(s, '/');
    if k < FIELD_MAX then k else FIELD_MAX
  }

  predicate NoField(s: string) {
    FieldSpan(s) == 0 || (FieldSpan(s) == |s| && FieldSpan(s) < FIELD_MAX)
  }

  /** The "address/count" fields of a tier line; they end where no slash follows. */
  function ReadFields(s: string): Option<seq<Cpus>>
    decreases |s|
  {
    var k := FieldSpan(s);
    if NoField(s) then Some([])
    else
      match ReadInt(Ignore(s[k..], 1))
      case None => None
      case Some(n) =>
        match ReadFields(Ignore(n.rest, 1))
        case None => None
        case Some(more) => Some([Cpus(s[..k], n.value)] + more)
  }

  /** One turn of the reading loop: nothing is left, a number is missing (then the source
      prints an undefined value or never stops), or an item is read. */
  datatype Next = Stop | Fail | Got(item: Seen, rest: string)

  function NextItem(text: string): (r: Next)
    ensures r.Got? ==> |r.rest| < |text|
  {
    var t := SkipSpace(text);
    if t == [] then Stop
    else if t[0] == 'D' then ReadDprop(Ignore(t[1..], 1))
    else if t[0] == 'H' then ReadHost(Ignore(t[1..], 1))
    else
      var k := UpTo(t[1..], '\n');
      var line, rest := t[1..][..k], Ignore(t[1..], k + 1);
      if t[0] == 'C' then ReadTier(line, rest) else Got(LineSeen(line), rest)
  }

  function ReadDprop(s: string): (r: Next)
    ensures r.Got? && |r.rest| <= |s|
  {
    match ReadWord(s)
    case None => Got(DpropSeen(""), "")
    case Some(w) => Got(DpropSeen(w.value), w.rest)
  }

  function ReadHost(s: string): (r: Next)
    ensures !r.Stop?
    ensures r.Got? ==> |r.rest| <= |s|
  {
    match ReadWord(s)
    case None => Fail
    case Some(w) =>
      match ReadInt(w.rest)
      case None => Fail
      case Some(n) => Got(HostSeen(w.value, n.value), n.rest)
  }

  function ReadTier(line: string, rest: string): (r: Next)
    ensures r.Got? ==> r.rest == rest
  {
    match ReadInt(line)
    case None => Fail
    case Some(n) =>
      match ReadFields(Ignore(n.rest, 2))
      case None => Fail
      case Some(cpus) => Got(TierSeen(n.value, cpus), rest)
  }

  /** Everything in a text; None when a number is missing. */
  function Parse(text: string): Option<seq<Seen>>
    decreases |text|
  {
    match NextItem(text)
    case Stop => Some([])
    case Fail => None
    case Got(x, rest) =>
      match Parse(rest)
      case None => None
      case Some(more) => Some([x] + more)
  }

  // --------------------------------------------------------------------------- round trip

  function ShownCpus(gs: seq<Reports.Group>): (r: seq<Cpus>)
    ensures |r| == |gs|
    ensures forall i :: 0 <= i < |gs| ==> r[i] == Cpus(Ntoa(gs[i].ip), gs[i].n)
  {
    if gs == [] then [] else [Cpus(Ntoa(gs[0].ip), gs[0].n)] + ShownCpus(gs[1..])
  }

  /** What the monitor ought to see of an item. */
  function Shown(item: Reports.Item): Seen {
    match item
    case Section(d) => DpropSeen("'" + (d + "'"))
    case HostLine(ip, st) => HostSeen(Ntoa(ip), Reports.Code(st))
    case TierLine(tier, gs) => TierSeen(tier, ShownCpus(gs))
  }

  function ShownAll(items: seq<Reports.Item>): (r: seq<Seen>)
    ensures |r| == |items|
    ensures forall i :: 0 <= i < |items| ==> r[i] == Shown(items[i])
  {
    if items == [] then [] else [Shown(items[0])] + ShownAll(items[1..])
  }

  /** The numbers in an item are within the range of an int. */
  predicate InRange(item: Reports.Item) {
    item.TierLine? ==> IsInt(item.tier) && forall g :: g in item.cpus ==> IsInt(g.n)
  }

  lemma {:induction false} UpToIs(a: string, c: char, rest: string)
    requires c !in a && rest != [] && rest[0] == c
    ensures UpTo(a + rest, c) == |a|
  {
    if a == [] {
      assert a + rest == rest;
    } else {
      assert (a + rest)[1..] == a[1..] + rest;
      UpToIs(a[1..], c, rest);
    }
  }

  /** A field is read whole if its address has 1 to 31 characters and no slash. */
  lemma ReadNamed(a: string, n: int, more: string)
    requires a != "" && '/' !in a && |a| <= 31 && IsInt(n)
    ensures ReadFields(a + ("/" + (Decimal(n) + (" " + more)))) ==
      match ReadFields(more)
      case None => None
      case Some(xs) => Some([Cpus(a, n)] + xs)
  {
    hide ReadInt, Decimal;
    var number := Decimal(n) + (" " + more);
    var s := a + ("/" + number);
    UpToIs(a, '/', "/" + number);
    ReadDecimal(n, " " + more);
    assert s[..|a|] == a && s[|a|..] == "/" + number;
    assert ("/" + number)[1..] == number;
    assert (" " + more)[1..] == more;
  }

  lemma ReadField(g: Reports.Group, more: string)
    requires IsInt(g.n)
    ensures ReadFields(Reports.Field(g) + more) ==
      match ReadFields(more)
      case None => None
      case Some(xs) => Some([Cpus(Ntoa(g.ip), g.n)] + xs)
  {
    hide ReadFields, Decimal, Ntoa;
    assert Reports.Field(g) + more == Ntoa(g.ip) + ("/" + (Decimal(g.n) + (" " + more)));
    NtoaIsWord(g.ip);
    ReadNamed(Ntoa(g.ip), g.n, more);
  }

  lemma {:induction false} ReadAllFields(gs: seq<Reports.Group>)
    requires forall g :: g in gs ==> IsInt(g.n)
    ensures ReadFields(Reports.Fields(gs)) == Some(ShownCpus(gs))
  {
    if gs != [] {
      assert gs[0] in gs;
      ReadAllFields(gs[1..]);
      ReadField(gs[0], Reports.Fields(gs[1..]));
    }
  }

  lemma {:induction false} FieldsOnOneLine(gs: seq<Reports.Group>)
    ensures '\n' !in Reports.Fields(gs)
  {
    if gs != [] {
      FieldsOnOneLine(gs[1..]);
      NtoaIsWord(gs[0].ip);
      DecimalIsWord(gs[0].n);
    }
  }

  lemma SplitsLine(line: string, more: string)
    requires '\n' !in line
    ensures NextItem("C" + (line + ("\n" + more))) == ReadTier(line, more)
  {
    hide ReadTier, ReadDprop, ReadHost;
    var tail := line + ("\n" + more);
    var text := "C" + tail;
    assert text[1..] == tail;
    UpToIs(line, '\n', "\n" + more);
    assert tail[..|line|] == line && tail[|line| + 1..] == more;
    hide UpTo;
  }

  lemma ReadsTier(tier: int, gs: seq<Reports.Group>, more: string)
    requires IsInt(tier) && forall g :: g in gs ==> IsInt(g.n)
    ensures ReadTier(" " + (Decimal(tier) + (": " + Reports.Fields(gs))), more)
         == Got(TierSeen(tier, ShownCpus(gs)), more)
  {
    hide ReadInt, Decimal, ReadFields, Reports.Fields, IsInt;
    var fields := Reports.Fields(gs);
    ReadDecimal(tier, ": " + fields);
    ReadIntSkips(Decimal(tier) + (": " + fields));
    assert (": " + fields)[2..] == fields;
    ReadAllFields(gs);
  }

  lemma ReadsTierLine(tier: int, gs: seq<Reports.Group>, more: string)
    requires IsInt(tier) && forall g :: g in gs ==> IsInt(g.n)
    ensures NextItem(Reports.Line(Reports.TierLine(tier, gs)) + more) == Got(TierSeen(tier, ShownCpus(gs)), more)
  {
    hide NextItem, ReadTier, Decimal, Reports.Fields, IsInt;
    var fields := Reports.Fields(gs);
    var line := " " + (Decimal(tier) + (": " + fields));
    var text := Reports.Line(Reports.TierLine(tier, gs)) + more;
    assert text == "C" + (line + ("\n" + more));
    assert '\n' !in line by {
      DecimalIsWord(tier);
      FieldsOnOneLine(gs);
    }
    SplitsLine(line, more);
    ReadsTier(tier, gs, more);
  }

  lemma ReadsHost(ip: Ip, code: int, more: string)
    requires IsInt(code)
    ensures ReadHost(" " + Ntoa(ip) + (" " + (Decimal(code) + ("\n" + more))))
         == Got(HostSeen(Ntoa(ip), code), "\n" + more)
  {
    hide ReadInt, ReadWord, Decimal, Ntoa;
    var number := Decimal(code) + ("\n" + more);
    NtoaIsWord(ip);
    ReadsWord(Ntoa(ip), " " + number);
    ReadDecimal(code, "\n" + more);
    ReadIntSkips(number);
  }

  lemma HostBegins(tail: string)
    ensures NextItem("H:" + tail) == ReadHost(tail)
  {
    hide ReadHost, ReadDprop, ReadTier, UpTo;
    assert ("H:" + tail)[1..][1..] == tail;
  }

  lemma ReadsHostLine(ip: Ip, st: HostState, more: string)
    ensures NextItem(Reports.Line(Reports.HostLine(ip, st)) + more)
         == Got(HostSeen(Ntoa(ip), Reports.Code(st)), "\n" + more)
  {
    hide ReadHost, NextItem, Decimal, Ntoa;
    var code := Reports.Code(st);
    var tail := " " + Ntoa(ip) + (" " + (Decimal(code) + ("\n" + more)));
    assert Reports.Line(Reports.HostLine(ip, st)) + more == "H:" + tail;
    HostBegins(tail);
    ReadsHost(ip, code, more);
  }

  lemma ReadsSection(d: Dprop, more: string)
    requires SpaceFree(d)
    ensures NextItem(Reports.Line(Reports.Section(d)) + more) == Got(DpropSeen("'" + (d + "'")), "\n" + more)
  {
    hide ReadWord;
    var word := "'" + (d + "'");
    var text := Reports.Line(Reports.Section(d)) + more;
    assert text == "D:" + (" " + word + ("\n" + more));
    assert text[1..][1..] == " " + word + ("\n" + more);
    assert SpaceFree(word);
    ReadsWord(word, "\n" + more);
  }

  lemma ParseSkips(s: string)
    ensures Parse("\n" + s) == Parse(s)
  {
    assert ("\n" + s)[1..] == s;
    assert NextItem("\n" + s) == NextItem(s) by {
      hide ReadInt, ReadWord, ReadDprop, ReadHost, ReadTier, UpTo;
      assert SkipSpace("\n" + s) == SkipSpace(s);
    }
    hide NextItem;
  }

  predicate Plain(items: seq<Reports.Item>) {
    forall i :: 0 <= i < |items| && items[i].Section? ==> SpaceFree(items[i].dprop)
  }

  lemma ReadsItem(item: Reports.Item, more: string)
    requires InRange(item) && (item.Section? ==> SpaceFree(item.dprop))
    ensures Parse(Reports.Line(item) + more) ==
      match Parse(more)
      case None => None
      case Some(xs) => Some([Shown(item)] + xs)
  {
    hide NextItem, Reports.Line;
    match item {
      case Section(d) =>
        ReadsSection(d, more);
        ParseSkips(more);
      case HostLine(ip, st) =>
        ReadsHostLine(ip, st, more);
        ParseSkips(more);
      case TierLine(tier, gs) =>
        ReadsTierLine(tier, gs, more);
    }
  }

  lemma {:induction false} ReadsItems(items: seq<Reports.Item>)
    requires Plain(items) && forall i :: 0 <= i < |items| ==> InRange(items[i])
    ensures Parse(Reports.Render(items)) == Some(ShownAll(items))
  {
    if items != [] {
      hide InRange, SpaceFree, Reports.Line, Shown;
      assert forall i :: 0 <= i < |items| - 1 ==> items[1..][i] == items[i + 1];
      ReadsItems(items[1..]);
      ReadsItem(items[0], Reports.Render(items[1..]));
    } else {
      assert NextItem("") == Stop;
    }
  }

  /** No dprop that is read contains white space. */
  lemma {:induction false} WordsAreSpaceFree(text: string)
    ensures Parse(text).Some? ==>
      forall i :: 0 <= i < |Parse(text).value| && Parse(text).value[i].DpropSeen? ==>
        SpaceFree(Parse(text).value[i].word)
    decreases |text|
  {
    hide ReadInt, ReadFields, SkipSpace, UpTo;
    var next := NextItem(text);
    if next.Got? {
      WordsAreSpaceFree(next.rest);
      assert next.item.DpropSeen? ==> SpaceFree(next.item.word);
      hide NextItem;
    }
  }

  /** Every section, host and tier entry of a report reaches the monitor, in order and with
      nothing added, if and only if no dprop contains white space. */
  lemma {:induction false} RoundTrip(items: seq<Reports.Item>)
    requires forall i :: 0 <= i < |items| ==> InRange(items[i])
    ensures Parse(Reports.Render(items)) == Some(ShownAll(items)) <==> Plain(items)
  {
    hide InRange, Parse, Reports.Render, SpaceFree;
    if Plain(items) {
      ReadsItems(items);
    } else {
      var i :| 0 <= i < |items| && items[i].Section? && !SpaceFree(items[i].dprop);
      Quoted(items[i].dprop);
      WordsAreSpaceFree(Reports.Render(items));
      assert ShownAll(items)[i] == Shown(items[i]);
    }
  }

  lemma Quoted(d: Dprop)
    requires !SpaceFree(d)
    ensures !SpaceFree("'" + (d + "'"))
  {
    var i :| 0 <= i < |d| && IsSpace(d[i]);
    assert ("'" + (d + "'"))[i + 1] == d[i];
  }

  lemma {:induction false} ShownCpusInjective(x: seq<Reports.Group>, y: seq<Reports.Group>)
    requires ShownCpus(x) == ShownCpus(y)
    ensures x == y
  {
    assert |x| == |y|;
    forall i | 0 <= i < |x| ensures x[i] == y[i] {
      assert ShownCpus(x)[i] == ShownCpus(y)[i];
      NtoaInjective(x[i].ip, y[i].ip);
    }
  }

  lemma ShownOneInjective(x: Reports.Item, y: Reports.Item)
    requires Shown(x) == Shown(y)
    ensures x == y
  {
    match x {
      case Section(d) =>
        assert ("'" + (d + "'"))[1..|d| + 1] == d;
        assert ("'" + (y.dprop + "'"))[1..|y.dprop| + 1] == y.dprop;
      case HostLine(ip, st) => NtoaInjective(ip, y.ip);
      case TierLine(tier, gs) => ShownCpusInjective(gs, y.cpus);
    }
  }

  /** Nothing is lost in what the monitor sees: different reports look different. */
  lemma ShownInjective(x: seq<Reports.Item>, y: seq<Reports.Item>)
    requires ShownAll(x) == ShownAll(y)
    ensures x == y
  {
    hide Shown;
    assert |x| == |y|;
    forall i | 0 <= i < |x| ensures x[i] == y[i] {
      assert Shown(x[i]) == ShownAll(x)[i] && ShownAll(y)[i] == Shown(y[i]);
      ShownOneInjective(x[i], y[i]);
    }
  }

  // ------------------------------------------------------------------------------- the screen

  /** What has been printed, and the host names collected for the section's summary. */
  datatype Screen = Screen(
    out: string, avail: string, over: string, unavail: string, silent: string, unknown: string)

  const BLANK := Screen("", "", "", "", "", "")

  function Labelled(title: string, names: string): string {
    if names == "" then "" else title + names + "\n"
  }

  function Summary(s: Screen): string {
    Labelled("Avail: ", s.avail) + Labelled("Overloaded: ", s.over) + Labelled("Unavail: ", s.unavail)
    + Labelled("Silent: ", s.silent) + Labelled("Unknown state: ", s.unknown)
  }

  function CpuText(c: Cpus, name: string -> string): string {
    name(c.name) + "/" + Decimal(c.count) + " "
  }

  function CpusText(cpus: seq<Cpus>, name: string -> string): string {
    if cpus == [] then "" else CpuText(cpus[0], name) + CpusText(cpus[1..], name)
  }

  function TierText(tier: int, cpus: seq<Cpus>, name: string -> string): string {
    "Tier " + Decimal(tier) + ": " + CpusText(cpus, name) + "\n"
  }

  function Heading(word: string): string {
    if word == "''" then "" else "*** " + word + " hosts:\n"
  }

  function Collected(s: Screen, state: int, text: string): Screen {
    match state
    case 1 => s.(avail := s.avail + text)
    case 2 => s.(unavail := s.unavail + text)
    case 3 => s.(over := s.over + text)
    case 4 => s.(silent := s.silent + text)
    case _ => s.(unknown := s.unknown + text)
  }

  function Display(s: Screen, x: Seen, name: string -> string): Screen {
    match x
    case DpropSeen(word) => BLANK.(out := s.out + Summary(s) + Heading(word))
    case HostSeen(word, state) => Collected(s, state, name(word) + " ")
    case TierSeen(tier, cpus) => s.(out := s.out + TierText(tier, cpus, name))
    case LineSeen(line) => s.(out := s.out + line + "\n")
  }

  function DisplayAll(s: Screen, xs: seq<Seen>, name: string -> string): Screen
    decreases |xs|
  {
    if xs == [] then s else DisplayAll(Display(s, xs[0], name), xs[1..], name)
  }

  function Finished(s: Screen): string {
    s.out + Summary(s) + "\n"
  }

  /** A tier line; `ok` is false when a number is missing. */
  method ShowTier(line: string, name: string -> string) returns (out: string, ok: bool)
    ensures match ReadTier(line, "")
            case Got(x, _) => ok && out == TierText(x.tier, x.cpus, name)
            case _ => !ok
  {
    out, ok := "", false;
    var tier := ReadInt(line);
    if tier.Some? {
      var rest := Ignore(tier.value.rest, 2);
      var fields;
      fields, ok := ShowFields(rest, name);
      out := "Tier " + Decimal(tier.value.value) + ": " + fields + "\n";
    }
  }

  lemma FieldsFrom(s: string, n: Option<Read<int>>, name: string -> string, out: string)
    requires !NoField(s) && n == ReadInt(Ignore(s[FieldSpan(s)..], 1))
    ensures n == None ==> ReadFields(s) == None
    ensures n.Some? ==>
      var rest := Ignore(n.value.rest, 1);
      var more := out + CpuText(Cpus(s[..FieldSpan(s)], n.value.value), name);
      && |rest| < |s|
      && (ReadFields(s).Some? <==> ReadFields(rest).Some?)
      && (ReadFields(s).Some? ==>
            out + CpusText(ReadFields(s).value, name) == more + CpusText(ReadFields(rest).value, name))
  {
    hide CpuText, ReadInt, UpTo;
  }

  method ShowFields(s: string, name: string -> string) returns (out: string, ok: bool)
    ensures ok <==> ReadFields(s).Some?
    ensures ok ==> out == CpusText(ReadFields(s).value, name)
  {
    var rest := s;
    out, ok := "", true;
    while !NoField(rest)
      invariant ReadFields(s).Some? <==> ReadFields(rest).Some?
      invariant ReadFields(s).Some? ==>
        CpusText(ReadFields(s).value, name) == out + CpusText(ReadFields(rest).value, name)
      decreases |rest|
    {
      hide CpuText, ReadInt, UpTo, ReadFields, CpusText, NoField;
      var k := FieldSpan(rest);
      var n := ReadInt(Ignore(rest[k..], 1));
      FieldsFrom(rest, n, name, out);
      if n == None {
        ok := false;
        return;
      }
      out := out + CpuText(Cpus(rest[..k], n.value.value), name);
      rest := Ignore(n.value.rest, 1);
    }
    assert ReadFields(rest) == Some([]);
  }

  /** A host line: the state's list gets the host's name. */
  method CollectHost(s: string, screen: Screen, name: string -> string)
    returns (screen': Screen, rest: string, ok: bool)
    ensures match ReadHost(s)
            case Got(x, r) => ok && screen' == Display(screen, x, name) && rest == r
            case _ => !ok
  {
    screen', rest, ok := screen, s, false;
    var word := ReadWord(s);
    if word.Some? {
      var state := ReadInt(word.value.rest);
      if state.Some? {
        screen' := Collected(screen, state.value.value, name(word.value.value) + " ");
        rest, ok := state.value.rest, true;
      }
    }
  }

  /** The monitor's reading loop. */
  method ParseResults(text: string, name: string -> string) returns (out: string, ok: bool)
    ensures ok <==> Parse(text).Some?
    ensures ok ==> out == Finished(DisplayAll(BLANK, Parse(text).value, name))
  {
    hide Summary, Heading, Collected, TierText, ReadFields, ReadHost, ReadDprop, ReadWord;
    var screen, rest := BLANK, text;
    ok := true;
    while true
      invariant ok
      invariant Parse(text).Some? <==> Parse(rest).Some?
      invariant Parse(text).Some? ==>
        DisplayAll(BLANK, Parse(text).value, name) == DisplayAll(screen, Parse(rest).value, name)
      decreases |rest|
    {
      ghost var next := NextItem(rest);
      var t := SkipSpace(rest);
      if t == "" {
        break;
      } else if t[0] == 'D' {
        screen, rest := StartSection(Ignore(t[1..], 1), screen, name);
      } else if t[0] == 'H' {
        screen, rest, ok := CollectHost(Ignore(t[1..], 1), screen, name);
      } else {
        var k := UpTo(t[1..], '\n');
        var line := t[1..][..k];
        rest := Ignore(t[1..], k + 1);
        if t[0] == 'C' {
          var shown;
          shown, ok := ShowTier(line, name);
          screen := screen.(out := screen.out + shown);
        } else {
          screen := screen.(out := screen.out + line + "\n");
        }
      }
      if !ok {
        assert next == Fail;
        return "", false;
      }
    }
    out := Finished(screen);
  }

  /** A section line: the summary of the section before it, and its own heading. */
  method StartSection(s: string, screen: Screen, name: string -> string) returns (screen': Screen, rest: string)
    ensures ReadDprop(s).rest == rest && screen' == Display(screen, ReadDprop(s).item, name)
  {
    var word := ReadWord(s);
    var w := if word.Some? then word.value.value else "";
    screen' := BLANK.(out := screen.out + Summary(screen) + Heading(w));
    rest := if word.Some? then word.value.rest else "";
  }

  // ---------------------------------------------------------- from the database to the screen

  /** The names of some hosts, in the order of their addresses. */
  function NamesOf(order: seq<Ip>, name: string -> string): string {
    if order == [] then "" else NamesOf(order[..|order| - 1], name) + (name(Ntoa(order[|order| - 1])) + " ")
  }

  ghost function Names(hosts: set<Ip>, name: string -> string): string {
    Reports.IpsOrdered();
    NamesOf(Listing(hosts, Reports.IpLess), name)
  }

  function TierTexts(lines: seq<Reports.Item>, name: string -> string): string {
    if lines == [] then ""
    else if lines[0].TierLine? then
      TierText(lines[0].tier, ShownCpus(lines[0].cpus), name) + TierTexts(lines[1..], name)
    else TierTexts(lines[1..], name)
  }

  /** The hosts of `order` that are in state `st`. */
  function Those(hosts: map<Ip, HostRec>, order: seq<Ip>, st: HostState): seq<Ip> {
    if order == [] then []
    else
      var init, ip := order[..|order| - 1], order[|order| - 1];
      if ip in hosts && hosts[ip].state == st then Those(hosts, init, st) + [ip] else Those(hosts, init, st)
  }

  /** The hosts in state `st`. */
  function HostsIn(hosts: map<Ip, HostRec>, st: HostState): set<Ip> {
    set ip | ip in hosts && hosts[ip].state == st
  }

  lemma {:induction false} ThoseMembers(hosts: map<Ip, HostRec>, order: seq<Ip>, st: HostState)
    ensures forall ip :: ip in Those(hosts, order, st) <==> ip in order && ip in HostsIn(hosts, st)
  {
    if order != [] {
      var init, ip := order[..|order| - 1], order[|order| - 1];
      ThoseMembers(hosts, init, st);
      assert order == init + [ip];
      assert ip in HostsIn(hosts, st) <==> ip in hosts && hosts[ip].state == st;
      hide HostsIn;
    }
  }

  lemma {:induction false} ThoseAscend(hosts: map<Ip, HostRec>, order: seq<Ip>, st: HostState)
    requires Ascending(order, Reports.IpLess)
    ensures Ascending(Those(hosts, order, st), Reports.IpLess)
  {
    hide Reports.IpLess;
    if order != [] {
      var init, ip := order[..|order| - 1], order[|order| - 1];
      ThoseAscend(hosts, init, st);
      ThoseMembers(hosts, init, st);
      forall x | x in Those(hosts, init, st) ensures Reports.IpLess(x, ip) {
        var i :| 0 <= i < |init| && init[i] == x;
        assert order[i] == x;
      }
    }
  }

  /** The hosts in one state, picked from all hosts in order, are that state's hosts in order. */
  lemma ThoseAre(hosts: map<Ip, HostRec>, st: HostState)
    requires Total(Reports.IpLess)
    ensures Those(hosts, Listing(hosts.Keys, Reports.IpLess), st) == Listing(HostsIn(hosts, st), Reports.IpLess)
  {
    var order := Listing(hosts.Keys, Reports.IpLess);
    ThoseMembers(hosts, order, st);
    ThoseAscend(hosts, order, st);
    ListingUnique(Those(hosts, order, st), HostsIn(hosts, st), Reports.IpLess);
  }

  lemma {:induction false} DisplayJoin(s: Screen, x: seq<Seen>, y: seq<Seen>, name: string -> string)
    ensures DisplayAll(s, x + y, name) == DisplayAll(DisplayAll(s, x, name), y, name)
    decreases |x|
  {
    hide Display;
    if x == [] {
      assert x + y == y;
    } else {
      assert (x + y)[1..] == x[1..] + y;
      DisplayJoin(Display(s, x[0], name), x[1..], y, name);
    }
  }

  lemma ShownJoin(x: seq<Reports.Item>, y: seq<Reports.Item>)
    ensures ShownAll(x + y) == ShownAll(x) + ShownAll(y)
  {
    hide Shown;
    assert forall i :: 0 <= i < |y| ==> (x + y)[|x| + i] == y[i];
  }

  lemma DisplayOne(s: Screen, x: Seen, name: string -> string)
    ensures DisplayAll(s, [x], name) == Display(s, x, name)
  {
    hide Display;
    assert DisplayAll(Display(s, x, name), [], name) == Display(s, x, name);
  }

  /** The summary lists with the names of the given hosts added. */
  ghost function WithHosts(
    screen: Screen, hosts: map<Ip, HostRec>, order: seq<Ip>, name: string -> string): Screen
  {
    screen.(
      avail := screen.avail + NamesOf(Those(hosts, order, Available), name),
      unavail := screen.unavail + NamesOf(Those(hosts, order, Unavailable), name),
      over := screen.over + NamesOf(Those(hosts, order, Overloaded), name),
      silent := screen.silent + NamesOf(Those(hosts, order, HostState.Silent), name))
  }

  lemma NameAdded(hosts: map<Ip, HostRec>, init: seq<Ip>, ip: Ip, st: HostState, name: string -> string)
    requires ip in hosts
    ensures NamesOf(Those(hosts, init + [ip], st), name)
      == NamesOf(Those(hosts, init, st), name) + if hosts[ip].state == st then name(Ntoa(ip)) + " " else ""
  {
    hide Ntoa;
    var those := Those(hosts, init, st);
    assert (init + [ip])[..|init|] == init;
    assert (those + [ip])[..|those|] == those;
  }

  lemma HostAdded(screen: Screen, hosts: map<Ip, HostRec>, init: seq<Ip>, ip: Ip, name: string -> string)
    requires ip in hosts
    ensures WithHosts(screen, hosts, init + [ip], name)
         == Display(WithHosts(screen, hosts, init, name), Shown(Reports.HostLine(ip, hosts[ip].state)), name)
  {
    hide Ntoa, NamesOf, Those;
    NameAdded(hosts, init, ip, Available, name);
    NameAdded(hosts, init, ip, Unavailable, name);
    NameAdded(hosts, init, ip, Overloaded, name);
    NameAdded(hosts, init, ip, HostState.Silent, name);
  }

  /** Showing the items of a longer report takes one more step. */
  lemma DisplayMore(screen: Screen, items: seq<Reports.Item>, x: Reports.Item, name: string -> string)
    ensures DisplayAll(screen, ShownAll(items + [x]), name)
         == Display(DisplayAll(screen, ShownAll(items), name), Shown(x), name)
  {
    ShownJoin(items, [x]);
    assert ShownAll([x]) == [Shown(x)];
    hide *;
    DisplayJoin(screen, ShownAll(items), [Shown(x)], name);
    DisplayOne(DisplayAll(screen, ShownAll(items), name), Shown(x), name);
  }

  lemma NoHostsShown(screen: Screen, hosts: map<Ip, HostRec>, name: string -> string)
    ensures DisplayAll(screen, ShownAll(Reports.HostLines(hosts, [])), name) == WithHosts(screen, hosts, [], name)
  {
    assert Reports.HostLines(hosts, []) == [];
  }

  lemma {:induction false} HostsShown(
    screen: Screen, hosts: map<Ip, HostRec>, order: seq<Ip>, name: string -> string)
    requires forall ip :: ip in order ==> ip in hosts
    ensures DisplayAll(screen, ShownAll(Reports.HostLines(hosts, order)), name)
         == WithHosts(screen, hosts, order, name)
    decreases |order|
  {
    hide DisplayAll, WithHosts, Display;
    if order == [] {
      NoHostsShown(screen, hosts, name);
    } else {
      var init, ip := order[..|order| - 1], order[|order| - 1];
      var line := Reports.HostLine(ip, hosts[ip].state);
      HostsShown(screen, hosts, init, name);
      assert order == init + [ip];
      assert Reports.HostLines(hosts, order) == Reports.HostLines(hosts, init) + [line];
      hide *;
      DisplayMore(screen, Reports.HostLines(hosts, init), line, name);
      HostAdded(screen, hosts, init, ip, name);
    }
  }

  lemma TierShown(screen: Screen, line: Reports.Item, name: string -> string)
    requires line.TierLine?
    ensures Display(screen, Shown(line), name)
         == screen.(out := screen.out + TierText(line.tier, ShownCpus(line.cpus), name))
  {
  }

  lemma Regroup3(a: string, b: string, c: string)
    ensures a + b + c == a + (b + c) && a + "" == a
  {
  }

  lemma {:induction false} TiersShown(screen: Screen, lines: seq<Reports.Item>, name: string -> string)
    requires forall i :: 0 <= i < |lines| ==> lines[i].TierLine?
    ensures DisplayAll(screen, ShownAll(lines), name) == screen.(out := screen.out + TierTexts(lines, name))
    decreases |lines|
  {
    hide Display, Shown, TierText;
    if lines == [] {
      Regroup3(screen.out, "", "");
    } else {
      var text, rest := TierText(lines[0].tier, ShownCpus(lines[0].cpus), name), TierTexts(lines[1..], name);
      var next := screen.(out := screen.out + text);
      TierShown(screen, lines[0], name);
      assert ShownAll(lines) == [Shown(lines[0])] + ShownAll(lines[1..]);
      assert DisplayAll(screen, ShownAll(lines), name) == DisplayAll(next, ShownAll(lines[1..]), name);
      assert TierTexts(lines, name) == text + rest;
      TiersShown(next, lines[1..], name);
      hide *;
      Regroup3(screen.out, text, rest);
    }
  }

  /** What a section of the report puts on the screen: its heading, its tiers from the highest
      down, and, collected for the summary, exactly the hosts of each state in order. */
  ghost function AfterSection(screen: Screen, d: Dprop, p: Pools.Pool, name: string -> string): Screen {
    Screen(
      screen.out + Summary(screen) + Heading("'" + (d + "'")) + TierTexts(PoolReports.PoolLines(p), name),
      Names(HostsIn(p.hosts, Available), name), Names(HostsIn(p.hosts, Overloaded), name),
      Names(HostsIn(p.hosts, Unavailable), name), Names(HostsIn(p.hosts, HostState.Silent), name), "")
  }

  lemma {:induction false} SectionShown(screen: Screen, d: Dprop, p: Pools.Pool, name: string -> string)
    ensures DisplayAll(screen, ShownAll(PoolReports.PoolReport(d, p)), name) == AfterSection(screen, d, p, name)
  {
    Reports.IpsOrdered();
    var ips := Listing(p.hosts.Keys, Reports.IpLess);
    var section, hosts, lines := Reports.Section(d), Reports.HostLines(p.hosts, ips), PoolReports.PoolLines(p);
    var screen1 := Display(screen, Shown(section), name);
    assert PoolReports.PoolReport(d, p) == [section] + hosts + lines;
    assert screen1 == BLANK.(out := screen.out + Summary(screen) + Heading("'" + (d + "'")));
    assert forall i :: 0 <= i < |lines| ==> lines[i].TierLine?;
    hide Summary, Heading, Display, Shown, DisplayAll, ShownAll, WithHosts, TierTexts, Names, HostsIn;
    hide PoolReports.PoolReport, PoolReports.PoolLines, Listing, Total, Ascending, Reports.HostLines;
    SectionParts(screen, section, hosts, lines, name);
    HostsShown(screen1, p.hosts, ips, name);
    TiersShown(WithHosts(screen1, p.hosts, ips, name), lines, name);
    NamesListed(screen1, p.hosts, name);
  }

  lemma SectionParts(
    screen: Screen, section: Reports.Item, hosts: seq<Reports.Item>, lines: seq<Reports.Item>, name: string -> string)
    ensures var screen1 := Display(screen, Shown(section), name);
      DisplayAll(screen, ShownAll([section] + hosts + lines), name)
        == DisplayAll(DisplayAll(screen1, ShownAll(hosts), name), ShownAll(lines), name)
  {
    assert ShownAll([section]) == [Shown(section)];
    hide Display, Shown, ShownAll, DisplayAll;
    ShownJoin([section] + hosts, lines);
    ShownJoin([section], hosts);
    DisplayJoin(screen, ShownAll([section] + hosts), ShownAll(lines), name);
    DisplayJoin(screen, [Shown(section)], ShownAll(hosts), name);
    DisplayOne(screen, Shown(section), name);
  }

  lemma NamesListed(screen: Screen, hosts: map<Ip, HostRec>, name: string -> string)
    requires Total(Reports.IpLess)
    ensures WithHosts(BLANK.(out := screen.out), hosts, Listing(hosts.Keys, Reports.IpLess), name)
         == Screen(screen.out, Names(HostsIn(hosts, Available), name), Names(HostsIn(hosts, Overloaded), name),
                   Names(HostsIn(hosts, Unavailable), name), Names(HostsIn(hosts, HostState.Silent), name), "")
  {
    hide NamesOf, Those, Listing, HostsIn, Ascending, Total;
    ThoseAre(hosts, Available);
    ThoseAre(hosts, Unavailable);
    ThoseAre(hosts, Overloaded);
    ThoseAre(hosts, HostState.Silent);
  }

  /** What the monitor prints for one dprop. */
  ghost function SectionText(d: Dprop, p: Pools.Pool, name: string -> string): string {
    Heading("'" + (d + "'")) + TierTexts(PoolReports.PoolLines(p), name)
    + Summary(AfterSection(BLANK, d, p, name).(out := ""))
  }

  ghost function SectionTexts(pools: map<Dprop, Pools.Pool>, order: seq<Dprop>, name: string -> string): string
    requires forall d :: d in order ==> d in pools
  {
    if order == [] then ""
    else
      assert order[0] in order && forall d :: d in order[1..] ==> d in order;
      SectionText(order[0], pools[order[0]], name) + SectionTexts(pools, order[1..], name)
  }

  /** Once its summary is out, a section has added its text. */
  lemma SectionAdds(screen: Screen, d: Dprop, p: Pools.Pool, name: string -> string)
    ensures var screen' := DisplayAll(screen, ShownAll(PoolReports.PoolReport(d, p)), name);
      screen'.out + Summary(screen') == screen.out + Summary(screen) + SectionText(d, p, name)
  {
    var screen' := AfterSection(screen, d, p, name);
    var before, heading := screen.out + Summary(screen), Heading("'" + (d + "'"));
    var tiers, summary := TierTexts(PoolReports.PoolLines(p), name), Summary(screen'.(out := ""));
    assert screen'.out == before + heading + tiers && SectionText(d, p, name) == heading + tiers + summary by {
      hide Heading, TierTexts, Names, Summary;
    }
    hide *;
    SectionShown(screen, d, p, name);
    SummaryOf(screen');
    Regroup(before, heading, tiers, summary);
  }

  lemma SummaryOf(s: Screen)
    ensures Summary(s.(out := "")) == Summary(s)
  {
    hide Labelled;
  }

  lemma Regroup(a: string, b: string, c: string, d: string)
    ensures a + b + c + d == a + (b + c + d)
  {
  }

  lemma FirstSection(
    screen: Screen, first: seq<Reports.Item>, more: seq<Reports.Item>, name: string -> string)
    ensures DisplayAll(screen, ShownAll(first + more), name)
         == DisplayAll(DisplayAll(screen, ShownAll(first), name), ShownAll(more), name)
  {
    hide *;
    ShownJoin(first, more);
    DisplayJoin(screen, ShownAll(first), ShownAll(more), name);
  }

  lemma {:induction false} SectionsShown(
    screen: Screen, pools: map<Dprop, Pools.Pool>, order: seq<Dprop>, name: string -> string)
    requires forall d :: d in order ==> d in pools
    ensures DisplayAll(screen, ShownAll(PoolReports.PoolSections(pools, order)), name).out
          + Summary(DisplayAll(screen, ShownAll(PoolReports.PoolSections(pools, order)), name))
         == screen.out + Summary(screen) + SectionTexts(pools, order, name)
    decreases |order|
  {
    hide Summary, SectionText, PoolReports.PoolReport, Display, Shown;
    if order != [] {
      assert order[0] in order && forall d :: d in order[1..] ==> d in order;
      var first := PoolReports.PoolReport(order[0], pools[order[0]]);
      var more := PoolReports.PoolSections(pools, order[1..]);
      FirstSection(screen, first, more, name);
      SectionAdds(screen, order[0], pools[order[0]], name);
      SectionsShown(DisplayAll(screen, ShownAll(first), name), pools, order[1..], name);
      assert PoolReports.PoolSections(pools, order) == first + more;
      assert SectionTexts(pools, order, name)
        == SectionText(order[0], pools[order[0]], name) + SectionTexts(pools, order[1..], name);
      hide *;
    }
  }

  /** The monitor's screen for the report on the given pools. */
  ghost function ScreenText(pools: map<Dprop, Pools.Pool>, name: string -> string): string {
    Reports.DpropsOrdered();
    SectionTexts(pools, Listing(pools.Keys, Reports.Precedes), name) + "\n"
  }

  /** From the pools to the screen, when every number fits in an int: if no dprop contains white
      space, the monitor prints for each dprop, in dictionary order, its tiers with the exact
      numbers of free cpus and exactly the hosts of each state. */
  lemma {:induction false} MonitorShows(pools: map<Dprop, Pools.Pool>, name: string -> string)
    requires var items := PoolReports.ServerReport(pools);
      Plain(items) && forall i :: 0 <= i < |items| ==> InRange(items[i])
    ensures var text := Reports.Render(PoolReports.ServerReport(pools));
      Parse(text).Some? && Finished(DisplayAll(BLANK, Parse(text).value, name)) == ScreenText(pools, name)
  {
    Reports.DpropsOrdered();
    var order := Listing(pools.Keys, Reports.Precedes);
    assert PoolReports.ServerReport(pools) == PoolReports.PoolSections(pools, order);
    assert BLANK.out + Summary(BLANK) == "";
    assert ScreenText(pools, name) == SectionTexts(pools, order, name) + "\n";
    ReadsItems(PoolReports.ServerReport(pools));
    SectionsShown(BLANK, pools, order, name);
    hide *;
    var screen := DisplayAll(BLANK, ShownAll(PoolReports.PoolSections(pools, order)), name);
    assert screen.out + Summary(screen) == SectionTexts(pools, order, name);
    assert Finished(screen) == SectionTexts(pools, order, name) + "\n" by { FinishedIs(screen); }
  }

  lemma FinishedIs(s: Screen)
    ensures Finished(s) == s.out + Summary(s) + "\n"
  {
  }

  /** The monitor's buffer, of which Sgets leaves two bytes unused. */
  const RESULT_MAX := 8196

  lemma {:induction false} FieldsNulFree(gs: seq<Reports.Group>)
    ensures Framing.NulFree(Reports.Fields(gs))
  {
    if gs != [] {
      FieldsNulFree(gs[1..]);
      NtoaIsWord(gs[0].ip);
      DecimalIsWord(gs[0].n);
    }
  }

  lemma LineNulFree(item: Reports.Item)
    requires item.Section? ==> Framing.NulFree(item.dprop)
    ensures Framing.NulFree(Reports.Line(item))
  {
    match item {
      case Section(d) =>
      case HostLine(ip, st) =>
        NtoaIsWord(ip);
        DecimalIsWord(Reports.Code(st));
      case TierLine(tier, gs) =>
        DecimalIsWord(tier);
        FieldsNulFree(gs);
    }
  }

  lemma {:induction false} RenderNulFree(items: seq<Reports.Item>)
    requires forall i :: 0 <= i < |items| && items[i].Section? ==> Framing.NulFree(items[i].dprop)
    ensures Framing.NulFree(Reports.Render(items))
  {
    hide Reports.Line;
    if items != [] {
      LineNulFree(items[0]);
      RenderNulFree(items[1..]);
    }
  }

  /** A report that is shorter than the monitor's buffer reaches it whole and alone, and one that
      is not does not. */
  lemma ReportArrives(text: string)
    requires Framing.NulFree(text)
    ensures Framing.Received(Framing.Encode([text]), RESULT_MAX - 2) == [text] <==> |text| < 8194
  {
    Framing.WholeIffItFits(text, RESULT_MAX - 2);
  }
}
