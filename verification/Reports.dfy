/**
 The report that the server sends to a monitor: what it says about a sub-database, and how it
 is written down.  The number of free cpus of a host is not stored anywhere; the report
 recovers it by sorting each tier's list and counting the runs of equal addresses.
 */
module Reports {
  import opened Types
  import opened Bags
  import opened SubDbs
  import opened Orders
  import opened Text

  datatype Group = Group(ip: Ip, n: nat)

  datatype Item =
    | Section(dprop: Dprop)
    | HostLine(ip: Ip, state: HostState)
    | TierLine(tier: int, cpus: seq<Group>)

  // --------------------------------------------------------------------------------- orders

  /** The address as the server's number: 32 bits, the first byte being the lowest. */
  function Num(ip: Ip): nat {
    ip.a + 0x100 * ip.b + 0x1_0000 * ip.c + 0x100_0000 * ip.d
  }

  predicate IpLess(x: Ip, y: Ip) {
    Num(x) < Num(y)
  }

  predicate Higher(x: int, y: int) {
    x > y
  }

  /** Dictionary order. */
  predicate Precedes(x: string, y: string) {
    y != [] && (x == [] || x[0] < y[0] || (x[0] == y[0] && Precedes(x[1..], y[1..])))
  }

  lemma NumInjective(x: Ip, y: Ip)
    requires Num(x) == Num(y)
    ensures x == y
  {
    var bs, cs, ds := y.b - x.b, y.c - x.c, y.d - x.d;
    assert x.a - y.a == 0x100 * (bs + 0x100 * (cs + 0x100 * ds));
    assert bs + 0x100 * (cs + 0x100 * ds) == 0;
    assert cs + 0x100 * ds == 0;
  }

  /** Addresses are ordered by their last byte first. */
  lemma LastByteFirst(x: Ip, y: Ip)
    ensures IpLess(x, y) <==>
      x.d < y.d || (x.d == y.d && (x.c < y.c || (x.c == y.c && (x.b < y.b || (x.b == y.b && x.a < y.a)))))
  {
    LowPart(x.a, x.b, x.c);
    LowPart(y.a, y.b, y.c);
  }

  lemma LowPart(a: Octet, b: Octet, c: Octet)
    ensures a + 0x100 * b < 0x1_0000 && a + 0x100 * b + 0x1_0000 * c < 0x100_0000
  {
  }

  lemma IpsOrdered()
    ensures Total(IpLess)
  {
    forall x: Ip, y: Ip ensures IpLess(x, y) || IpLess(y, x) || x == y {
      if Num(x) == Num(y) {
        NumInjective(x, y);
      }
    }
  }

  lemma TiersOrdered()
    ensures Total(Higher)
  {
  }

  lemma {:induction false} PrecedesTransitive(x: string, y: string, z: string)
    requires Precedes(x, y) && Precedes(y, z)
    ensures Precedes(x, z)
  {
    if x != [] && x[0] == y[0] == z[0] {
      PrecedesTransitive(x[1..], y[1..], z[1..]);
    }
  }

  lemma {:induction false} PrecedesTotal(x: string, y: string)
    ensures !Precedes(x, x)
    ensures Precedes(x, y) || Precedes(y, x) || x == y
  {
    if x != [] {
      PrecedesTotal(x[1..], if y == [] then [] else y[1..]);
      assert y != [] ==> (x == y <==> x[0] == y[0] && x[1..] == y[1..]) by {
        assert x == [x[0]] + x[1..] && (y != [] ==> y == [y[0]] + y[1..]);
      }
    }
  }

  /** Up to position `k` both strings agree; there the first ends, or has the smaller character. */
  predicate LessAt(x: string, y: string, k: nat) {
    k <= |x| && k < |y| && x[..k] == y[..k] && (k == |x| || x[k] < y[k])
  }

  lemma HeadAgrees(x: string, y: string, k: nat)
    requires LessAt(x, y, k) && k > 0
    ensures x[0] == y[0] && LessAt(x[1..], y[1..], k - 1)
  {
    assert x[..k][0] == y[..k][0];
    assert x[1..][..k - 1] == x[..k][1..] && y[1..][..k - 1] == y[..k][1..];
  }

  lemma HeadBefore(x: string, y: string, k: nat)
    requires x != "" && y != "" && x[0] == y[0] && LessAt(x[1..], y[1..], k)
    ensures LessAt(x, y, k + 1)
  {
    assert x[..k + 1] == [x[0]] + x[1..][..k] && y[..k + 1] == [y[0]] + y[1..][..k];
  }

  /** Dictionary order, by the first place where two strings differ. */
  lemma {:induction false} PrecedesIs(x: string, y: string)
    ensures Precedes(x, y) <==> exists k: nat :: LessAt(x, y, k)
  {
    forall k: nat | LessAt(x, y, k) && k > 0 ensures x[0] == y[0] && LessAt(x[1..], y[1..], k - 1) {
      HeadAgrees(x, y, k);
    }
    if x != [] && y != [] && x[0] == y[0] {
      PrecedesIs(x[1..], y[1..]);
      if k: nat :| LessAt(x[1..], y[1..], k) {
        HeadBefore(x, y, k);
      }
    } else if y != [] {
      assert x == [] || x[0] < y[0] ==> LessAt(x, y, 0);
    }
  }

  lemma DpropsOrdered()
    ensures Total(Precedes)
  {
    forall x: string, y: string ensures !Precedes(x, x) && (Precedes(x, y) || Precedes(y, x) || x == y) {
      PrecedesTotal(x, y);
    }
    forall x: string, y: string, z: string | Precedes(x, y) && Precedes(y, z) ensures Precedes(x, z) {
      PrecedesTransitive(x, y, z);
    }
  }

  // ----------------------------------------------------------------------------- run lengths

  function Front(gs: seq<Group>): seq<Group>
    requires gs != []
  {
    gs[..|gs| - 1]
  }

  function Last(gs: seq<Group>): Group
    requires gs != []
  {
    gs[|gs| - 1]
  }

  lemma Ends(gs: seq<Group>, g: Group)
    ensures Front(gs + [g]) == gs && Last(gs + [g]) == g
  {
  }

  function AddTo(gs: seq<Group>, ip: Ip): (r: seq<Group>)
    ensures r != [] && Last(r).ip == ip
  {
    if gs != [] && Last(gs).ip == ip then Front(gs) + [Group(ip, Last(gs).n + 1)] else gs + [Group(ip, 1)]
  }

  /** The runs of equal addresses in a list. */
  function Groups(l: seq<Ip>): seq<Group> {
    if l == [] then [] else AddTo(Groups(l[..|l| - 1]), l[|l| - 1])
  }

  function Expand(gs: seq<Group>): seq<Ip> {
    if gs == [] then [] else Expand(Front(gs)) + Copies(Last(gs).n, Last(gs).ip)
  }

  lemma ExpandLonger(gs: seq<Group>, ip: Ip)
    ensures Expand(AddTo(gs, ip)) == Expand(gs) + [ip]
  {
    if gs != [] && Last(gs).ip == ip {
      var n := Last(gs).n;
      Ends(Front(gs), Group(ip, n + 1));
      assert Copies(n + 1, ip) == Copies(n, ip) + [ip];
    } else {
      Ends(gs, Group(ip, 1));
      assert Copies(1, ip) == [ip];
    }
  }

  /** Nothing is lost in counting. */
  lemma {:induction false} GroupsExpand(l: seq<Ip>)
    ensures Expand(Groups(l)) == l
  {
    if l != [] {
      var init, ip := l[..|l| - 1], l[|l| - 1];
      GroupsExpand(init);
      assert Groups(l) == AddTo(Groups(init), ip);
      assert l == init + [ip];
      hide *;
      ExpandLonger(Groups(init), ip);
    }
  }

  ghost predicate Increasing(gs: seq<Group>) {
    forall i, j :: 0 <= i < j < |gs| ==> IpLess(gs[i].ip, gs[j].ip)
  }

  /** `gs` says of each address in `l`, and of no other, how often it occurs. */
  ghost predicate Counts(gs: seq<Group>, l: seq<Ip>) {
    forall g :: g in gs <==> g.ip in l && g.n == multiset(l)[g.ip]
  }

  /** The runs of a sorted list: each address once, ascending, with its number of occurrences. */
  lemma {:induction false} GroupsCount(l: seq<Ip>)
    requires Sorted(l, IpLess)
    ensures Increasing(Groups(l)) && Counts(Groups(l), l)
  {
    if l != [] {
      var init, ip := l[..|l| - 1], l[|l| - 1];
      GroupsCount(init);
      assert l == init + [ip];
      if Groups(init) != [] && Last(Groups(init)).ip == ip {
        SameRun(init, ip, Groups(init));
      } else {
        NewRun(init, ip, Groups(init));
      }
    }
  }

  lemma SameRun(init: seq<Ip>, ip: Ip, gs: seq<Group>)
    requires Increasing(gs) && Counts(gs, init) && gs != [] && Last(gs).ip == ip
    ensures Increasing(AddTo(gs, ip)) && Counts(AddTo(gs, ip), init + [ip])
  {
    var front, last := Front(gs), Last(gs);
    assert gs == front + [last];
    assert AddTo(gs, ip) == front + [Group(ip, last.n + 1)];
    hide AddTo;
    OtherRuns(front, last);
    OneMoreOf(init, ip, front, last);
  }

  lemma OtherRuns(front: seq<Group>, last: Group)
    requires Increasing(front + [last])
    ensures forall g :: g in front ==> g.ip != last.ip
    ensures forall n: nat :: Increasing(front + [Group(last.ip, n)])
  {
    var gs := front + [last];
    forall g | g in front ensures g.ip != last.ip {
      var i :| 0 <= i < |front| && front[i] == g;
      assert IpLess(gs[i].ip, gs[|front|].ip);
    }
    forall n: nat ensures Increasing(front + [Group(last.ip, n)]) {
      var gs' := front + [Group(last.ip, n)];
      assert forall i :: 0 <= i < |gs| ==> gs'[i].ip == gs[i].ip;
    }
  }

  lemma OneMoreOf(init: seq<Ip>, ip: Ip, front: seq<Group>, last: Group)
    requires Counts(front + [last], init) && last.ip == ip && forall g :: g in front ==> g.ip != ip
    ensures Counts(front + [Group(ip, last.n + 1)], init + [ip])
  {
    var l, more := init + [ip], Group(ip, last.n + 1);
    assert multiset(l) == multiset(init) + multiset{ip};
    forall g ensures g in front + [more] <==> g.ip in l && g.n == multiset(l)[g.ip] {
      assert g in front + [more] <==> g in front || g == more;
      assert g in front + [last] <==> g in front || g == last;
      assert g.ip in l <==> g.ip in init || g.ip == ip;
      assert last in front + [last];
    }
  }

  lemma NewRun(init: seq<Ip>, ip: Ip, gs: seq<Group>)
    requires Increasing(gs) && Counts(gs, init) && Sorted(init + [ip], IpLess)
    requires gs != [] ==> Last(gs).ip != ip
    ensures Increasing(AddTo(gs, ip)) && Counts(AddTo(gs, ip), init + [ip])
  {
    IpsOrdered();
    var l := init + [ip];
    assert forall i :: 0 <= i < |init| ==> l[i] == init[i] && !IpLess(l[|init|], l[i]);
    assert forall x :: x in init ==> !IpLess(ip, x);
    forall g | g in gs ensures IpLess(g.ip, ip) {
      assert Last(gs) in gs;
    }
    assert Group(ip, multiset(init)[ip]) !in gs;
    assert multiset(l) == multiset(init) + multiset{ip};
  }

  /** What the printer's loop makes of the runs: it uses the address 0.0.0.0 to mean that no
      run has begun yet, and so drops a run of that address unless it is the last. */
  function Printed(gs: seq<Group>): seq<Group> {
    if gs == [] then [] else Proper(Front(gs)) + [Last(gs)]
  }

  function Proper(gs: seq<Group>): (r: seq<Group>)
    ensures forall g :: g in r <==> g in gs && g.ip != NO_HOST
    ensures |r| <= |gs|
  {
    if gs == [] then []
    else
      assert gs == Front(gs) + [Last(gs)];
      if Last(gs).ip == NO_HOST then Proper(Front(gs)) else Proper(Front(gs)) + [Last(gs)]
  }

  /** What is printed are runs of the list. */
  lemma PrintedFrom(gs: seq<Group>)
    ensures forall i :: 0 <= i < |Printed(gs)| ==> Printed(gs)[i] in gs
  {
    if gs != [] {
      assert gs == Front(gs) + [Last(gs)];
      assert forall i :: 0 <= i < |Proper(Front(gs))| ==> Proper(Front(gs))[i] in Proper(Front(gs));
    }
  }

  /** The printer's loop over a sorted copy of a tier's list. */
  method CountRuns(l: seq<Ip>) returns (runs: seq<Group>)
    ensures runs == Printed(Groups(l))
  {
    var ct, curr := 0, NO_HOST;
    runs := [];
    for i := 0 to |l|
      invariant ct == 0 <==> i == 0
      invariant i == 0 ==> curr == NO_HOST && runs == []
      invariant i > 0 ==> Groups(l[..i]) != []
      invariant i > 0 ==> Last(Groups(l[..i])) == Group(curr, ct) && runs == Proper(Front(Groups(l[..i])))
    {
      ghost var gs := Groups(l[..i]);
      assert l[..i + 1][..i] == l[..i];
      if curr == l[i] {
        ct := ct + 1;
        if i > 0 {
          Ends(Front(gs), Group(curr, ct));
        }
      } else {
        if curr != NO_HOST {
          runs := runs + [Group(curr, ct)];
        }
        Ends(gs, Group(l[i], 1));
        curr := l[i];
        ct := 1;
      }
    }
    assert l[..|l|] == l;
    if ct != 0 {
      runs := runs + [Group(curr, ct)];
    }
  }

  /** Some run is one of 0.0.0.0. */
  predicate HasNoHost(gs: seq<Group>) {
    exists i :: 0 <= i < |gs| && gs[i].ip == NO_HOST
  }

  lemma {:induction false} ProperWhole(gs: seq<Group>)
    ensures Proper(gs) == gs <==> !HasNoHost(gs)
    ensures |Proper(gs)| == |gs| ==> Proper(gs) == gs
  {
    if gs != [] {
      ProperWhole(Front(gs));
      assert gs == Front(gs) + [Last(gs)];
    }
  }

  /** 0.0.0.0 is lower than every other address. */
  lemma Lowest(gs: seq<Group>)
    requires Increasing(gs) && gs != []
    ensures HasNoHost(Front(gs)) <==> HasNoHost(gs) && |gs| > 1
  {
    if |gs| > 1 {
      assert IpLess(gs[0].ip, Last(gs).ip);
      assert forall i :: 0 <= i < |gs| - 1 ==> Front(gs)[i] == gs[i];
    }
  }

  lemma Cancel(a: seq<Group>, b: seq<Group>, g: Group)
    ensures a + [g] == b + [g] <==> a == b
  {
    assert (a + [g])[..|a|] == a && (b + [g])[..|b|] == b;
  }

  lemma PrintedWhole(gs: seq<Group>)
    requires Increasing(gs) && gs != []
    ensures Printed(gs) == gs <==> !HasNoHost(gs) || |gs| == 1
  {
    var front, last, proper := Front(gs), Last(gs), Proper(Front(gs));
    assert Printed(gs) == proper + [last];
    assert gs == front + [last];
    assert proper == front <==> !HasNoHost(front) by { ProperWhole(front); }
    assert HasNoHost(front) <==> HasNoHost(gs) && |gs| > 1 by { Lowest(gs); }
    hide *;
    Cancel(proper, front, last);
  }

  /** An address heads a run exactly when it is in the list. */
  lemma RunsCover(gs: seq<Group>, l: seq<Ip>, ip: Ip)
    requires Counts(gs, l)
    ensures ip in l <==> exists i :: 0 <= i < |gs| && gs[i].ip == ip
  {
    if ip in l {
      assert Group(ip, multiset(l)[ip]) in gs;
    }
    if i :| 0 <= i < |gs| && gs[i].ip == ip {
      assert gs[i] in gs;
    }
  }

  /** The line shows every run exactly when 0.0.0.0 has no cpu in the tier, or is alone in it. */
  lemma {:induction false} PrintsAllRuns(l: seq<Ip>)
    requires Sorted(l, IpLess)
    ensures Printed(Groups(l)) == Groups(l) <==> NO_HOST !in l || forall x :: x in l ==> x == NO_HOST
  {
    var gs := Groups(l);
    GroupsCount(l);
    if l != [] {
      hide Groups, Printed, Sorted, Counts, Increasing, IpLess;
      OneRun(gs, l);
      RunsCover(gs, l, NO_HOST);
      PrintedWhole(gs);
      if forall x :: x in l ==> x == NO_HOST {
        assert l[0] in l;
      }
    }
  }

  /** There is one run exactly when the list repeats one address. */
  lemma OneRun(gs: seq<Group>, l: seq<Ip>)
    requires Increasing(gs) && Counts(gs, l) && l != []
    ensures gs != [] && (|gs| == 1 <==> forall x :: x in l ==> x == l[0])
  {
    RunsCover(gs, l, l[0]);
    Distinct(gs);
    if |gs| == 1 {
      forall x | x in l ensures x == l[0] {
        RunsCover(gs, l, x);
      }
    } else {
      RunsCover(gs, l, gs[0].ip);
      assert gs[0] in gs && gs[1] in gs && IpLess(gs[0].ip, gs[1].ip);
    }
  }

  lemma Distinct(gs: seq<Group>)
    requires Increasing(gs) && gs != []
    ensures |gs| == 1 <==> forall i :: 0 <= i < |gs| ==> gs[i].ip == gs[0].ip
  {
    assert |gs| > 1 ==> IpLess(gs[0].ip, gs[1].ip);
  }

  lemma LastIs(gs: seq<Group>, l: seq<Ip>)
    requires Increasing(gs) && Counts(gs, l) && gs != []
    ensures Last(gs) in gs && (Last(gs).ip == NO_HOST <==> forall x :: x in l ==> x == NO_HOST)
  {
    var n := |gs| - 1;
    assert gs[n] in gs;
    assert gs[n].ip in l;
    if gs[n].ip == NO_HOST {
      forall x | x in l ensures x == NO_HOST {
        RunsCover(gs, l, x);
        hide Counts;
        var i :| 0 <= i < |gs| && gs[i].ip == x;
        assert i < n ==> IpLess(gs[i].ip, gs[n].ip);
      }
    }
  }

  /** What a line shows, for every address. */
  lemma PrintedMembers(l: seq<Ip>, g: Group)
    requires Sorted(l, IpLess)
    ensures g in Printed(Groups(l)) <==>
      g.ip in l && g.n == multiset(l)[g.ip] && (g.ip != NO_HOST || forall x :: x in l ==> x == NO_HOST)
  {
    GroupsCount(l);
    var gs := Groups(l);
    if gs != [] {
      LastIs(gs, l);
      PrintedParts(gs, g);
      hide Groups, Sorted, Printed;
      if g in gs && g.ip == NO_HOST && Last(gs).ip == NO_HOST {
        OneOfEach(gs, g, Last(gs));
      }
    }
  }

  lemma PrintedParts(gs: seq<Group>, g: Group)
    requires gs != []
    ensures g in Printed(gs) <==> g in gs && (g.ip != NO_HOST || g == Last(gs))
  {
    assert gs == Front(gs) + [Last(gs)];
    assert g in Printed(gs) <==> g in Proper(Front(gs)) || g == Last(gs);
    assert g in gs <==> g in Front(gs) || g == Last(gs);
    hide *;
  }

  lemma OneOfEach(gs: seq<Group>, g: Group, h: Group)
    requires Increasing(gs) && g in gs && h in gs && g.ip == h.ip
    ensures g == h
  {
    var i :| 0 <= i < |gs| && gs[i] == g;
    var j :| 0 <= j < |gs| && gs[j] == h;
  }

  // ------------------------------------------------------------------------------ the report

  /** A line for each host. */
  ghost function HostLines(hosts: map<Ip, HostRec>, order: seq<Ip>): seq<Item>
    requires forall ip :: ip in order ==> ip in hosts
  {
    seq(|order|, i requires 0 <= i < |order| => HostLine(order[i], hosts[order[i]].state))
  }

  function TierLineOf(tier: int, l: seq<Ip>): Item {
    TierLine(tier, Printed(Groups(Sort(l, IpLess))))
  }

  /** A line for each tier that is not empty. */
  function TierLines(s: SubDb, order: seq<int>): seq<Item> {
    if order == [] then []
    else if ListOf(s, order[0]) == [] then TierLines(s, order[1..])
    else [TierLineOf(order[0], ListOf(s, order[0]))] + TierLines(s, order[1..])
  }

  /** The section of one dprop: its hosts by ascending address, then its tiers from the
      highest down. */
  ghost function ReportOf(s: SubDb): seq<Item> {
    IpsOrdered();
    TiersOrdered();
    [Section(s.dprop)]
      + HostLines(s.hosts, Listing(s.hosts.Keys, IpLess))
      + TierLines(s, Listing(s.tiers.Keys, Higher))
  }

  /** The sections of some dprops. */
  ghost function Sections(subs: map<Dprop, SubDb>, order: seq<Dprop>): seq<Item>
    requires forall d :: d in order ==> d in subs
  {
    if order == [] then []
    else
      assert order[0] in order && forall d :: d in order[1..] ==> d in order;
      ReportOf(subs[order[0]]) + Sections(subs, order[1..])
  }

  /** The whole report: the dprops in dictionary order. */
  ghost function FullReport(subs: map<Dprop, SubDb>): seq<Item> {
    DpropsOrdered();
    Sections(subs, Listing(subs.Keys, Precedes))
  }

  // -------------------------------------------------------------------- what the report says

  ghost predicate Shows(items: seq<Item>, tier: int, g: Group) {
    exists i :: 0 <= i < |items| && items[i].TierLine? && items[i].tier == tier && g in items[i].cpus
  }

  /** A list's line has a group for each address with its count, but for 0.0.0.0 only if no
      other address is in the list. */
  ghost predicate IsShown(l: seq<Ip>, g: Group) {
    g.ip in l && g.n == multiset(l)[g.ip] && (g.ip != NO_HOST || forall x :: x in l ==> x == NO_HOST)
  }

  lemma TierLineShows(tier: int, l: seq<Ip>, g: Group)
    ensures g in TierLineOf(tier, l).cpus <==> IsShown(l, g)
  {
    IpsOrdered();
    SortSorts(l, IpLess);
    var sorted := Sort(l, IpLess);
    PrintedMembers(sorted, g);
    forall x ensures x in sorted <==> x in l {
      assert x in sorted <==> x in multiset(sorted);
      assert x in l <==> x in multiset(l);
    }
  }

  lemma ShowsHead(line: Item, rest: seq<Item>, tier: int, g: Group)
    ensures Shows([line] + rest, tier, g) <==>
      Shows(rest, tier, g) || (line.TierLine? && line.tier == tier && g in line.cpus)
  {
    var lines := [line] + rest;
    assert lines[0] == line && forall i :: 0 <= i < |rest| ==> rest[i] == lines[i + 1];
    assert forall i :: 1 <= i < |lines| ==> lines[i] == rest[i - 1];
  }

  lemma FirstShows(s: SubDb, order: seq<int>, tier: int, g: Group)
    requires order != []
    ensures Shows(TierLines(s, order), tier, g) <==>
      Shows(TierLines(s, order[1..]), tier, g) || (tier == order[0] && IsShown(ListOf(s, tier), g))
  {
    var l, rest := ListOf(s, order[0]), TierLines(s, order[1..]);
    TierLineShows(order[0], l, g);
    assert TierLineOf(order[0], l).tier == order[0];
    ShowsHead(TierLineOf(order[0], l), rest, tier, g);
    assert l == [] ==> !IsShown(l, g);
    hide Shows, IsShown, TierLineOf, ListOf;
  }

  lemma {:induction false} TierLinesShow(s: SubDb, order: seq<int>, tier: int, g: Group)
    ensures Shows(TierLines(s, order), tier, g) <==> tier in order && IsShown(ListOf(s, tier), g)
  {
    if order == [] {
      assert TierLines(s, order) == [] && !Shows([], tier, g);
    } else {
      hide Shows, IsShown, ListOf;
      FirstShows(s, order, tier, g);
      hide TierLines;
      TierLinesShow(s, order[1..], tier, g);
      assert order == [order[0]] + order[1..];
    }
  }

  /** How the lines of one section follow each other. */
  predicate Follows(x: Item, y: Item) {
    match y
    case Section(_) => false
    case HostLine(ip, _) => x.Section? || (x.HostLine? && IpLess(x.ip, ip))
    case TierLine(tier, _) => x.TierLine? ==> x.tier > tier
  }

  ghost predicate InOrder(items: seq<Item>) {
    && (forall i, j :: 0 <= i < j < |items| ==> Follows(items[i], items[j]))
    && (forall i :: 0 <= i < |items| && items[i].TierLine? ==> Increasing(items[i].cpus))
  }

  lemma IncreasingOnto(gs: seq<Group>, g: Group)
    requires Increasing(gs) && forall h :: h in gs ==> IpLess(h.ip, g.ip)
    ensures Increasing(gs + [g])
  {
  }

  lemma {:induction false} PrintedIncreases(gs: seq<Group>)
    requires Increasing(gs)
    ensures Increasing(Proper(gs)) && Increasing(Printed(gs))
  {
    if gs != [] {
      var front, last := Front(gs), Last(gs);
      PrintedIncreases(front);
      forall h | h in Proper(front) ensures IpLess(h.ip, last.ip) {
        assert h in front;
      }
      IncreasingOnto(Proper(front), last);
    }
  }

  lemma TierLineIncreases(tier: int, l: seq<Ip>)
    ensures Increasing(TierLineOf(tier, l).cpus)
  {
    IpsOrdered();
    SortSorts(l, IpLess);
    GroupsCount(Sort(l, IpLess));
    PrintedIncreases(Groups(Sort(l, IpLess)));
  }

  lemma {:induction false} TierLinesTiers(s: SubDb, order: seq<int>)
    ensures forall i :: 0 <= i < |TierLines(s, order)| ==>
      TierLines(s, order)[i].TierLine? && TierLines(s, order)[i].tier in order
  {
    hide Printed, Groups, Sort, ListOf;
    if order != [] {
      TierLinesTiers(s, order[1..]);
      assert order == [order[0]] + order[1..];
    }
  }

  lemma InOrderFrom(line: Item, rest: seq<Item>)
    requires InOrder(rest) && line.TierLine? && Increasing(line.cpus)
    requires forall i :: 0 <= i < |rest| ==> rest[i].TierLine? && rest[i].tier < line.tier
    ensures InOrder([line] + rest)
  {
    hide Increasing;
  }

  lemma Lower(order: seq<int>, t: int)
    requires order != [] && Ascending(order, Higher) && t in order[1..]
    ensures t < order[0]
  {
    var k :| 0 <= k < |order[1..]| && order[1..][k] == t;
    assert Higher(order[0], order[k + 1]);
  }

  lemma {:induction false} TierLinesInOrder(s: SubDb, order: seq<int>)
    requires Ascending(order, Higher)
    ensures InOrder(TierLines(s, order))
  {
    if order != [] {
      var rest := TierLines(s, order[1..]);
      TierLinesInOrder(s, order[1..]);
      TierLinesTiers(s, order[1..]);
      forall i | 0 <= i < |rest| ensures rest[i].tier < order[0] {
        Lower(order, rest[i].tier);
      }
      hide Printed, Groups, Sort, ListOf, Increasing, InOrder, Ascending;
      if ListOf(s, order[0]) != [] {
        TierLineIncreases(order[0], ListOf(s, order[0]));
        InOrderFrom(TierLineOf(order[0], ListOf(s, order[0])), rest);
      }
    }
  }

  lemma ShowsOnlyTiers(head: seq<Item>, lines: seq<Item>, tier: int, g: Group)
    requires forall i :: 0 <= i < |head| ==> !head[i].TierLine?
    ensures Shows(head + lines, tier, g) <==> Shows(lines, tier, g)
  {
    assert forall i :: 0 <= i < |lines| ==> lines[i] == (head + lines)[|head| + i];
  }

  lemma ListShows(s: SubDb, tier: int, g: Group)
    requires Inv(s)
    ensures tier in s.tiers && IsShown(ListOf(s, tier), g) <==>
      && InState(s, g.ip, Available) && tier == s.hosts[g.ip].Tier() && g.n == View(s).free[g.ip] > 0
      && (g.ip != NO_HOST ||
          forall x :: x in View(s).free && x in s.hosts && s.hosts[x].Tier() == tier ==> x == NO_HOST)
  {
    FreeIsPlaced(s, g.ip);
    FreeWhere(s, g.ip);
    forall x ensures x in ListOf(s, tier) <==> x in View(s).free && x in s.hosts && s.hosts[x].Tier() == tier {
      FreeIsPlaced(s, x);
      assert InTier(s.tiers, tier, x) <==> x in ListOf(s, tier);
      hide CalcTier, View;
    }
    hide CalcTier, Bag;
  }

  /** The tier lines show, for each available host with free cpus and for no other, how many
      cpus it has, under its current tier and nowhere else; only a host with the address
      0.0.0.0 is missing when it shares its tier. */
  lemma ReportCountsFree(s: SubDb, tier: int, g: Group)
    requires Inv(s)
    ensures Shows(ReportOf(s), tier, g) <==>
      && InState(s, g.ip, Available) && tier == s.hosts[g.ip].Tier() && g.n == View(s).free[g.ip] > 0
      && (g.ip != NO_HOST ||
          forall x :: x in View(s).free && x in s.hosts && s.hosts[x].Tier() == tier ==> x == NO_HOST)
  {
    IpsOrdered();
    TiersOrdered();
    var tiers := Listing(s.tiers.Keys, Higher);
    var head := [Section(s.dprop)] + HostLines(s.hosts, Listing(s.hosts.Keys, IpLess));
    ShowsOnlyTiers(head, TierLines(s, tiers), tier, g);
    TierLinesShow(s, tiers, tier, g);
    ListShows(s, tier, g);
    hide Shows, ReportOf, TierLines, CalcTier, View, Inv, IsShown;
    hide Sorted, Ascending, Bag, IpLess, Higher, Total;
  }

  lemma HostLinesInOrder(s: SubDb, order: seq<Ip>)
    requires Ascending(order, IpLess) && forall ip :: ip in order <==> ip in s.hosts
    ensures InOrder([Section(s.dprop)] + HostLines(s.hosts, order))
    ensures forall ip, st :: HostLine(ip, st) in HostLines(s.hosts, order) <==> InState(s, ip, st)
  {
    hide IpLess;
    var hosts := HostLines(s.hosts, order);
    assert forall i :: 0 <= i < |order| ==> order[i] in order && hosts[i].ip == order[i];
    forall ip, st | InState(s, ip, st) ensures HostLine(ip, st) in hosts {
      var i :| 0 <= i < |order| && order[i] == ip;
      assert hosts[i] == HostLine(ip, st);
    }
  }

  /** Each host has one line, with its state; the hosts are listed by ascending address, the
      tiers from the highest down, each once, and the addresses within a tier ascending. */
  lemma ReportInOrder(s: SubDb)
    ensures InOrder(ReportOf(s)) && ReportOf(s)[0] == Section(s.dprop)
    ensures forall ip, st :: HostLine(ip, st) in ReportOf(s) <==> InState(s, ip, st)
  {
    IpsOrdered();
    TiersOrdered();
    var ips, tiers := Listing(s.hosts.Keys, IpLess), Listing(s.tiers.Keys, Higher);
    var head, lines := [Section(s.dprop)] + HostLines(s.hosts, ips), TierLines(s, tiers);
    HostLinesInOrder(s, ips);
    TierLinesInOrder(s, tiers);
    TierLinesTiers(s, tiers);
    assert ReportOf(s) == head + lines;
    hide InOrder, ReportOf, TierLines, Ascending, Total, Listing, IpLess, Higher;
    InOrderJoin(head, lines);
    forall ip, st ensures HostLine(ip, st) in head + lines <==> InState(s, ip, st) {
      assert HostLine(ip, st) in head <==> HostLine(ip, st) in HostLines(s.hosts, ips);
    }
  }

  lemma InOrderJoin(head: seq<Item>, lines: seq<Item>)
    requires InOrder(head) && InOrder(lines)
    requires forall i :: 0 <= i < |head| ==> !head[i].TierLine?
    requires forall i :: 0 <= i < |lines| ==> lines[i].TierLine?
    ensures InOrder(head + lines)
  {
  }

  // --------------------------------------------------------------------------- writing it down

  /** How the states are numbered in a report. */
  function Code(st: HostState): int {
    match st
    case Available => 1
    case Unavailable => 2
    case Overloaded => 3
    case Silent => 4
  }

  function Field(g: Group): string {
    Ntoa(g.ip) + ("/" + (Decimal(g.n) + " "))
  }

  function Fields(gs: seq<Group>): string {
    if gs == [] then "" else Field(gs[0]) + Fields(gs[1..])
  }

  function Line(item: Item): string {
    match item
    case Section(d) => "D: '" + (d + "'\n")
    case HostLine(ip, st) => "H: " + (Ntoa(ip) + (" " + (Decimal(Code(st)) + "\n")))
    case TierLine(tier, gs) => "C " + (Decimal(tier) + (": " + (Fields(gs) + "\n")))
  }

  /** The lines of the report, as they are sent. */
  lemma SectionFormat(d: Dprop)
    ensures Line(Section(d)) == "D: '" + d + "'\n"
  {
  }

  lemma HostFormat(ip: Ip)
    ensures Line(HostLine(ip, Available)) == "H: " + (Ntoa(ip) + " 1\n")
    ensures Line(HostLine(ip, Unavailable)) == "H: " + (Ntoa(ip) + " 2\n")
    ensures Line(HostLine(ip, Overloaded)) == "H: " + (Ntoa(ip) + " 3\n")
    ensures Line(HostLine(ip, HostState.Silent)) == "H: " + (Ntoa(ip) + " 4\n")
  {
    assert Decimal(1) == "1" && Decimal(2) == "2" && Decimal(3) == "3" && Decimal(4) == "4";
    assert " " + ("1" + "\n") == " 1\n" && " " + ("2" + "\n") == " 2\n";
    assert " " + ("3" + "\n") == " 3\n" && " " + ("4" + "\n") == " 4\n";
    hide Decimal, Ntoa;
  }

  lemma TierFormat(tier: int, g: Group, gs: seq<Group>)
    ensures Line(TierLine(tier, gs)) == "C " + Decimal(tier) + ": " + Fields(gs) + "\n"
    ensures Fields([]) == "" && Fields([g] + gs) == Ntoa(g.ip) + "/" + Decimal(g.n) + " " + Fields(gs)
  {
    TierLineFormat(tier, gs);
    FieldFormat(g, gs);
    hide Line, Fields, Decimal, Ntoa;
    assert Fields([]) == "" by { NoFields(); }
  }

  lemma NoFields()
    ensures Fields([]) == ""
  {
  }

  lemma TierLineFormat(tier: int, gs: seq<Group>)
    ensures Line(TierLine(tier, gs)) == "C " + Decimal(tier) + ": " + Fields(gs) + "\n"
  {
    hide Fields, Decimal;
  }

  lemma FieldFormat(g: Group, gs: seq<Group>)
    ensures Fields([g] + gs) == Ntoa(g.ip) + "/" + Decimal(g.n) + " " + Fields(gs)
  {
    assert ([g] + gs)[1..] == gs;
    hide Decimal, Ntoa;
  }

  function Render(items: seq<Item>): string {
    if items == [] then "" else Line(items[0]) + Render(items[1..])
  }

  lemma {:induction false} RenderJoin(x: seq<Item>, y: seq<Item>)
    ensures Render(x + y) == Render(x) + Render(y)
  {
    if x == [] {
      assert x + y == y;
    } else {
      assert (x + y)[1..] == x[1..] + y;
      RenderJoin(x[1..], y);
    }
  }

  lemma {:induction false} FieldsJoin(x: seq<Group>, g: Group)
    ensures Fields(x + [g]) == Fields(x) + Field(g)
  {
    if x == [] {
      assert (x + [g])[1..] == [] && Fields([]) == "";
    } else {
      assert (x + [g])[1..] == x[1..] + [g];
      FieldsJoin(x[1..], g);
    }
  }

  /** The lines of some hosts, in order. */
  ghost function HostsText(s: SubDb, ips: set<Ip>): string
    requires ips <= s.hosts.Keys
  {
    IpsOrdered();
    Render(HostLines(s.hosts, Listing(ips, IpLess)))
  }

  /** The lines of some tiers, in order. */
  ghost function TiersText(s: SubDb, tiers: set<int>): string {
    TiersOrdered();
    Render(TierLines(s, Listing(tiers, Higher)))
  }

  lemma NextHostLine(s: SubDb, ip: Ip, todo: set<Ip>)
    requires Total(IpLess) && IsFirst(ip, todo, IpLess) && todo <= s.hosts.Keys
    ensures HostsText(s, todo) == Line(HostLine(ip, s.hosts[ip].state)) + HostsText(s, todo - {ip})
  {
    ListingFrom(ip, todo, IpLess);
    hide Line, Total;
    var more := Listing(todo - {ip}, IpLess);
    assert HostLines(s.hosts, [ip] + more)[1..] == HostLines(s.hosts, more);
  }

  lemma NextTierLine(s: SubDb, tier: int, todo: set<int>)
    requires Total(Higher) && IsFirst(tier, todo, Higher)
    ensures TiersText(s, todo)
         == (if ListOf(s, tier) == [] then "" else Line(TierLineOf(tier, ListOf(s, tier))))
          + TiersText(s, todo - {tier})
  {
    ListingFrom(tier, todo, Higher);
    hide Line, Total, TierLineOf, ListOf;
    assert ([tier] + Listing(todo - {tier}, Higher))[1..] == Listing(todo - {tier}, Higher);
  }

  lemma RenderParts(s: SubDb)
    ensures Render(ReportOf(s)) == Line(Section(s.dprop)) + HostsText(s, s.hosts.Keys) + TiersText(s, s.tiers.Keys)
  {
    IpsOrdered();
    TiersOrdered();
    var section, hosts := [Section(s.dprop)], HostLines(s.hosts, Listing(s.hosts.Keys, IpLess));
    var lines := TierLines(s, Listing(s.tiers.Keys, Higher));
    assert ReportOf(s) == section + hosts + lines;
    assert Render(section) == Line(Section(s.dprop)) by {
      assert section[1..] == [] && Render([]) == "";
    }
    hide *;
    RenderJoin(section + hosts, lines);
    RenderJoin(section, hosts);
  }

  /** The "address/count" fields of a line. */
  method WriteFields(runs: seq<Group>) returns (text: string)
    ensures text == Fields(runs)
  {
    hide Field;
    text := "";
    for i := 0 to |runs|
      invariant text == Fields(runs[..i])
    {
      assert runs[..i + 1] == runs[..i] + [runs[i]];
      FieldsJoin(runs[..i], runs[i]);
      text := text + Field(runs[i]);
    }
    assert runs[..|runs|] == runs;
  }

  method WriteTier(tier: int, l: seq<Ip>) returns (text: string)
    ensures text == Line(TierLineOf(tier, l))
  {
    hide Decimal, Sort;
    var runs := CountRuns(Sort(l, IpLess));
    var fields := WriteFields(runs);
    text := "C " + (Decimal(tier) + (": " + (fields + "\n")));
  }

  lemma NoLines(s: SubDb)
    ensures HostsText(s, {}) == "" && TiersText(s, {}) == ""
  {
    assert HostLines(s.hosts, []) == [];
  }

  /** The sections of some dprops, in order. */
  ghost function SectionsText(subs: map<Dprop, SubDb>, dprops: set<Dprop>): string
    requires dprops <= subs.Keys
  {
    DpropsOrdered();
    Render(Sections(subs, Listing(dprops, Precedes)))
  }

  lemma NextSection(subs: map<Dprop, SubDb>, d: Dprop, todo: set<Dprop>)
    requires Total(Precedes) && IsFirst(d, todo, Precedes) && todo <= subs.Keys
    ensures SectionsText(subs, todo) == Render(ReportOf(subs[d])) + SectionsText(subs, todo - {d})
  {
    ListingFrom(d, todo, Precedes);
    hide Render, ReportOf, Total;
    var more := Listing(todo - {d}, Precedes);
    assert ([d] + more)[1..] == more;
    RenderJoin(ReportOf(subs[d]), Sections(subs, more));
  }

  lemma WholeText(subs: map<Dprop, SubDb>)
    ensures SectionsText(subs, subs.Keys) == Render(FullReport(subs))
  {
    hide Render, Sections, Listing, Total;
  }

  lemma NoSections(subs: map<Dprop, SubDb>)
    ensures SectionsText(subs, {}) == ""
  {
    DpropsOrdered();
    assert Listing({}, Precedes) == [];
  }
}
