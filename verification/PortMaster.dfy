/**
 The PortMaster's table of server names: a doubly linked list relinked in place, which to
 its clients is a map from names to ports.
 */
module PortMaster {
  import opened Types

  /** A registered server; `sharehost` is given by servers on another machine. */
  datatype Entry = Entry(sktname: string, sharehost: Option<string>, port: int)

  // ------------------------------------------------------------------ the table as a sequence

  function Find(t: seq<Entry>, name: string): (k: nat)
    ensures k <= |t|
    ensures forall i :: 0 <= i < k ==> t[i].sktname != name
    ensures k < |t| ==> t[k].sktname == name
  {
    if t == [] || t[0].sktname == name then 0 else 1 + Find(t[1..], name)
  }

  function FindPort(t: seq<Entry>, port: int): (k: nat)
    ensures k <= |t|
    ensures forall i :: 0 <= i < k ==> t[i].port != port
    ensures k < |t| ==> t[k].port == port
  {
    if t == [] || t[0].port == port then 0 else 1 + FindPort(t[1..], port)
  }

  function Dropped(t: seq<Entry>, k: nat): seq<Entry> {
    if k < |t| then t[..k] + t[k + 1..] else t
  }

  /** What reaches the PortMaster and is carried out. */
  datatype Op =
    | Register(entry: Entry)
    | ClosePort(port: int)
    | RemoveServer(name: string)

  function Apply(t: seq<Entry>, op: Op): seq<Entry> {
    match op
    case Register(e) => if Find(t, e.sktname) < |t| then t else t + [e]
    case ClosePort(port) => Dropped(t, FindPort(t, port))
    case RemoveServer(name) => Dropped(t, Find(t, name))
  }

  function Lookup(t: seq<Entry>, name: string): Option<Entry> {
    var k := Find(t, name);
    if k < |t| then Some(t[k]) else None
  }

  function Table(ops: seq<Op>): seq<Entry> {
    if ops == [] then [] else Apply(Table(ops[..|ops| - 1]), ops[|ops| - 1])
  }

  predicate Distinct(t: seq<Entry>) {
    forall i, j :: 0 <= i < j < |t| ==> t[i].sktname != t[j].sktname
  }

  // ---------------------------------------------------------------------- the table as a map

  /** A registration and the moment it was made. */
  datatype Registration = Registration(entry: Entry, time: nat)

  predicate OldestOn(m: map<string, Registration>, name: string, port: int) {
    && name in m && m[name].entry.port == port
    && forall n :: n in m && m[n].entry.port == port ==> m[name].time <= m[n].time
  }

  /** The directory that clients expect: a name keeps its first registration until it is
      removed, and closing a port removes the oldest registration on that port. */
  ghost function Enter(m: map<string, Registration>, op: Op, time: nat): map<string, Registration> {
    match op
    case Register(e) => if e.sktname in m then m else m[e.sktname := Registration(e, time)]
    case ClosePort(port) => map n | n in m && !OldestOn(m, n, port) :: m[n]
    case RemoveServer(name) => m - {name}
  }

  ghost function Directory(ops: seq<Op>): map<string, Registration> {
    if ops == [] then map[] else Enter(Directory(ops[..|ops| - 1]), ops[|ops| - 1], |ops|)
  }

  ghost predicate Listed(t: seq<Entry>, name: string) {
    exists i :: 0 <= i < |t| && t[i].sktname == name
  }

  /** The sequence lists exactly the directory's registrations, oldest first. */
  ghost predicate Agrees(t: seq<Entry>, m: map<string, Registration>) {
    && (forall i :: 0 <= i < |t| ==> Recorded(t[i], m))
    && (forall n :: n in m ==> Listed(t, n))
    && (forall i, j :: 0 <= i < j < |t| ==> Older(t[i], t[j], m))
  }

  predicate Recorded(e: Entry, m: map<string, Registration>) {
    e.sktname in m && m[e.sktname].entry == e
  }

  predicate Older(a: Entry, b: Entry, m: map<string, Registration>) {
    a.sktname in m && b.sktname in m && m[a.sktname].time < m[b.sktname].time
  }

  lemma Registered(t: seq<Entry>, m: map<string, Registration>, e: Entry, time: nat)
    requires Agrees(t, m) && e.sktname !in m
    requires forall n :: n in m ==> m[n].time < time
    ensures Agrees(t + [e], m[e.sktname := Registration(e, time)])
  {
    var t', m' := t + [e], m[e.sktname := Registration(e, time)];
    forall n | n in m' ensures Listed(t', n) {
      var i: nat := |t|;
      if n in m { i :| 0 <= i < |t| && t[i].sktname == n; }
      assert t'[i].sktname == n;
    }
  }

  lemma Removed(t: seq<Entry>, m: map<string, Registration>, k: nat)
    requires Agrees(t, m) && k < |t|
    ensures Agrees(Dropped(t, k), m - {t[k].sktname})
  {
    var t', m' := Dropped(t, k), m - {t[k].sktname};
    RemovedEntries(t, k);
    forall n | n in m' ensures Listed(t', n) {
      var i :| 0 <= i < |t| && t[i].sktname == n;
      var j := if i < k then i else i - 1;
      assert t'[j] == t[i];
    }
    hide Dropped, Listed;
    forall i | 0 <= i < |t'| ensures Recorded(t'[i], m') {
      var a := Index(i, k);
      assert Recorded(t[a], m) && (if a < k then Older(t[a], t[k], m) else Older(t[k], t[a], m));
    }
    forall i, j | 0 <= i < j < |t'| ensures Older(t'[i], t'[j], m') {
      assert Older(t[Index(i, k)], t[Index(j, k)], m);
      assert Recorded(t'[i], m') && Recorded(t'[j], m');
    }
  }

  function Index(i: nat, k: nat): nat {
    if i < k then i else i + 1
  }

  lemma RemovedEntries(t: seq<Entry>, k: nat)
    requires k < |t|
    ensures var t' := Dropped(t, k);
      && |t'| == |t| - 1
      && (forall i :: 0 <= i < |t'| ==> t'[i] == t[Index(i, k)])
  {
  }

  /** The first entry on a port is the oldest registration on it. */
  lemma FirstIsOldest(t: seq<Entry>, m: map<string, Registration>, port: int, n: string)
    requires Agrees(t, m)
    ensures var k := FindPort(t, port);
      OldestOn(m, n, port) <==> k < |t| && n == t[k].sktname
  {
    var k := FindPort(t, port);
    hide FindPort;
    if n in m && m[n].entry.port == port {
      var i :| 0 <= i < |t| && t[i].sktname == n;
      assert Recorded(t[i], m) && Recorded(t[k], m) && (k < i ==> Older(t[k], t[i], m));
    }
    if k < |t| {
      assert Recorded(t[k], m);
      forall x | x in m && m[x].entry.port == port ensures m[t[k].sktname].time <= m[x].time {
        var i :| 0 <= i < |t| && t[i].sktname == x;
        assert Recorded(t[i], m) && (k < i ==> Older(t[k], t[i], m));
      }
    }
  }

  lemma {:induction false} TableAgrees(ops: seq<Op>)
    ensures Agrees(Table(ops), Directory(ops))
    ensures forall n :: n in Directory(ops) ==> Directory(ops)[n].time <= |ops|
  {
    if ops != [] {
      hide Agrees, OldestOn;
      var init, op := ops[..|ops| - 1], ops[|ops| - 1];
      TableAgrees(init);
      StepAgrees(Table(init), Directory(init), op, |ops|);
    }
  }

  lemma StepAgrees(t: seq<Entry>, m: map<string, Registration>, op: Op, time: nat)
    requires Agrees(t, m) && forall n :: n in m ==> m[n].time < time
    ensures Agrees(Apply(t, op), Enter(m, op, time))
  {
    match op {
      case Register(e) =>
        ListedIffIn(t, m, e.sktname);
        hide Agrees;
        if e.sktname !in m { Registered(t, m, e, time); }
      case ClosePort(port) =>
        var k := FindPort(t, port);
        forall n ensures OldestOn(m, n, port) <==> k < |t| && n == t[k].sktname {
          FirstIsOldest(t, m, port, n);
        }
        assert Enter(m, op, time) == if k < |t| then m - {t[k].sktname} else m;
        hide Agrees;
        if k < |t| { Removed(t, m, k); }
      case RemoveServer(name) =>
        ListedIffIn(t, m, name);
        hide Agrees;
        if name in m { Removed(t, m, Find(t, name)); } else { assert m - {name} == m; }
    }
  }

  lemma ListedIffIn(t: seq<Entry>, m: map<string, Registration>, n: string)
    requires Agrees(t, m)
    ensures Find(t, n) < |t| <==> n in m
    ensures n in m ==> t[Find(t, n)] == m[n].entry
  {
    if n in m {
      var i :| 0 <= i < |t| && t[i].sktname == n;
    }
    if Find(t, n) < |t| {
      assert Recorded(t[Find(t, n)], m);
    }
  }

  /** Over every sequence of operations, a lookup finds exactly what was registered under the
      name since its last removal. */
  lemma LookupIsDirectory(ops: seq<Op>, name: string)
    ensures Lookup(Table(ops), name)
         == if name in Directory(ops) then Some(Directory(ops)[name].entry) else None
  {
    TableAgrees(ops);
    ListedIffIn(Table(ops), Directory(ops), name);
  }

  /** No two entries ever have the same name. */
  lemma NamesDistinct(ops: seq<Op>)
    ensures Distinct(Table(ops))
  {
    TableAgrees(ops);
    var t := Table(ops);
    forall i, j | 0 <= i < j < |t| ensures t[i].sktname != t[j].sktname {
      assert Older(t[i], t[j], Directory(ops));
    }
  }

  /** What single operations do to the lookups of all names. */
  lemma OperationLaws(t: seq<Entry>, e: Entry, name: string, port: int, other: string)
    requires Distinct(t)
    ensures var first := Lookup(t, e.sktname);
      Lookup(Apply(t, Register(e)), e.sktname) == Some(if first.Some? then first.value else e)
    ensures other != e.sktname ==> Lookup(Apply(t, Register(e)), other) == Lookup(t, other)
    ensures Lookup(Apply(t, RemoveServer(name)), name) == None
    ensures other != name ==> Lookup(Apply(t, RemoveServer(name)), other) == Lookup(t, other)
    ensures var k := FindPort(t, port);
      Lookup(Apply(t, ClosePort(port)), other) == if k < |t| && t[k].sktname == other then None else Lookup(t, other)
  {
    RegisterLaw(t, e, other);
    DroppedLaw(t, Find(t, name), other);
    DroppedLaw(t, Find(t, name), name);
    DroppedLaw(t, FindPort(t, port), other);
    hide Find, FindPort;
  }

  lemma FoundAt(t: seq<Entry>, k: nat)
    requires Distinct(t) && k < |t|
    ensures Find(t, t[k].sktname) == k
  {
    FindIs(t, t[k].sktname, k);
  }

  lemma RegisterLaw(t: seq<Entry>, e: Entry, other: string)
    ensures Find(t, e.sktname) == |t| ==> Lookup(t + [e], e.sktname) == Some(e)
    ensures other != e.sktname ==> Lookup(t + [e], other) == Lookup(t, other)
  {
    var k, j := Find(t, other), Find(t, e.sktname);
    if j == |t| {
      FindIs(t + [e], e.sktname, |t|);
    }
    if other != e.sktname {
      FindIs(t + [e], other, if k == |t| then |t| + 1 else k);
    }
    hide Find;
  }

  lemma DroppedLaw(t: seq<Entry>, k: nat, other: string)
    requires Distinct(t)
    ensures Lookup(Dropped(t, k), other) == if k < |t| && t[k].sktname == other then None else Lookup(t, other)
  {
    if k < |t| {
      var t', j := Dropped(t, k), Find(t, other);
      RemovedEntries(t, k);
      hide Find;
      if j == k || j == |t| {
        FindIs(t', other, |t'|);
      } else {
        FindIs(t', other, if j < k then j else j - 1);
      }
    }
  }

  // ============================================================================ the linked list

  class PortTable {
    const entry: Entry
    var nxt: PortTable?
    var prv: PortTable?

    constructor (entry: Entry)
      ensures this.entry == entry && nxt == null && prv == null
    {
      this.entry := entry;
      nxt, prv := null, null;
    }
  }

  /** What a client is told; Aborted is a jump back to the accept loop after a timeout. */
  datatype Reply = Ok | Sorry | Found(entry: Entry) | Aborted

  function NodeAt(ns: seq<PortTable>, i: int): PortTable? {
    if 0 <= i < |ns| then ns[i] else null
  }

  function EntriesOf(ns: seq<PortTable>): seq<Entry> {
    seq(|ns|, i requires 0 <= i < |ns| => ns[i].entry)
  }

  ghost predicate AllDifferent(ns: seq<PortTable>) {
    forall i, j :: 0 <= i < j < |ns| ==> ns[i] != ns[j]
  }

  /** The nodes are pairwise different and each points to its neighbours. */
  ghost predicate Linked(ns: seq<PortTable>)
    reads ns
  {
    && AllDifferent(ns)
    && (forall i {:trigger ns[i].prv} :: 0 <= i < |ns| ==> ns[i].prv == NodeAt(ns, i - 1))
    && (forall i {:trigger ns[i].nxt} :: 0 <= i < |ns| ==> ns[i].nxt == NodeAt(ns, i + 1))
  }

  function Skip(i: int, k: int, step: int): int {
    if i + step == k then k + step else i + step
  }

  lemma NoOther(ns: seq<PortTable>, j: int)
    requires AllDifferent(ns)
    ensures forall i :: 0 <= i < |ns| ==> (NodeAt(ns, j) == ns[i] <==> i == j)
  {
  }

  lemma OneMoreDifferent(ns: seq<PortTable>, p: PortTable)
    requires AllDifferent(ns) && p !in ns
    ensures AllDifferent(ns + [p])
  {
  }

  lemma StillDifferent(ns: seq<PortTable>, k: nat)
    requires k < |ns| && AllDifferent(ns)
    ensures AllDifferent(ns[..k] + ns[k + 1..])
  {
    var ms := ns[..k] + ns[k + 1..];
    forall i, j | 0 <= i < j < |ms| ensures ms[i] != ms[j] {
      assert ns[Index(i, k)] != ns[Index(j, k)];
    }
  }

  /** If every node but the k-th points past the k-th, the others are linked without it. */
  lemma Relinked(ns: seq<PortTable>, k: nat)
    requires k < |ns| && AllDifferent(ns)
    requires forall i {:trigger ns[i].prv} :: 0 <= i < |ns| && i != k ==> ns[i].prv == NodeAt(ns, Skip(i, k, -1))
    requires forall i {:trigger ns[i].nxt} :: 0 <= i < |ns| && i != k ==> ns[i].nxt == NodeAt(ns, Skip(i, k, 1))
    ensures Linked(ns[..k] + ns[k + 1..])
  {
    var ms := ns[..k] + ns[k + 1..];
    StillDifferent(ns, k);
    hide AllDifferent;
    forall i | 0 <= i < |ms|
      ensures ms[i].prv == NodeAt(ms, i - 1) && ms[i].nxt == NodeAt(ms, i + 1)
    {
      var j := Index(i, k);
      assert ms[i] == ns[j] && j != k;
    }
  }

  lemma EntriesWithout(ns: seq<PortTable>, k: nat)
    requires k < |ns|
    ensures EntriesOf(ns[..k] + ns[k + 1..]) == Dropped(EntriesOf(ns), k)
  {
  }

  lemma FindIs(t: seq<Entry>, name: string, k: nat)
    requires k <= |t| && forall i :: 0 <= i < k ==> t[i].sktname != name
    requires k < |t| ==> t[k].sktname == name
    ensures Find(t, name) == k
  {
  }

  lemma FindPortIs(t: seq<Entry>, port: int, k: nat)
    requires k <= |t| && forall i :: 0 <= i < k ==> t[i].port != port
    requires k < |t| ==> t[k].port == port
    ensures FindPort(t, port) == k
  {
  }

  class Spm {
    var phd: PortTable?
    var ptl: PortTable?
    ghost var nodes: seq<PortTable>

    ghost function At(i: int): PortTable?
      reads this
    {
      NodeAt(nodes, i)
    }

    ghost predicate Valid()
      reads this, nodes
    {
      Linked(nodes) && phd == At(0) && ptl == At(|nodes| - 1)
    }

    ghost function Entries(): seq<Entry>
      reads this
    {
      EntriesOf(nodes)
    }

    constructor ()
      ensures Valid() && nodes == [] && Entries() == []
    {
      phd, ptl, nodes := null, null, [];
    }

    method MakePortTable(e: Entry) returns (p: PortTable)
      requires Valid()
      modifies this, nodes
      ensures Valid() && fresh(p) && nodes == old(nodes) + [p] && p.entry == e
      ensures Entries() == old(Entries()) + [e]
    {
      p := new PortTable(e);
      OneMoreDifferent(nodes, p);
      hide AllDifferent;
      if ptl != null {
        ptl.nxt := p;
      } else {
        phd := p;
      }
      p.nxt := null;
      p.prv := ptl;
      ptl := p;
      nodes := nodes + [p];
    }

    method DelPortTable(p: PortTable, ghost k: nat)
      requires Valid() && k < |nodes| && nodes[k] == p
      modifies this, nodes
      ensures Valid() && nodes == old(nodes)[..k] + old(nodes)[k + 1..]
      ensures Entries() == Dropped(old(Entries()), k)
    {
      ghost var ns := nodes;
      UnlinkAt(p, k);
      Relinked(ns, k);
      EntriesWithout(ns, k);
      hide Linked, AllDifferent, EntriesOf, Dropped;
      nodes := ns[..k] + ns[k + 1..];
    }

    method UnlinkAt(p: PortTable, ghost k: nat)
      requires Valid() && k < |nodes| && nodes[k] == p
      modifies this`phd, this`ptl, nodes
      ensures phd == NodeAt(nodes, if k == 0 then 1 else 0)
      ensures ptl == NodeAt(nodes, if k == |nodes| - 1 then |nodes| - 2 else |nodes| - 1)
      ensures forall i {:trigger nodes[i].prv} :: 0 <= i < |nodes| && i != k ==>
        nodes[i].prv == NodeAt(nodes, Skip(i, k, -1))
      ensures forall i {:trigger nodes[i].nxt} :: 0 <= i < |nodes| && i != k ==>
        nodes[i].nxt == NodeAt(nodes, Skip(i, k, 1))
    {
      assert p.prv == NodeAt(nodes, k - 1) && p.nxt == NodeAt(nodes, k + 1);
      NoOther(nodes, k - 1);
      NoOther(nodes, k + 1);
      hide AllDifferent;
      BypassForward(p, k);
      BypassBackward(p, k);
    }

    /** What comes before the node now points past it. */
    method BypassForward(p: PortTable, ghost k: nat)
      requires k < |nodes| && nodes[k] == p && p.prv == At(k - 1) && p.nxt == At(k + 1) && phd == At(0)
      requires forall i {:trigger nodes[i].nxt} :: 0 <= i < |nodes| ==> nodes[i].nxt == NodeAt(nodes, i + 1)
      requires forall i :: 0 <= i < |nodes| ==> (At(k - 1) == nodes[i] <==> i == k - 1)
      modifies this`phd, nodes`nxt
      ensures phd == NodeAt(nodes, if k == 0 then 1 else 0) && p.nxt == old(p.nxt)
      ensures forall i {:trigger nodes[i].nxt} :: 0 <= i < |nodes| && i != k ==>
        nodes[i].nxt == NodeAt(nodes, Skip(i, k, 1))
    {
      if p.prv != null {
        p.prv.nxt := p.nxt;
      } else {
        phd := p.nxt;
      }
    }

    /** What comes after the node now points past it. */
    method BypassBackward(p: PortTable, ghost k: nat)
      requires k < |nodes| && nodes[k] == p && p.prv == At(k - 1) && p.nxt == At(k + 1) && ptl == At(|nodes| - 1)
      requires forall i {:trigger nodes[i].prv} :: 0 <= i < |nodes| ==> nodes[i].prv == NodeAt(nodes, i - 1)
      requires forall i :: 0 <= i < |nodes| ==> (At(k + 1) == nodes[i] <==> i == k + 1)
      modifies this`ptl, nodes`prv
      ensures ptl == NodeAt(nodes, if k == |nodes| - 1 then |nodes| - 2 else |nodes| - 1)
      ensures forall i {:trigger nodes[i].prv} :: 0 <= i < |nodes| && i != k ==>
        nodes[i].prv == NodeAt(nodes, Skip(i, k, -1))
    {
      if p.nxt != null {
        p.nxt.prv := p.prv;
      } else {
        ptl := p.prv;
      }
    }

    /** The search loop of the handlers: from the head to the first entry with this name. */
    method FindByName(name: string) returns (p: PortTable?, ghost k: nat)
      requires Valid()
      ensures p == At(Find(Entries(), name)) && k == Find(Entries(), name)
    {
      p, k := phd, 0;
      while p != null
        invariant k <= |nodes| && p == At(k)
        invariant forall i :: 0 <= i < k ==> nodes[i].entry.sktname != name
        decreases |nodes| - k
      {
        if p.entry.sktname == name {
          FindIs(Entries(), name, k);
          return;
        }
        p, k := p.nxt, k + 1;
      }
      FindIs(Entries(), name, k);
    }

    method FindByPort(port: int) returns (p: PortTable?, ghost k: nat)
      requires Valid()
      ensures p == At(FindPort(Entries(), port)) && k == FindPort(Entries(), port)
    {
      p, k := phd, 0;
      while p != null
        invariant k <= |nodes| && p == At(k)
        invariant forall i :: 0 <= i < k ==> nodes[i].entry.port != port
        decreases |nodes| - k
      {
        if p.entry.port == port {
          FindPortIs(Entries(), port, k);
          return;
        }
        p, k := p.nxt, k + 1;
      }
      FindPortIs(Entries(), port, k);
    }

    /** A server announces itself.  Each input may fail to arrive in time, which aborts the
        handler; after the entry is made an abort no longer undoes it. */
    method PmServer(share: bool, host: Option<string>, name: Option<string>, port: Option<int>, acknowledged: bool)
      returns (r: Reply)
      requires Valid()
      modifies this, nodes
      ensures Valid() && fresh(Nodes(nodes) - old(Nodes(nodes)))
      ensures var arrived := (share ==> host.Some?) && name.Some?;
        var known := arrived && Find(old(Entries()), name.value) < |old(Entries())|;
        && (r == Sorry <==> known)
        && Entries() == (if arrived && port.Some? && !known
                         then Apply(old(Entries()),
                                    Register(Entry(name.value, if share then host else None, port.value)))
                         else old(Entries()))
        && (r == Ok <==> arrived && port.Some? && !known && acknowledged)
        && (r == Ok || r == Sorry || r == Aborted)
    {
      if share && host == None {
        return Aborted;
      }
      if name == None {
        return Aborted;
      }
      var p, k := FindByName(name.value);
      if p != null {
        return Sorry;
      }
      if port == None {
        return Aborted;
      }
      p := MakePortTable(Entry(name.value, if share then host else None, port.value));
      r := if acknowledged then Ok else Aborted;
    }

    /** A client asks for a server's port. */
    method PmClient(name: Option<string>) returns (r: Reply)
      requires Valid()
      ensures match name
              case None => r == Aborted
              case Some(n) => r == match Lookup(Entries(), n) { case Some(e) => Found(e) case None => Sorry }
    {
      if name == None {
        return Aborted;
      }
      var p, k := FindByName(name.value);
      r := if p != null then Found(p.entry) else Sorry;
    }

    /** A server on a port closes. */
    method PmClose(port: Option<int>) returns (r: Reply)
      requires Valid()
      modifies this, nodes
      ensures Valid() && Nodes(nodes) <= old(Nodes(nodes))
      ensures match port {
                case None => r == Aborted && Entries() == old(Entries())
                case Some(n) =>
                  && Entries() == Apply(old(Entries()), ClosePort(n))
                  && r == if FindPort(old(Entries()), n) < |old(Entries())| then Ok else Sorry
              }
    {
      if port == None {
        return Aborted;
      }
      var p, k := FindByPort(port.value);
      if p == null {
        return Sorry;
      }
      DelPortTable(p, k);
      r := Ok;
    }

    /** A server is removed by name. */
    method PmRmserver(name: Option<string>) returns (r: Reply)
      requires Valid()
      modifies this, nodes
      ensures Valid() && Nodes(nodes) <= old(Nodes(nodes))
      ensures match name {
                case None => r == Aborted && Entries() == old(Entries())
                case Some(n) =>
                  && Entries() == Apply(old(Entries()), RemoveServer(n))
                  && r == if Find(old(Entries()), n) < |old(Entries())| then Ok else Sorry
              }
    {
      if name == None {
        return Aborted;
      }
      var p, k := FindByName(name.value);
      if p == null {
        return Sorry;
      }
      DelPortTable(p, k);
      r := Ok;
    }

    /** One turn of the accept loop. */
    method Serve(c: Call) returns (r: Reply)
      requires Valid()
      modifies this, nodes
      ensures Valid() && fresh(Nodes(nodes) - old(Nodes(nodes)))
      ensures Entries() == if Performed(c).Some? then Apply(old(Entries()), Performed(c).value) else old(Entries())
      ensures r == ReplyTo(old(Entries()), c)
    {
      hide Linked, Find, FindPort;
      match c
      case ServerUp(share, host, name, port, acknowledged) => r := PmServer(share, host, name, port, acknowledged);
      case Ask(name) => r := PmClient(name);
      case PortClosed(port) => r := PmClose(port);
      case Remove(name) => r := PmRmserver(name);
    }
  }

  function Nodes(ns: seq<PortTable>): set<PortTable> {
    set p | p in ns
  }

  /** What reaches the accept loop; an input that is None did not arrive in time. */
  datatype Call =
    | ServerUp(share: bool, host: Option<string>, name: Option<string>, port: Option<int>, acknowledged: bool)
    | Ask(name: Option<string>)
    | PortClosed(port: Option<int>)
    | Remove(name: Option<string>)

  /** The operation a call amounts to, if it is not aborted before it takes effect. */
  function Performed(c: Call): Option<Op> {
    match c
    case ServerUp(share, host, name, port, _) =>
      if (share ==> host.Some?) && name.Some? && port.Some?
      then Some(Register(Entry(name.value, if share then host else None, port.value))) else None
    case Ask(_) => None
    case PortClosed(port) => if port.Some? then Some(ClosePort(port.value)) else None
    case Remove(name) => if name.Some? then Some(RemoveServer(name.value)) else None
  }

  /** The operations that a sequence of calls carries out. */
  function Ops(calls: seq<Call>): seq<Op> {
    if calls == [] then []
    else
      var before := Ops(calls[..|calls| - 1]);
      match Performed(calls[|calls| - 1])
      case None => before
      case Some(op) => before + [op]
  }

  /** What a call is told when the table is `t`. */
  function ReplyTo(t: seq<Entry>, c: Call): Reply {
    match c
    case ServerUp(share, host, name, port, acknowledged) =>
      if (share && host == None) || name == None then Aborted
      else if Find(t, name.value) < |t| then Sorry
      else if port == None || !acknowledged then Aborted
      else Ok
    case Ask(name) =>
      if name == None then Aborted
      else (match Lookup(t, name.value) case Some(e) => Found(e) case None => Sorry)
    case PortClosed(port) =>
      if port == None then Aborted else if FindPort(t, port.value) < |t| then Ok else Sorry
    case Remove(name) =>
      if name == None then Aborted else if Find(t, name.value) < |t| then Ok else Sorry
  }

  /** What a call is told according to the directory. */
  ghost function Answer(m: map<string, Registration>, c: Call): Reply {
    match c
    case ServerUp(share, host, name, port, acknowledged) =>
      if (share && host == None) || name == None then Aborted
      else if name.value in m then Sorry
      else if port == None || !acknowledged then Aborted
      else Ok
    case Ask(name) =>
      if name == None then Aborted else if name.value in m then Found(m[name.value].entry) else Sorry
    case PortClosed(port) =>
      if port == None then Aborted
      else if exists n :: n in m && m[n].entry.port == port.value then Ok else Sorry
    case Remove(name) =>
      if name == None then Aborted else if name.value in m then Ok else Sorry
  }

  lemma PortListed(t: seq<Entry>, m: map<string, Registration>, port: int)
    requires Agrees(t, m)
    ensures FindPort(t, port) < |t| <==> exists n :: n in m && m[n].entry.port == port
  {
    var k := FindPort(t, port);
    if k < |t| {
      assert Recorded(t[k], m);
    }
    if n :| n in m && m[n].entry.port == port {
      var i :| 0 <= i < |t| && t[i].sktname == n;
      assert Recorded(t[i], m);
    }
  }

  /** Clients cannot tell the table from the directory. */
  lemma AnswersAgree(ops: seq<Op>, c: Call)
    ensures ReplyTo(Table(ops), c) == Answer(Directory(ops), c)
  {
    TableAgrees(ops);
    var t, m := Table(ops), Directory(ops);
    hide Table, Directory, Find, FindPort, Agrees;
    match c {
      case ServerUp(_, _, name, _, _) => if name.Some? { ListedIffIn(t, m, name.value); }
      case Ask(name) => if name.Some? { ListedIffIn(t, m, name.value); }
      case PortClosed(port) => if port.Some? { PortListed(t, m, port.value); }
      case Remove(name) => if name.Some? { ListedIffIn(t, m, name.value); }
    }
  }

  lemma NextCall(calls: seq<Call>, k: nat)
    requires k < |calls|
    ensures Table(Ops(calls[..k + 1])) ==
      match Performed(calls[k])
      case None => Table(Ops(calls[..k]))
      case Some(op) => Apply(Table(Ops(calls[..k])), op)
  {
    hide Apply;
    assert calls[..k + 1][..k] == calls[..k];
    if Performed(calls[k]).Some? {
      assert (Ops(calls[..k]) + [Performed(calls[k]).value])[..|Ops(calls[..k])|] == Ops(calls[..k]);
    }
  }

  /** Whatever calls arrive, aborted or not, every one is answered from the directory that the
      operations before it make up. */
  method Run(calls: seq<Call>) returns (spm: Spm, replies: seq<Reply>)
    ensures fresh(spm) && spm.Valid() && spm.Entries() == Table(Ops(calls))
    ensures |replies| == |calls|
    ensures forall i :: 0 <= i < |calls| ==> replies[i] == Answer(Directory(Ops(calls[..i])), calls[i])
  {
    hide Apply, Table, Directory, Answer, ReplyTo, Linked, Performed, Ops, EntriesOf;
    spm := new Spm();
    replies := [];
    assert spm.Entries() == Table(Ops(calls[..0])) by { NoCalls(calls); }
    for k := 0 to |calls|
      invariant fresh(spm) && fresh(Nodes(spm.nodes)) && spm.Valid()
      invariant spm.Entries() == Table(Ops(calls[..k])) && |replies| == k
      invariant forall i :: 0 <= i < k ==> replies[i] == Answer(Directory(Ops(calls[..i])), calls[i])
    {
      assert forall i :: 0 <= i < |spm.nodes| ==> spm.nodes[i] in Nodes(spm.nodes);
      var r := spm.Serve(calls[k]);
      NextCall(calls, k);
      AnswersAgree(Ops(calls[..k]), calls[k]);
      replies := replies + [r];
    }
    assert calls[..|calls|] == calls;
  }

  lemma NoCalls(calls: seq<Call>)
    ensures Table(Ops(calls[..0])) == []
  {
  }
}
