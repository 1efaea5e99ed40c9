/**
 The reference machine for the hosts of one dprop.  It knows each host's record, the bag of
 cpus that may be handed out, and which connection holds which cpu; it has no tiers and no
 per-state host sets.  The database proper has to behave like this machine.
 */
module Pools {
  import opened Types

  datatype Pool = Pool(
    hosts: map<Ip, HostRec>,
    free: multiset<Ip>,
    held: map<Socket, Ip>,
    served: nat,
    peak: nat)

  const EMPTY := Pool(map[], multiset{}, map[], 0, 0)

  // -------------------------------------------------------------------- one host's life

  /** A host changes state: it brings all its cpus when it becomes available, and its free
      cpus go when it stops being so. */
  function Move(p: Pool, ip: Ip, st: HostState): Pool
    requires ip in p.hosts
  {
    var h := p.hosts[ip];
    if h.state == st then p
    else p.(hosts := p.hosts[ip := h.(state := st)],
            free := p.free[ip := if st == Available then h.ncpus else 0])
  }

  function Update(p: Pool, ip: Ip, h: HostRec): Pool {
    p.(hosts := p.hosts[ip := h])
  }

  /** The state in which a load message leaves a host: `h` before, `h'` with the new loads. */
  function AfterLoad(h: HostRec, h': HostRec): HostState {
    match h.state
    case Available => if h'.Tier() == 0 && h.Tier() != 0 then Overloaded else Available
    case Silent => Available
    case Overloaded => if h'.Tier() != 0 then Available else Overloaded
    case Unavailable => Unavailable
  }

  function HearLoad(p: Pool, ip: Ip, raw: Loads, now: int): Pool
    requires ip in p.hosts
  {
    var h := p.hosts[ip];
    var h' := h.Hearing(raw, now);
    Move(Update(p, ip, h'), ip, AfterLoad(h, h'))
  }

  /** The first half of a load message: a host that reaches tier 0 goes overloaded, and the
      new loads are stored. */
  function Retune(p: Pool, ip: Ip, raw: Loads, now: int): Pool
    requires ip in p.hosts
  {
    var h := p.hosts[ip];
    var h' := h.Hearing(raw, now);
    var goes := h.state == Available && h'.Tier() == 0 && h.Tier() != 0;
    Update(if goes then Move(p, ip, Overloaded) else p, ip, if goes then h'.(state := Overloaded) else h')
  }

  /** The second half: a host that is silent, or overloaded no longer, is made available. */
  lemma HearLoadSteps(p: Pool, ip: Ip, raw: Loads, now: int)
    requires ip in p.hosts
    ensures var q := Retune(p, ip, raw, now);
            var h := q.hosts[ip];
            HearLoad(p, ip, raw, now)
              == if h.state == Silent || (h.state == Overloaded && h.Tier() != 0) then Up(q, ip) else q
  {
  }

  function Up(p: Pool, ip: Ip): Pool
    requires ip in p.hosts
  {
    var h := p.hosts[ip];
    Move(p, ip, if h.state == Unavailable && h.Tier() == 0 then Overloaded else Available)
  }

  function Down(p: Pool, ip: Ip): Pool
    requires ip in p.hosts
  {
    Move(p, ip, Unavailable)
  }

  function Enrol(p: Pool, ip: Ip, h: HostRec): Pool {
    p.(hosts := p.hosts[ip := h], free := p.free[ip := h.ncpus])
  }

  // ------------------------------------------------------------------- the silent sweep

  /** A sweep silences the hosts that seem down, unless they are unavailable already. */
  predicate Swept(h: HostRec, clock: Clock) {
    h.SeemsDown(clock(h.dprop, h.ip)) && (h.state == Available || h.state == Overloaded)
  }

  function SweptSet(p: Pool, clock: Clock): set<Ip> {
    set ip | ip in p.hosts && Swept(p.hosts[ip], clock)
  }

  /** The bag without any of `gone`. */
  ghost function Except(m: multiset<Ip>, gone: set<Ip>): (r: multiset<Ip>)
    ensures forall x :: r[x] == if x in gone then 0 else m[x]
  {
    if x :| x in gone then Except(m[x := 0], gone - {x}) else m
  }

  /** The hosts in `gone` fall silent at once. */
  ghost function Hush(p: Pool, gone: set<Ip>): Pool {
    p.(hosts := map ip | ip in p.hosts ::
         if ip in gone then p.hosts[ip].(state := Silent) else p.hosts[ip],
       free := Except(p.free, gone))
  }

  ghost function Sweep(p: Pool, clock: Clock): Pool {
    Hush(p, SweptSet(p, clock))
  }

  /** Before any host is looked at, nobody has been silenced. */
  lemma HushNone(p: Pool, clock: Clock)
    ensures Hush(p, SweptSet(p, clock) - p.hosts.Keys) == p
  {
    assert SweptSet(p, clock) - p.hosts.Keys == {};
  }

  /** Looking at one more host silences it exactly if it has to be. */
  lemma HushStep(p: Pool, todo: set<Ip>, ip: Ip, clock: Clock)
    requires ip in todo && ip in p.hosts
    ensures var q := Hush(p, SweptSet(p, clock) - todo);
            && q.hosts[ip] == p.hosts[ip]
            && Hush(p, SweptSet(p, clock) - (todo - {ip}))
               == if Swept(p.hosts[ip], clock) then Move(q, ip, Silent) else q
  {
    var gone := SweptSet(p, clock) - todo;
    if Swept(p.hosts[ip], clock) {
      assert SweptSet(p, clock) - (todo - {ip}) == gone + {ip};
    } else {
      assert SweptSet(p, clock) - (todo - {ip}) == gone;
    }
  }

  // ------------------------------------------------------------------------- cpus in use

  /** `ip` may be handed out: it is free, and no free cpu is in a higher tier. */
  ghost predicate Best(p: Pool, ip: Ip) {
    && ip in p.free && ip in p.hosts
    && forall x :: x in p.free && x in p.hosts ==> p.hosts[x].Tier() <= p.hosts[ip].Tier()
  }

  function Take(p: Pool, ip: Ip): Pool {
    p.(free := p.free - multiset{ip})
  }

  function Assign(p: Pool, k: Socket, ip: Ip): Pool {
    var a := if k in p.held then p.held else p.held[k := ip];
    p.(held := a, served := p.served + 1, peak := if |a| > p.peak then |a| else p.peak)
  }

  function Release(p: Pool, k: Socket): Pool {
    if k !in p.held then p
    else
      var ip := p.held[k];
      var back := ip in p.hosts && p.hosts[ip].state == Available;
      p.(held := p.held - {k},
         free := if back then p.free + multiset{ip} else p.free)
  }

  /** What a statistics report returns; reporting starts a new collection period. */
  datatype Stats = Stats(served: nat, peak: nat, total: nat)

  function Report(p: Pool): Stats {
    Stats(p.served, p.peak, |p.free| + |p.held|)
  }

  function Restart(p: Pool): Pool {
    p.(served := 0, peak := 0)
  }
}
