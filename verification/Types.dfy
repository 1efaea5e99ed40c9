/** The values every part of the allocation server speaks about. */
module Types {

  type Octet = x: nat | x < 256

  /** A host address: the four bytes of the 32-bit `s_addr` that the server uses as a key,
      in memory order, which is the order in which dotted notation shows them. */
  datatype Ip = Ip(a: Octet, b: Octet, c: Octet, d: Octet)

  /** 0.0.0.0, the address that tells a client that no cpu is free. */
  const NO_HOST := Ip(0, 0, 0, 0)

  /** A distinguishing property: hosts with different dprops never mix. */
  type Dprop = string

  /** A host always has at least one cpu. */
  type Positive = x: nat | 0 < x witness 1

  /** A connection, identified by the address of its Socket object. */
  datatype Socket = Socket(handle: nat)

  datatype Option<+T> = None | Some(value: T)

  datatype HostState = Available | Unavailable | Overloaded | Silent

  /** The three load averages of a host, already divided by its cpu count. */
  datatype Loads = Loads(avg1: real, avg5: real, avg10: real)

  const NO_LOAD := Loads(0.0, 0.0, 0.0)

  /** Seconds without a load message after which a host counts as silent. */
  const SILENT_TIME := 60

  /** A sweep reads the clock once for every host it looks at: this is what it reads. */
  type Clock = (Dprop, Ip) -> int

  /** What the hosts-info file says about an address it knows. */
  datatype HostInfo = HostInfo(ncpus: Positive, pindex: int)

  /** Everything one host object stores. */
  datatype HostRec = HostRec(
    ip: Ip, dprop: Dprop, ncpus: Positive, pindex: int,
    loads: Loads, lastUpdate: int, state: HostState)
  {
    /** The power tier in which this host's free cpus belong. */
    function Tier(): int {
      CalcTier(loads, pindex)
    }

    predicate SeemsDown(now: int) {
      now - lastUpdate > SILENT_TIME
    }

    /** This host after a load message with raw averages `raw` at time `now`. */
    function Hearing(raw: Loads, now: int): HostRec {
      this.(loads := PerCpu(raw, ncpus), lastUpdate := now)
    }
  }

  /** The power tier of a host: its power index, one less under sustained load, and 0
      when it is overloaded. */
  function CalcTier(l: Loads, pindex: int): int {
    if l.avg1 < 0.9 then pindex
    else if l.avg5 < 0.7 then pindex
    else if l.avg10 < 0.8 then pindex - 1
    else 0
  }

  function PerCpu(raw: Loads, ncpus: Positive): Loads {
    Loads(raw.avg1 / ncpus as real, raw.avg5 / ncpus as real, raw.avg10 / ncpus as real)
  }

  /** A host as it is created: available, idle, and never heard from. */
  function NewHost(ip: Ip, dprop: Dprop, info: HostInfo): HostRec {
    HostRec(ip, dprop, info.ncpus, info.pindex, NO_LOAD, 0, Available)
  }
}
