/** The port allocator: finds a free TCP port by probing, one port per try, upwards
    from a base port, and gives up after a fixed number of failed probes. */
module PortAllocation {
  import opened Sockets

  /** Width of the range the random base port is drawn from. */
  const RandomPortsMaxRange := 32000
  /** Lowest random base port. */
  const DefaultBasePort := 9999
  /** Number of probes when the caller does not choose one. */
  const DefaultMaxTries := 10

  /** What `allocatePort` ends with: a port, or `PortUnavailableException`. */
  datatype Allocation = Allocated(port: int) | PortUnavailable

  /** Every port the allocator may probe can be bound explicitly: ports outside
      1..65535 make `ServerSocket` throw an unchecked exception the allocator does not handle. */
  predicate ProbeRangeValid(basePort: int, maxTries: int) {
    maxTries > 0 ==> IsUserPort(basePort) && IsUserPort(basePort + maxTries - 1)
  }

  /** The outcome of the probe loop once `tries` probes have failed: the first
      port not in `occupied` among basePort + tries .. basePort + maxTries - 1. */
  function FirstFree(occupied: set<int>, basePort: int, maxTries: int, tries: nat): (r: Allocation)
    decreases maxTries - tries
    ensures r.Allocated? ==> basePort + tries <= r.port < basePort + maxTries && r.port !in occupied
    ensures r.Allocated? ==> forall q :: basePort + tries <= q < r.port ==> q in occupied
    ensures r.PortUnavailable? <==> forall q :: basePort + tries <= q < basePort + maxTries ==> q in occupied
  {
    if tries >= maxTries then PortUnavailable
    else if basePort + tries !in occupied then Allocated(basePort + tries)
    else FirstFree(occupied, basePort, maxTries, tries + 1)
  }

  /** The ports the probe loop tries once `tries` probes have failed, in order. */
  function ProbedPorts(occupied: set<int>, basePort: int, maxTries: int, tries: nat): (probes: seq<int>)
    decreases maxTries - tries
    ensures forall i :: 0 <= i < |probes| ==> probes[i] == basePort + tries + i
    ensures FirstFree(occupied, basePort, maxTries, tries).Allocated? ==>
              |probes| == FirstFree(occupied, basePort, maxTries, tries).port - (basePort + tries) + 1
    ensures FirstFree(occupied, basePort, maxTries, tries).PortUnavailable? ==>
              |probes| == if tries < maxTries then maxTries - tries else 0
  {
    if tries >= maxTries then []
    else if basePort + tries !in occupied then [basePort + tries]
    else [basePort + tries] + ProbedPorts(occupied, basePort, maxTries, tries + 1)
  }

  /** The result of `allocatePort` when the ports in `occupied` are held by other listeners. */
  function Allocate(occupied: set<int>, basePort: int, maxTries: int): Allocation {
    FirstFree(occupied, basePort, maxTries, 0)
  }

  /** The ports `allocatePort` probes, in order. */
  function Probes(occupied: set<int>, basePort: int, maxTries: int): seq<int> {
    ProbedPorts(occupied, basePort, maxTries, 0)
  }

  /** `p` is the lowest port of basePort .. basePort + maxTries - 1 that is free. */
  ghost predicate IsLowestFree(occupied: set<int>, basePort: int, maxTries: int, p: int) {
    && basePort <= p < basePort + maxTries
    && p !in occupied
    && forall q :: basePort <= q < p ==> q in occupied
  }

  /** Allocation returns a port exactly when that port is the lowest free one of the range
      (a consequence of the contract of FirstFree). */
  lemma AllocateIsLowestFree(occupied: set<int>, basePort: int, maxTries: int, p: int)
    ensures Allocate(occupied, basePort, maxTries) == Allocated(p) <==> IsLowestFree(occupied, basePort, maxTries, p)
  {
  }

  /** A port that was handed out and then engaged by the caller is never handed out
      again: the next allocation from the same base is strictly higher, or fails
      (a consequence of the contract of FirstFree). */
  lemma EngagedPortIsSkipped(occupied: set<int>, basePort: int, maxTries: int, p: int)
    requires Allocate(occupied, basePort, maxTries) == Allocated(p)
    ensures Allocate(occupied + {p}, basePort, maxTries).Allocated? ==>
              Allocate(occupied + {p}, basePort, maxTries).port > p
  {
  }

  /** The ports handed out by `rounds` successive allocations from the same base, each
      port engaged (bound) by the caller before the next allocation; the sequence stops
      at the first allocation that fails. */
  function EngageRounds(occupied: set<int>, basePort: int, maxTries: int, rounds: nat): (ports: seq<int>)
    ensures |ports| <= rounds
    ensures forall i :: 0 <= i < |ports| ==> ports[i] !in occupied
    ensures forall i, j :: 0 <= i < j < |ports| ==> ports[i] < ports[j]
    ensures forall i :: 0 <= i < |ports| ==> ports[0] + i <= ports[i]
    ensures forall i :: 0 <= i < |ports| ==> basePort + i <= ports[i] < basePort + maxTries
    ensures |ports| <= if maxTries > 0 then maxTries else 0
    decreases rounds
  {
    if rounds == 0 then []
    else match Allocate(occupied, basePort, maxTries)
      case PortUnavailable => []
      case Allocated(p) =>
        var rest := EngageRounds(occupied + {p}, basePort, maxTries, rounds - 1);
        assert |rest| > 0 ==> rest[0] > p by {
          if |rest| > 0 {
            EngagedPortIsSkipped(occupied, basePort, maxTries, p);
          }
        }
        assert |rest| > 0 ==> p + |rest| <= rest[|rest| - 1];
        [p] + rest
  }

  /** When the rounds stop early, the allocation that stopped them failed: with the
      ports handed out so far engaged, every port of the range is occupied. */
  lemma {:induction false} EarlyStopMeansUnavailable(occupied: set<int>, basePort: int, maxTries: int, rounds: nat)
    requires |EngageRounds(occupied, basePort, maxTries, rounds)| < rounds
    ensures Allocate(occupied + (set x | x in EngageRounds(occupied, basePort, maxTries, rounds)), basePort, maxTries)
            == PortUnavailable
    decreases rounds
  {
    var ports := EngageRounds(occupied, basePort, maxTries, rounds);
    match Allocate(occupied, basePort, maxTries)
    case PortUnavailable =>
      assert occupied + (set x | x in ports) == occupied;
    case Allocated(p) =>
      var rest := EngageRounds(occupied + {p}, basePort, maxTries, rounds - 1);
      assert ports == [p] + rest;
      EarlyStopMeansUnavailable(occupied + {p}, basePort, maxTries, rounds - 1);
      assert (occupied + {p}) + (set x | x in rest) == occupied + (set x | x in ports);
  }

  class PortAllocator {
    const basePort: int
    const maxTries: int

    /** `new PortAllocator()`: a random base port and the default number of tries. */
    constructor Random()
      ensures DefaultBasePort <= basePort < DefaultBasePort + RandomPortsMaxRange
      ensures maxTries == DefaultMaxTries
    {
      var port := GenerateRandomPort();
      basePort := port;
      maxTries := DefaultMaxTries;
    }

    /** `new PortAllocator(basePort)`. */
    constructor WithBase(basePort: int)
      ensures this.basePort == basePort && maxTries == DefaultMaxTries
    {
      this.basePort := basePort;
      maxTries := DefaultMaxTries;
    }

    /** `new PortAllocator(basePort, maxPortNumberAllocationTries)`: both stored as given. */
    constructor (basePort: int, maxTries: int)
      ensures this.basePort == basePort && this.maxTries == maxTries
    {
      this.basePort := basePort;
      this.maxTries := maxTries;
    }

    /** A base port drawn from DefaultBasePort + [0, RandomPortsMaxRange); the random
        offset is a nondeterministic choice. */
    static method GenerateRandomPort() returns (port: int)
      ensures DefaultBasePort <= port < DefaultBasePort + RandomPortsMaxRange
    {
      var offset :| 0 <= offset < RandomPortsMaxRange;
      port := DefaultBasePort + offset;
    }

    /** Probes basePort, basePort + 1, ... and returns the first port that binds,
        after closing the probe socket; fails after maxTries failed probes. */
    method AllocatePort(net: Network) returns (r: Allocation)
      requires ProbeRangeValid(basePort, maxTries)
      modifies net
      ensures r == Allocate(old(net.listening), basePort, maxTries)
      ensures net.probes == old(net.probes) + Probes(old(net.listening), basePort, maxTries)
      ensures net.listening == old(net.listening)
    {
      var portNumberTries := 0;
      while portNumberTries < maxTries
        invariant 0 <= portNumberTries
        invariant portNumberTries == 0 || portNumberTries <= maxTries
        invariant net.listening == old(net.listening)
        invariant FirstFree(old(net.listening), basePort, maxTries, portNumberTries)
                  == Allocate(old(net.listening), basePort, maxTries)
        invariant net.probes + ProbedPorts(old(net.listening), basePort, maxTries, portNumberTries)
                  == old(net.probes) + Probes(old(net.listening), basePort, maxTries)
      {
        var port := basePort + portNumberTries;
        var bound := net.Bind(port);
        if bound {
          var localPort := port;
          net.Close(port);
          assert net.listening == old(net.listening);
          return Allocated(localPort);
        }
        portNumberTries := portNumberTries + 1;
      }
      return PortUnavailable;
    }
  }
}
