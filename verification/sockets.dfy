/** The operating system's TCP port table, as far as the port allocator sees it:
    binding a listening socket on a port (java.net.ServerSocket) fails for the ports
    in `listening` (held by another listener, or refused for any other reason that
    surfaces as an IOException) and succeeds for every other port; closing the socket
    frees the port again. */
module Sockets {

  /** Highest valid TCP port number. */
  const MaxPort := 65535

  /** A port a listening socket may be bound to explicitly (0 would pick an ephemeral port). */
  predicate IsUserPort(port: int) {
    1 <= port <= MaxPort
  }

  class Network {
    /** Ports on which a bind currently fails: those held by a listener, and any the
        system refuses for another reason. */
    var listening: set<int>
    /** Every port a bind was attempted on, in order: the probe counter of the model. */
    ghost var probes: seq<int>

    constructor (listening: set<int>)
      ensures this.listening == listening && probes == []
    {
      this.listening := listening;
      probes := [];
    }

    /** `new ServerSocket(port)`: succeeds iff the port is not in `listening`; on
        success the port is held by the new socket. Every attempt is recorded as a probe. */
    method Bind(port: int) returns (ok: bool)
      requires IsUserPort(port)
      modifies this
      ensures ok <==> port !in old(listening)
      ensures listening == old(listening) + {port}
      ensures probes == old(probes) + [port]
    {
      ok := port !in listening;
      listening := listening + {port};
      probes := probes + [port];
    }

    /** `ServerSocket.close()`: the port is released. */
    method Close(port: int)
      requires port in listening
      modifies this
      ensures listening == old(listening) - {port}
      ensures probes == old(probes)
    {
      listening := listening - {port};
    }
  }
}
