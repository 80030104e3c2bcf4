/** The JUnit rule that owns one mock HTTP server for a test: it fixes the server's port
    when it is constructed, creates the server configuration before the test, builds and
    starts a mocker on request (applying an optional client callback), and stops the
    published mocker after the test. */
module Jadler {
  import opened Sockets
  import opened PortAllocation
  import opened HttpMocking

  datatype Option<T> = None | Some(value: T)

  /** A client's `JadlerConfiguration` callback; its code is opaque, so it is known by identity only. */
  datatype Callback = Callback(id: nat)

  /** The ongoing configuration: the port the server will listen on, and the callbacks whose
      `configure` has run on it so far, oldest first (their settings accumulate). */
  datatype Configuration = Configuration(listeningPort: int, configuredBy: seq<Callback>)

  /** A call the rule makes on the callback, the configuration or a mocker. */
  datatype Event =
    | Configure(callback: Callback)
    | Build(configuration: Configuration, mocker: HttpMocker)
    | ConfigureMocker(callback: Callback, mocker: HttpMocker)
    | Start(mocker: HttpMocker)
    | Stop(mocker: HttpMocker)

  datatype RuleError =
    | PortUnavailableError(basePort: int)  // the allocator's PortUnavailableException
    | CannotStartMocker(port: int)         // Assert.fail("Cannot start mocker on port=...")

  datatype Result<T> = Success(value: T) | Failure(error: RuleError)

  datatype StartOutcome = Started | Fatal(error: RuleError)

  /** The calls one `startMocker` makes, in order: the callback's hooks only when there is a callback. */
  function StartSequence(callback: Option<Callback>, configuration: Configuration, mocker: HttpMocker): seq<Event> {
    match callback
    case None => [Build(configuration, mocker), Start(mocker)]
    case Some(c) => [Configure(c), Build(configuration, mocker), ConfigureMocker(c, mocker), Start(mocker)]
  }

  /** Every `stop` the rule issues goes to a mocker it has issued `start` to before. */
  ghost predicate StopsFollowStarts(trace: seq<Event>) {
    forall i :: 0 <= i < |trace| && trace[i].Stop? ==> Start(trace[i].mocker) in trace[..i]
  }

  /** Calls other than `stop` keep every `stop` preceded by its `start`. */
  lemma {:induction false} AppendWithoutStop(trace: seq<Event>, events: seq<Event>)
    requires StopsFollowStarts(trace)
    requires forall k :: 0 <= k < |events| ==> !events[k].Stop?
    ensures StopsFollowStarts(trace + events)
  {
    var t := trace + events;
    forall i | 0 <= i < |t| && t[i].Stop?
      ensures Start(t[i].mocker) in t[..i]
    {
      assert i < |trace|;
      assert t[..i] == trace[..i];
    }
  }

  /** A `stop` to a mocker that was started earlier keeps the property. */
  lemma {:induction false} AppendStop(trace: seq<Event>, mocker: HttpMocker)
    requires StopsFollowStarts(trace) && Start(mocker) in trace
    ensures StopsFollowStarts(trace + [Stop(mocker)])
  {
    var t := trace + [Stop(mocker)];
    forall i | 0 <= i < |t| && t[i].Stop?
      ensures Start(t[i].mocker) in t[..i]
    {
      if i < |trace| {
        assert t[..i] == trace[..i];
      } else {
        assert t[..i] == trace;
      }
    }
  }

  /** A base port the default allocator can choose. */
  ghost predicate IsRandomBase(base: int) {
    DefaultBasePort <= base < DefaultBasePort + RandomPortsMaxRange
  }

  /** The rule `r` is what construction yields when the allocator, with base port `base`, ends with `a`. */
  ghost predicate CreatedFrom(r: Result<JadlerRule>, a: Allocation, base: int) {
    match a
    case Allocated(p) => r.Success? && r.value.mockerPort == p && r.value.portAllocator.basePort == base
    case PortUnavailable => r == Failure(PortUnavailableError(base))
  }

  class JadlerRule {
    const portAllocator: PortAllocator
    const mockerPort: int
    var ongoingConfiguration: Option<Configuration>
    var httpMocker: HttpMocker?
    /** The calls made so far on callbacks, configurations and mockers. */
    ghost var trace: seq<Event>

    ghost predicate Valid()
      reads this
    {
      && mockerPort > 0
      && (ongoingConfiguration.Some? ==> ongoingConfiguration.value.listeningPort == mockerPort)
      && (httpMocker != null ==> httpMocker.port == mockerPort && Start(httpMocker) in trace)
      && StopsFollowStarts(trace)
    }

    /** The rule's fields once its port is settled. */
    constructor Init(mockerPort: int, portAllocator: PortAllocator)
      requires mockerPort > 0
      ensures Valid()
      ensures this.mockerPort == mockerPort && this.portAllocator == portAllocator
      ensures ongoingConfiguration == None && httpMocker == null && trace == []
    {
      this.mockerPort := mockerPort;
      this.portAllocator := portAllocator;
      ongoingConfiguration := None;
      httpMocker := null;
      trace := [];
    }

    /** `new JadlerRule(mockerPort)` (and `new JadlerRule()`, which passes -1): a positive
        port is kept as given without probing; otherwise the port comes from a default
        allocator, and an allocation failure escapes construction. */
    static method Create(mockerPort: int, net: Network) returns (r: Result<JadlerRule>)
      modifies net
      ensures net.listening == old(net.listening)
      ensures r.Success? ==> fresh(r.value) && r.value.Valid()
      ensures r.Success? ==> r.value.ongoingConfiguration == None && r.value.httpMocker == null && r.value.trace == []
      ensures mockerPort > 0 ==> r.Success? && r.value.mockerPort == mockerPort && net.probes == old(net.probes)
      ensures mockerPort <= 0 ==>
                exists base :: IsRandomBase(base)
                  && CreatedFrom(r, Allocate(old(net.listening), base, DefaultMaxTries), base)
                  && net.probes == old(net.probes) + Probes(old(net.listening), base, DefaultMaxTries)
    {
      var allocator := new PortAllocator.Random();
      var port := mockerPort;
      if mockerPort <= 0 {
        var allocation := allocator.AllocatePort(net);
        assert IsRandomBase(allocator.basePort);
        match allocation
        case PortUnavailable =>
          return Failure(PortUnavailableError(allocator.basePort));
        case Allocated(p) =>
          port := p;
      }
      var rule := new JadlerRule.Init(port, allocator);
      r := Success(rule);
    }

    /** `getMockerPort()`: the port fixed at construction, the same for the rule's whole life. */
    function GetMockerPort(): (port: int)
      requires Valid()
      reads this
      ensures port > 0
    {
      mockerPort
    }

    /** `createConfiguration()`: a fresh configuration for a server listening on the rule's port. */
    function CreateConfiguration(): (c: Configuration)
      ensures c.listeningPort == mockerPort && c.configuredBy == []
    {
      Configuration(mockerPort, [])
    }

    /** `before()`: creates the configuration every later `startMocker` reuses. */
    method Before()
      requires Valid()
      modifies this
      ensures Valid()
      ensures ongoingConfiguration == Some(Configuration(mockerPort, []))
      ensures httpMocker == old(httpMocker) && trace == old(trace)
    {
      ongoingConfiguration := Some(CreateConfiguration());
    }

    /** `startMocker(configurationCallback)`: applies the callback's `configure` to the ongoing
        configuration, builds a mocker from it, applies the callback's `configureMocker`, and
        starts the mocker; it is published only when it starts, and a start failure is fatal.
        A previously published mocker is neither stopped nor otherwise touched. */
    method StartMocker(callback: Option<Callback>, serverFails: bool) returns (outcome: StartOutcome, ghost mocker: HttpMocker)
      requires Valid() && ongoingConfiguration.Some?
      modifies this
      ensures Valid()
      ensures fresh(mocker) && mocker.port == mockerPort
      ensures ongoingConfiguration == Some(Configuration(mockerPort,
                old(ongoingConfiguration.value.configuredBy) + if callback.Some? then [callback.value] else []))
      ensures trace == old(trace) + StartSequence(callback, ongoingConfiguration.value, mocker)
      ensures !serverFails ==> outcome == Started && httpMocker == mocker && mocker.started
      ensures serverFails ==> outcome == Fatal(CannotStartMocker(mockerPort)) && httpMocker == old(httpMocker) && !mocker.started
      ensures old(httpMocker) != null ==> old(httpMocker).started == old(httpMocker.started)
    {
      var configuration := ongoingConfiguration.value;
      if callback.Some? {
        configuration := configuration.(configuredBy := configuration.configuredBy + [callback.value]);
        ongoingConfiguration := Some(configuration);
        trace := trace + [Configure(callback.value)];
      } else {
        assert configuration.configuredBy + [] == configuration.configuredBy;
      }
      var m := new HttpMocker(configuration.listeningPort);
      trace := trace + [Build(configuration, m)];
      if callback.Some? {
        trace := trace + [ConfigureMocker(callback.value, m)];
      }
      trace := trace + [Start(m)];
      assert trace == old(trace) + StartSequence(callback, configuration, m);
      AppendWithoutStop(old(trace), StartSequence(callback, configuration, m));
      var result := m.Start(serverFails);
      if result == Done {
        httpMocker := m;
        outcome := Started;
      } else {
        outcome := Fatal(CannotStartMocker(mockerPort));
      }
      mocker := m;
    }

    /** `stopMocker()`: stops the published mocker only when it is started; whatever the
        stop raises is swallowed. */
    method StopMocker(stopFails: bool)
      requires Valid()
      modifies this, httpMocker
      ensures Valid()
      ensures httpMocker == old(httpMocker) && ongoingConfiguration == old(ongoingConfiguration)
      ensures old(httpMocker != null && httpMocker.started) ==>
                trace == old(trace) + [Stop(httpMocker)] && httpMocker.started == stopFails
      ensures !old(httpMocker != null && httpMocker.started) ==>
                trace == old(trace) && (httpMocker != null ==> !httpMocker.started)
    {
      if httpMocker != null && httpMocker.IsStarted() {
        AppendStop(trace, httpMocker);
        trace := trace + [Stop(httpMocker)];
        var result := httpMocker.Stop(stopFails);
      }
    }

    /** `after()`: stops the mocker; it never raises. */
    method After(stopFails: bool)
      requires Valid()
      modifies this, httpMocker
      ensures Valid()
      ensures httpMocker == old(httpMocker) && ongoingConfiguration == old(ongoingConfiguration)
      ensures old(httpMocker != null && httpMocker.started) ==>
                trace == old(trace) + [Stop(httpMocker)] && httpMocker.started == stopFails
      ensures !old(httpMocker != null && httpMocker.started) ==>
                trace == old(trace) && (httpMocker != null ==> !httpMocker.started)
    {
      StopMocker(stopFails);
    }
  }
}
