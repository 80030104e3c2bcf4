/** The HTTP mocker: the handle on a mock HTTP server, with a two-state lifecycle
    (not started, started) driven by `start` and `stop`. The server behind it is
    outside this model; whether it fails is an input of `Start` and `Stop`. */
module HttpMocking {

  /** How `start` or `stop` ends: normally, with `IllegalStateException` when called in
      the wrong state, or with `JadlerException` when the underlying server fails. */
  datatype MockerOutcome = Done | IllegalState | ServerError

  class HttpMocker {
    /** The port the underlying server is configured to listen on. */
    const port: int
    var started: bool

    /** A mocker as built from a configuration: not started yet. */
    constructor (port: int)
      ensures this.port == port && !started
    {
      this.port := port;
      started := false;
    }

    /** `isStarted()`. */
    predicate IsStarted(): (isStarted: bool)
      reads this
      ensures isStarted <==> started
    {
      started
    }

    /** `start()`: refused on a started mocker; otherwise the server starts unless it fails. */
    method Start(serverFails: bool) returns (outcome: MockerOutcome)
      modifies this
      ensures old(started) ==> outcome == IllegalState && started
      ensures !old(started) && serverFails ==> outcome == ServerError && !started
      ensures !old(started) && !serverFails ==> outcome == Done && started
    {
      if started {
        return IllegalState;
      }
      if serverFails {
        return ServerError;
      }
      started := true;
      return Done;
    }

    /** `stop()`: refused on a mocker that is not started; otherwise the server stops
        unless it fails, in which case the mocker is still considered started. */
    method Stop(serverFails: bool) returns (outcome: MockerOutcome)
      modifies this
      ensures !old(started) ==> outcome == IllegalState && !started
      ensures old(started) && serverFails ==> outcome == ServerError && started
      ensures old(started) && !serverFails ==> outcome == Done && !started
    {
      if !started {
        return IllegalState;
      }
      if serverFails {
        return ServerError;
      }
      started := false;
      return Done;
    }
  }
}
