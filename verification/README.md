# Jadler test-rule lifecycle and port allocation, in Dafny

This project models the core of Jadler's JUnit integration. That core has three parts:

- **Port allocator.** It finds a free TCP port by binding a probe socket on `basePort`, `basePort + 1`, … and stops at the first port that binds. It gives up with `PortUnavailableException` after `maxTries` failed probes.
- **`JadlerRule`.** It fixes the mock server's port at construction, using an explicit port or the allocator. `before()` creates the server configuration. `startMocker(callback)` applies an optional client callback to the configuration, builds a mocker from it, applies the callback to the mocker and starts it. `after()` stops the published mocker.
- **`HttpMocker` contract.** The mocker is a two-state machine: `start` is refused on a started mocker, and `stop` is refused on a mocker that has not been started.

Modules, one per source file, plus the socket oracle and a client:

- `Sockets` (`sockets.dfy`) — the operating system's port table as `ServerSocket` sees it. `Network.listening` is the set of ports on which a bind fails: ports held by a listener, or refused for any other reason the allocator treats as an `IOException`. `Network.Bind` succeeds exactly when the port is not in that set. `Network.Close` frees the port. The ghost sequence `Network.probes` records every bind attempt, in order.
- `PortAllocation` (`port_allocator.dfy`) — `PortAllocator` with its three constructors and `AllocatePort`. `AllocatePort` is a `while` loop over `Network`. It is proved against two recursive specification functions: `FirstFree` gives the outcome and `ProbedPorts` gives the ports probed. Lemmas about these functions state the allocator's promises. `EngageRounds` models the sequence the allocator's tests drive: each returned port is bound by the caller before the next call.
- `HttpMocking` (`http_mocker.dfy`) — `HttpMocker` as a class with a `started` flag. Server failures are a boolean input of `Start` and `Stop`.
- `Jadler` (`jadler_rule.dfy`) — `JadlerRule` as a class. It has a constant `mockerPort`, an optional `Configuration`, the nullable published `httpMocker`, and a ghost `trace` of the calls it makes: `Configure`, `Build`, `ConfigureMocker`, `Start`, `Stop`. Its object invariant `Valid()` holds four facts:
  - the port is positive;
  - the configuration listens on the rule's port;
  - the published mocker listens on that port, and `start` was issued to it;
  - every `stop` goes to a mocker that was started before.
- `RuleScenarios` (`rule_scenarios.dfy`) — client methods that follow the rule's test class. They show what a caller can conclude from the contracts alone.

What the rule does, and does not do:
- `before()` only creates the configuration. It does not start a server.
- There is a single optional callback and no suite-wide contributor.
- `startMocker` does not stop a previously published mocker before replacing it.
- The configuration is created once per test and reused, so callback settings accumulate across `startMocker` calls.

## Model

| member | source | states |
|---|---|---|
| `PortAllocation.FirstFree` | jadler-core/src/main/java/net/jadler/portallocator/PortAllocator.java:41-57 | The probe loop's outcome after `tries` failed probes. A returned port lies in `[basePort + tries, basePort + maxTries)` and is free. Every port below it in that range is occupied. The allocation fails exactly when every port of the range is occupied. |
| `PortAllocation.ProbedPorts` | jadler-core/src/main/java/net/jadler/portallocator/PortAllocator.java:43-55 | The ports probed are consecutive and increasing from the first untried port. Their number is `port - basePort + 1` when a port is found. It is exactly `maxTries` on failure, and zero when `maxTries <= 0`. |
| `PortAllocation.AllocateIsLowestFree` | jadler-core/src/main/java/net/jadler/portallocator/PortAllocator.java:43-54 | Both directions: allocation returns `p` exactly when `p` is the lowest free port of `[basePort, basePort + maxTries)`. |
| `PortAllocation.EngagedPortIsSkipped` | jadler-core/src/test/java/net/jadler/portallocator/PortAllocatorTest.java:52-63 | The caller may bind a returned port before allocating again from the same base. The next allocation then returns a strictly higher port or fails. |
| `PortAllocation.EngageRounds` | jadler-core/src/test/java/net/jadler/portallocator/PortAllocatorTest.java:22-35 | Successive allocations, each with the returned port bound by the caller, give distinct ports. These ports were free, strictly increase, and have the `i`-th at least `basePort + i`, all below `basePort + maxTries`. So at most `maxTries` calls succeed, and an eleventh allocation with `maxTries = 10` must fail. |
| `PortAllocation.EarlyStopMeansUnavailable` | jadler-core/src/test/java/net/jadler/portallocator/PortAllocatorTest.java:30-35 | When the rounds stop early, the allocation that stopped them found every port of the range occupied, counting the ports engaged so far. |
| `PortAllocation.PortAllocator.Random` | jadler-core/src/main/java/net/jadler/portallocator/PortAllocator.java:24-26 | The default allocator's base port lies in `[9999, 9999 + 32000)` and `maxTries` is 10. |
| `PortAllocation.PortAllocator.GenerateRandomPort` | jadler-core/src/main/java/net/jadler/portallocator/PortAllocator.java:28-30 | The random base port lies in `[9999, 41999)`. |
| `PortAllocation.PortAllocator.WithBase` | jadler-core/src/main/java/net/jadler/portallocator/PortAllocator.java:32-34 | The given base port is stored and `maxTries` is 10. |
| `PortAllocation.PortAllocator.constructor` | jadler-core/src/main/java/net/jadler/portallocator/PortAllocator.java:36-39 | Both values are stored as given. |
| `PortAllocation.PortAllocator.AllocatePort` | jadler-core/src/main/java/net/jadler/portallocator/PortAllocator.java:41-58 | The result is `FirstFree` from try 0 over the ports held before the call. The probe trace grows by exactly `ProbedPorts`. The set of held ports is unchanged, because the probe socket is closed before returning. |
| `Sockets.Network.Bind` | jadler-core/src/main/java/net/jadler/portallocator/PortAllocator.java:46 | Binding succeeds exactly when the port is not among those whose bind fails (held by a listener or otherwise refused). Afterwards the port is held, and the attempt is recorded as a probe. |
| `Sockets.Network.Close` | jadler-core/src/main/java/net/jadler/portallocator/PortAllocator.java:48 | Closing releases the port and records no probe. |
| `HttpMocking.HttpMocker.constructor` | jadler-core/src/main/java/net/jadler/JadlerRule.java:106 | A freshly built mocker listens on its configuration's port and is not started. |
| `HttpMocking.HttpMocker.IsStarted` | jadler-core/src/main/java/net/jadler/httpmocker/HttpMocker.java:44-47 | `isStarted()` is true exactly when the mocker is in its started state: set by a successful `start`, cleared by a successful `stop`. |
| `HttpMocking.HttpMocker.Start` | jadler-core/src/main/java/net/jadler/httpmocker/HttpMocker.java:28-33 | On a started mocker, `start` fails with `IllegalStateException` and nothing changes. Otherwise it fails with `JadlerException` when the server fails, leaving the mocker not started, or it succeeds and `isStarted` becomes true. |
| `HttpMocking.HttpMocker.Stop` | jadler-core/src/main/java/net/jadler/httpmocker/HttpMocker.java:36-41 | On a mocker that is not started, `stop` fails with `IllegalStateException`. Otherwise it fails with `JadlerException` when the server fails, or it succeeds and `isStarted` becomes false. |
| `Jadler.AppendWithoutStop` | jadler-core/src/main/java/net/jadler/JadlerRule.java:100-121 | Appending calls that are not `stop`, such as those `startMocker` makes, preserves "every stop follows a start of the same mocker". |
| `Jadler.AppendStop` | jadler-core/src/main/java/net/jadler/JadlerRule.java:138-143 | Appending a `stop` to a mocker that was started earlier preserves the same property. |
| `Jadler.JadlerRule.Init` | jadler-core/src/main/java/net/jadler/JadlerRule.java:23-27 | The rule's fields once its port is settled: the given positive port and allocator, no configuration, no published mocker and no calls made. `Valid()` holds. |
| `Jadler.JadlerRule.Create` | jadler-core/src/main/java/net/jadler/JadlerRule.java:23-49 | A port `P > 0` is kept and no port is probed. Otherwise the rule takes the default allocator's result for some base port in `[9999, 41999)`, and an allocation failure escapes as `PortUnavailableError`. The held ports are unchanged. A constructed rule satisfies `Valid()` and has no configuration, no mocker and no calls yet. |
| `Jadler.JadlerRule.GetMockerPort` | jadler-core/src/main/java/net/jadler/JadlerRule.java:84-86 | The rule's port is positive. It is a constant field, so it is the same for the rule's whole life: `before`, `startMocker` and `after` cannot change it. |
| `Jadler.JadlerRule.CreateConfiguration` | jadler-core/src/main/java/net/jadler/JadlerRule.java:134-136 | A new configuration listens on the rule's port and has no callback applied yet. |
| `Jadler.JadlerRule.Before` | jadler-core/src/main/java/net/jadler/JadlerRule.java:96-98 | The configuration is a new one listening on the rule's port, with no callback applied. The mocker and the trace are unchanged. |
| `Jadler.JadlerRule.StartMocker` | jadler-core/src/main/java/net/jadler/JadlerRule.java:100-121 | The calls, in order, are `configure`, `build`, `configureMocker` and `start`; without a callback they are only `build` and `start`. The same configuration is reused, with the callback appended to those applied before. The new mocker is published exactly when `start` succeeds; otherwise the published mocker is unchanged and a fatal failure naming the port results. The previously published mocker is not stopped. `Valid()` is preserved. |
| `Jadler.JadlerRule.StopMocker` | jadler-core/src/main/java/net/jadler/JadlerRule.java:138-147 | `stop` is issued exactly when a mocker is published and started, and nothing is raised. After a successful stop the mocker is not started. With no started mocker, nothing changes. `Valid()` is preserved. |
| `Jadler.JadlerRule.After` | jadler-core/src/main/java/net/jadler/JadlerRule.java:127-129 | The same as `stopMocker`. So a second `after()` on a stopped mocker issues no further `stop`. |

## Left out

- Real sockets: binding is the abstract `Network` oracle. The race between closing the probe socket and the server's later bind on the same port is not modelled, and neither are other processes taking ports concurrently.
- `PortAllocation.PortAllocator.AllocatePort` requires every port of the range `[basePort, basePort + maxTries)` to lie in 1..65535, even ports it would not reach because an earlier port binds. Outside that range `ServerSocket` throws an unchecked `IllegalArgumentException` that the allocator does not catch, and port 0 would bind an ephemeral port. Neither case is modelled.
- `RandomUtils.nextInt` is a nondeterministic choice of offset in `[0, 32000)`, not a random distribution.
- `Jadler.JadlerRule.Create` models both Java constructors. `new JadlerRule()` is `Create(-1, net)`. The default allocator is created even when the port is explicit, as in the source.
- `Jadler.JadlerRule.StartMocker` requires `before()` to have run. Otherwise the source dereferences a null configuration, which JUnit's rule order rules out.
- The callback's `configure` and `configureMocker` are opaque client code. Their effect is recorded as a call, and in the configuration as the list of applied callbacks. Exceptions they throw, which propagate in the source, are not modelled.
- `OngoingConfiguration` internals (`usesStandardServerListeningOn`, `respondsWithDefaultStatus`, `build`) and the stubbing surface (`HttpMocker.onRequest`, `RequestStubbing`) are not modelled. A configuration is reduced to its port and its applied callbacks, and a built mocker to its port and started flag.
- `HttpMocking.HttpMocker.Start`: when the server fails to start (`JadlerException`), the model leaves the mocker not started, and `Jadler.JadlerRule.StartMocker` repeats this for the unpublished mocker. The interface leaves that state unspecified.
- `HttpMocking.HttpMocker.Stop`: when the server fails to stop, the model keeps the mocker started. The interface leaves that state unspecified.
- Server start and stop failures are boolean inputs of `HttpMocking.HttpMocker.Start`, `HttpMocking.HttpMocker.Stop`, `Jadler.JadlerRule.StartMocker` and `Jadler.JadlerRule.After`, not tied to the `Network` port table. So the model lets a second mocker start on a port a running mocker already holds, where the real server would fail to bind. Callers choose the failure input to match; `RuleScenarios.RestartScenario` does so.
- `Sockets.Network.Close` cannot fail. In the source, `server.close()` is inside the same `try` as the bind, so an `IOException` from closing counts as a failed probe and the loop moves on to the next port. That path is not modelled.
- Logging (slf4j), the JUnit `ExternalResource` base class, and the message text of `Assert.fail` are not modelled. The fatal failure only carries the port.
- The tests' network checks (`checkMockerListeningOnPort`, the HTTP GET in `customMockerConfigurationApplied`) are not modelled. The model states instead that the published mocker listens on the rule's port.
- The static helpers of `net.jadler.Jadler` are not part of this model.
