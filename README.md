# consul-jaxrs: a Dafny model of the client pool and its retry policy

consul-jaxrs is a Java library that puts a pool of JAX-RS clients in front of
one Consul service. Consul publishes a snapshot of the service's instances
and their health checks. The pool (`ConsulJaxRsClientPool`) turns that
snapshot into one `ServiceInstanceClient` per instance. Each client derives a
PASS/WARN/FAIL state from its checks and can be revoked, that is, kept out of
selection until an instant has passed. `next(minimumState)` picks a client
by a weighted lottery (`WeightedClientRandomizer`) over the unrevoked
clients that meet the minimum state. If every such client is revoked, the
lottery runs over the revoked ones as well. With no instances at all, `next`
falls back to a configured fallback URI.

`RequestRetryPolicy` wraps a request in a retry loop. Every attempt asks the
pool for a client and runs the request. When the request fails with a
configured kind, the policy revokes that client for a configured period.
The loop retries with exponential backoff until the attempts run out, a
"break" kind of failure occurs, or a fatal error (a `VirtualMachineError`,
which the reactive runtime rethrows at once) ends it. `ObservableHttpRetry` is a simpler
stand-alone retry decider: a fixed interval and a count-down of retries.

The model has one module per source class:

- `Faults`: the exception classes the core throws and matches, with `isInstance`.
- `Durations`: `TimeUnit.toMillis` on an `Integer` period.
- `Instances`: health checks, state derivation, and the class `InstanceClient`.
- `WeightedRandomizer`: the lottery, as a function `Pick` and the method `Select`.
- `Pool`: the class `ClientPool`.
- `RetryPolicy`: the class `RequestRetryPolicy` and the pool's `retry` factories.
- `ObservableRetry`: the class `ObservableHttpRetry`.

Every attempt of the retry loop asks the supplier (`pool.next`) for a client
anew, as the code does; no client is carried over from one attempt to the
next.

Classes whose Java fields are updated in place are Dafny classes with the
same fields. Pure computations are functions, and the properties are lemmas
or postconditions.

Inputs from outside the program become parameters:

- The wall clock (`Instant.now()`) is an instant `now`, or a `clock(k)` per attempt.
- `SecureRandom.nextDouble()` is a `fraction` in [0, 1), or a `draws(k)` per attempt.
- The request a caller runs is a function `action(key, k)` that gives the outcome of attempt `k` on the instance with that key.
- Java `double`s are `real`s.

In the table, source paths are relative to the repository root.

## Model

| member | source | states |
|---|---|---|
| Faults.Supers | src/main/java/net/ozwolf/consul/retry/RequestRetryPolicy.java:136 | the classes an exception of class `c` is an instance of include `c` itself and `Throwable` |
| Faults.IsInstanceTransitive | src/main/java/net/ozwolf/consul/retry/RequestRetryPolicy.java:136 | `isInstance` follows the class hierarchy: an instance of a subclass of `b`, where `b` is a subclass of `a`, is an instance of `a` |
| Durations.ToMillis | src/main/java/net/ozwolf/consul/retry/RequestRetryPolicy.java:71 | `units.toMillis(period)` of an `Integer` period stays in the `long` range, so Java's saturation never applies |
| Durations.ToMillisTruncates | src/main/java/net/ozwolf/consul/retry/RequestRetryPolicy.java:112 | the milliseconds are the period in nanoseconds divided by a million, truncated toward zero: within one millisecond of the exact value and of the same sign |
| Instances.AtLeast | src/main/java/net/ozwolf/consul/client/ServiceInstanceClient.java:113-125 | a state is at least `minimum` exactly when it ranks at or above it (PASS > WARN > FAIL), so each level includes the ones above it |
| Instances.SerfStateReports | src/main/java/net/ozwolf/consul/client/ServiceInstanceClient.java:140 | the node-liveness state is PASS (or WARN) exactly when the first `serfHealth` check exists and reports it |
| Instances.ServiceStatesSingleton | src/main/java/net/ozwolf/consul/client/ServiceInstanceClient.java:145-153 | the distinct service-check statuses are exactly `{s}` iff there is a check other than `serfHealth` and all of them report `s` |
| Instances.NoChecksIsWarn | src/main/java/net/ozwolf/consul/client/ServiceInstanceClient.java:137-138 | a client with no health, or with no checks, is WARN |
| Instances.DeriveStatePassIff | src/main/java/net/ozwolf/consul/client/ServiceInstanceClient.java:136-159 | `getState()` is PASS iff there is health, the first `serfHealth` check passes, and there are service checks, all passing |
| Instances.DeriveStateFailIff | src/main/java/net/ozwolf/consul/client/ServiceInstanceClient.java:136-159 | `getState()` is FAIL iff there are checks and either the first `serfHealth` check is missing or reports neither PASS nor WARN, or all of the (at least one) service checks fail |
| Instances.InstanceClient.constructor | src/main/java/net/ozwolf/consul/client/ServiceInstanceClient.java:56-62 | a new client keeps its key and scheme and has no health and no revocation |
| Instances.InstanceClient.Revoke | src/main/java/net/ozwolf/consul/client/ServiceInstanceClient.java:79-81 | the expiry becomes `now + milliseconds`, replacing any earlier one; from then on `isRevoked()` holds at exactly the instants before it |
| Instances.InstanceClient.RevokeFor | src/main/java/net/ozwolf/consul/client/ServiceInstanceClient.java:91-93 | `revoke(period, units)` sets the expiry `now + units.toMillis(period)` |
| Instances.InstanceClient.Update | src/main/java/net/ozwolf/consul/client/ServiceInstanceClient.java:167-170 | the health is replaced wholesale, the client itself is returned, and its state becomes the state derived from the new health |
| WeightedRandomizer.Weights | src/main/java/net/ozwolf/consul/util/WeightedClientRandomizer.java:26 | one weight per candidate, in iteration order, each the weight of that candidate's current state |
| WeightedRandomizer.PickIsFirstCovering | src/main/java/net/ozwolf/consul/util/WeightedClientRandomizer.java:29-33 | the lottery picks candidate `i` iff `i` is the first position whose cumulative weight reaches the draw |
| WeightedRandomizer.PickNoneIff | src/main/java/net/ozwolf/consul/util/WeightedClientRandomizer.java:29-35 | the loop falls through iff every cumulative weight stays below the draw |
| WeightedRandomizer.PickTotal | src/main/java/net/ozwolf/consul/util/WeightedClientRandomizer.java:26-33 | a draw no larger than the total weight of a non-empty candidate list always picks someone |
| WeightedRandomizer.PickInterval | src/main/java/net/ozwolf/consul/util/WeightedClientRandomizer.java:29-32 | with non-negative weights and a positive draw, candidate `i` is picked for exactly the draws in an interval whose length is its weight, so its chance is proportional to its weight |
| WeightedRandomizer.Select | src/main/java/net/ozwolf/consul/util/WeightedClientRandomizer.java:25-36 | `select` returns the candidate the lottery picks for the draw `fraction * total`, and throws the `UnknownError` exactly when the lottery picks no one |
| WeightedRandomizer.SelectNeverFallsThrough | src/main/java/net/ozwolf/consul/util/WeightedClientRandomizer.java:26-35 | for a non-empty list with non-negative weights the draw always lands on a candidate, so the `UnknownError` cannot occur |
| Pool.DefaultWeightings | src/main/java/net/ozwolf/consul/ConsulJaxRsClientPool.java:245-251 | the default weightings cover exactly PASS, WARN and FAIL with 1.0, 0.5 and 0.1, strictly decreasing and all positive |
| Pool.ClientPool.constructor | src/main/java/net/ozwolf/consul/ConsulJaxRsClientPool.java:66-76 | a new pool has no clients, no fallback, the HTTPS scheme and the default weightings |
| Pool.ClientPool.WithFallbackInstance | src/main/java/net/ozwolf/consul/ConsulJaxRsClientPool.java:84-87 | sets the fallback and returns the pool itself |
| Pool.ClientPool.UseHttpMode | src/main/java/net/ozwolf/consul/ConsulJaxRsClientPool.java:95-98 | sets the request scheme and returns the pool itself |
| Pool.ClientPool.WithStateWeightingOf | src/main/java/net/ozwolf/consul/ConsulJaxRsClientPool.java:124-127 | overrides the weighting of one state, adding it if missing, and leaves every other weighting as it was |
| Pool.ClientPool.Next | src/main/java/net/ozwolf/consul/ConsulJaxRsClientPool.java:138-159 | no clients and no fallback: the "no instances published" failure. No clients with a fallback: a new unrevoked client for the fallback's host and port. Otherwise: a pool client that meets the minimum, and an unrevoked one whenever one exists. No client meets the minimum: the "including revoked" failure. Some client meets it: the result is the weighted draw over a listing of the eligible clients (the unrevoked ones, or all that meet the minimum when every one is revoked), which never fails when no weight is negative |
| Pool.ClientPool.Lottery | src/main/java/net/ozwolf/consul/ConsulJaxRsClientPool.java:158 | the result is the weighted draw (`Pick` at `fraction * total`) over a list holding each eligible client once; so it is one of the eligible clients, and fails (with the `UnknownError`) only when some weight is negative |
| Pool.Enumerate | src/main/java/net/ozwolf/consul/ConsulJaxRsClientPool.java:145-148 | the collected set is listed with each of its clients exactly once, in some order |
| Pool.ClientPool.NextDefault | src/main/java/net/ozwolf/consul/ConsulJaxRsClientPool.java:169-171 | `next()` is `next(WARN)`: every promise of `Next` holds with WARN as the minimum, the fallback and no-instance cases and the weighted draw included |
| Pool.ClientPool.Refresh | src/main/java/net/ozwolf/consul/ConsulJaxRsClientPool.java:234-238 | for one snapshot entry: the live client with that key is reused when there is one, otherwise a fresh unrevoked client of the pool's scheme is made; either way its health becomes the entry's, and no other client's health changes |
| Pool.ClientPool.Rebuild | src/main/java/net/ozwolf/consul/ConsulJaxRsClientPool.java:230-240 | the collected clients have exactly the snapshot's keys, one client per key, each with that key's health; every live client whose key is still published is among them, and every other one is new and unrevoked; a live client whose key is not published keeps its health |
| Pool.ClientPool.Notify | src/main/java/net/ozwolf/consul/ConsulJaxRsClientPool.java:229-243 | after a snapshot the pool's keys are exactly the snapshot's, one client per key, with the snapshot's health; a still-published instance keeps its client object and so its revocation; a new one gets an unrevoked client of the pool's scheme; dropped keys are gone, and their client objects keep the health they had |
| RetryPolicy.FlatBackoff | src/main/java/net/ozwolf/consul/retry/RequestRetryPolicy.java:93-95 | with the factor 1.0 that `retryIntervalOf(duration, units)` sets, every wait equals the interval |
| RetryPolicy.BackoffGrows | src/main/java/net/ozwolf/consul/retry/RequestRetryPolicy.java:108-110 | with a factor of at least 1.0 the waits never shrink from one retry to the next and never fall below the interval |
| RetryPolicy.RequestRetryPolicy.constructor | src/main/java/net/ozwolf/consul/retry/RequestRetryPolicy.java:42-60 | a new policy has no revoke or break rules, a 100 ms interval and a backoff factor of 2.0 |
| RetryPolicy.RequestRetryPolicy.RevokeOn | src/main/java/net/ozwolf/consul/retry/RequestRetryPolicy.java:70-73 | maps the cause to its period in milliseconds, replacing an earlier entry for it, and leaves every other rule as it was |
| RetryPolicy.RequestRetryPolicy.BreakOn | src/main/java/net/ozwolf/consul/retry/RequestRetryPolicy.java:81-84 | adds the cause to the break kinds |
| RetryPolicy.RequestRetryPolicy.RetryIntervalOf | src/main/java/net/ozwolf/consul/retry/RequestRetryPolicy.java:93-95 | sets the interval in milliseconds and a backoff factor of 1.0, which makes the waits flat |
| RetryPolicy.RequestRetryPolicy.RetryIntervalWithBackoffOf | src/main/java/net/ozwolf/consul/retry/RequestRetryPolicy.java:108-115 | a factor below 1.0 is refused with the `IllegalArgumentException`, and nothing changes; otherwise it sets the interval in milliseconds and the factor |
| RetryPolicy.RequestRetryPolicy.Supply | src/main/java/net/ozwolf/consul/retry/RequestRetryPolicy.java:129 | the supplier's answer is one of `next`'s three failures, or a client meeting the minimum (a new fallback client when the pool is empty), and an unrevoked one whenever one exists; when some client meets the minimum, the answer is the lottery's pick for the draw `fraction` over a listing of the eligible clients, weighted by their states |
| RetryPolicy.RequestRetryPolicy.Run | src/main/java/net/ozwolf/consul/retry/RequestRetryPolicy.java:130-140 | the action's outcome is passed on; the client is revoked, for a matching entry's period from now, exactly when the action threw a failure of some `revokeOn` kind, and is left alone otherwise |
| RetryPolicy.RequestRetryPolicy.Try | src/main/java/net/ozwolf/consul/retry/RequestRetryPolicy.java:128-141 | one attempt. If `next` fails, that is one of its three failures. Otherwise the action runs on the supplied client, which is unrevoked whenever an unrevoked eligible client exists. When some client meets the minimum, the supplied client is the lottery's pick for this attempt's draw over a listing of the eligible clients. On a failure of a `revokeOn` kind the client is revoked for that kind's period from now; no other client's revocation changes |
| RetryPolicy.RequestRetryPolicy.Execute | src/main/java/net/ozwolf/consul/retry/RequestRetryPolicy.java:123-148 | emits what the last attempt produced, a failure as `observe` emits it. Every earlier attempt failed, with neither a fatal error nor a break kind. It stops at the first success, the first fatal error (a `VirtualMachineError`, which the reactive runtime rethrows without retrying), the first break kind, or after exactly `attempts` retries when every attempt fails otherwise. Each attempt follows the pool and the revocations made by the attempts before it, and attempt `k` gets the lottery's pick for the draw `draws(k)` over the clients eligible after those revocations. Each client's final expiry is the one its last revocation set. The wait before retry `n+1` is `interval * factor^n` |
| RetryPolicy.RetryAtLeast | src/main/java/net/ozwolf/consul/ConsulJaxRsClientPool.java:192-194 | `retry(minimumState, attempts)` is a new policy over this pool and minimum state, with the default settings |
| RetryPolicy.Retry | src/main/java/net/ozwolf/consul/ConsulJaxRsClientPool.java:181-183 | `retry(attempts)` is the same with the minimum state WARN |
| RetryPolicy.RevocationScenario | src/test/java/net/ozwolf/consul/retry/RequestRetryPolicyTest.java:81-110 | two instances, and the one at port 1234 always fails with a server error; with 3 attempts and a 5-minute revocation the result is `success!`. If the failing instance was drawn first, it was revoked once for 300000 ms and the second attempt went to port 5678 |
| RetryPolicy.RevocationPolicy | src/test/java/net/ozwolf/consul/retry/RequestRetryPolicyTest.java:103-104 | the policy of the revocation test: 3 attempts at WARN, no break kinds, `ServerErrorException` revoked for 300000 ms, over two passing unrevoked instances |
| RetryPolicy.RevocationTrace | src/test/java/net/ozwolf/consul/retry/RequestRetryPolicyTest.java:94-109 | the same conclusion, for any trace that the guarantees of `execute` allow on that pool |
| ObservableRetry.ObservableHttpRetry.constructor | src/main/java/net/ozwolf/consul/rx/ObservableHttpRetry.java:16-22 | the retry count, interval and break kinds are kept as given |
| ObservableRetry.ObservableHttpRetry.Call | src/main/java/net/ozwolf/consul/rx/ObservableHttpRetry.java:25-34 | one decision per error, in order; the latch ends where the reference function `Decisions` says |
| ObservableRetry.GrantedIsCountedDown | src/main/java/net/ozwolf/consul/rx/ObservableHttpRetry.java:27-28 | each granted retry counts the latch down by exactly one, so the retries granted are what the count lost and never exceed its start |
| ObservableRetry.DecisionsShape | src/main/java/net/ozwolf/consul/rx/ObservableHttpRetry.java:29-32 | every granted retry waits the same fixed interval (no backoff), and every refusal passes on the very error it was given |
| ObservableRetry.RetriesFirstErrors | src/main/java/net/ozwolf/consul/rx/ObservableHttpRetry.java:27 | with no error of a break kind, exactly the first `retries` errors are retried |
| ObservableRetry.BreakKindsNeverRetried | src/main/java/net/ozwolf/consul/rx/ObservableHttpRetry.java:27 | an error of a break kind is always passed on, however many retries are left |

## Left out

- Consul I/O: `connect`, `disconnect`, the `ServiceHealthCache` listener and `withPollRate` are not modelled. A snapshot is handed to `Notify` directly.
- The JAX-RS delegate of `ServiceInstanceClient` and the client's `target`/request methods are not modelled. A client is its key, scheme, health and revocation.
- Logging is not modelled: the warning `next` logs before it includes revoked clients.
- Floating point: weights, draws and backoff waits are `real`s, with no `double` rounding.
- `Instant` overflow in `revoke` is not modelled: instants are unbounded integers.
- Concurrency is not modelled: the pool's listener thread replacing `clients` while `next` runs.
- Randomness: each `SecureRandom.nextDouble()` is a `fraction` parameter in [0, 1).
- The Java iteration order of `HashSet`/`HashMap` is unspecified. `Enumerate` lists the eligible clients in some order, and `Try` picks some matching `revokeOn` entry where Java takes the first in iteration order.
- RxJava, and the external `RetryWhen` builder used by `observe`, are not modelled. `Execute` runs the retry loop as a plain loop. It reads `maxRetries(attempts)` as exactly `attempts` retries after the first try when every attempt fails with neither a fatal error nor a break kind (so `attempts + 1` attempts in all), and `exponentialBackoff(interval, factor)` as a wait of `interval * factor^n` before retry `n + 1`. The waits are returned as a ghost schedule rather than slept.
- `execute` blocking on `single()` is not modelled. Cancelling a retry during a backoff is not modelled either.
- RetryPolicy.RequestRetryPolicy.Execute: the supplier is always `pool.next(minimumState)`, the only supplier the library builds. A caller's own supplier, such as the mock supplier of the revocation test, is replaced by a real two-instance pool in `RevocationScenario`. The attempt instant is `clock(k)`, used by both `next` and `revoke`.
- RetryPolicy.RequestRetryPolicy.Execute: returns what `observe` emits. `execute` takes it through RxJava's blocking `single()`, which rethrows a checked failure (one that is neither a `RuntimeException` nor an `Error`: here `Exception`, `IOException` or `Throwable` itself) wrapped in a `RuntimeException`. That wrapping is not modelled, because a `Fault` carries no cause.
- RetryPolicy.RevocationScenario: the pool's lottery draw is a parameter, so the scenario proves the result for either first draw. It does not fix that the failing instance comes first, as the mock supplier of the test does. "Revoked exactly once" is proved for the run where it does come first.
- Of the errors the reactive runtime rethrows as fatal, only `VirtualMachineError` (with its subclass `UnknownError`) is in the modelled class hierarchy; `ThreadDeath`, `LinkageError` and the runtime's own error-handling failures are not.
- `RequestFailureException` is not modelled, because the current `observe` rethrows the original failure unwrapped.
- ObservableRetry.ObservableHttpRetry.constructor: takes a natural-number count, because `CountDownLatch` rejects a negative one.
- Pool.ClientPool.Notify: requires that no two live clients share a key. Every pool state built by the constructor and by `Notify` satisfies this.
- `ConsulJaxRsClient`, the public client type the pool hands out, is modelled as `InstanceClient`. `HttpMode` and the `State` enum are datatypes, and the `State.fromName` parsing of check statuses is not modelled: a check carries its `State`. The model's `State` has only PASS, WARN and FAIL, so the `default:` arm of `isAtLeast` (taken for any other value of the library's enum) is unreachable in the model.
