/**
 * One discovered service instance: its key, its latest Consul health and its
 * revocation clock (`ServiceInstanceClient`), and the derivation of a single
 * PASS / WARN / FAIL state from the instance's health checks.
 */
module Instances {
  import opened Wrappers
  import opened Durations

  /** Consul's check states, best first. */
  datatype State = PASS | WARN | FAIL

  /** The enum constant's name, as `String.format("%s", state)` prints it. */
  function StateName(s: State): string
  {
    match s
    case PASS => "PASS"
    case WARN => "WARN"
    case FAIL => "FAIL"
  }

  /** Numeric rank of a state: PASS above WARN above FAIL. */
  function Rank(s: State): nat
  {
    match s
    case PASS => 2
    case WARN => 1
    case FAIL => 0
  }

  /** One Consul health check of an instance, its status already read as a state. */
  datatype HealthCheck = HealthCheck(checkId: string, status: State)

  /** Consul's `ServiceHealth`; only its checks matter to the pool. */
  datatype ServiceHealth = ServiceHealth(checks: seq<HealthCheck>)

  /** Consul's `ServiceHealthKey`: the identity of an instance. */
  datatype ServiceKey = ServiceKey(serviceId: string, host: string, port: int)

  /** The scheme written into every outgoing request. */
  datatype HttpMode = HTTP | HTTPS

  /** Id of Consul's node liveness check. */
  const SerfHealth: string := "serfHealth"

  /** Status of the first `serfHealth` check, FAIL when there is none. */
  function SerfState(checks: seq<HealthCheck>): State
  {
    if checks == [] then FAIL
    else if checks[0].checkId == SerfHealth then checks[0].status
    else SerfState(checks[1..])
  }

  /** The distinct statuses of the checks other than `serfHealth`. */
  function ServiceStates(checks: seq<HealthCheck>): set<State>
  {
    set i | 0 <= i < |checks| && checks[i].checkId != SerfHealth :: checks[i].status
  }

  /** `getState()` over the instance's health (`None` before the first update). */
  function DeriveState(health: Option<ServiceHealth>): State
  {
    if health.None? || health.value.checks == [] then WARN
    else
      var checks := health.value.checks;
      var serf := SerfState(checks);
      if serf == FAIL then FAIL
      else
        var states := ServiceStates(checks);
        if |states| == 1 && FAIL in states then FAIL
        else if |states| == 1 && PASS in states && serf == PASS then PASS
        else WARN
  }

  /** `isAtLeast(minimum)` for an instance in state `actual`: an inclusive threshold. */
  predicate AtLeast(actual: State, minimum: State)
    ensures AtLeast(actual, minimum) <==> Rank(actual) >= Rank(minimum)
  {
    match minimum
    case PASS => actual == PASS
    case WARN => actual == PASS || actual == WARN
    case FAIL => actual == PASS || actual == WARN || actual == FAIL
  }

  // Independent, quantifier-based reading of the state rules.

  /** The first `serfHealth` check exists and reports `s`. */
  ghost predicate SerfReports(checks: seq<HealthCheck>, s: State)
  {
    exists j :: 0 <= j < |checks| && checks[j].checkId == SerfHealth && checks[j].status == s &&
      forall i :: 0 <= i < j ==> checks[i].checkId != SerfHealth
  }

  /** There is at least one check other than `serfHealth`. */
  ghost predicate HasServiceCheck(checks: seq<HealthCheck>)
  {
    exists i :: 0 <= i < |checks| && checks[i].checkId != SerfHealth
  }

  /** Every check other than `serfHealth` reports `s`. */
  ghost predicate AllServiceChecks(checks: seq<HealthCheck>, s: State)
  {
    forall i :: 0 <= i < |checks| && checks[i].checkId != SerfHealth ==> checks[i].status == s
  }

  lemma {:induction false} SerfStateReports(checks: seq<HealthCheck>, s: State)
    requires s != FAIL
    ensures SerfState(checks) == s <==> SerfReports(checks, s)
  {
    if checks != [] && checks[0].checkId != SerfHealth {
      SerfStateReports(checks[1..], s);
      if SerfReports(checks[1..], s) {
        var j :| 0 <= j < |checks[1..]| && checks[1..][j].checkId == SerfHealth && checks[1..][j].status == s &&
          forall i :: 0 <= i < j ==> checks[1..][i].checkId != SerfHealth;
        assert forall i :: 0 <= i < j + 1 ==> checks[i].checkId != SerfHealth by {
          forall i | 0 <= i < j + 1 ensures checks[i].checkId != SerfHealth {
            if i > 0 { assert checks[i] == checks[1..][i - 1]; }
          }
        }
        assert checks[j + 1] == checks[1..][j];
      }
      if SerfReports(checks, s) {
        var j :| 0 <= j < |checks| && checks[j].checkId == SerfHealth && checks[j].status == s &&
          forall i :: 0 <= i < j ==> checks[i].checkId != SerfHealth;
        assert j > 0;
        assert checks[1..][j - 1] == checks[j];
        assert forall i :: 0 <= i < j - 1 ==> checks[1..][i].checkId != SerfHealth by {
          forall i | 0 <= i < j - 1 ensures checks[1..][i].checkId != SerfHealth {
            assert checks[1..][i] == checks[i + 1];
          }
        }
      }
    } else if checks != [] {
      if SerfReports(checks, s) {
        var j :| 0 <= j < |checks| && checks[j].checkId == SerfHealth && checks[j].status == s &&
          forall i :: 0 <= i < j ==> checks[i].checkId != SerfHealth;
        assert j == 0;
      }
      assert SerfState(checks) == s ==> SerfReports(checks, s) by {
        if SerfState(checks) == s {
          assert checks[0].checkId == SerfHealth && checks[0].status == s;
        }
      }
    }
  }

  lemma ServiceStatesSingleton(checks: seq<HealthCheck>, s: State)
    ensures (|ServiceStates(checks)| == 1 && s in ServiceStates(checks)) <==>
            (HasServiceCheck(checks) && AllServiceChecks(checks, s))
  {
    var states := ServiceStates(checks);
    if HasServiceCheck(checks) && AllServiceChecks(checks, s) {
      var i :| 0 <= i < |checks| && checks[i].checkId != SerfHealth;
      assert checks[i].status in states;
      assert states == {s};
    }
    if |states| == 1 && s in states {
      assert |states - {s}| == 0;
      assert states == {s};
      forall i | 0 <= i < |checks| && checks[i].checkId != SerfHealth
        ensures checks[i].status == s
      {
        assert checks[i].status in states;
      }
    }
  }

  /**
   * The instance is PASS exactly when it has health, its first `serfHealth`
   * check passes, and it has service checks, all of them passing.
   */
  lemma DeriveStatePassIff(health: Option<ServiceHealth>)
    ensures DeriveState(health) == PASS <==>
      health.Some? && SerfReports(health.value.checks, PASS) &&
      HasServiceCheck(health.value.checks) && AllServiceChecks(health.value.checks, PASS)
  {
    if health.Some? {
      var checks := health.value.checks;
      SerfStateReports(checks, PASS);
      ServiceStatesSingleton(checks, PASS);
      ServiceStatesSingleton(checks, FAIL);
      if HasServiceCheck(checks) && AllServiceChecks(checks, PASS) {
        var i :| 0 <= i < |checks| && checks[i].checkId != SerfHealth;
        assert !AllServiceChecks(checks, FAIL);
      }
    }
  }

  /**
   * The instance is FAIL exactly when it has non-empty health and either its
   * node liveness check is missing or failing (the first `serfHealth` check
   * reports neither PASS nor WARN), or it has service checks, all failing.
   */
  lemma DeriveStateFailIff(health: Option<ServiceHealth>)
    ensures DeriveState(health) == FAIL <==>
      health.Some? && health.value.checks != [] &&
      ((!SerfReports(health.value.checks, PASS) && !SerfReports(health.value.checks, WARN)) ||
       (HasServiceCheck(health.value.checks) && AllServiceChecks(health.value.checks, FAIL)))
  {
    if health.Some? {
      var checks := health.value.checks;
      SerfStateReports(checks, PASS);
      SerfStateReports(checks, WARN);
      ServiceStatesSingleton(checks, FAIL);
    }
  }

  /** An instance without health, or with no checks at all, is WARN. */
  lemma NoChecksIsWarn(health: Option<ServiceHealth>)
    requires health.None? || health.value.checks == []
    ensures DeriveState(health) == WARN
  {
  }

  /**
   * `ServiceInstanceClient`: a pooled client for one instance. The JAX-RS
   * delegate it wraps is not modelled; `revoked` is the instant (in
   * milliseconds) until which the instance is kept out of selection.
   */
  class InstanceClient {
    const key: ServiceKey
    const scheme: HttpMode
    var revoked: Option<int>
    var health: Option<ServiceHealth>

    constructor (key: ServiceKey, scheme: HttpMode)
      ensures this.key == key && this.scheme == scheme
      ensures revoked == None && health == None
    {
      this.key := key;
      this.scheme := scheme;
      revoked := None;
      health := None;
    }

    /** `getState()`. */
    function CurrentState(): State
      reads this`health
    {
      DeriveState(health)
    }

    /** `isAtLeast(minimum)`. */
    predicate IsAtLeast(minimum: State)
      reads this`health
    {
      AtLeast(CurrentState(), minimum)
    }

    /** `isRevoked()`, evaluated at instant `now`. */
    predicate IsRevoked(now: int)
      reads this`revoked
    {
      revoked.Some? && revoked.value > now
    }

    /**
     * `revoke(milliseconds)` at instant `now`: the new expiry replaces any
     * earlier one, and the instance is revoked at exactly the instants before it.
     */
    method Revoke(now: int, milliseconds: int)
      modifies this`revoked
      ensures revoked == Some(now + milliseconds)
      ensures forall t :: IsRevoked(t) <==> t < now + milliseconds
      ensures IsRevoked(now) <==> milliseconds > 0
    {
      revoked := Some(now + milliseconds);
    }

    /** `revoke(period, units)` at instant `now`. */
    method RevokeFor(now: int, period: Int32, units: TimeUnit)
      modifies this`revoked
      ensures revoked == Some(now + ToMillis(units, period))
    {
      Revoke(now, ToMillis(units, period));
    }

    /** `update(health)`: replaces the health wholesale and returns this client. */
    method Update(h: ServiceHealth) returns (self: InstanceClient)
      modifies this`health
      ensures self == this && health == Some(h)
      ensures CurrentState() == DeriveState(Some(h))
    {
      health := Some(h);
      self := this;
    }
  }
}
