/**
 * `RequestRetryPolicy`: fluent configuration of revoke, break and backoff
 * settings, and the attempt loop of `observe`/`execute`. Every attempt asks
 * the pool for a client (`pool.next(minimumState)`), runs the action on it
 * and, on a failure, revokes that client for the first matching `revokeOn`
 * period before rethrowing; the loop retries while the retry budget lasts
 * and no `breakOn` kind matches.
 *
 * The action, the clock and the randomizer are parameters, one value per
 * attempt: `action(key, k)`, `clock(k)` and `draws(k)` for attempt `k`.
 * The waits between attempts are not slept; they are returned as a ghost
 * schedule.
 */
module RetryPolicy {
  import opened Wrappers
  import opened Faults
  import opened Durations
  import opened Instances
  import opened WeightedRandomizer
  import opened Pool

  const DefaultRetryInterval: int := 100
  const DefaultBackoffFactor: real := 2.0

  /** The `IllegalArgumentException` of `retryIntervalOf` for a factor below 1.0. */
  const BackoffTooSmall: Fault := Fault(IllegalArgumentException, "Backoff factor must be at least 1.0")

  /** What the action did with the client of one attempt. */
  datatype Outcome<T> = Returned(value: T) | Threw(fault: Fault)

  /**
   * One attempt as the loop saw it: either the supplier (`pool.next`) threw,
   * or it supplied `client` at instant `at`, the action produced `outcome`,
   * and the client was revoked for `revokedFor` milliseconds, if at all.
   */
  datatype Attempt<T> =
    | Unavailable(fault: Fault)
    | Supplied(client: InstanceClient, at: int, outcome: Outcome<T>, revokedFor: Option<int>)
  {
    /** The failure of the attempt, if it failed. */
    function Raised(): Option<Fault>
    {
      match this
      case Unavailable(f) => Some(f)
      case Supplied(_, _, Returned(_), _) => None
      case Supplied(_, _, Threw(f), _) => Some(f)
    }

    /** The client the supplier handed out, if it handed one out. */
    function Client(): Option<InstanceClient>
    {
      if Supplied? then Some(client) else None
    }

    /** What `observe` emits when this is the last attempt. */
    function Emitted(): Result<T, Fault>
    {
      match this
      case Unavailable(f) => Failure(f)
      case Supplied(_, _, Returned(v), _) => Success(v)
      case Supplied(_, _, Threw(f), _) => Failure(f)
    }
  }

  /** `factor` raised to the `n`th power. */
  function Power(factor: real, n: nat): real
  {
    if n == 0 then 1.0 else factor * Power(factor, n - 1)
  }

  /** Wait before retry number `n + 1`: the first interval grown by the factor `n` times. */
  function BackoffDelay(interval: int, factor: real, n: nat): real
  {
    interval as real * Power(factor, n)
  }

  lemma {:induction false} PowerOfOne(n: nat)
    ensures Power(1.0, n) == 1.0
  {
    if n > 0 {
      PowerOfOne(n - 1);
    }
  }

  lemma {:induction false} PowerAtLeastOne(factor: real, n: nat)
    requires factor >= 1.0
    ensures Power(factor, n) >= 1.0
  {
    if n > 0 {
      PowerAtLeastOne(factor, n - 1);
      assert factor * Power(factor, n - 1) >= 1.0 * Power(factor, n - 1);
    }
  }

  /** With factor 1.0 (`retryIntervalOf(duration, units)`) every wait is the same interval. */
  lemma {:induction false} FlatBackoff(interval: int, n: nat)
    ensures BackoffDelay(interval, 1.0, n) == interval as real
  {
    PowerOfOne(n);
  }

  /**
   * With a factor of at least 1.0 the waits never shrink and never drop
   * below the first interval.
   */
  lemma {:induction false} BackoffGrows(interval: int, factor: real, n: nat)
    requires interval >= 0 && factor >= 1.0
    ensures BackoffDelay(interval, factor, n) <= BackoffDelay(interval, factor, n + 1)
    ensures interval as real <= BackoffDelay(interval, factor, n)
  {
    PowerAtLeastOne(factor, n);
    var p := Power(factor, n);
    var i := interval as real;
    assert Power(factor, n + 1) == factor * p;
    assert i * p <= i * (factor * p) by {
      assert p <= factor * p;
    }
    assert i * 1.0 <= i * p;
  }

  /** The revocation expiry of `c` once the attempts of `trace` are over, starting from `initial`. */
  function RevokedAfter<T>(trace: seq<Attempt<T>>, c: InstanceClient, initial: Option<int>): Option<int>
  {
    if trace == [] then initial
    else
      var a := trace[|trace| - 1];
      if a.Supplied? && a.client == c && a.revokedFor.Some? then Some(a.at + a.revokedFor.value)
      else RevokedAfter(trace[..|trace| - 1], c, initial)
  }

  /** An expiry that lies after `now`, as `isRevoked()` tests it. */
  predicate RevokedAt(expiry: Option<int>, now: int)
  {
    expiry.Some? && expiry.value > now
  }

  /** Some `revokeOn` entry is a kind of `f`. */
  predicate Revokes(revokeOn: map<ExceptionClass, int>, f: Fault)
  {
    exists cause :: cause in revokeOn && IsInstance(cause, f.cls)
  }

  /**
   * What `next` depends on apart from revocations, which the retry loop
   * changes: the pool's settings, its clients and the health state of each.
   */
  datatype PoolView = PoolView(serviceId: string, clients: set<InstanceClient>, fallback: Option<FallbackUri>,
                               weightings: map<State, real>, states: map<InstanceClient, State>)
  {
    /** The clients that meet `minimum`, revoked or not. */
    function Meeting(minimum: State): set<InstanceClient>
    {
      set c | c in clients && c in states && AtLeast(states[c], minimum)
    }

    /** The weight of each client of `listing`, by its state in this view. */
    function WeightsOf(listing: seq<InstanceClient>): seq<real>
    {
      seq(|listing|, i requires 0 <= i < |listing| =>
        if listing[i] in states then WeightOf(weightings, states[listing[i]]) else MissingStateWeight)
    }

    /**
     * `chosen` is the client the lottery over `listing` picks for the draw
     * `fraction`, or none when the lottery picks no one.
     */
    ghost predicate Picks(listing: seq<InstanceClient>, fraction: real, chosen: Option<InstanceClient>)
    {
      var ws := WeightsOf(listing);
      var p := Pick(ws, Draw(ws, fraction));
      && (chosen.Some? <==> p.Some?)
      && (chosen.Some? ==> p.Some? && chosen.value == listing[p.value])
    }

    /** The reasons `next(minimum)` throws `f`: the three failures of `next`. */
    predicate Refusal(minimum: State, f: Fault)
    {
      || (clients == {} && fallback.None? && f == AvailabilityFault(serviceId, NoInstancesReason))
      || (clients != {} && Meeting(minimum) == {} && f == AvailabilityFault(serviceId, NoEligibleReason(minimum)))
      || (clients != {} && Meeting(minimum) != {} && !NonNegativeWeightings(weightings) && f == FellThrough)
    }
  }

  /**
   * Attempt `a`, number `i`, made at instant `now`, got its client from
   * `next(minimum)` on a pool that looks like `view`, ran `action` on it and
   * revoked it exactly when a `revokeOn` kind matched the failure, for that
   * kind's period.
   */
  ghost predicate Served<T>(a: Attempt<T>, i: nat, now: int, action: (ServiceKey, nat) -> Outcome<T>, view: PoolView,
                            minimum: State, revokeOn: map<ExceptionClass, int>)
  {
    match a
    case Unavailable(f) => view.Refusal(minimum, f)
    case Supplied(client, at, outcome, revokedFor) =>
      && at == now
      && outcome == action(client.key, i)
      && (view.clients != {} ==> client in view.Meeting(minimum))
      && (view.clients == {} ==>
            view.fallback.Some?
            && client.key == ServiceKey(view.serviceId, view.fallback.value.host, view.fallback.value.port))
      && (revokedFor.Some? <==> outcome.Threw? && Revokes(revokeOn, outcome.fault))
      && (revokedFor.Some? ==>
            exists cause :: cause in revokeOn && IsInstance(cause, outcome.fault.cls)
                            && revokeOn[cause] == revokedFor.value)
  }

  /**
   * The clients that meet `minimum` and are not revoked at instant `now`,
   * once the attempts `before` have revoked what they revoked.
   */
  ghost function LiveAfter<T>(view: PoolView, minimum: State, before: seq<Attempt<T>>,
                              initial: map<InstanceClient, Option<int>>, now: int): set<InstanceClient>
  {
    set c | c in view.Meeting(minimum) && c in initial && !RevokedAt(RevokedAfter(before, c, initial[c]), now)
  }

  /**
   * The clients `next(minimum)` draws from at instant `now`: the live ones,
   * or all that meet `minimum` when every one of them is revoked.
   */
  ghost function EligibleAfter<T>(view: PoolView, minimum: State, before: seq<Attempt<T>>,
                                  initial: map<InstanceClient, Option<int>>, now: int): set<InstanceClient>
  {
    var live := LiveAfter(view, minimum, before, initial, now);
    if live != {} then live else view.Meeting(minimum)
  }

  /**
   * Attempt `a`, number `i`, was served at instant `clock(i)`, and it got an
   * unrevoked client whenever some client met `minimum` and was unrevoked.
   * The pool's clients started out revoked as `initial`; the attempts
   * `before` it updated that.
   */
  ghost predicate Attempted<T>(a: Attempt<T>, i: nat, before: seq<Attempt<T>>, action: (ServiceKey, nat) -> Outcome<T>,
                               clock: nat -> int, view: PoolView, minimum: State, revokeOn: map<ExceptionClass, int>,
                               initial: map<InstanceClient, Option<int>>)
  {
    && Served(a, i, clock(i), action, view, minimum, revokeOn)
    && (a.Supplied? && (exists c :: c in view.Meeting(minimum) && c in initial
                                    && !RevokedAt(RevokedAfter(before, c, initial[c]), a.at)) ==>
          a.client in initial && !RevokedAt(RevokedAfter(before, a.client, initial[a.client]), a.at))
  }

  /**
   * When some client met `minimum`, attempt `a`, number `i`, got the client
   * the lottery over `listing`, a listing of the clients eligible after the
   * attempts `before`, picked for the draw `draws(i)`, or no client when
   * the lottery picked no one.
   */
  ghost predicate Drew<T>(a: Attempt<T>, i: nat, before: seq<Attempt<T>>, listing: seq<InstanceClient>,
                          clock: nat -> int, draws: nat -> real, view: PoolView, minimum: State,
                          initial: map<InstanceClient, Option<int>>)
  {
    view.clients != {} && view.Meeting(minimum) != {} ==>
      && Lists(listing, EligibleAfter(view, minimum, before, initial, clock(i)))
      && view.Picks(listing, draws(i), a.Client())
  }

  /** Attempt `i` of `trace` followed the pool, after the attempts before it. */
  ghost predicate Followed<T>(trace: seq<Attempt<T>>, i: nat, action: (ServiceKey, nat) -> Outcome<T>, clock: nat -> int,
                              view: PoolView, minimum: State, revokeOn: map<ExceptionClass, int>,
                              initial: map<InstanceClient, Option<int>>)
    requires i < |trace|
  {
    Attempted(trace[i], i, trace[..i], action, clock, view, minimum, revokeOn, initial)
  }

  /** Attempt `i` of `trace` got the pool's lottery pick over `listings[i]`. */
  ghost predicate DrewAt<T>(trace: seq<Attempt<T>>, listings: seq<seq<InstanceClient>>, i: nat, clock: nat -> int,
                            draws: nat -> real, view: PoolView, minimum: State, initial: map<InstanceClient, Option<int>>)
    requires i < |trace| && i < |listings|
  {
    Drew(trace[i], i, trace[..i], listings[i], clock, draws, view, minimum, initial)
  }

  /** A later attempt does not change whether an earlier one followed the pool. */
  lemma FollowedExtends<T>(trace: seq<Attempt<T>>, a: Attempt<T>, i: nat, action: (ServiceKey, nat) -> Outcome<T>,
                           clock: nat -> int, view: PoolView, minimum: State, revokeOn: map<ExceptionClass, int>,
                           initial: map<InstanceClient, Option<int>>)
    requires i < |trace| && Followed(trace, i, action, clock, view, minimum, revokeOn, initial)
    ensures Followed(trace + [a], i, action, clock, view, minimum, revokeOn, initial)
  {
    assert (trace + [a])[..i] == trace[..i] && (trace + [a])[i] == trace[i];
  }

  /** A later attempt does not change what an earlier one drew. */
  lemma DrewExtends<T>(trace: seq<Attempt<T>>, listings: seq<seq<InstanceClient>>, a: Attempt<T>,
                       listing: seq<InstanceClient>, i: nat, clock: nat -> int, draws: nat -> real,
                       view: PoolView, minimum: State, initial: map<InstanceClient, Option<int>>)
    requires i < |trace| && i < |listings| && DrewAt(trace, listings, i, clock, draws, view, minimum, initial)
    ensures DrewAt(trace + [a], listings + [listing], i, clock, draws, view, minimum, initial)
  {
    assert (trace + [a])[..i] == trace[..i] && (trace + [a])[i] == trace[i];
    assert (listings + [listing])[i] == listings[i];
  }

  /** One more attempt changes the expiry of its own client, and only when it revoked it. */
  lemma RevokedAfterStep<T>(trace: seq<Attempt<T>>, a: Attempt<T>, c: InstanceClient, initial: Option<int>)
    ensures RevokedAfter(trace + [a], c, initial) ==
      if a.Supplied? && a.client == c && a.revokedFor.Some? then Some(a.at + a.revokedFor.value)
      else RevokedAfter(trace, c, initial)
  {
    assert (trace + [a])[..|trace|] == trace;
  }

  class RequestRetryPolicy {
    const attempts: int
    const pool: ClientPool
    const minimumState: State
    var revokeOn: map<ExceptionClass, int>
    var breakOn: set<ExceptionClass>
    var retryInterval: int
    var backoffFactor: real

    /** `new RequestRetryPolicy(attempts, () -> pool.next(minimumState))`. */
    constructor (attempts: int, pool: ClientPool, minimumState: State)
      ensures this.attempts == attempts && this.pool == pool && this.minimumState == minimumState
      ensures revokeOn == map[] && breakOn == {}
      ensures retryInterval == DefaultRetryInterval && backoffFactor == DefaultBackoffFactor
    {
      this.attempts := attempts;
      this.pool := pool;
      this.minimumState := minimumState;
      revokeOn := map[];
      breakOn := {};
      retryInterval := DefaultRetryInterval;
      backoffFactor := DefaultBackoffFactor;
    }

    /** `revokeOn(cause, period, units)`: a later registration of the same kind replaces the earlier one. */
    method RevokeOn(cause: ExceptionClass, period: Int32, units: TimeUnit) returns (self: RequestRetryPolicy)
      modifies this`revokeOn
      ensures self == this
      ensures revokeOn == old(revokeOn)[cause := ToMillis(units, period)]
    {
      revokeOn := revokeOn[cause := ToMillis(units, period)];
      self := this;
    }

    /** `breakOn(cause)`. */
    method BreakOn(cause: ExceptionClass) returns (self: RequestRetryPolicy)
      modifies this`breakOn
      ensures self == this && breakOn == old(breakOn) + {cause}
    {
      breakOn := breakOn + {cause};
      self := this;
    }

    /** `retryIntervalOf(duration, units)`: a flat interval, the factor being exactly 1.0. */
    method RetryIntervalOf(duration: Int32, units: TimeUnit) returns (self: RequestRetryPolicy)
      modifies this`retryInterval, this`backoffFactor
      ensures self == this
      ensures retryInterval == ToMillis(units, duration) && backoffFactor == 1.0
    {
      var r := RetryIntervalWithBackoffOf(duration, 1.0, units);
      self := this;
    }

    /**
     * `retryIntervalOf(duration, backoffFactor, units)`: refuses a factor
     * below 1.0 and then changes nothing.
     */
    method RetryIntervalWithBackoffOf(duration: Int32, factor: real, units: TimeUnit)
      returns (r: Result<RequestRetryPolicy, Fault>)
      modifies this`retryInterval, this`backoffFactor
      ensures factor < 1.0 ==>
        r == Failure(BackoffTooSmall)
        && retryInterval == old(retryInterval) && backoffFactor == old(backoffFactor)
      ensures factor >= 1.0 ==>
        r == Success(this) && retryInterval == ToMillis(units, duration) && backoffFactor == factor
    {
      if factor < 1.0 {
        return Failure(BackoffTooSmall);
      }
      retryInterval := ToMillis(units, duration);
      backoffFactor := factor;
      r := Success(this);
    }

    /** The revocation expiry of every pool client. */
    ghost function Revocations(): map<InstanceClient, Option<int>>
      reads this, pool, pool.clients`revoked
    {
      map c | c in pool.clients :: c.revoked
    }

    /** The pool as `next` sees it, revocations aside. */
    ghost function View(): PoolView
      reads this, pool, pool.clients`health
    {
      PoolView(pool.serviceId, pool.clients, pool.fallback, pool.weightings, map c | c in pool.clients :: c.CurrentState())
    }

    /**
     * The supplier of an attempt, `pool.next(minimumState)` at instant `now`,
     * described through the snapshot `view` of the pool.
     */
    method Supply(now: int, fraction: real, ghost view: PoolView)
      returns (next: Result<InstanceClient, Fault>, ghost listing: seq<InstanceClient>)
      requires 0.0 <= fraction < 1.0 && view == View()
      ensures next.Failure? ==> view.Refusal(minimumState, next.error)
      ensures next.Success? && view.clients != {} ==> next.value in view.Meeting(minimumState)
      ensures next.Success? && view.clients == {} ==>
        && view.fallback.Some? && fresh(next.value)
        && next.value.key == ServiceKey(view.serviceId, view.fallback.value.host, view.fallback.value.port)
      ensures next.Success? && pool.Available(minimumState, now) != {} ==>
        next.value in pool.Available(minimumState, now)
      ensures view.clients != {} && view.Meeting(minimumState) != {} ==>
        && Lists(listing, pool.Eligible(minimumState, now))
        && view.Picks(listing, fraction, if next.Success? then Some(next.value) else None)
    {
      next, listing := pool.Next(minimumState, now, fraction);
      assert pool.Meeting(minimumState) == view.Meeting(minimumState);
      if view.clients != {} && view.Meeting(minimumState) != {} {
        var ws := Weights(listing, pool.weightings);
        forall i | 0 <= i < |listing| ensures ws[i] == view.WeightsOf(listing)[i] {
          assert listing[i] in pool.Eligible(minimumState, now);
        }
        assert ws == view.WeightsOf(listing);
      }
    }

    /**
     * The action on the supplied client; on a failure of a `revokeOn` kind
     * the client is revoked for that kind's period from `now`.
     */
    method Run<T>(client: InstanceClient, k: nat, action: (ServiceKey, nat) -> Outcome<T>, now: int)
      returns (outcome: Outcome<T>, revokedFor: Option<int>)
      modifies client`revoked
      ensures outcome == action(client.key, k)
      ensures revokedFor.Some? <==> outcome.Threw? && Revokes(revokeOn, outcome.fault)
      ensures revokedFor.Some? ==>
        exists cause :: cause in revokeOn && IsInstance(cause, outcome.fault.cls) && revokeOn[cause] == revokedFor.value
      ensures client.revoked == if revokedFor.Some? then Some(now + revokedFor.value) else old(client.revoked)
    {
      outcome := action(client.key, k);
      revokedFor := None;
      if outcome.Threw? && exists cause :: cause in revokeOn && IsInstance(cause, outcome.fault.cls) {
        var cause :| cause in revokeOn && IsInstance(cause, outcome.fault.cls);
        client.Revoke(now, revokeOn[cause]);
        revokedFor := Some(revokeOn[cause]);
      }
    }

    /**
     * One attempt at instant `now` with the random value `fraction`, on the
     * pool `view`: the body of the callable in `observe`.
     */
    method Try<T>(k: nat, action: (ServiceKey, nat) -> Outcome<T>, now: int, fraction: real, ghost view: PoolView)
      returns (a: Attempt<T>, ghost listing: seq<InstanceClient>)
      requires 0.0 <= fraction < 1.0 && view == View()
      modifies pool.clients`revoked
      ensures Served(a, k, now, action, view, minimumState, revokeOn)
      ensures a.Supplied? && old(pool.Available(minimumState, now)) != {} ==>
        a.client in old(pool.Available(minimumState, now))
      ensures forall c :: c in pool.clients ==>
        c.revoked == if a.Supplied? && a.client == c && a.revokedFor.Some? then Some(now + a.revokedFor.value)
                     else old(c.revoked)
      ensures view.clients != {} && view.Meeting(minimumState) != {} ==>
        Lists(listing, old(pool.Eligible(minimumState, now))) && view.Picks(listing, fraction, a.Client())
    {
      var next;
      next, listing := Supply(now, fraction, view);
      if next.Failure? {
        return Unavailable(next.error), listing;
      }
      var outcome, revokedFor := Run(next.value, k, action, now);
      a := Supplied(next.value, now, outcome, revokedFor);
    }

    /**
     * Attempt `k` at instant `clock(k)` with the draw `draws(k)`, after the
     * attempts of `trace`: `Try` on the pool those attempts left, which
     * revokes no pool client but its own.
     */
    method TryAfter<T>(k: nat, action: (ServiceKey, nat) -> Outcome<T>, clock: nat -> int, draws: nat -> real,
                       ghost trace: seq<Attempt<T>>, ghost view: PoolView, ghost initial: map<InstanceClient, Option<int>>)
      returns (a: Attempt<T>, ghost listing: seq<InstanceClient>)
      requires |trace| == k && 0.0 <= draws(k) < 1.0 && view == View()
      requires forall c :: c in pool.clients ==> c in initial && c.revoked == RevokedAfter(trace, c, initial[c])
      modifies pool.clients`revoked
      ensures Served(a, k, clock(k), action, view, minimumState, revokeOn)
      ensures Drew(a, k, trace, listing, clock, draws, view, minimumState, initial)
      ensures a.Supplied? && LiveAfter(view, minimumState, trace, initial, clock(k)) != {} ==>
        a.client in LiveAfter(view, minimumState, trace, initial, clock(k))
      ensures forall c :: c in pool.clients ==> c.revoked == RevokedAfter(trace + [a], c, initial[c])
    {
      EligibleNow(trace, view, initial, clock(k));
      a, listing := Try(k, action, clock(k), draws(k), view);
      forall c | c in initial ensures RevokedAfter(trace + [a], c, initial[c]) ==
        if a.Supplied? && a.client == c && a.revokedFor.Some? then Some(a.at + a.revokedFor.value)
        else RevokedAfter(trace, c, initial[c])
      {
        RevokedAfterStep(trace, a, c, initial[c]);
      }
    }

    /**
     * Attempt `k` of the loop, after the attempts of `trace`: it follows the
     * supplier and the action.
     */
    method Step<T>(k: nat, action: (ServiceKey, nat) -> Outcome<T>, clock: nat -> int, draws: nat -> real,
                   ghost trace: seq<Attempt<T>>, ghost view: PoolView, ghost initial: map<InstanceClient, Option<int>>)
      returns (a: Attempt<T>, ghost listing: seq<InstanceClient>)
      requires |trace| == k && 0.0 <= draws(k) < 1.0 && view == View()
      requires forall c :: c in pool.clients ==> c in initial && c.revoked == RevokedAfter(trace, c, initial[c])
      modifies pool.clients`revoked
      ensures Attempted(a, k, trace, action, clock, view, minimumState, revokeOn, initial)
      ensures Drew(a, k, trace, listing, clock, draws, view, minimumState, initial)
      ensures forall c :: c in pool.clients ==> c.revoked == RevokedAfter(trace + [a], c, initial[c])
    {
      ghost var live := LiveAfter(view, minimumState, trace, initial, clock(k));
      a, listing := TryAfter(k, action, clock, draws, trace, view, initial);
      if a.Supplied? && exists c :: c in view.Meeting(minimumState) && c in initial
                                     && !RevokedAt(RevokedAfter(trace, c, initial[c]), a.at) {
        var c :| c in view.Meeting(minimumState) && c in initial
                 && !RevokedAt(RevokedAfter(trace, c, initial[c]), a.at);
        assert c in live;
      }
    }

    /** Between attempts, the pool's live and eligible clients are the ones the attempts so far leave. */
    lemma EligibleNow<T>(trace: seq<Attempt<T>>, view: PoolView, initial: map<InstanceClient, Option<int>>, now: int)
      requires view == View()
      requires forall c :: c in pool.clients ==> c in initial && c.revoked == RevokedAfter(trace, c, initial[c])
      ensures pool.Available(minimumState, now) == LiveAfter(view, minimumState, trace, initial, now)
      ensures pool.Eligible(minimumState, now) == EligibleAfter(view, minimumState, trace, initial, now)
    {
      assert pool.Meeting(minimumState) == view.Meeting(minimumState);
    }

    /** Attempt `k` appended to `trace`: every attempt so far followed the pool. */
    method Advance<T>(k: nat, action: (ServiceKey, nat) -> Outcome<T>, clock: nat -> int, draws: nat -> real,
                      ghost trace: seq<Attempt<T>>, ghost listings: seq<seq<InstanceClient>>, ghost view: PoolView,
                      ghost initial: map<InstanceClient, Option<int>>)
      returns (a: Attempt<T>, ghost listing: seq<InstanceClient>)
      requires |trace| == k && |listings| == k && 0.0 <= draws(k) < 1.0 && view == View()
      requires forall c :: c in pool.clients ==> c in initial && c.revoked == RevokedAfter(trace, c, initial[c])
      requires forall i :: 0 <= i < k ==> Followed(trace, i, action, clock, view, minimumState, revokeOn, initial)
      requires forall i :: 0 <= i < k ==> DrewAt(trace, listings, i, clock, draws, view, minimumState, initial)
      modifies pool.clients`revoked
      ensures forall i :: 0 <= i <= k ==> Followed(trace + [a], i, action, clock, view, minimumState, revokeOn, initial)
      ensures forall i :: 0 <= i <= k ==>
        DrewAt(trace + [a], listings + [listing], i, clock, draws, view, minimumState, initial)
      ensures forall c :: c in pool.clients ==> c.revoked == RevokedAfter(trace + [a], c, initial[c])
    {
      a, listing := Step(k, action, clock, draws, trace, view, initial);
      assert (trace + [a])[..k] == trace && (listings + [listing])[k] == listing;
      forall i | 0 <= i < k
        ensures Followed(trace + [a], i, action, clock, view, minimumState, revokeOn, initial)
        ensures DrewAt(trace + [a], listings + [listing], i, clock, draws, view, minimumState, initial)
      {
        FollowedExtends(trace, a, i, action, clock, view, minimumState, revokeOn, initial);
        DrewExtends(trace, listings, a, listing, i, clock, draws, view, minimumState, initial);
      }
    }

    /**
     * `execute(action)`: attempts until one succeeds, the failure is fatal
     * (rethrown by the reactive runtime without retry) or of a `breakOn`
     * kind, or `attempts` retries have been made, and emits what
     * the last attempt produced, a failure as `observe` emits it.
     * `listings[i]` is the listing of eligible clients attempt `i` drew
     * from, and `waits[i]` is the pause before retry `i + 1`.
     */
    method Execute<T>(action: (ServiceKey, nat) -> Outcome<T>, clock: nat -> int, draws: nat -> real)
      returns (result: Result<T, Fault>, ghost trace: seq<Attempt<T>>, ghost listings: seq<seq<InstanceClient>>,
               ghost waits: seq<real>)
      requires forall k: nat :: 0.0 <= draws(k) < 1.0
      modifies pool.clients`revoked
      ensures 1 <= |trace| && (|trace| == 1 || |trace| <= attempts + 1)
      ensures result == trace[|trace| - 1].Emitted()
      ensures forall i :: 0 <= i < |trace| - 1 ==>
        trace[i].Raised().Some? && !Fatal(trace[i].Raised().value) && !MatchesAny(breakOn, trace[i].Raised().value)
      ensures result.Failure? ==> |trace| - 1 >= attempts || Fatal(result.error) || MatchesAny(breakOn, result.error)
      ensures |listings| == |trace|
      ensures forall i :: 0 <= i < |trace| ==>
        Followed(trace, i, action, clock, old(View()), minimumState, revokeOn, old(Revocations()))
      ensures forall i :: 0 <= i < |trace| ==>
        DrewAt(trace, listings, i, clock, draws, old(View()), minimumState, old(Revocations()))
      ensures forall c :: c in pool.clients ==> c.revoked == RevokedAfter(trace, c, old(c.revoked))
      ensures |waits| == |trace| - 1
      ensures forall i :: 0 <= i < |waits| ==> waits[i] == BackoffDelay(retryInterval, backoffFactor, i)
    {
      ghost var view := View();
      ghost var initial := Revocations();
      trace := [];
      listings := [];
      waits := [];
      var k: nat := 0;
      while true
        invariant |trace| == k && |listings| == k && |waits| == k
        invariant k == 0 || k <= attempts
        invariant forall i :: 0 <= i < k ==>
          trace[i].Raised().Some? && !Fatal(trace[i].Raised().value) && !MatchesAny(breakOn, trace[i].Raised().value)
        invariant View() == view
        invariant forall i :: 0 <= i < k ==> Followed(trace, i, action, clock, view, minimumState, revokeOn, initial)
        invariant forall i :: 0 <= i < k ==> DrewAt(trace, listings, i, clock, draws, view, minimumState, initial)
        invariant forall c :: c in pool.clients ==> c in initial && c.revoked == RevokedAfter(trace, c, initial[c])
        invariant forall i :: 0 <= i < k ==> waits[i] == BackoffDelay(retryInterval, backoffFactor, i)
        decreases attempts - k
      {
        var a;
        ghost var listing;
        a, listing := Advance(k, action, clock, draws, trace, listings, view, initial);
        trace := trace + [a];
        listings := listings + [listing];
        var failure := a.Raised();
        if failure.None? || k >= attempts || Fatal(failure.value) || MatchesAny(breakOn, failure.value) {
          return a.Emitted(), trace, listings, waits;
        }
        waits := waits + [BackoffDelay(retryInterval, backoffFactor, k)];
        k := k + 1;
      }
    }
  }

  /** `pool.retry(minimumState, attempts)`: a policy whose supplier is `pool.next(minimumState)`. */
  method RetryAtLeast(pool: ClientPool, minimumState: State, attempts: int) returns (policy: RequestRetryPolicy)
    ensures fresh(policy)
    ensures policy.pool == pool && policy.minimumState == minimumState && policy.attempts == attempts
    ensures policy.revokeOn == map[] && policy.breakOn == {}
    ensures policy.retryInterval == DefaultRetryInterval && policy.backoffFactor == DefaultBackoffFactor
  {
    policy := new RequestRetryPolicy(attempts, pool, minimumState);
  }

  /** `pool.retry(attempts)`: the same with the default minimum state, WARN. */
  method Retry(pool: ClientPool, attempts: int) returns (policy: RequestRetryPolicy)
    ensures fresh(policy)
    ensures policy.pool == pool && policy.minimumState == WARN && policy.attempts == attempts
    ensures policy.revokeOn == map[] && policy.breakOn == {}
    ensures policy.retryInterval == DefaultRetryInterval && policy.backoffFactor == DefaultBackoffFactor
  {
    policy := RetryAtLeast(pool, DefaultMinimumState, attempts);
  }

  /**
   * Two passing instances; the action fails with a `ServerErrorException`
   * on the one at port 1234 and succeeds on the other; the policy allows 3
   * retries and revokes on `ServerErrorException` for 5 minutes. Whichever
   * instance the pool hands out first, the call succeeds within two
   * attempts; if the failing instance came first it was revoked once, for
   * 300000 ms, and the second attempt went to the other instance.
   */
  method RevocationScenario() returns (result: Result<string, Fault>, ghost trace: seq<Attempt<string>>)
    ensures result == Success("success!")
    ensures |trace| == 1 || |trace| == 2
    ensures |trace| == 2 ==>
      && trace[0].Supplied? && trace[0].client.key.port == 1234 && trace[0].revokedFor == Some(300000)
      && trace[1].Supplied? && trace[1].client.key.port == 5678 && trace[1].revokedFor == None
    ensures |trace| == 1 ==> trace[0].Supplied? && trace[0].client.key.port == 5678
  {
    var policy, c1, c2 := RevocationPolicy();
    var unavailable := Fault(ServerErrorException, "HTTP 503 Service Unavailable");
    var action := (key: ServiceKey, k: nat) => if key == ServiceKey("test", "localhost", 1234) then Threw(unavailable) else Returned("success!");
    ghost var view := policy.View();
    ghost var initial := policy.Revocations();
    ghost var listings, waits;
    var clock := (k: nat) => 0;
    var draws := (k: nat) => 0.0;
    result, trace, listings, waits := policy.Execute(action, clock, draws);
    RevocationTrace(trace, result, action, clock, view, policy.revokeOn, initial, c1, c2, unavailable);
  }

  /** The policy of `RevocationScenario`: `pool.retry(3).revokeOn(ServerErrorException.class, 5, MINUTES)`. */
  method RevocationPolicy() returns (policy: RequestRetryPolicy, ghost c1: InstanceClient, ghost c2: InstanceClient)
    ensures fresh(policy) && fresh(policy.pool) && fresh(c1) && fresh(c2)
    ensures c1 != c2 && c1.key == ServiceKey("test", "localhost", 1234) && c2.key == ServiceKey("test", "localhost", 5678)
    ensures policy.View().clients == {c1, c2} && policy.View().Meeting(WARN) == {c1, c2}
    ensures NonNegativeWeightings(policy.View().weightings)
    ensures policy.Revocations() == map[c1 := None, c2 := None]
    ensures policy.revokeOn == map[ServerErrorException := 300000]
    ensures policy.attempts == 3 && policy.minimumState == WARN && policy.breakOn == {}
  {
    var pool;
    pool, c1, c2 := TwoPassingInstances();
    policy := Retry(pool, 3);
    policy := policy.RevokeOn(ServerErrorException, 5, MINUTES);
    assert policy.View().Meeting(WARN) == {c1, c2} by {
      assert c1.CurrentState() == PASS && c2.CurrentState() == PASS;
    }
  }

  /** The pool of `RevocationScenario`: instances at ports 1234 and 5678, both passing, neither revoked. */
  method TwoPassingInstances() returns (pool: ClientPool, ghost c1: InstanceClient, ghost c2: InstanceClient)
    ensures fresh(pool) && fresh(c1) && fresh(c2) && pool.serviceId == "test"
    ensures pool.clients == {c1, c2} && c1 != c2
    ensures c1.key == ServiceKey("test", "localhost", 1234) && c2.key == ServiceKey("test", "localhost", 5678)
    ensures c1.CurrentState() == PASS && c2.CurrentState() == PASS
    ensures c1.revoked == None && c2.revoked == None
    ensures NonNegativeWeightings(pool.weightings)
  {
    var passing := ServiceHealth([HealthCheck(SerfHealth, PASS), HealthCheck("service:test", PASS)]);
    PassingHealth(passing);
    var k1 := ServiceKey("test", "localhost", 1234);
    var k2 := ServiceKey("test", "localhost", 5678);
    pool := new ClientPool("test");
    pool.Notify(map[k1 := passing, k2 := passing]);
    assert k1 in pool.Keys() && k2 in pool.Keys();
    c1 :| c1 in pool.clients && c1.key == k1;
    c2 :| c2 in pool.clients && c2.key == k2;
    assert pool.clients == {c1, c2};
  }

  /** The reasoning of `RevocationScenario` over what `Execute` promises about its attempts. */
  lemma {:induction false} RevocationTrace(trace: seq<Attempt<string>>, result: Result<string, Fault>,
                                           action: (ServiceKey, nat) -> Outcome<string>, clock: nat -> int,
                                           view: PoolView, revokeOn: map<ExceptionClass, int>,
                                           initial: map<InstanceClient, Option<int>>,
                                           c1: InstanceClient, c2: InstanceClient, unavailable: Fault)
    requires c1 != c2 && c1.key.port == 1234 && c2.key.port == 5678
    requires view.clients == {c1, c2} && view.Meeting(WARN) == {c1, c2} && NonNegativeWeightings(view.weightings)
    requires revokeOn == map[ServerErrorException := 300000] && unavailable.cls == ServerErrorException
    requires c1 in initial && c2 in initial && initial[c1] == None && initial[c2] == None
    requires forall k: nat :: clock(k) == 0
    requires forall k: nat :: action(c1.key, k) == Threw(unavailable) && action(c2.key, k) == Returned("success!")
    requires 1 <= |trace| && result == trace[|trace| - 1].Emitted()
    requires forall i :: 0 <= i < |trace| - 1 ==> trace[i].Raised().Some?
    requires result.Failure? ==> |trace| - 1 >= 3 || Fatal(result.error)
    requires forall i :: 0 <= i < |trace| ==> Followed(trace, i, action, clock, view, WARN, revokeOn, initial)
    ensures result == Success("success!")
    ensures |trace| == 1 || |trace| == 2
    ensures |trace| == 2 ==>
      && trace[0].Supplied? && trace[0].client.key.port == 1234 && trace[0].revokedFor == Some(300000)
      && trace[1].Supplied? && trace[1].client.key.port == 5678 && trace[1].revokedFor == None
    ensures |trace| == 1 ==> trace[0].Supplied? && trace[0].client.key.port == 5678
  {
    assert Followed(trace, 0, action, clock, view, WARN, revokeOn, initial);
    assert trace[0].Supplied? && trace[0].client in {c1, c2};
    if trace[0].client == c1 {
      assert trace[0].outcome == Threw(unavailable);
      assert Revokes(revokeOn, unavailable) by {
        assert IsInstance(ServerErrorException, unavailable.cls);
      }
      assert !Fatal(unavailable);
      assert |trace| != 1;
      assert Followed(trace, 1, action, clock, view, WARN, revokeOn, initial);
      assert trace[..1] == [trace[0]];
      assert RevokedAfter(trace[..1], c2, initial[c2]) == None by {
        assert trace[..1][..0] == [];
      }
      assert RevokedAt(RevokedAfter(trace[..1], c1, initial[c1]), 0);
      assert trace[1].client == c2;
    }
  }

  /** A node check and a service check, both passing, make the instance PASS. */
  lemma PassingHealth(h: ServiceHealth)
    requires h == ServiceHealth([HealthCheck(SerfHealth, PASS), HealthCheck("service:test", PASS)])
    ensures DeriveState(Some(h)) == PASS
  {
    var checks := h.checks;
    assert SerfState(checks) == PASS;
    assert checks[1].status in ServiceStates(checks);
    assert ServiceStates(checks) == {PASS};
  }
}
