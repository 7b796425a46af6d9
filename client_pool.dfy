/**
 * `ConsulJaxRsClientPool`: the live set of instance clients for one Consul
 * service, reconciled from discovery snapshots, with weighted selection of
 * a client that meets a minimum health state. The Consul cache and its
 * listener thread are not modelled: a snapshot is handed to `Notify`.
 */
module Pool {
  import opened Wrappers
  import opened Faults
  import opened Instances
  import opened WeightedRandomizer

  /** Host and port of the fallback URI (`URI.getPort()` is -1 when the URI names no port). */
  datatype FallbackUri = FallbackUri(host: string, port: int)

  /** `defaultWeightings()`: PASS 1.0, WARN 0.5 and FAIL 0.1. */
  function DefaultWeightings(): (w: map<State, real>)
    ensures w.Keys == {PASS, WARN, FAIL}
    ensures forall s :: s in w ==> w[s] > 0.0
    ensures w[PASS] == 1.0 && w[WARN] == 0.5 && w[FAIL] == 0.1
    ensures w[PASS] > w[WARN] > w[FAIL]
  {
    map[PASS := 1.0, WARN := 0.5, FAIL := 0.1]
  }

  /** No configured weight is negative. */
  predicate NonNegativeWeightings(weightings: map<State, real>)
  {
    forall s :: s in weightings ==> weightings[s] >= 0.0
  }

  /** A `ClientAvailabilityException(serviceId, reason)`. */
  function AvailabilityFault(serviceId: string, reason: string): Fault
  {
    Fault(ClientAvailabilityException, "[ Service ID: " + serviceId + " ] - " + reason)
  }

  const NoInstancesReason: string := "No instances published and no fallback provided."

  /** Reason given when no client, revoked or not, meets `minimum`. */
  function NoEligibleReason(minimum: State): string
  {
    "No instances (including revoked) available of at least [ " + StateName(minimum) + " ] state available."
  }

  /** The minimum state `next()` and `retry(attempts)` use. */
  const DefaultMinimumState: State := WARN

  /** The weights of the clients as the lottery sees them are never negative. */
  lemma {:induction false} WeightsNonNegative(clients: seq<InstanceClient>, weightings: map<State, real>)
    requires NonNegativeWeightings(weightings)
    ensures NonNegative(Weights(clients, weightings))
  {
    var ws := Weights(clients, weightings);
    forall i | 0 <= i < |ws| ensures ws[i] >= 0.0 {
      assert ws[i] == WeightOf(weightings, clients[i].CurrentState());
    }
  }

  /** Lists a set in some order: the iteration order of a `HashSet`, which Java leaves unspecified. */
  method Enumerate(s: set<InstanceClient>) returns (q: seq<InstanceClient>)
    ensures forall c :: c in q <==> c in s
    ensures |q| == |s|
  {
    q := [];
    var rest := s;
    while rest != {}
      invariant rest <= s
      invariant forall c :: c in q <==> c in s - rest
      invariant |q| + |rest| == |s|
      decreases rest
    {
      var c :| c in rest;
      q := q + [c];
      rest := rest - {c};
    }
  }

  /** `q` lists the set `s`, each member exactly once. */
  ghost predicate Lists(q: seq<InstanceClient>, s: set<InstanceClient>)
  {
    && |q| == |s|
    && (forall c :: c in q ==> c in s)
    && (forall c :: c in s ==> c in q)
  }

  /** The keys of a set of clients. */
  ghost function KeysOf(s: set<InstanceClient>): set<ServiceKey>
  {
    set c | c in s :: c.key
  }

  /** Adding a client adds its key. */
  lemma KeysOfAdd(s: set<InstanceClient>, c: InstanceClient)
    ensures KeysOf(s + {c}) == KeysOf(s) + {c.key}
  {
    assert c.key in KeysOf(s + {c});
  }

  class ClientPool {
    const serviceId: string
    var fallback: Option<FallbackUri>
    var scheme: HttpMode
    var clients: set<InstanceClient>
    var weightings: map<State, real>

    /** No two clients share a key. */
    ghost predicate Valid()
      reads this
    {
      forall c, d :: c in clients && d in clients && c.key == d.key ==> c == d
    }

    /** The keys of the live clients. */
    ghost function Keys(): set<ServiceKey>
      reads this
    {
      KeysOf(clients)
    }

    /** Clients that meet `minimum`, revoked or not. */
    function Meeting(minimum: State): set<InstanceClient>
      reads this, clients`health
    {
      set c | c in clients && c.IsAtLeast(minimum)
    }

    /** Clients that meet `minimum` and are not revoked at `now`. */
    function Available(minimum: State, now: int): set<InstanceClient>
      reads this, clients`health, clients`revoked
    {
      set c | c in clients && c.IsAtLeast(minimum) && !c.IsRevoked(now)
    }

    /**
     * The clients the lottery of `next(minimum)` runs over: those available
     * at `now`, or, when every eligible client is revoked, all of them.
     */
    function Eligible(minimum: State, now: int): set<InstanceClient>
      reads this, clients`health, clients`revoked
    {
      if Available(minimum, now) != {} then Available(minimum, now) else Meeting(minimum)
    }

    constructor (serviceId: string)
      ensures this.serviceId == serviceId
      ensures clients == {} && fallback == None && scheme == HTTPS
      ensures weightings == DefaultWeightings()
      ensures Valid()
    {
      this.serviceId := serviceId;
      fallback := None;
      scheme := HTTPS;
      clients := {};
      weightings := DefaultWeightings();
    }

    /** `withFallbackInstance(uri)`. */
    method WithFallbackInstance(uri: FallbackUri) returns (self: ClientPool)
      modifies this`fallback
      ensures self == this && fallback == Some(uri)
    {
      fallback := Some(uri);
      self := this;
    }

    /** `useHttpMode(scheme)`. */
    method UseHttpMode(mode: HttpMode) returns (self: ClientPool)
      modifies this`scheme
      ensures self == this && scheme == mode
    {
      scheme := mode;
      self := this;
    }

    /** `withStateWeightingOf(state, weighting)`: overrides the weight of `state` only. */
    method WithStateWeightingOf(state: State, weighting: real) returns (self: ClientPool)
      modifies this`weightings
      ensures self == this && weightings == old(weightings)[state := weighting]
      ensures weightings.Keys == old(weightings).Keys + {state}
      ensures forall s :: s in old(weightings) && s != state ==> weightings[s] == old(weightings)[s]
    {
      weightings := weightings[state := weighting];
      self := this;
    }

    /**
     * `next(minimum)` at instant `now`, with `fraction` standing for the
     * randomizer's `nextDouble()`. The pool itself is not changed.
     */
    method Next(minimum: State, now: int, fraction: real)
      returns (r: Result<InstanceClient, Fault>, ghost candidates: seq<InstanceClient>)
      requires 0.0 <= fraction < 1.0
      ensures clients == {} && fallback.None? ==>
        r == Failure(AvailabilityFault(serviceId, NoInstancesReason))
      ensures clients == {} && fallback.Some? ==>
        && r.Success?
        && r.value.key == ServiceKey(serviceId, fallback.value.host, fallback.value.port)
        && r.value.scheme == scheme && r.value.revoked == None && r.value.health == None
        && fresh(r.value)
      ensures clients != {} && r.Success? ==> r.value in clients && r.value.IsAtLeast(minimum)
      ensures clients != {} && r.Success? && Available(minimum, now) != {} ==> !r.value.IsRevoked(now)
      ensures clients != {} && Meeting(minimum) == {} ==>
        r == Failure(AvailabilityFault(serviceId, NoEligibleReason(minimum)))
      ensures clients != {} && Meeting(minimum) != {} && NonNegativeWeightings(weightings) ==> r.Success?
      ensures r.Failure? && clients != {} && Meeting(minimum) != {} ==> r.error == FellThrough
      ensures clients != {} && Meeting(minimum) != {} ==>
        Lists(candidates, Eligible(minimum, now)) && Drawn(r, candidates, weightings, fraction)
    {
      candidates := [];
      if clients == {} && fallback.None? {
        return Failure(AvailabilityFault(serviceId, NoInstancesReason)), candidates;
      }
      if clients == {} && fallback.Some? {
        var c := new InstanceClient(ServiceKey(serviceId, fallback.value.host, fallback.value.port), scheme);
        return Success(c), candidates;
      }
      var available := set c | c in clients && c.IsAtLeast(minimum) && !c.IsRevoked(now);
      assert available == Available(minimum, now);
      if available == {} {
        available := set c | c in clients && c.IsAtLeast(minimum);
        assert available == Meeting(minimum);
      }
      if available == {} {
        return Failure(AvailabilityFault(serviceId, NoEligibleReason(minimum))), candidates;
      }
      assert Meeting(minimum) != {} by {
        var c :| c in available;
        assert c in Meeting(minimum);
      }
      assert available == Eligible(minimum, now);
      r, candidates := Lottery(available, fraction);
      assert Meeting(minimum) != {};
    }

    /**
     * `WeightedClientRandomizer.select(available, weightings)`: the weighted
     * draw over `available` listed in some order, so a client of the
     * non-empty set `available`, never a failure unless some weight is
     * negative.
     */
    method Lottery(available: set<InstanceClient>, fraction: real)
      returns (r: Result<InstanceClient, Fault>, ghost candidates: seq<InstanceClient>)
      requires available != {} && 0.0 <= fraction < 1.0
      ensures Lists(candidates, available) && Drawn(r, candidates, weightings, fraction)
      ensures r.Success? ==> r.value in available
      ensures r.Failure? ==> r.error == FellThrough && !NonNegativeWeightings(weightings)
    {
      var listed := Enumerate(available);
      candidates := listed;
      assert |candidates| > 0 by {
        var c :| c in available;
        assert c in candidates;
      }
      ghost var ws := Weights(candidates, weightings);
      if NonNegativeWeightings(weightings) {
        WeightsNonNegative(candidates, weightings);
        SelectNeverFallsThrough(ws, fraction);
      }
      r := Select(listed, weightings, fraction);
      if r.Success? {
        assert r.value in candidates;
      }
    }

    /** `next()`: `next` with the default minimum state, WARN. */
    method NextDefault(now: int, fraction: real)
      returns (r: Result<InstanceClient, Fault>, ghost candidates: seq<InstanceClient>)
      requires 0.0 <= fraction < 1.0
      ensures clients == {} && fallback.None? ==>
        r == Failure(AvailabilityFault(serviceId, NoInstancesReason))
      ensures clients == {} && fallback.Some? ==>
        && r.Success?
        && r.value.key == ServiceKey(serviceId, fallback.value.host, fallback.value.port)
        && r.value.scheme == scheme && r.value.revoked == None && r.value.health == None
        && fresh(r.value)
      ensures clients != {} && r.Success? ==> r.value in clients && r.value.IsAtLeast(WARN)
      ensures clients != {} && r.Success? && Available(WARN, now) != {} ==> !r.value.IsRevoked(now)
      ensures clients != {} && Meeting(WARN) == {} ==>
        r == Failure(AvailabilityFault(serviceId, NoEligibleReason(WARN)))
      ensures clients != {} && Meeting(WARN) != {} && NonNegativeWeightings(weightings) ==> r.Success?
      ensures r.Failure? && clients != {} && Meeting(WARN) != {} ==> r.error == FellThrough
      ensures clients != {} && Meeting(WARN) != {} ==>
        Lists(candidates, Eligible(WARN, now)) && Drawn(r, candidates, weightings, fraction)
    {
      r, candidates := Next(DefaultMinimumState, now, fraction);
    }

    /**
     * One key of a snapshot: the live client with key `k`, if there is one,
     * otherwise a new client of the pool's scheme, updated with `h`.
     */
    method Refresh(k: ServiceKey, h: ServiceHealth) returns (client: InstanceClient)
      requires Valid()
      modifies clients`health
      ensures client.key == k && client.health == Some(h)
      ensures (exists c :: c in clients && c.key == k) ==> client in clients
      ensures client !in clients ==> fresh(client) && client.revoked == None && client.scheme == scheme
      ensures forall c :: c in clients && c != client ==> c.health == old(c.health)
    {
      if exists c :: c in clients && c.key == k {
        var previous :| previous in clients && previous.key == k;
        client := previous.Update(h);
      } else {
        client := new InstanceClient(k, scheme);
        client := client.Update(h);
      }
    }

    /**
     * The loop of `notify`: refreshes or creates one client per key of the
     * snapshot and collects them, leaving the pool's client set as it is.
     */
    method Rebuild(instances: map<ServiceKey, ServiceHealth>) returns (updated: set<InstanceClient>)
      requires Valid()
      modifies clients`health
      ensures KeysOf(updated) == instances.Keys
      ensures forall c :: c in updated ==> c.key in instances && c.health == Some(instances[c.key])
      ensures forall c, d :: c in updated && d in updated && c.key == d.key ==> c == d
      ensures forall c :: c in clients && c.key in instances ==> c in updated
      ensures forall c :: c in updated && c !in clients ==> fresh(c) && c.revoked == None && c.scheme == scheme
      ensures forall c :: c in clients && c.key !in instances ==> c.health == old(c.health)
    {
      updated := {};
      var pending := instances.Keys;
      ghost var done: set<ServiceKey> := {};
      while pending != {}
        invariant pending + done == instances.Keys && pending !! done
        invariant KeysOf(updated) == done
        invariant forall c :: c in updated ==> c.key in done && c.health == Some(instances[c.key])
        invariant forall c, d :: c in updated && d in updated && c.key == d.key ==> c == d
        invariant forall c :: c in clients && c.key in done ==> c in updated
        invariant forall c :: c in updated && c !in clients ==> fresh(c) && c.revoked == None && c.scheme == scheme
        invariant forall c :: c in clients && c.key !in done ==> c.health == old(c.health)
        decreases pending
      {
        var k :| k in pending;
        var client := Refresh(k, instances[k]);
        assert client !in updated;
        KeysOfAdd(updated, client);
        updated := updated + {client};
        pending := pending - {k};
        done := done + {k};
      }
    }

    /**
     * `notify(instances)`: rebuilds the client set from a discovery snapshot.
     * A key that was already live keeps its client object, and with it its
     * revocation; a new key gets a new, unrevoked client; every client's
     * health becomes the snapshot's; keys missing from the snapshot are
     * dropped, and their clients, which a caller may still hold, keep the
     * health they had.
     */
    method Notify(instances: map<ServiceKey, ServiceHealth>)
      requires Valid()
      modifies this`clients, clients`health
      ensures Valid()
      ensures Keys() == instances.Keys
      ensures forall c :: c in clients ==> c.key in instances && c.health == Some(instances[c.key])
      ensures forall c :: c in old(clients) && c.key in instances ==> c in clients
      ensures forall c :: c in clients && c !in old(clients) ==>
        fresh(c) && c.revoked == None && c.scheme == scheme
      ensures forall c :: c in old(clients) ==> c.revoked == old(c.revoked)
      ensures forall c :: c in old(clients) && c.key !in instances ==> c.health == old(c.health)
    {
      var updated := Rebuild(instances);
      clients := updated;
    }
  }
}
