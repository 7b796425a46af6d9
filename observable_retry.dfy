/**
 * `ObservableHttpRetry`: the retry decider handed to `retryWhen`. For each
 * error of the stream it either grants a retry, after a fixed pause of
 * `retryInterval` milliseconds, and counts one retry down, or passes the
 * error on. The `CountDownLatch` is a natural-number field; the RxJava
 * stream of errors is a sequence processed in order.
 */
module ObservableRetry {
  import opened Faults

  /** What `call` emits for one error: a timer of `delay` ms, or the error itself. */
  datatype Decision = Retry(delay: int) | Rethrow(error: Fault)

  /**
   * The decision for `error` with `remaining` retries left, and the count
   * left afterwards: a retry only while some are left and no `breakOn`
   * kind matches.
   */
  function Decide(remaining: nat, interval: int, breakOn: set<ExceptionClass>, error: Fault): (Decision, nat)
  {
    if remaining > 0 && !MatchesAny(breakOn, error) then (Retry(interval), remaining - 1)
    else (Rethrow(error), remaining)
  }

  /** The decisions for a stream of errors, and the count left at its end. */
  function Decisions(remaining: nat, interval: int, breakOn: set<ExceptionClass>, errors: seq<Fault>)
    : (r: (seq<Decision>, nat))
    ensures |r.0| == |errors|
  {
    if errors == [] then ([], remaining)
    else
      var (d, left) := Decide(remaining, interval, breakOn, errors[0]);
      var (rest, final) := Decisions(left, interval, breakOn, errors[1..]);
      ([d] + rest, final)
  }

  /** How many retries `decisions` grants. */
  function Granted(decisions: seq<Decision>): nat
  {
    if decisions == [] then 0
    else (if decisions[0].Retry? then 1 else 0) + Granted(decisions[1..])
  }

  /**
   * Each grant counts down by exactly one and nothing else does: the
   * retries granted are what the count lost, so never more than it started
   * with, and the count never goes below zero.
   */
  lemma {:induction false} GrantedIsCountedDown(remaining: nat, interval: int, breakOn: set<ExceptionClass>,
                                                errors: seq<Fault>)
    ensures var (ds, final) := Decisions(remaining, interval, breakOn, errors);
      final <= remaining && Granted(ds) == remaining - final
  {
    if errors != [] {
      var (d, left) := Decide(remaining, interval, breakOn, errors[0]);
      GrantedIsCountedDown(left, interval, breakOn, errors[1..]);
      var (ds, final) := Decisions(remaining, interval, breakOn, errors);
      assert ds[1..] == Decisions(left, interval, breakOn, errors[1..]).0;
    }
  }

  /**
   * Every grant waits the same fixed interval (there is no backoff), and
   * every refusal passes on the very error it was given.
   */
  lemma {:induction false} DecisionsShape(remaining: nat, interval: int, breakOn: set<ExceptionClass>,
                                          errors: seq<Fault>)
    ensures var ds := Decisions(remaining, interval, breakOn, errors).0;
      forall i :: 0 <= i < |ds| ==>
        (ds[i].Retry? ==> ds[i].delay == interval) && (ds[i].Rethrow? ==> ds[i].error == errors[i])
  {
    if errors != [] {
      var left := Decide(remaining, interval, breakOn, errors[0]).1;
      DecisionsShape(left, interval, breakOn, errors[1..]);
      var ds := Decisions(remaining, interval, breakOn, errors).0;
      assert ds[1..] == Decisions(left, interval, breakOn, errors[1..]).0;
      forall i | 1 <= i < |ds|
        ensures (ds[i].Retry? ==> ds[i].delay == interval) && (ds[i].Rethrow? ==> ds[i].error == errors[i])
      {
        assert ds[i] == ds[1..][i - 1] && errors[i] == errors[1..][i - 1];
      }
    }
  }

  /**
   * With no error of a `breakOn` kind, the first `remaining` errors are
   * retried and every later one is passed on.
   */
  lemma {:induction false} RetriesFirstErrors(remaining: nat, interval: int, breakOn: set<ExceptionClass>,
                                              errors: seq<Fault>)
    requires forall i :: 0 <= i < |errors| ==> !MatchesAny(breakOn, errors[i])
    ensures var ds := Decisions(remaining, interval, breakOn, errors).0;
      forall i :: 0 <= i < |ds| ==> (ds[i].Retry? <==> i < remaining)
  {
    if errors != [] {
      var left := Decide(remaining, interval, breakOn, errors[0]).1;
      assert !MatchesAny(breakOn, errors[0]);
      RetriesFirstErrors(left, interval, breakOn, errors[1..]);
      var ds := Decisions(remaining, interval, breakOn, errors).0;
      assert ds[1..] == Decisions(left, interval, breakOn, errors[1..]).0;
      forall i | 1 <= i < |ds| ensures ds[i].Retry? <==> i < remaining {
        assert ds[i] == ds[1..][i - 1];
      }
    }
  }

  /** An error of a `breakOn` kind is always passed on, whatever the count. */
  lemma {:induction false} BreakKindsNeverRetried(remaining: nat, interval: int, breakOn: set<ExceptionClass>,
                                                  errors: seq<Fault>)
    ensures var ds := Decisions(remaining, interval, breakOn, errors).0;
      forall i :: 0 <= i < |ds| && MatchesAny(breakOn, errors[i]) ==> ds[i] == Rethrow(errors[i])
  {
    if errors != [] {
      var left := Decide(remaining, interval, breakOn, errors[0]).1;
      BreakKindsNeverRetried(left, interval, breakOn, errors[1..]);
      var ds := Decisions(remaining, interval, breakOn, errors).0;
      assert ds[1..] == Decisions(left, interval, breakOn, errors[1..]).0;
      forall i | 1 <= i < |ds| && MatchesAny(breakOn, errors[i]) ensures ds[i] == Rethrow(errors[i]) {
        assert ds[i] == ds[1..][i - 1] && errors[i] == errors[1..][i - 1];
      }
    }
  }

  /** The decisions from position `i` on: the decision for `errors[i]`, then those after it. */
  lemma DecisionsUnfold(remaining: nat, interval: int, breakOn: set<ExceptionClass>, errors: seq<Fault>, i: nat)
    requires i < |errors|
    ensures var (d, left) := Decide(remaining, interval, breakOn, errors[i]);
      var rest := Decisions(left, interval, breakOn, errors[i + 1..]);
      Decisions(remaining, interval, breakOn, errors[i..]) == ([d] + rest.0, rest.1)
  {
    assert errors[i..][0] == errors[i] && errors[i..][1..] == errors[i + 1..];
  }

  lemma Associative<X>(a: seq<X>, b: seq<X>, c: seq<X>)
    ensures (a + b) + c == a + (b + c)
  {
  }

  class ObservableHttpRetry {
    const retryInterval: int
    const breakOn: set<ExceptionClass>
    var retries: nat

    /** `new ObservableHttpRetry(retries, retryInterval, breakOn)`. */
    constructor (retries: nat, retryInterval: int, breakOn: set<ExceptionClass>)
      ensures this.retries == retries && this.retryInterval == retryInterval && this.breakOn == breakOn
    {
      this.retries := retries;
      this.retryInterval := retryInterval;
      this.breakOn := breakOn;
    }

    /** `call(errors)`: one decision per error of the stream, in order, counting the latch down. */
    method Call(errors: seq<Fault>) returns (decisions: seq<Decision>)
      modifies this`retries
      ensures (decisions, retries) == Decisions(old(retries), retryInterval, breakOn, errors)
    {
      ghost var total := Decisions(retries, retryInterval, breakOn, errors);
      decisions := [];
      assert errors[0..] == errors;
      for i := 0 to |errors|
        invariant var rest := Decisions(retries, retryInterval, breakOn, errors[i..]);
          decisions + rest.0 == total.0 && rest.1 == total.1
      {
        DecisionsUnfold(retries, retryInterval, breakOn, errors, i);
        ghost var rest := Decisions(Decide(retries, retryInterval, breakOn, errors[i]).1, retryInterval, breakOn,
                                    errors[i + 1..]);
        ghost var prev := decisions;
        ghost var d := Decide(retries, retryInterval, breakOn, errors[i]).0;
        var th := errors[i];
        if retries > 0 && !MatchesAny(breakOn, th) {
          retries := retries - 1;
          decisions := decisions + [Retry(retryInterval)];
        } else {
          decisions := decisions + [Rethrow(th)];
        }
        Associative(prev, [d], rest.0);
      }
      assert errors[|errors|..] == [];
      assert decisions + [] == decisions;
    }
  }
}
