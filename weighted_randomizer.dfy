/**
 * `WeightedClientRandomizer.select`: a weighted lottery over candidate
 * clients. The random draw is a parameter: `fraction` stands for
 * `SecureRandom.nextDouble()`, a value in [0, 1), and the draw is
 * `fraction * total`. Weights are `real`s; floating-point rounding is not
 * modelled.
 */
module WeightedRandomizer {
  import opened Wrappers
  import opened Faults
  import opened Instances

  /** Weight used for a state that has no entry in the weightings. */
  const MissingStateWeight: real := 0.1

  /** `weightings.getOrDefault(state, 0.1)`. */
  function WeightOf(weightings: map<State, real>, s: State): real
  {
    if s in weightings then weightings[s] else MissingStateWeight
  }

  /** The weight of each candidate, in iteration order. */
  function Weights(clients: seq<InstanceClient>, weightings: map<State, real>): (ws: seq<real>)
    reads clients
    ensures |ws| == |clients|
    ensures forall i :: 0 <= i < |clients| ==> ws[i] == WeightOf(weightings, clients[i].CurrentState())
  {
    if clients == [] then []
    else [WeightOf(weightings, clients[0].CurrentState())] + Weights(clients[1..], weightings)
  }

  function Sum(ws: seq<real>): real
  {
    if ws == [] then 0.0 else ws[0] + Sum(ws[1..])
  }

  /** Sum of the first `n` weights. */
  function Prefix(ws: seq<real>, n: nat): real
    requires n <= |ws|
  {
    Sum(ws[..n])
  }

  /** Cumulative weight of positions 0 through `j`. */
  function Through(ws: seq<real>, j: nat): real
    requires j < |ws|
  {
    Prefix(ws, j + 1)
  }

  predicate NonNegative(ws: seq<real>)
  {
    forall i :: 0 <= i < |ws| ==> ws[i] >= 0.0
  }

  /**
   * The lottery itself: subtract the weights from the draw `r` in order and
   * stop at the first position where what is left is at most zero.
   */
  function Pick(ws: seq<real>, r: real): (p: Option<nat>)
    ensures p.Some? ==> p.value < |ws|
  {
    if ws == [] then None
    else if r - ws[0] <= 0.0 then Some(0)
    else match Pick(ws[1..], r - ws[0])
      case None => None
      case Some(j) => Some(j + 1)
  }

  lemma {:induction false} PrefixStep(ws: seq<real>, n: nat)
    requires 0 < |ws| && n < |ws|
    ensures Prefix(ws, n + 1) == ws[0] + Prefix(ws[1..], n)
  {
    assert ws[..n + 1][1..] == ws[1..][..n];
  }

  lemma {:induction false} PrefixLast(ws: seq<real>, n: nat)
    requires n < |ws|
    ensures Prefix(ws, n + 1) == Prefix(ws, n) + ws[n]
  {
    if n == 0 {
      assert ws[..1] == [ws[0]];
      assert [ws[0]][1..] == [];
      assert ws[..0] == [];
    } else {
      PrefixStep(ws, n);
      PrefixStep(ws, n - 1);
      PrefixLast(ws[1..], n - 1);
    }
  }

  lemma {:induction false} PrefixWhole(ws: seq<real>)
    ensures Prefix(ws, |ws|) == Sum(ws)
  {
    assert ws[..|ws|] == ws;
  }

  /**
   * The lottery picks candidate `i` exactly when `i` is the first position
   * whose cumulative weight reaches the draw.
   */
  lemma {:induction false} PickIsFirstCovering(ws: seq<real>, r: real, i: nat)
    ensures Pick(ws, r) == Some(i) <==>
      i < |ws| && r <= Prefix(ws, i + 1) && forall j :: 0 <= j < i ==> Through(ws, j) < r
  {
    if ws != [] {
      PrefixStep(ws, 0);
      assert Prefix(ws[1..], 0) == 0.0;
      assert Through(ws, 0) == ws[0];
      if i > 0 {
        PickIsFirstCovering(ws[1..], r - ws[0], i - 1);
        if i < |ws| && r - ws[0] > 0.0 {
          PrefixStep(ws, i);
          if forall j :: 0 <= j < i ==> Through(ws, j) < r {
            forall j | 0 <= j < i - 1 ensures Through(ws[1..], j) < r - ws[0] {
              PrefixStep(ws, j + 1);
              assert Through(ws, j + 1) < r;
            }
          }
          if forall j :: 0 <= j < i - 1 ==> Through(ws[1..], j) < r - ws[0] {
            forall j | 0 <= j < i ensures Through(ws, j) < r {
              PrefixStep(ws, j);
              if j > 0 {
                assert Through(ws[1..], j - 1) < r - ws[0];
              }
            }
          }
        }
      }
    }
  }

  /** The lottery finds nothing exactly when every cumulative weight stays below the draw. */
  lemma {:induction false} PickNoneIff(ws: seq<real>, r: real)
    ensures Pick(ws, r) == None <==> forall j :: 0 <= j < |ws| ==> Through(ws, j) < r
  {
    if Pick(ws, r).Some? {
      var i := Pick(ws, r).value;
      PickIsFirstCovering(ws, r, i);
      assert r <= Through(ws, i);
    } else {
      forall j | 0 <= j < |ws| ensures Through(ws, j) < r {
        PickNoneBelow(ws, r, j);
      }
    }
  }

  lemma {:induction false} PickNoneBelow(ws: seq<real>, r: real, j: nat)
    requires Pick(ws, r) == None && j < |ws|
    ensures Through(ws, j) < r
  {
    PrefixStep(ws, j);
    if j == 0 {
      assert Prefix(ws[1..], 0) == 0.0;
    } else {
      PickNoneBelow(ws[1..], r - ws[0], j - 1);
    }
  }

  /** A draw no larger than the total weight always selects someone. */
  lemma {:induction false} PickTotal(ws: seq<real>, r: real)
    requires |ws| > 0 && r <= Sum(ws)
    ensures Pick(ws, r).Some?
  {
    PrefixWhole(ws);
    PickNoneIff(ws, r);
    assert Through(ws, |ws| - 1) == Sum(ws);
  }

  /**
   * With non-negative weights and a positive draw, candidate `i` is picked
   * exactly for the draws in the interval (Prefix(i), Prefix(i + 1)], whose
   * length is `i`'s weight: the chance of each candidate is proportional to
   * its weight.
   */
  lemma {:induction false} PickInterval(ws: seq<real>, r: real, i: nat)
    requires NonNegative(ws) && r > 0.0 && i < |ws|
    ensures Pick(ws, r) == Some(i) <==> Prefix(ws, i) < r <= Prefix(ws, i + 1)
    ensures Prefix(ws, i + 1) - Prefix(ws, i) == ws[i]
  {
    PickIsFirstCovering(ws, r, i);
    PrefixLast(ws, i);
    PrefixMonotone(ws);
    if Prefix(ws, i) < r <= Prefix(ws, i + 1) && i > 0 {
      forall j | 0 <= j < i ensures Through(ws, j) < r {
        assert Prefix(ws, j + 1) <= Prefix(ws, i);
      }
    }
    if Pick(ws, r) == Some(i) && i > 0 {
      assert Through(ws, i - 1) < r;
    }
    if i == 0 {
      assert ws[..0] == [];
    }
  }

  lemma {:induction false} PrefixMonotone(ws: seq<real>)
    requires NonNegative(ws)
    ensures forall a: nat, b: nat :: a <= b <= |ws| ==> Prefix(ws, a) <= Prefix(ws, b)
  {
    forall a: nat, b: nat | a <= b <= |ws| ensures Prefix(ws, a) <= Prefix(ws, b) {
      PrefixMonotoneStep(ws, a, b);
    }
  }

  lemma {:induction false} PrefixMonotoneStep(ws: seq<real>, a: nat, b: nat)
    requires NonNegative(ws) && a <= b <= |ws|
    ensures Prefix(ws, a) <= Prefix(ws, b)
    decreases b - a
  {
    if a < b {
      PrefixLast(ws, a);
      PrefixMonotoneStep(ws, a + 1, b);
    }
  }

  lemma {:induction false} SumNonNegative(ws: seq<real>)
    requires NonNegative(ws)
    ensures Sum(ws) >= 0.0
  {
    if ws != [] {
      SumNonNegative(ws[1..]);
    }
  }

  /** The lottery draw: a uniform `fraction` of [0, 1) scaled to the total weight. */
  function Draw(ws: seq<real>, fraction: real): real
  {
    fraction * Sum(ws)
  }

  /**
   * `r` is what the lottery over `candidates`, taken in that order, yields
   * for the draw `fraction`: the first candidate whose running total of
   * weights covers the draw, or a failure when none does.
   */
  ghost predicate Drawn(r: Result<InstanceClient, Fault>, candidates: seq<InstanceClient>,
                        weightings: map<State, real>, fraction: real)
    reads candidates
  {
    var ws := Weights(candidates, weightings);
    var p := Pick(ws, Draw(ws, fraction));
    && (r.Success? <==> p.Some?)
    && (r.Success? ==> p.Some? && r.value == candidates[p.value])
  }

  /** The fault `select` throws when the loop falls through. */
  const FellThrough: Fault := Fault(UnknownError, "We should never have reached this point!!!")

  /**
   * `select(clients, weightings)` with the random value `fraction`: the
   * client the lottery picks, or the `UnknownError` when it picks no one.
   */
  method Select(clients: seq<InstanceClient>, weightings: map<State, real>, fraction: real)
    returns (chosen: Result<InstanceClient, Fault>)
    requires 0.0 <= fraction < 1.0
    ensures var ws := Weights(clients, weightings);
      var p := Pick(ws, Draw(ws, fraction));
      && (chosen.Success? <==> p.Some?)
      && (chosen.Success? ==> p.Some? && chosen.value == clients[p.value])
      && (chosen.Failure? ==> chosen.error == FellThrough)
  {
    ghost var ws := Weights(clients, weightings);
    var totalWeight := Sum(Weights(clients, weightings));
    var random := fraction * totalWeight;
    ghost var draw := random;
    assert draw == Draw(ws, fraction);
    for i := 0 to |clients|
      invariant random == draw - Prefix(ws, i)
      invariant forall j :: 0 <= j < i ==> Through(ws, j) < draw
    {
      PrefixLast(ws, i);
      random := random - WeightOf(weightings, clients[i].CurrentState());
      if random <= 0.0 {
        assert draw <= Prefix(ws, i + 1);
        PickIsFirstCovering(ws, draw, i);
        return Success(clients[i]);
      }
    }
    PickNoneIff(ws, draw);
    return Failure(FellThrough);
  }

  /**
   * For a non-empty candidate list with non-negative weights, `select`'s
   * draw always lands on a candidate, so it never throws.
   */
  lemma {:induction false} SelectNeverFallsThrough(ws: seq<real>, fraction: real)
    requires |ws| > 0 && NonNegative(ws) && 0.0 <= fraction < 1.0
    ensures Pick(ws, Draw(ws, fraction)).Some?
  {
    SumNonNegative(ws);
    DrawWithinTotal(ws, fraction);
    PickTotal(ws, Draw(ws, fraction));
  }

  lemma {:induction false} DrawWithinTotal(ws: seq<real>, fraction: real)
    requires 0.0 <= fraction < 1.0 && Sum(ws) >= 0.0
    ensures Draw(ws, fraction) <= Sum(ws)
  {
    var total := Sum(ws);
    assert Draw(ws, fraction) == fraction * total;
    ScaledBelow(fraction, total);
  }

  lemma {:induction false} ScaledBelow(fraction: real, total: real)
    requires 0.0 <= fraction < 1.0 && total >= 0.0
    ensures fraction * total <= total
  {
    if total > 0.0 {
      assert fraction * total < 1.0 * total;
    }
  }
}
