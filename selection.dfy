/** Fitness transform and roulette-wheel selection (`seleccion_ruleta.py`).
    Costs are minimised; `transformar_aptitud` turns them into positive
    fitnesses, and `seleccion_ruleta` draws k individuals with probability
    proportional to fitness, or uniformly when every fitness is zero. */
module Selection {
  import opened Base
  import opened Reals

  /** The stability constant `epsilon = 1e-6`. */
  const Epsilon: real := 0.000001

  /** Fitness of one cost: `1 / (max(0, c) + epsilon)`. */
  function Fitness(c: real): (f: real)
    ensures 0.0 < f <= 1000000.0
  {
    var d := Larger(0.0, c) + Epsilon;
    ReciprocalAntitone(Epsilon, d);
    Reciprocal(d);
    1.0 / d
  }

  /** The list `transformar_aptitud` builds: one fitness per cost, in order. */
  function Fitnesses(costs: seq<real>): (fit: seq<real>)
    ensures |fit| == |costs|
    ensures forall i :: 0 <= i < |costs| ==> 0.0 < fit[i] <= 1000000.0
  {
    seq(|costs|, i requires 0 <= i < |costs| => Fitness(costs[i]))
  }

  /** `transformar_aptitud(costos)`: the loop appending one fitness per cost. */
  method TransformFitness(costos: seq<real>) returns (aptitudes: seq<real>)
    ensures aptitudes == Fitnesses(costos)
  {
    aptitudes := [];
    for i := 0 to |costos|
      invariant |aptitudes| == i
      invariant forall j :: 0 <= j < i ==> aptitudes[j] == Fitness(costos[j])
    {
      var costoNoNegativo := Larger(0.0, costos[i]);
      aptitudes := aptitudes + [1.0 / (costoNoNegativo + Epsilon)];
    }
  }

  /** 0 < d <= e gives 1/e <= 1/d. */
  lemma ReciprocalAntitone(d: real, e: real)
    requires 0.0 < d <= e
    ensures 1.0 / e <= 1.0 / d
  {
  }

  /** 0 < d < e gives 1/e < 1/d. */
  lemma ReciprocalStrict(d: real, e: real)
    requires 0.0 < d < e
    ensures 1.0 / e < 1.0 / d
  {
  }

  /** A larger cost never has a larger fitness. */
  lemma FitnessAntitone(c: real, c': real)
    requires c <= c'
    ensures Fitness(c') <= Fitness(c)
  {
    ReciprocalAntitone(Larger(0.0, c) + Epsilon, Larger(0.0, c') + Epsilon);
  }

  /** Among non-negative costs, a strictly larger cost has a strictly smaller fitness. */
  lemma FitnessStrictlyAntitone(c: real, c': real)
    requires 0.0 <= c < c'
    ensures Fitness(c') < Fitness(c)
  {
    ReciprocalStrict(c + Epsilon, c' + Epsilon);
  }

  /** Negative costs are corrected to 0, whose fitness is 1 / epsilon. */
  lemma NegativeCost(c: real)
    requires c < 0.0
    ensures Fitness(c) == Fitness(0.0) == 1000000.0
  {
  }

  /** The weighted spin for target x: the first index whose running total of
      weights exceeds x, and the last index if none does. */
  function Spin(w: seq<real>, x: real): (i: nat)
    requires |w| > 0
    ensures i < |w|
    decreases |w|
  {
    if |w| == 1 || x < w[0] then 0 else 1 + Spin(w[1..], x - w[0])
  }

  /** The running total of the weights up to and including index i. */
  function Cumulative(w: seq<real>, i: nat): real
    requires i < |w|
  {
    Sum(w[..i + 1])
  }

  lemma CumulativeTail(w: seq<real>, j: nat)
    requires j + 1 < |w|
    ensures Cumulative(w, j + 1) == w[0] + Cumulative(w[1..], j)
  {
    assert w[..j + 2][1..] == w[1..][..j + 1];
  }

  /** The spin agrees with bisection on the running totals: every total
      before the chosen index is at most x, and the chosen total exceeds x
      unless the last index was reached. */
  lemma {:induction false} SpinBisects(w: seq<real>, x: real)
    requires |w| > 0
    ensures forall j :: 0 <= j < Spin(w, x) ==> Cumulative(w, j) <= x
    ensures Spin(w, x) == |w| - 1 || x < Cumulative(w, Spin(w, x))
    decreases |w|
  {
    assert Cumulative(w, 0) == w[0] by {
      var one := w[..1];
      assert one[1..] == [];
      assert Sum(one) == one[0] + Sum(one[1..]);
    }
    if |w| > 1 && x >= w[0] {
      SpinBisects(w[1..], x - w[0]);
      forall j | 0 <= j < Spin(w, x)
        ensures Cumulative(w, j) <= x
      {
        if j > 0 {
          CumulativeTail(w, j - 1);
        }
      }
      CumulativeTail(w, Spin(w, x) - 1);
    }
  }

  /** With non-negative weights and 0 <= x < total, the spin lands on an
      index of positive weight: zero-fitness individuals are never drawn. */
  lemma {:induction false} SpinPositive(w: seq<real>, x: real)
    requires |w| > 0 && NonNegative(w)
    requires 0.0 <= x < Sum(w)
    ensures w[Spin(w, x)] > 0.0
    decreases |w|
  {
    if |w| > 1 && x >= w[0] {
      assert forall i :: 0 <= i < |w| - 1 ==> w[1..][i] == w[i + 1];
      SpinPositive(w[1..], x - w[0]);
    } else if |w| == 1 {
      assert Sum(w) == w[0];
    }
  }

  /** The number of individuals drawn: `range(k)` is empty for k <= 0. */
  function Count(k: int): nat {
    if k > 0 then k else 0
  }

  /** Whether every fitness is non-negative (`all(a >= 0 for a in aptitudes)`). */
  predicate NonNegative(fit: seq<real>) {
    forall i :: 0 <= i < |fit| ==> fit[i] >= 0.0
  }

  /** `rng.choice(poblacion)` for the draw u. */
  function UniformPick(pop: seq<Genes>, u: Unit): (g: Genes)
    requires |pop| > 0
    ensures g in pop
  {
    pop[RandInt(0, |pop| - 1, u)]
  }

  /** One pick of `rng.choices(poblacion, weights=aptitudes)` for the draw u:
      the spin on `u * total`. */
  function WeightedPick(pop: seq<Genes>, fit: seq<real>, u: Unit): (g: Genes)
    requires |pop| == |fit| > 0
    ensures g in pop
  {
    pop[Spin(fit, u * Sum(fit))]
  }

  /** `seleccion_ruleta(poblacion, aptitudes, k, rng)`. Draw j of the stream
      decides pick j: uniformly through `choice` when the total is zero,
      through the weighted spin otherwise. */
  function Select(pop: seq<Genes>, fit: seq<real>, k: int, rng: Option<Stream>)
    : (r: Result<Drawn<seq<Genes>>>)
    ensures r == Err(MissingRng) <==> rng.None?
    ensures r == Err(LengthMismatch) <==> rng.Some? && |pop| != |fit|
    ensures r == Err(NegativeFitness) <==> rng.Some? && |pop| == |fit| && !NonNegative(fit)
    // `choice` on an empty population
    ensures r == Err(EmptySequence) <==>
              rng.Some? && |pop| == |fit| == 0 && k > 0
    ensures r.Ok? <==> rng.Some? && |pop| == |fit| && NonNegative(fit) && (|pop| == 0 ==> k <= 0)
    ensures r.Ok? ==>
              && |r.value.value| == Count(k)
              && r.value.rest == rng.value.Skip(Count(k))
              && forall j :: 0 <= j < Count(k) ==> r.value.value[j] in pop
    // a zero total takes the uniform `choice` fallback, draw j deciding pick j
    ensures rng.Some? && r.Ok? && Sum(fit) == 0.0 ==>
              forall j :: 0 <= j < Count(k) ==> r.value.value[j] == UniformPick(pop, rng.value.At(j))
    // otherwise `choices` samples by weight, draw j deciding pick j
    ensures rng.Some? && r.Ok? && Sum(fit) != 0.0 ==>
              forall j :: 0 <= j < Count(k) ==> r.value.value[j] == WeightedPick(pop, fit, rng.value.At(j))
  {
    if rng.None? then Err(MissingRng)
    else if |pop| != |fit| then Err(LengthMismatch)
    else if !NonNegative(fit) then Err(NegativeFitness)
    else
      var s := rng.value;
      var n := Count(k);
      if Sum(fit) == 0.0 then
        if n > 0 && |pop| == 0 then Err(EmptySequence)
        else Ok(Drawn(seq(n, j requires 0 <= j < n => UniformPick(pop, s.At(j))), s.Skip(n)))
      else
        Ok(Drawn(seq(n, j requires 0 <= j < n => WeightedPick(pop, fit, s.At(j))), s.Skip(n)))
  }

  /** A draw u in [0, 1) scales a positive total to a target in [0, total). */
  lemma TargetInRange(u: Unit, total: real, x: real)
    requires total > 0.0 && x == u * total
    ensures 0.0 <= x < total
  {
    MulMono(total, 0.0, u as real);
    assert u * total < 1.0 * total;
  }

  /** With non-negative fitnesses of positive total, a weighted pick is an
      individual whose fitness is positive. */
  lemma WeightedPickPositive(pop: seq<Genes>, fit: seq<real>, u: Unit)
    requires |pop| == |fit| > 0 && NonNegative(fit) && Sum(fit) > 0.0
    ensures exists i :: 0 <= i < |pop| && fit[i] > 0.0 && WeightedPick(pop, fit, u) == pop[i]
  {
    var x: real := u * Sum(fit);
    TargetInRange(u, Sum(fit), x);
    SpinPositive(fit, x);
    var i := Spin(fit, x);
    assert fit[i] > 0.0 && WeightedPick(pop, fit, u) == pop[i];
  }

  /** With a positive total every pick is an individual of positive fitness. */
  lemma WeightedPicks(pop: seq<Genes>, fit: seq<real>, k: int, s: Stream)
    requires |pop| == |fit| && NonNegative(fit) && Sum(fit) > 0.0
    ensures var r := Select(pop, fit, k, Some(s));
      r.Ok? && forall j :: 0 <= j < Count(k) ==>
        exists i :: 0 <= i < |pop| && fit[i] > 0.0 && r.value.value[j] == pop[i]
  {
    var r := Select(pop, fit, k, Some(s));
    assert |pop| > 0;
    forall j | 0 <= j < Count(k)
      ensures exists i :: 0 <= i < |pop| && fit[i] > 0.0 && r.value.value[j] == pop[i]
    {
      WeightedPickPositive(pop, fit, s.At(j));
      assert r.value.value[j] == WeightedPick(pop, fit, s.At(j));
    }
  }

  /** Fitnesses from `transformar_aptitud` of a non-empty cost list are
      non-negative with a positive total: selection takes the weighted branch. */
  lemma TransformedIsWeighted(costs: seq<real>)
    requires |costs| > 0
    ensures NonNegative(Fitnesses(costs)) && Sum(Fitnesses(costs)) > 0.0
  {
    SumPositive(Fitnesses(costs));
  }
}
