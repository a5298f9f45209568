/** One run of the real-coded genetic algorithm (`ejecutar_ga_real` in
    `main_ga.py`): the benchmark registry, the initial population, the
    evaluation of a population, and the generational loop of roulette
    selection, pairing, crossover with mutation, evaluation and replacement
    that records the best and the mean cost of every generation. */
module Driver {
  import opened Base
  import opened Reals
  import opened Selection
  import opened Breeding
  import Replacement
  import Benchmarks
  import Sbx

  /** The search domain of each registered benchmark (`MAPA_FUNCIONES`);
      `None` for a name the registry does not hold. */
  function Domain(name: string): (d: Option<(real, real)>)
    ensures d.Some? <==> name in {"sphere", "rastrigin", "ackley", "griewank", "rosenbrock"}
    ensures d.Some? ==> d.value.0 < 0.0 < d.value.1 && d.value.0 == -d.value.1
  {
    if name == "sphere" || name == "rastrigin" then Some((-5.12, 5.12))
    else if name == "ackley" then Some((-30.0, 30.0))
    else if name == "griewank" then Some((-600.0, 600.0))
    else if name == "rosenbrock" then Some((-2.048, 2.048))
    else None
  }

  /** What evaluating one individual gives: its cost, or the error it raises. */
  type Cost = Genes -> Result<real>

  /** The cost of x under the benchmark registered as name. Sphere and
      Rosenbrock are modelled; Ackley, Griewank and Rastrigin are supplied by
      `others`. */
  function Score(name: string, others: (string, Genes) -> real, x: Genes): (r: Result<real>)
    // only Rosenbrock raises, and only below two dimensions
    ensures r.Err? <==> name == "rosenbrock" && |x| < 2
    ensures r.Err? ==> r.error == TooFewDimensions
    // the two modelled benchmarks are never negative
    ensures name == "sphere" || name == "rosenbrock" ==> r.Ok? ==> r.value >= 0.0
  {
    if name == "sphere" then Ok(Benchmarks.Sphere(x))
    else if name == "rosenbrock" then Benchmarks.RosenbrockSpec(x)
    else Ok(others(name, x))
  }

  /** The objective registered under a name (`MAPA_FUNCIONES[nombre_func]`). */
  function Objective(name: string, others: (string, Genes) -> real): (cost: Cost)
    ensures forall x: Genes :: cost(x).Err? <==> name == "rosenbrock" && |x| < 2
  {
    (x: Genes) => Score(name, others, x)
  }

  /** Every individual of d genes has a cost. */
  ghost predicate TotalOn(cost: Cost, d: nat) {
    forall x: Genes :: |x| == d ==> cost(x).Ok?
  }

  /** A registered objective never raises on vectors of the run's dimension,
      provided Rosenbrock gets at least two genes. */
  lemma ObjectiveTotal(name: string, others: (string, Genes) -> real, d: nat)
    requires Domain(name).Some? && (name == "rosenbrock" ==> d >= 2)
    ensures TotalOn(Objective(name, others), d)
  {
    forall x: Genes | |x| == d
      ensures Objective(name, others)(x).Ok?
    {
      if name == "rosenbrock" {
        assert Benchmarks.RosenbrockSpec(x).Ok?;
      }
    }
  }

  /** `evaluar_poblacion(poblacion, f)`: the costs in population order, or
      the error of the first individual whose evaluation raises. */
  function Evaluate(pop: seq<Genes>, cost: Cost): (r: Result<seq<real>>)
    ensures r.Ok? <==> forall i :: 0 <= i < |pop| ==> cost(pop[i]).Ok?
    ensures r.Ok? ==> |r.value| == |pop| && forall i :: 0 <= i < |pop| ==> cost(pop[i]) == Ok(r.value[i])
    ensures r.Err? ==> exists i :: 0 <= i < |pop| && cost(pop[i]) == Err(r.error) &&
                                   forall j :: 0 <= j < i ==> cost(pop[j]).Ok?
    decreases |pop|
  {
    if |pop| == 0 then Ok([])
    else
      assert forall i :: 0 < i < |pop| ==> pop[1..][i - 1] == pop[i];
      match cost(pop[0])
      case Err(e) => Err(e)
      case Ok(c) =>
        match Evaluate(pop[1..], cost)
        case Err(e) =>
          ghost var k :| 0 <= k < |pop| - 1 && cost(pop[1..][k]) == Err(e) &&
                         forall j :: 0 <= j < k ==> cost(pop[1..][j]).Ok?;
          assert cost(pop[k + 1]) == Err(e);
          Err(e)
        case Ok(cs) => Ok([c] + cs)
  }

  /** Every individual has d genes. */
  predicate OfLength(pop: seq<Genes>, d: nat) {
    forall k :: 0 <= k < |pop| ==> |pop[k]| == d
  }

  /** One individual of `inicializar_poblacion_reales`: d uniform draws in [a, b]. */
  function Individual(d: nat, a: real, b: real, s: Stream): (x: Genes)
    ensures |x| == d
  {
    seq(d, j requires 0 <= j < d => Uniform(a, b, s.At(j)))
  }

  /** The n individuals drawn one after another, d draws each. */
  function Initial(n: nat, d: nat, a: real, b: real, s: Stream): (p: seq<Genes>)
    ensures |p| == n && OfLength(p, d)
    decreases n
  {
    if n == 0 then [] else [Individual(d, a, b, s)] + Initial(n - 1, d, a, b, s.Skip(d))
  }

  /** Gene j of individual i of p is draw i * d + j of s mapped onto [a, b]. */
  predicate DrawnAt(p: seq<Genes>, d: nat, a: real, b: real, s: Stream, i: nat, j: nat)
    requires i < |p| && j < |p[i]|
  {
    p[i][j] == Uniform(a, b, s.At(i * d + j))
  }

  /** Each gene of the initial population is the draw of its position in
      row-major order. */
  lemma {:induction false} InitialDraws(n: nat, d: nat, a: real, b: real, s: Stream)
    ensures forall i: nat, j: nat :: i < n && j < d ==> DrawnAt(Initial(n, d, a, b, s), d, a, b, s, i, j)
    decreases n
  {
    if n > 0 {
      var p := Initial(n, d, a, b, s);
      var t := Initial(n - 1, d, a, b, s.Skip(d));
      InitialDraws(n - 1, d, a, b, s.Skip(d));
      assert p == [Individual(d, a, b, s)] + t;
      forall i: nat, j: nat | i < n && j < d
        ensures DrawnAt(p, d, a, b, s, i, j)
      {
        if i > 0 {
          assert DrawnAt(t, d, a, b, s.Skip(d), i - 1, j);
          assert p[i] == t[i - 1];
          assert d + ((i - 1) * d + j) == i * d + j;
        }
      }
    }
  }

  /** The initial population lies in the domain. */
  lemma InitialInDomain(n: nat, d: nat, a: real, b: real, s: Stream)
    requires a <= b
    ensures var p := Initial(n, d, a, b, s);
      forall i, j :: 0 <= i < n && 0 <= j < d ==> a <= p[i][j] <= b
  {
    InitialDraws(n, d, a, b, s);
    var p := Initial(n, d, a, b, s);
    forall i, j | 0 <= i < n && 0 <= j < d
      ensures a <= p[i][j] <= b
    {
      assert DrawnAt(p, d, a, b, s, i, j);
      UniformWithin(a, b, s.At(i * d + j));
    }
  }

  /** `inicializar_poblacion_reales(tam_pob, dim, a, b, rng)`, with the
      generator's state after the n * d draws. */
  method InitPopulation(tamPob: int, dim: int, a: real, b: real, s: Stream)
    returns (poblacion: seq<Genes>, rng: Stream)
    ensures poblacion == Initial(Count(tamPob), Count(dim), a, b, s)
    ensures rng == s.Skip(Count(tamPob) * Count(dim))
  {
    var n := Count(tamPob);
    var d := Count(dim);
    poblacion := [];
    rng := s;
    for i := 0 to n
      invariant Initial(n, d, a, b, s) == poblacion + Initial(n - i, d, a, b, rng)
      invariant rng == s.Skip(i * d)
    {
      var ind := seq(d, j requires 0 <= j < d => Uniform(a, b, rng.At(j)));
      assert Initial(n - i, d, a, b, rng) == [ind] + Initial(n - i - 1, d, a, b, rng.Skip(d));
      assert poblacion + ([ind] + Initial(n - i - 1, d, a, b, rng.Skip(d)))
          == (poblacion + [ind]) + Initial(n - i - 1, d, a, b, rng.Skip(d));
      poblacion := poblacion + [ind];
      rng := rng.Skip(d);
      assert i * d + d == (i + 1) * d;
    }
    assert poblacion + [] == poblacion;
  }

  /** The draws an initial population of n individuals of d genes takes. */
  function Draws(n: nat, d: nat): nat {
    n * d
  }

  /** The population, its index-aligned costs, and the generator's state. */
  datatype State = State(pop: seq<Genes>, costs: seq<real>, rng: Stream)

  /** The parameters a generation uses. */
  datatype Setup = Setup(tamPob: int, q: Params, tipo: string, porcentaje: real, elitismo: int, cost: Cost)

  /** The pairing loop followed by `hijos[:tam_pob]`: exactly n children. */
  function Litter(parents: seq<Genes>, n: nat, make: Maker, s: Stream): (r: Result<Drawn<seq<Genes>>>)
    requires |parents| == n
    ensures r.Ok? <==> Brood(parents, n, 0, make, s).Ok?
    ensures r.Ok? ==> |r.value.value| == n
  {
    match Brood(parents, n, 0, make, s)
    case Err(e) => Err(e)
    case Ok(b) =>
      BroodPairs(parents, n, 0, make, s);
      Ok(Drawn(b.value[..Replacement.MinNat(n, |b.value|)], b.rest))
  }

  /** Parents of d genes give children of d genes, and always give them
      when making a pair of such parents never fails. */
  lemma LitterShape(parents: seq<Genes>, n: nat, make: Maker, s: Stream, d: nat)
    requires |parents| == n && OfLength(parents, d)
    ensures KeepsLength(make) && Litter(parents, n, make, s).Ok? ==> OfLength(Litter(parents, n, make, s).value.value, d)
    ensures NeverFailsOn(make, d) ==> Litter(parents, n, make, s).Ok?
  {
    if NeverFailsOn(make, d) {
      BroodNeverFails(parents, n, 0, make, s, d);
    }
    if KeepsLength(make) && Litter(parents, n, make, s).Ok? {
      BroodShape(parents, n, 0, make, s, d);
    }
  }

  /** One generation of the loop: fitness transform, roulette selection of
      `tam_pob` parents, pairing parent i with parent (i + 1) mod tam_pob,
      truncation of the brood to `tam_pob`, evaluation and replacement. */
  function Generation(st: State, u: Setup): (r: Result<State>)
    // selection demands a cost for every individual
    ensures r.Ok? ==> |st.pop| == |st.costs|
  {
    var n := Count(u.tamPob);
    match Select(st.pop, Fitnesses(st.costs), u.tamPob, Some(st.rng))
    case Err(e) => Err(e)
    case Ok(sel) =>
      match Litter(sel.value, n, MakerFor(u.q, u.tipo), sel.rest)
      case Err(e) => Err(e)
      case Ok(h) =>
        match Evaluate(h.value, u.cost)
        case Err(e) => Err(e)
        case Ok(ch) =>
          match Replacement.Replacement(st.pop, h.value, st.costs, ch, u.porcentaje, u.elitismo)
          case Err(e) => Err(e)
          case Ok(p) => Ok(State(p.members, p.costs, h.rest))
  }

  /** Replacement keeps `min(N, tam_pob)` slots, each with its cost. */
  lemma GenerationSize(st: State, u: Setup)
    requires Generation(st, u).Ok?
    ensures |Generation(st, u).value.pop| == |Generation(st, u).value.costs| == Replacement.MinNat(|st.pop|, Count(u.tamPob))
  {
  }

  /** The body of the generation loop of `ejecutar_ga_real`, up to the
      recording of the metrics. */
  method Step(st: State, u: Setup) returns (r: Result<State>)
    ensures r == Generation(st, u)
  {
    var aptitudes := TransformFitness(st.costs);
    var padres := Select(st.pop, aptitudes, u.tamPob, Some(st.rng));
    if padres.Err? {
      return Err(padres.error);
    }
    var n := Count(u.tamPob);
    var camada := Breed(padres.value.value, n, u.q, u.tipo, padres.value.rest);
    if camada.Err? {
      return Err(camada.error);
    }
    var hijos := camada.value.value;
    if |hijos| > n {
      hijos := hijos[..n];
    } else {
      assert hijos[..|hijos|] == hijos;
    }
    var costosHijos := Evaluate(hijos, u.cost);
    if costosHijos.Err? {
      return Err(costosHijos.error);
    }
    var nueva := Replacement.Replace(st.pop, hijos, st.costs, costosHijos.value, u.porcentaje, u.elitismo);
    if nueva.Err? {
      return Err(nueva.error);
    }
    return Ok(State(nueva.value.members, nueva.value.costs, camada.value.rest));
  }

  /** The state and the two curves recorded so far. */
  datatype Trace = Trace(state: State, best: seq<real>, mean: seq<real>)

  /** What one generation does to the state. */
  type Stepper = State -> Result<State>

  function GenerationFor(u: Setup): Stepper {
    (st: State) => Generation(st, u)
  }

  /** k more generations, appending after each `min(costos)` to the best
      curve and `sum(costos) / len(costos)` to the mean curve. */
  function Evolve(k: nat, st: State, best: seq<real>, mean: seq<real>, step: Stepper): (r: Result<Trace>)
    ensures r.Ok? ==> |r.value.best| == |best| + k && |r.value.mean| == |mean| + k
    decreases k
  {
    if k == 0 then Ok(Trace(st, best, mean))
    else
      match step(st)
      case Err(e) => Err(e)
      case Ok(next) =>
        if |next.costs| == 0 then Err(EmptySequence)
        else Evolve(k - 1, next, best + [Min(next.costs)], mean + [Mean(next.costs)], step)
  }

  /** The curves only grow: the entries recorded before are kept. */
  lemma {:induction false} EvolvePrefix(k: nat, st: State, best: seq<real>, mean: seq<real>, step: Stepper)
    requires Evolve(k, st, best, mean, step).Ok?
    ensures var tr := Evolve(k, st, best, mean, step).value;
      tr.best[..|best|] == best && tr.mean[..|mean|] == mean
    decreases k
  {
    if k > 0 {
      var tr := Evolve(k, st, best, mean, step).value;
      var next := step(st).value;
      var best' := best + [Min(next.costs)];
      var mean' := mean + [Mean(next.costs)];
      EvolvePrefix(k - 1, next, best', mean', step);
      assert tr.best[..|best|] == best'[..|best|];
      assert tr.mean[..|mean|] == mean'[..|mean|];
    }
  }

  /** Entry |best| + g of the best curve is the minimum cost after g + 1 of
      the generations, and the same entry of the mean curve their mean. */
  predicate RecordedAt(step: Stepper, st: State, best: seq<real>, mean: seq<real>, g: nat,
                      bestCurve: seq<real>, meanCurve: seq<real>) {
    var e := Evolve(g + 1, st, best, mean, step);
    && e.Ok? && |e.value.state.costs| > 0
    && |best| + g < |bestCurve| && |mean| + g < |meanCurve|
    && bestCurve[|best| + g] == Min(e.value.state.costs)
    && meanCurve[|mean| + g] == Mean(e.value.state.costs)
  }

  /** Every recorded entry is the metric of the population of its generation. */
  lemma {:induction false} EvolveRecords(k: nat, st: State, best: seq<real>, mean: seq<real>, step: Stepper)
    requires Evolve(k, st, best, mean, step).Ok?
    ensures var tr := Evolve(k, st, best, mean, step).value;
      forall g: nat :: g < k ==> RecordedAt(step, st, best, mean, g, tr.best, tr.mean)
    decreases k
  {
    if k > 0 {
      var tr := Evolve(k, st, best, mean, step).value;
      var next := step(st).value;
      var best' := best + [Min(next.costs)];
      var mean' := mean + [Mean(next.costs)];
      assert Evolve(k - 1, next, best', mean', step).value == tr;
      EvolveRecords(k - 1, next, best', mean', step);
      EvolvePrefix(k - 1, next, best', mean', step);
      forall g: nat | g < k
        ensures RecordedAt(step, st, best, mean, g, tr.best, tr.mean)
      {
        assert Evolve(g + 1, st, best, mean, step) == Evolve(g, next, best', mean', step);
        if g == 0 {
          assert tr.best[..|best'|] == best' && tr.mean[..|mean'|] == mean';
          assert tr.best[|best|] == tr.best[..|best'|][|best|];
          assert tr.mean[|mean|] == tr.mean[..|mean'|][|mean|];
        } else {
          assert RecordedAt(step, next, best', mean', g - 1, tr.best, tr.mean);
        }
      }
    }
  }

  /** n individuals of d genes, each paired with its own cost. */
  ghost predicate Consistent(st: State, n: nat, d: nat, cost: Cost) {
    && |st.pop| == n && |st.costs| == n
    && forall i :: 0 <= i < n ==> |st.pop[i]| == d && cost(st.pop[i]) == Ok(st.costs[i])
  }

  /** A step that keeps a consistent state consistent. */
  ghost predicate Preserves(step: Stepper, n: nat, d: nat, cost: Cost) {
    forall st :: Consistent(st, n, d, cost) && step(st).Ok? ==> Consistent(step(st).value, n, d, cost)
  }

  /** A step that never fails on a consistent state. */
  ghost predicate Succeeds(step: Stepper, n: nat, d: nat, cost: Cost) {
    forall st :: Consistent(st, n, d, cost) ==> step(st).Ok?
  }

  /** A step after which the best cost is no worse. */
  ghost predicate NoRegress(step: Stepper, n: nat, d: nat, cost: Cost) {
    forall st :: Consistent(st, n, d, cost) && n > 0 && step(st).Ok? && |step(st).value.costs| > 0 ==>
      Min(step(st).value.costs) <= Min(st.costs)
  }

  lemma {:induction false} EvolveKeeps(k: nat, st: State, best: seq<real>, mean: seq<real>, step: Stepper,
                                       n: nat, d: nat, cost: Cost)
    requires Consistent(st, n, d, cost) && Preserves(step, n, d, cost)
    requires Evolve(k, st, best, mean, step).Ok?
    ensures Consistent(Evolve(k, st, best, mean, step).value.state, n, d, cost)
    decreases k
  {
    if k > 0 {
      var next := step(st).value;
      EvolveKeeps(k - 1, next, best + [Min(next.costs)], mean + [Mean(next.costs)], step, n, d, cost);
    }
  }

  lemma {:induction false} EvolveSucceeds(k: nat, st: State, best: seq<real>, mean: seq<real>, step: Stepper,
                                          n: nat, d: nat, cost: Cost)
    requires n >= 1 && Consistent(st, n, d, cost)
    requires Preserves(step, n, d, cost) && Succeeds(step, n, d, cost)
    ensures Evolve(k, st, best, mean, step).Ok?
    decreases k
  {
    if k > 0 {
      var next := step(st).value;
      assert Consistent(next, n, d, cost);
      EvolveSucceeds(k - 1, next, best + [Min(next.costs)], mean + [Mean(next.costs)], step, n, d, cost);
    }
  }

  predicate NonIncreasing(s: seq<real>) {
    forall i, j :: 0 <= i < j < |s| ==> s[j] <= s[i]
  }

  /** Appending a value no larger than the last keeps a curve non-increasing. */
  lemma AppendNonIncreasing(s: seq<real>, x: real)
    requires NonIncreasing(s) && (|s| > 0 ==> x <= s[|s| - 1])
    ensures NonIncreasing(s + [x])
  {
    var t := s + [x];
    forall i, j | 0 <= i < j < |t|
      ensures t[j] <= t[i]
    {
      if j == |s| && i < |s| - 1 {
        assert s[|s| - 1] <= s[i];
      }
    }
  }

  /** With a step that never lets the best cost regress, the best curve
      never increases and never exceeds the best cost it started from. */
  lemma EvolveMonotone(k: nat, st: State, best: seq<real>, mean: seq<real>, step: Stepper,
                       n: nat, d: nat, cost: Cost)
    requires n >= 1 && Consistent(st, n, d, cost)
    requires Preserves(step, n, d, cost) && NoRegress(step, n, d, cost)
    requires NonIncreasing(best) && (|best| > 0 ==> Min(st.costs) <= best[|best| - 1])
    requires Evolve(k, st, best, mean, step).Ok?
    ensures var tr := Evolve(k, st, best, mean, step).value;
      && NonIncreasing(tr.best)
      && forall i :: |best| <= i < |tr.best| ==> tr.best[i] <= Min(st.costs)
  {
    var inv := (s: State) => Consistent(s, n, d, cost);
    forall s | inv(s) && step(s).Ok?
      ensures |s.costs| > 0 && inv(step(s).value)
      ensures |step(s).value.costs| > 0 ==> Min(step(s).value.costs) <= Min(s.costs)
    {
    }
    assert Elitist(step, inv);
    EvolveNonIncreasing(k, st, best, mean, step, inv);
    EvolveBounded(k, st, best, mean, step, inv);
  }

  /** A step that keeps an invariant of non-empty states and never worsens the best cost. */
  ghost predicate Elitist(step: Stepper, inv: State -> bool) {
    forall s :: inv(s) && step(s).Ok? ==>
      && |s.costs| > 0 && inv(step(s).value)
      && (|step(s).value.costs| > 0 ==> Min(step(s).value.costs) <= Min(s.costs))
  }

  /** The best curve stays non-increasing. */
  lemma {:induction false} EvolveNonIncreasing(k: nat, st: State, best: seq<real>, mean: seq<real>, step: Stepper,
                                               inv: State -> bool)
    requires inv(st) && |st.costs| > 0 && Elitist(step, inv)
    requires NonIncreasing(best) && (|best| > 0 ==> Min(st.costs) <= best[|best| - 1])
    requires Evolve(k, st, best, mean, step).Ok?
    ensures NonIncreasing(Evolve(k, st, best, mean, step).value.best)
    decreases k
  {
    if k > 0 {
      var next := step(st).value;
      AppendNonIncreasing(best, Min(next.costs));
      EvolveNonIncreasing(k - 1, next, best + [Min(next.costs)], mean + [Mean(next.costs)], step, inv);
    }
  }

  /** Every entry recorded from now on is at most the current best cost. */
  lemma {:induction false} EvolveBounded(k: nat, st: State, best: seq<real>, mean: seq<real>, step: Stepper,
                                         inv: State -> bool)
    requires inv(st) && |st.costs| > 0 && Elitist(step, inv)
    requires Evolve(k, st, best, mean, step).Ok?
    ensures var tr := Evolve(k, st, best, mean, step).value;
      forall i :: |best| <= i < |tr.best| ==> tr.best[i] <= Min(st.costs)
    decreases k
  {
    if k > 0 {
      var next := step(st).value;
      var best' := best + [Min(next.costs)];
      var mean' := mean + [Mean(next.costs)];
      EvolveBounded(k - 1, next, best', mean', step, inv);
      EvolvePrefix(k - 1, next, best', mean', step);
      CurveBelow(best, Min(next.costs), Evolve(k - 1, next, best', mean', step).value.best, Min(st.costs));
    }
  }

  lemma CurveBelow(best: seq<real>, x: real, t: seq<real>, m: real)
    requires |t| >= |best| + 1 && t[..|best| + 1] == best + [x] && x <= m
    requires forall i :: |best| + 1 <= i < |t| ==> t[i] <= x
    ensures forall i :: |best| <= i < |t| ==> t[i] <= m
  {
    assert t[|best|] == (best + [x])[|best|];
  }

  /** The roulette only picks members of the population, so picks from a
      population of d-gene individuals have d genes. */
  lemma ParentsShape(st: State, u: Setup, d: nat)
    requires Consistent(st, Count(u.tamPob), d, u.cost)
    ensures var r := Select(st.pop, Fitnesses(st.costs), u.tamPob, Some(st.rng));
      r.Ok? ==> OfLength(r.value.value, d)
  {
    var r := Select(st.pop, Fitnesses(st.costs), u.tamPob, Some(st.rng));
    if r.Ok? {
      forall k | 0 <= k < |r.value.value|
        ensures |r.value.value[k]| == d
      {
        assert r.value.value[k] in st.pop;
      }
    }
  }

  /** A generation keeps the population at `tam_pob` individuals of d genes,
      each with its own cost. */
  lemma GenerationKeeps(st: State, u: Setup, d: nat)
    requires Consistent(st, Count(u.tamPob), d, u.cost) && Generation(st, u).Ok?
    ensures Consistent(Generation(st, u).value, Count(u.tamPob), d, u.cost)
  {
    var n := Count(u.tamPob);
    var make := MakerFor(u.q, u.tipo);
    var sel := Select(st.pop, Fitnesses(st.costs), u.tamPob, Some(st.rng)).value;
    ParentsShape(st, u, d);
    MakerKeepsLength(u.q, u.tipo);
    LitterShape(sel.value, n, make, sel.rest, d);
    var hijos := Litter(sel.value, n, make, sel.rest).value.value;
    var ch := Evaluate(hijos, u.cost).value;
    Replacement.Aligned(st.pop, hijos, st.costs, ch, u.porcentaje, u.elitismo);
  }

  /** With sound parameters, a non-empty population and an objective that
      never raises, a generation never fails. */
  lemma GenerationSucceeds(st: State, u: Setup, d: nat)
    requires Sound(u.q, u.tipo) && Count(u.tamPob) >= 1 && d >= 1 && TotalOn(u.cost, d)
    requires Consistent(st, Count(u.tamPob), d, u.cost)
    ensures Generation(st, u).Ok?
  {
    var n := Count(u.tamPob);
    var make := MakerFor(u.q, u.tipo);
    TransformedIsWeighted(st.costs);
    var sel := Select(st.pop, Fitnesses(st.costs), u.tamPob, Some(st.rng)).value;
    ParentsShape(st, u, d);
    MakerNeverFails(u.q, u.tipo, d);
    MakerKeepsLength(u.q, u.tipo);
    LitterShape(sel.value, n, make, sel.rest, d);
    var hijos := Litter(sel.value, n, make, sel.rest).value.value;
    assert Evaluate(hijos, u.cost).Ok?;
  }

  /** With elitism, a generation's best cost is no worse than the previous one. */
  lemma GenerationNoRegress(st: State, u: Setup, d: nat)
    requires u.elitismo >= 1 && Count(u.tamPob) >= 1
    requires Consistent(st, Count(u.tamPob), d, u.cost) && Generation(st, u).Ok?
    ensures |Generation(st, u).value.costs| == Count(u.tamPob)
    ensures Min(Generation(st, u).value.costs) <= Min(st.costs)
  {
    var n := Count(u.tamPob);
    var sel := Select(st.pop, Fitnesses(st.costs), u.tamPob, Some(st.rng)).value;
    var hijos := Litter(sel.value, n, MakerFor(u.q, u.tipo), sel.rest).value.value;
    var ch := Evaluate(hijos, u.cost).value;
    Replacement.BestNeverRegresses(st.pop, hijos, st.costs, ch, u.porcentaje, u.elitismo);
  }

  lemma GenerationProperties(u: Setup, d: nat)
    ensures Preserves(GenerationFor(u), Count(u.tamPob), d, u.cost)
    ensures Sound(u.q, u.tipo) && Count(u.tamPob) >= 1 && d >= 1 && TotalOn(u.cost, d) ==>
              Succeeds(GenerationFor(u), Count(u.tamPob), d, u.cost)
    ensures u.elitismo >= 1 ==> NoRegress(GenerationFor(u), Count(u.tamPob), d, u.cost)
  {
    var n := Count(u.tamPob);
    forall st | Consistent(st, n, d, u.cost) && GenerationFor(u)(st).Ok?
      ensures Consistent(GenerationFor(u)(st).value, n, d, u.cost)
    {
      GenerationKeeps(st, u, d);
    }
    if Sound(u.q, u.tipo) && n >= 1 && d >= 1 && TotalOn(u.cost, d) {
      forall st | Consistent(st, n, d, u.cost)
        ensures GenerationFor(u)(st).Ok?
      {
        GenerationSucceeds(st, u, d);
      }
    }
    if u.elitismo >= 1 {
      forall st | Consistent(st, n, d, u.cost) && n > 0 && GenerationFor(u)(st).Ok? &&
                  |GenerationFor(u)(st).value.costs| > 0
        ensures Min(GenerationFor(u)(st).value.costs) <= Min(st.costs)
      {
        GenerationNoRegress(st, u, d);
      }
    }
  }

  /** The arguments of `ejecutar_ga_real` other than the seed: the seed's
      generator is the stream given to `RunSpec`. */
  datatype Config = Config(nombreFunc: string, dim: int, tamPob: int, generaciones: int, pc: real,
                           tipoCruza: string, porcentaje: real, elitismo: int,
                           alpha: real, eta: real, amplitud: real)

  /** The metrics, curves and final population the run returns. */
  datatype Report = Report(best: real, worst: real, average: real,
                           bestCurve: seq<real>, meanCurve: seq<real>,
                           population: seq<Genes>, costs: seq<real>)

  /** The final metrics: `min`, `max` and mean of the final costs, which
      raise on an empty population. */
  function Summarize(tr: Trace): (r: Result<Report>)
    ensures r.Ok? <==> |tr.state.costs| > 0
    ensures r.Err? ==> r.error == EmptySequence
    ensures r.Ok? ==> r.value.best <= r.value.average <= r.value.worst
    ensures r.Ok? ==> forall i :: 0 <= i < |tr.state.costs| ==> r.value.best <= tr.state.costs[i] <= r.value.worst
    ensures r.Ok? ==> r.value.bestCurve == tr.best && r.value.meanCurve == tr.mean &&
                      r.value.population == tr.state.pop && r.value.costs == tr.state.costs
  {
    var c := tr.state.costs;
    if |c| == 0 then Err(EmptySequence)
    else
      MinMeanMax(c);
      Ok(Report(Min(c), Max(c), Mean(c), tr.best, tr.mean, tr.state.pop, c))
  }

  /** `1.0 / dim` inverts dim, and is a probability for dim >= 1. */
  lemma PerGene(dim: int)
    requires dim != 0
    ensures (1.0 / dim as real) * (dim as real) == 1.0
    ensures dim >= 1 ==> 0.0 < 1.0 / dim as real <= 1.0
  {
    if dim >= 1 {
      ReciprocalAntitone(1.0, dim as real);
      Reciprocal(dim as real);
    }
  }

  /** The generation parameters of a run: the registered domain and
      objective, and the mutation probability per gene `1.0 / dim`. */
  function SetupFor(c: Config, others: (string, Genes) -> real, pow: (real, real) -> real): (u: Setup)
    requires Domain(c.nombreFunc).Some? && c.dim != 0
    ensures u.q.pm * (c.dim as real) == 1.0
    ensures c.dim >= 1 ==> 0.0 < u.q.pm <= 1.0
    ensures Domain(c.nombreFunc) == Some((u.q.a, u.q.b))
    ensures u.tamPob == c.tamPob && u.tipo == c.tipoCruza && u.elitismo == c.elitismo && u.q.pow == pow
  {
    var dom := Domain(c.nombreFunc).value;
    var pm := 1.0 / c.dim as real;
    PerGene(c.dim);
    assert pm * (c.dim as real) == 1.0;
    Setup(c.tamPob, Params(c.pc, pm, dom.0, dom.1, c.alpha, c.eta, c.amplitud, pow),
          c.tipoCruza, c.porcentaje, c.elitismo, Objective(c.nombreFunc, others))
  }

  /** Evaluating individuals of d genes fails exactly when Rosenbrock meets
      fewer than two genes, and then on the first individual. */
  lemma EvaluateRegistered(pop: seq<Genes>, name: string, others: (string, Genes) -> real, d: nat)
    requires OfLength(pop, d)
    ensures var r := Evaluate(pop, Objective(name, others));
      && (r.Err? <==> name == "rosenbrock" && d < 2 && |pop| > 0)
      && (r.Err? ==> r.error == TooFewDimensions)
  {
    var cost := Objective(name, others);
    if |pop| > 0 {
      assert cost(pop[0]) == Score(name, others, pop[0]);
    }
    forall i | 0 <= i < |pop|
      ensures cost(pop[i]) == Score(name, others, pop[i])
    {
    }
  }

  /** The initial population, its costs, and the generator after drawing it. */
  function Start(c: Config, others: (string, Genes) -> real, s: Stream): (r: Result<State>)
    requires Domain(c.nombreFunc).Some?
    // the first evaluation raises exactly for Rosenbrock below two dimensions
    ensures r.Err? <==> c.nombreFunc == "rosenbrock" && Count(c.dim) < 2 && Count(c.tamPob) > 0
    ensures r.Err? ==> r.error == TooFewDimensions
    ensures r.Ok? ==> |r.value.pop| == |r.value.costs| == Count(c.tamPob) && OfLength(r.value.pop, Count(c.dim))
    ensures r.Ok? ==> r.value.rng == s.Skip(Count(c.tamPob) * Count(c.dim))
  {
    var dom := Domain(c.nombreFunc).value;
    var n := Count(c.tamPob);
    var d := Count(c.dim);
    var pop := Initial(n, d, dom.0, dom.1, s);
    EvaluateRegistered(pop, c.nombreFunc, others, d);
    match Evaluate(pop, Objective(c.nombreFunc, others))
    case Err(e) => Err(e)
    case Ok(costs) => Ok(State(pop, costs, s.Skip(Draws(n, d))))
  }

  /** What `ejecutar_ga_real` returns for a generator whose draws are s. */
  function RunSpec(c: Config, others: (string, Genes) -> real, pow: (real, real) -> real, s: Stream)
    : (r: Result<Report>)
    ensures Domain(c.nombreFunc).None? ==> r == Err(UnknownBenchmark)
    ensures Domain(c.nombreFunc).Some? && c.dim == 0 ==> r == Err(ZeroDivision)
    ensures r.Ok? ==> |r.value.bestCurve| == |r.value.meanCurve| == Count(c.generaciones)
    ensures r.Ok? ==> r.value.best <= r.value.average <= r.value.worst
    ensures r.Ok? ==> forall i :: 0 <= i < |r.value.costs| ==> r.value.best <= r.value.costs[i] <= r.value.worst
  {
    if Domain(c.nombreFunc).None? then Err(UnknownBenchmark)
    else if c.dim == 0 then Err(ZeroDivision)
    else
      match Start(c, others, s)
      case Err(e) => Err(e)
      case Ok(st) =>
        match Evolve(Count(c.generaciones), st, [], [], GenerationFor(SetupFor(c, others, pow)))
        case Err(e) => Err(e)
        case Ok(tr) => Summarize(tr)
  }

  /** The generation loop of `ejecutar_ga_real` with its two curves; each
      iteration applies one generation (the function `Generation`, whose
      statement-by-statement form is `Step`). */
  method Generations(generaciones: nat, inicio: State, step: Stepper) returns (r: Result<Trace>)
    ensures r == Evolve(generaciones, inicio, [], [], step)
  {
    var st := inicio;
    var curvaMejor: seq<real> := [];
    var curvaPromedio: seq<real> := [];
    var g := 0;
    while g < generaciones
      invariant 0 <= g <= generaciones
      invariant Evolve(generaciones, inicio, [], [], step) == Evolve(generaciones - g, st, curvaMejor, curvaPromedio, step)
    {
      var siguiente := step(st);
      if siguiente.Err? {
        return Err(siguiente.error);
      }
      st := siguiente.value;
      if |st.costs| == 0 {
        return Err(EmptySequence);
      }
      curvaMejor := curvaMejor + [Min(st.costs)];
      curvaPromedio := curvaPromedio + [Sum(st.costs) / |st.costs| as real];
      g := g + 1;
    }
    return Ok(Trace(st, curvaMejor, curvaPromedio));
  }

  /** `ejecutar_ga_real`. */
  method Run(c: Config, others: (string, Genes) -> real, pow: (real, real) -> real, s: Stream)
    returns (r: Result<Report>)
    ensures r == RunSpec(c, others, pow, s)
  {
    var dominio := Domain(c.nombreFunc);
    if dominio.None? {
      return Err(UnknownBenchmark);
    }
    if c.dim == 0 {
      return Err(ZeroDivision);
    }
    var u := SetupFor(c, others, pow);
    var poblacion, rng := InitPopulation(c.tamPob, c.dim, dominio.value.0, dominio.value.1, s);
    var costos := Evaluate(poblacion, u.cost);
    if costos.Err? {
      return Err(costos.error);
    }
    var trayectoria := Generations(Count(c.generaciones), State(poblacion, costos.value, rng), GenerationFor(u));
    if trayectoria.Err? {
      return Err(trayectoria.error);
    }
    return Summarize(trayectoria.value);
  }

  /** The arguments for which a run cannot fail: a registered benchmark, at
      least one gene (two for Rosenbrock), at least one individual, a known
      operator and, for SBX, the power law with eta_c > -1. */
  ghost predicate Valid(c: Config, pow: (real, real) -> real) {
    && Domain(c.nombreFunc).Some?
    && c.dim >= 1 && (c.nombreFunc == "rosenbrock" ==> c.dim >= 2)
    && c.tamPob >= 1
    && ParseKind(c.tipoCruza).Ok?
    && (ParseKind(c.tipoCruza).value == SbxKind ==> Sbx.PowLaw(pow) && c.eta > -1.0)
  }

  /** `1.0 / dim` with dim >= 1 is a probability. */
  lemma SetupSound(c: Config, others: (string, Genes) -> real, pow: (real, real) -> real)
    requires Valid(c, pow)
    ensures Sound(SetupFor(c, others, pow).q, c.tipoCruza)
  {
    ReciprocalAntitone(1.0, c.dim as real);
    Reciprocal(c.dim as real);
  }

  /** For valid arguments the initial population is consistent. */
  lemma StartConsistent(c: Config, others: (string, Genes) -> real, s: Stream)
    requires Domain(c.nombreFunc).Some? && c.dim >= 1 && (c.nombreFunc == "rosenbrock" ==> c.dim >= 2)
    ensures Start(c, others, s).Ok?
    ensures Consistent(Start(c, others, s).value, Count(c.tamPob), c.dim, Objective(c.nombreFunc, others))
  {
    ObjectiveTotal(c.nombreFunc, others, c.dim);
  }

  /** For valid arguments every generation succeeds and the final state is consistent. */
  lemma EvolveValid(c: Config, others: (string, Genes) -> real, pow: (real, real) -> real, s: Stream)
    requires Valid(c, pow)
    ensures Start(c, others, s).Ok?
    ensures var e := Evolve(Count(c.generaciones), Start(c, others, s).value, [], [], GenerationFor(SetupFor(c, others, pow)));
      e.Ok? && Consistent(e.value.state, Count(c.tamPob), c.dim, Objective(c.nombreFunc, others))
  {
    var u := SetupFor(c, others, pow);
    var n := Count(c.tamPob);
    StartConsistent(c, others, s);
    var st := Start(c, others, s).value;
    SetupSound(c, others, pow);
    ObjectiveTotal(c.nombreFunc, others, c.dim);
    assert u.cost == Objective(c.nombreFunc, others) && u.tamPob == c.tamPob && u.tipo == c.tipoCruza;
    assert Consistent(st, n, c.dim, u.cost) && n >= 1;
    GenerationProperties(u, c.dim);
    assert Preserves(GenerationFor(u), n, c.dim, u.cost) && Succeeds(GenerationFor(u), n, c.dim, u.cost);
    EvolveSucceeds(Count(c.generaciones), st, [], [], GenerationFor(u), n, c.dim, u.cost);
    EvolveKeeps(Count(c.generaciones), st, [], [], GenerationFor(u), n, c.dim, u.cost);
  }

  /** A valid run returns `tam_pob` individuals of `dim` genes with their own
      costs, one curve entry per generation for each curve, and
      best <= mean <= worst. */
  lemma RunSucceeds(c: Config, others: (string, Genes) -> real, pow: (real, real) -> real, s: Stream)
    requires Valid(c, pow)
    ensures var r := RunSpec(c, others, pow, s);
      && r.Ok?
      && |r.value.population| == |r.value.costs| == c.tamPob
      && OfLength(r.value.population, c.dim)
      && (forall i :: 0 <= i < c.tamPob ==> Objective(c.nombreFunc, others)(r.value.population[i]) == Ok(r.value.costs[i]))
      && |r.value.bestCurve| == |r.value.meanCurve| == Count(c.generaciones)
      && r.value.best <= r.value.average <= r.value.worst
  {
    EvolveValid(c, others, pow, s);
  }

  /** Entry g of each curve is the best (mean) cost of the population after
      generation g + 1, and the final best and mean are the last entries. */
  lemma RunRecords(c: Config, others: (string, Genes) -> real, pow: (real, real) -> real, s: Stream)
    requires RunSpec(c, others, pow, s).Ok?
    ensures var r := RunSpec(c, others, pow, s).value;
      && Domain(c.nombreFunc).Some? && c.dim != 0 && Start(c, others, s).Ok?
      && (forall g: nat :: g < Count(c.generaciones) ==>
            RecordedAt(GenerationFor(SetupFor(c, others, pow)), Start(c, others, s).value, [], [], g,
                       r.bestCurve, r.meanCurve))
      && (Count(c.generaciones) > 0 ==>
            r.best == r.bestCurve[Count(c.generaciones) - 1] && r.average == r.meanCurve[Count(c.generaciones) - 1])
  {
    var st := Start(c, others, s).value;
    var step := GenerationFor(SetupFor(c, others, pow));
    var k := Count(c.generaciones);
    EvolveRecords(k, st, [], [], step);
    if k > 0 {
      assert RecordedAt(step, st, [], [], k - 1, Evolve(k, st, [], [], step).value.best, Evolve(k, st, [], [], step).value.mean);
    }
  }

  /** With elitism, generations started from a consistent state give a best
      curve that never increases and never exceeds the starting best cost. */
  lemma ElitistCurve(k: nat, st: State, u: Setup, d: nat)
    requires Count(u.tamPob) >= 1 && u.elitismo >= 1 && Consistent(st, Count(u.tamPob), d, u.cost)
    requires Evolve(k, st, [], [], GenerationFor(u)).Ok?
    ensures var best := Evolve(k, st, [], [], GenerationFor(u)).value.best;
      && NonIncreasing(best)
      && forall g :: 0 <= g < |best| ==> best[g] <= Min(st.costs)
  {
    var step := GenerationFor(u);
    var n := Count(u.tamPob);
    GenerationProperties(u, d);
    assert Preserves(step, n, d, u.cost) && NoRegress(step, n, d, u.cost);
    assert NonIncreasing([]);
    EvolveMonotone(k, st, [], [], step, n, d, u.cost);
  }

  /** With elitism the best curve never increases and never exceeds the best
      initial cost. */
  lemma RunElitism(c: Config, others: (string, Genes) -> real, pow: (real, real) -> real, s: Stream)
    requires Valid(c, pow) && c.elitismo >= 1
    ensures var r := RunSpec(c, others, pow, s);
      && r.Ok? && Start(c, others, s).Ok? && |Start(c, others, s).value.costs| > 0
      && NonIncreasing(r.value.bestCurve)
      && forall g :: 0 <= g < |r.value.bestCurve| ==> r.value.bestCurve[g] <= Min(Start(c, others, s).value.costs)
  {
    RunSucceeds(c, others, pow, s);
    StartConsistent(c, others, s);
    var u := SetupFor(c, others, pow);
    var st := Start(c, others, s).value;
    var e := Evolve(Count(c.generaciones), st, [], [], GenerationFor(u));
    assert e.Ok? && RunSpec(c, others, pow, s) == Summarize(e.value);
    ElitistCurve(Count(c.generaciones), st, u, c.dim);
  }

  /** An unknown operator name fails the first generation. */
  lemma RunUnknownCrossover(c: Config, others: (string, Genes) -> real, pow: (real, real) -> real, s: Stream)
    requires Domain(c.nombreFunc).Some? && c.dim >= 1 && (c.nombreFunc == "rosenbrock" ==> c.dim >= 2)
    requires c.tamPob >= 1 && c.generaciones >= 1 && ParseKind(c.tipoCruza).Err?
    ensures RunSpec(c, others, pow, s) == Err(UnknownCrossover)
  {
    var u := SetupFor(c, others, pow);
    StartConsistent(c, others, s);
    var st := Start(c, others, s).value;
    TransformedIsWeighted(st.costs);
    var sel := Select(st.pop, Fitnesses(st.costs), u.tamPob, Some(st.rng)).value;
    var make := MakerFor(u.q, u.tipo);
    assert make(sel.value[0], sel.value[Partner(0, c.tamPob)], sel.rest) == Err(UnknownCrossover);
    assert Litter(sel.value, c.tamPob, make, sel.rest) == Err(UnknownCrossover);
    assert Generation(st, u) == Err(UnknownCrossover);
  }

  /** With `tam_pob <= 0` the population is empty and `min` raises. */
  lemma RunEmptyPopulation(c: Config, others: (string, Genes) -> real, pow: (real, real) -> real, s: Stream)
    requires Domain(c.nombreFunc).Some? && c.dim != 0 && c.tamPob <= 0
    ensures RunSpec(c, others, pow, s) == Err(EmptySequence)
  {
    var u := SetupFor(c, others, pow);
    var st := Start(c, others, s).value;
    assert st.pop == [] && st.costs == [];
    if c.generaciones >= 1 {
      var sel := Select(st.pop, Fitnesses(st.costs), u.tamPob, Some(st.rng)).value;
      assert sel.value == [];
      var h := Litter(sel.value, 0, MakerFor(u.q, u.tipo), sel.rest).value;
      assert h.value == [];
      assert Evaluate(h.value, u.cost) == Ok([]);
      assert Generation(st, u).Ok? && Generation(st, u).value.costs == [];
    }
  }

  /** Rosenbrock with fewer than two genes raises on the first individual. */
  lemma RunRosenbrockTooFew(c: Config, others: (string, Genes) -> real, pow: (real, real) -> real, s: Stream)
    requires c.nombreFunc == "rosenbrock" && c.dim != 0 && c.dim < 2 && c.tamPob >= 1
    ensures RunSpec(c, others, pow, s) == Err(TooFewDimensions)
  {
    var pop := Initial(Count(c.tamPob), Count(c.dim), -2.048, 2.048, s);
    assert |pop[0]| < 2;
    assert Benchmarks.RosenbrockSpec(pop[0]) == Err(TooFewDimensions);
    assert c.nombreFunc != "sphere";
    assert Objective(c.nombreFunc, others)(pop[0]) == Err(TooFewDimensions);
  }
}
