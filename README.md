# A real-coded genetic algorithm, modelled and proved in Dafny

This project models the evolutionary core of a genetic algorithm for continuous
minimisation. The algorithm works on individuals that are vectors of reals
(`Genes == seq<real>`), and a run of `ejecutar_ga_real` goes like this:

- It looks up a benchmark name in the registry and builds an initial
  population uniformly in the benchmark's domain `[a, b]`.
- Each generation then does four things:
  1. It turns costs into fitnesses (`transformar_aptitud`).
  2. It draws `tam_pob` parents by roulette (`seleccion_ruleta`).
  3. It pairs parent `i` with parent `(i + 1) mod tam_pob` and makes two children with one of four crossovers: one-point, uniform, BLX-α or SBX. Both children then go through bounded mutation.
  4. It keeps the best `tam_pob` offspring, with a one-slot elitism (`reemplazo_peores`).
- After each generation it records the best and mean cost.
- At the end it reports the best, worst and mean final cost.

Randomness is an explicit stream of draws in `[0, 1)`: `Base.Stream(draw, pos)`, where `At(k)` reads a draw and `Skip(k)` advances the stream.
- Every operator takes the stream, or `None` where the Python code accepts `rng=None`, and returns the advanced stream.
- The proofs therefore also state how many draws each operator consumes.
- `uniform(lo, hi)` is `lo + (hi - lo) * u`.
- `randint`, `choice` and `choices` map one draw to an index that is always in range. For `choices` this is the first index whose running weight total exceeds `u * total`.

Python exceptions become `Base.Result` errors, one constructor per cause.

The model takes the source's own form:
- The list-comprehension operators are functions: one-point and uniform crossover, roulette selection, replacement, evaluation and `sphere`.
- Every loop of the source is a `method` with a `while`/`for` loop, proved equal to a specification function: BLX, SBX, mutation, the fitness transform, `rosenbrock`, initialisation, the pairing loop, one generation, the generation loop and the whole run.
- The properties are lemmas about those specification functions.

Modules, leaf first:
- `Base`, `Reals`: shared types and list arithmetic.
- `OnePoint`, `UniformCrossover`, `Blx`, `Sbx`: the four crossovers.
- `Mutation`, `Selection`, `Replacement`: the other operators.
- `Breeding`: the `crear_hijos_reales` dispatch and the pairing loop.
- `Benchmarks`: `sphere` and `rosenbrock`.
- `Driver`: `ejecutar_ga_real`.

The model follows the code as written. In particular:
- BLX and SBX children are never clipped to the domain.
- Mutation clamps only the genes it mutates, so the population is not kept inside `[a, b]` in general.
- `porcentaje` has no effect on replacement.
- Elitism reclaims at most one slot, whatever `elitismo` is.
- SBX draws a coin for every gene before deciding whether to cross it.
- Replacement fails (an `IndexError` in Python) when elitism is on and fewer offspring than parents are kept.

## Model

| member | source | states |
|---|---|---|
| Base.UniformWithin | src/componentes/main_ga.py:40 | a uniform sample from `[lo, hi]` with `lo <= hi` lies in `[lo, hi]` |
| Base.UniformPoint | src/componentes/cruza_blx.py:40-41 | sampling a degenerate interval `[x, x]` gives `x` |
| Base.RandInt | src/componentes/cruza_un_punto.py:44 | `randint(lo, hi)` gives an integer in `[lo, hi]` |
| Reals.Abs | src/componentes/cruza_sbx.py:35 | `abs(x)` is non-negative and equals `x` or `-x` |
| Reals.Smaller | src/componentes/cruza_blx.py:32 | `min(x, y)` is at most both and is one of them |
| Reals.Larger | src/componentes/cruza_blx.py:33 | `max(x, y)` is at least both and is one of them |
| Reals.Min | src/componentes/main_ga.py:188 | `min(costos)` is at most every cost and is one of them |
| Reals.Max | src/componentes/main_ga.py:189 | `max(costos)` is at least every cost and is one of them |
| Reals.MinMeanMax | src/componentes/main_ga.py:188-190 | on a non-empty list, min <= `sum / len` <= max |
| OnePoint.Splice | src/componentes/cruza_un_punto.py:47-48 | `x[:c] + y[c:]` has `y`'s length, takes positions below `c` from `x` and the rest from `y` |
| OnePoint.Cross | src/componentes/cruza_un_punto.py:28-48 | error iff `rng` is None, or iff the lengths differ, or iff empty parents are crossed (`randint(1, -1)` raises); a first draw `>= prob_cruza` or `n == 1` returns the parents after one draw; otherwise the cut is in `[1, n-1]` and the children are the two splices after two draws; children have length `n` and hold at each position the parents' two genes as a multiset |
| OnePoint.SpliceRoundTrip | src/componentes/cruza_un_punto.py:47-48 | crossing the two children again at the same cut gives back both parents |
| OnePoint.NeverCrossesAtZero | src/componentes/cruza_un_punto.py:36-37 | with `prob_cruza <= 0` the parents are always returned unchanged |
| OnePoint.CutAtTwo | src/componentes/cruza_un_punto.py:47-48 | cutting [1,2,3,4] and [5,6,7,8] at 2 gives [1,2,7,8] and [5,6,3,4] |
| UniformCrossover.Mask | src/componentes/cruza_uniforme.py:30 | the mask has one bit, 0 or 1, per gene |
| UniformCrossover.Keep | src/componentes/cruza_uniforme.py:31 | a child has the parents' length |
| UniformCrossover.Cross | src/componentes/cruza_uniforme.py:18-32 | error iff `rng` is None, or iff the lengths differ, and no other error; a first draw `>= prob_cruza` returns the parents; otherwise mask bit 1 keeps `p1[i]`/`p2[i]` and bit 0 swaps them, after `1 + n` draws; each position holds the parents' genes as a multiset |
| UniformCrossover.IdenticalParents | src/componentes/cruza_uniforme.py:31-32 | identical parents give children equal to them for every mask |
| UniformCrossover.ConstantMasks | src/componentes/cruza_uniforme.py:31-32 | an all-ones mask returns the parents, an all-zeros mask returns them swapped |
| Blx.Blend | src/componentes/cruza_blx.py:28-44 | the crossed children have length `n` and the loop consumes exactly `2n` draws |
| Blx.Spec | src/componentes/cruza_blx.py:17-46 | error iff `rng` is None, or iff the lengths differ, and no other error; a first draw `>= prob_cruza` returns the parents after one draw; otherwise gene `i` of the first child samples draw `1 + 2i` and of the second child draw `2 + 2i` from the gene's widened interval, after `1 + 2n` draws; children have the parents' length |
| Blx.Cross | src/componentes/cruza_blx.py:17-46 | the loop that appends one pair of samples per gene returns exactly `Blx.Spec` |
| Blx.GeneInInterval | src/componentes/cruza_blx.py:32-41 | for `alpha >= 0` the widened interval contains `[min, max]` and every sample lies in it |
| Blx.ChildrenInInterval | src/componentes/cruza_blx.py:31-44 | every gene of both children lies in `[min(x,y) - alpha*I, max(x,y) + alpha*I]` for its parents' genes |
| Blx.AgreeingGene | src/componentes/cruza_blx.py:32-41 | where the parents agree, both children take that value |
| Blx.ExampleInterval | src/componentes/cruza_blx.py:36-37 | genes 2 and 8 with alpha 0.5 give the interval [-1, 11] |
| Sbx.Spread | src/componentes/cruza_sbx.py:42-45 | on exact reals, `beta_q` fails iff `eta_c == -1` or zero is raised to a negative power, and the failure is a ZeroDivisionError |
| Sbx.Gene | src/componentes/cruza_sbx.py:35-52 | a gene that is not crossed (coin > 0.5 or `abs(x1 - x2) <= 1e-14`) is copied unchanged and unswapped after one draw; a crossed gene consumes two draws |
| Sbx.CrossGenes | src/componentes/cruza_sbx.py:34-55 | the children have the parents' length, the loop consumes between `n` and `2n` draws, and the only failure is ZeroDivision |
| Sbx.Spec | src/componentes/cruza_sbx.py:18-57 | error iff `rng` is None, or iff the lengths differ; the only other error is ZeroDivisionError from a crossed gene; a first draw `>= prob_cruza` returns the parents; children have the parents' length |
| Sbx.GluePrepend | src/componentes/cruza_sbx.py:47-52 | appending one gene pair to the children found so far is the same as putting it in front of the children of the remaining genes |
| Sbx.CrossGene | src/componentes/cruza_sbx.py:35-52 | one loop iteration (coin, swap, power, children) computes exactly `Sbx.Gene` |
| Sbx.Cross | src/componentes/cruza_sbx.py:18-57 | the loop appending to both children returns exactly `Sbx.Spec` |
| Sbx.CrossedGeneMidpoint | src/componentes/cruza_sbx.py:36-48 | a crossed gene keeps the parents' midpoint (`c1 + c2 == x1 + x2`), spreads around the smaller and larger value whatever their order, and has `c1 <= c2` whenever `beta_q >= 0` |
| Sbx.SpreadRange | src/componentes/cruza_sbx.py:42-45 | for `eta_c > -1`, `beta_q` never fails; it lies in `[0, 1]` for `u <= 0.5` and is at least 1 otherwise |
| Sbx.SpreadsWithin | src/componentes/cruza_sbx.py:47-48 | a spread in `[0, 1]` keeps both children within `[min, max]`, in order |
| Sbx.SpreadsOutside | src/componentes/cruza_sbx.py:47-48 | a spread `>= 1` puts the children on or outside `[min, max]` |
| Sbx.CrossedGeneSpread | src/componentes/cruza_sbx.py:35-48 | for `eta_c > -1` a crossed gene succeeds after two draws, keeps the midpoint, puts the smaller child first, lies inside `[min, max]` for `u <= 0.5` and on or outside it otherwise |
| Sbx.GenesMidpoint | src/componentes/cruza_sbx.py:34-55 | at every gene, crossed or copied, the two children's values add up to the parents' values |
| Sbx.Midpoint | src/componentes/cruza_sbx.py:18-57 | every child gene pair of `cruza_sbx` keeps the parents' midpoint: `c1[i] + c2[i] == p1[i] + p2[i]` |
| Sbx.GenesOrdered | src/componentes/cruza_sbx.py:34-55 | with `eta_c > -1`, each gene pair of the loop is either the parents' pair unchanged or has `c1[i] <= c2[i]` |
| Sbx.Ordered | src/componentes/cruza_sbx.py:18-57 | with `eta_c > -1`, each gene pair of `cruza_sbx`'s result is either `(p1[i], p2[i])` or has the smaller value in `hijo1` |
| Sbx.IdenticalGenes | src/componentes/cruza_sbx.py:34-55 | identical parent vectors are copied through, one draw per gene |
| Sbx.IdenticalParents | src/componentes/cruza_sbx.py:26-57 | identical parents always give children equal to them |
| Sbx.NeverFails | src/componentes/cruza_sbx.py:18-57 | on exact reals, with `eta_c > -1` and equal lengths SBX always returns children |
| Sbx.GenesNeverFail | src/componentes/cruza_sbx.py:34-55 | with `eta_c > -1` the per-gene loop never fails |
| Mutation.Clamp | src/componentes/mutacion_real.py:48-51 | the clamp of `v` to `[a, b]` (for `a <= b`) lies in `[a, b]`, leaves an in-range `v` unchanged, and is `v`, `a` or `b` |
| Mutation.MutateGene | src/componentes/mutacion_real.py:42-52 | a gene whose draw is `>= pm` is kept after one draw; a mutated gene consumes two draws |
| Mutation.MutateGenes | src/componentes/mutacion_real.py:41-52 | the output has the input's length, and the loop consumes between `n` and `2n` draws |
| Mutation.Spec | src/componentes/mutacion_real.py:30-52 | error iff `rng` is None, or iff `pm` is outside `[0, 1]`, and no other error; the output has the input's length |
| Mutation.JoinPrepend | src/componentes/mutacion_real.py:41-52 | writing one gene after the genes done so far is the same as putting it in front of the remaining genes |
| Mutation.Mutate | src/componentes/mutacion_real.py:30-54 | the loop overwriting genes of the copy returns exactly `Mutation.Spec` |
| Mutation.MutatedGene | src/componentes/mutacion_real.py:38-52 | a mutated gene is `clamp(v + noise)` with noise drawn from `[-m, m]`, `m` being the maximum change `amplitud*(b-a)`, and an in-range gene moves by at most `m` |
| Mutation.NoMutation | src/componentes/mutacion_real.py:42 | with `pm <= 0` the output equals the input, one draw per gene |
| Mutation.AllMutated | src/componentes/mutacion_real.py:42-45 | with `pm >= 1` every gene consumes two draws |
| Mutation.KeptOrInDomain | src/componentes/mutacion_real.py:41-52 | every output gene is the input gene unchanged or lies in `[a, b]`, so an out-of-range gene that is not mutated stays out of range |
| Mutation.DomainPreserved | src/componentes/mutacion_real.py:30-52 | an individual inside `[a, b]` stays inside `[a, b]` |
| Selection.Fitness | src/componentes/seleccion_ruleta.py:23-24 | the fitness of a cost is in `(0, 1e6]` |
| Selection.Fitnesses | src/componentes/seleccion_ruleta.py:19-25 | one fitness per cost, each in `(0, 1e6]` |
| Selection.TransformFitness | src/componentes/seleccion_ruleta.py:19-25 | the appending loop returns `1 / (max(0, c) + 1e-6)` for each cost, in order |
| Selection.FitnessAntitone | src/componentes/seleccion_ruleta.py:24 | a larger cost never has a larger fitness |
| Selection.FitnessStrictlyAntitone | src/componentes/seleccion_ruleta.py:24 | among non-negative costs a strictly larger cost has a strictly smaller fitness |
| Selection.NegativeCost | src/componentes/seleccion_ruleta.py:23 | a negative cost gets the fitness of cost 0, which is `1e6` |
| Selection.Spin | src/componentes/seleccion_ruleta.py:63-68 | the weighted spin lands on an index of the population |
| Selection.CumulativeTail | src/componentes/seleccion_ruleta.py:63-68 | a running total splits into the first weight plus the running total of the rest |
| Selection.SpinBisects | src/componentes/seleccion_ruleta.py:63-68 | every running total before the chosen index is at most the target, and the chosen one exceeds it unless it is the last index (bisection on cumulative weights) |
| Selection.SpinPositive | src/componentes/seleccion_ruleta.py:63-68 | with non-negative weights and a target below the total, the spin picks an index of positive weight |
| Selection.UniformPick | src/componentes/seleccion_ruleta.py:59-61 | `choice` returns a member of the population |
| Selection.WeightedPick | src/componentes/seleccion_ruleta.py:63-68 | a weighted pick is a member of the population |
| Selection.Select | src/componentes/seleccion_ruleta.py:48-71 | error iff `rng` is None, iff the lengths differ, iff a fitness is negative, iff `choice` runs on an empty population; success exactly otherwise, with `max(k, 0)` individuals, each a population member, after as many draws; with a zero total fitness pick `j` is `rng.choice(poblacion)` on draw `j` (`UniformPick`), and otherwise it is the weighted `rng.choices` pick on draw `j` (`WeightedPick`) |
| Selection.TargetInRange | src/componentes/seleccion_ruleta.py:63-68 | a draw times a positive total is a target in `[0, total)` |
| Selection.WeightedPickPositive | src/componentes/seleccion_ruleta.py:63-68 | with a positive total, a weighted pick is an individual of positive fitness |
| Selection.WeightedPicks | src/componentes/seleccion_ruleta.py:56-68 | with a positive total, selection succeeds and never draws a zero-fitness individual |
| Selection.TransformedIsWeighted | src/componentes/seleccion_ruleta.py:56-68 | fitnesses from `transformar_aptitud` of a non-empty cost list have a positive total, so roulette takes the weighted branch |
| Replacement.RankedCons | src/componentes/reemplazo_peores.py:43-44 | an index that precedes every ranked index in (cost, index) order can go in front |
| Replacement.RankedTail | src/componentes/reemplazo_peores.py:43-44 | the tail of a ranked list is ranked, and its head precedes every other element |
| Replacement.Insert | src/componentes/reemplazo_peores.py:43-44 | inserting a new largest index into a ranked list keeps it ranked and adds exactly that index |
| Replacement.SortedBy | src/componentes/reemplazo_peores.py:43-44 | the stable sort of `range(n)` by cost is ranked and a permutation of `0..n-1` |
| Replacement.RankedUnique | src/componentes/reemplazo_peores.py:43-44 | two ranked lists with the same elements are equal |
| Replacement.StableSortUnique | src/componentes/reemplazo_peores.py:43-44 | every ranked permutation of the indices is the stable sort |
| Replacement.Survivors | src/componentes/reemplazo_peores.py:43-44 | `min(n, len)` indices, ranked by (cost, index) |
| Replacement.SurvivorsAreBest | src/componentes/reemplazo_peores.py:43-44 | the kept offspring have ascending costs, ties in index order, and no dropped offspring is cheaper than a kept one |
| Replacement.ArgMax | src/componentes/reemplazo_peores.py:55 | `max(range(N), key=...)` is the first index holding the largest cost |
| Replacement.BestIndex | src/componentes/reemplazo_peores.py:38 | `idx_padres[0]` of `sorted(range(N), key=...)`, the head of the stable sort taken at line 58, is the first index holding the smallest cost |
| Replacement.Kept | src/componentes/reemplazo_peores.py:45-46 | the kept members and costs have `min(N, len(hijos))` entries |
| Replacement.Replacement | src/componentes/reemplazo_peores.py:30-65 | LengthMismatch iff a length check fails; IndexError iff elitism is on and fewer than `N` offspring were kept; success exactly otherwise, with `min(N, len(hijos))` members and costs |
| Replacement.Replace | src/componentes/reemplazo_peores.py:30-65 | the code that overwrites the elite slot in place returns exactly `Replacement.Replacement` |
| Replacement.Aligned | src/componentes/reemplazo_peores.py:45-46 | every result slot holds an offspring with its own cost or a parent with its own cost |
| Replacement.AtMostOneSlot | src/componentes/reemplazo_peores.py:51-63 | with `elitismo <= 0` the result is the kept offspring; otherwise at most one slot differs from them |
| Replacement.EliteSwap | src/componentes/reemplazo_peores.py:51-63 | when the best parent is strictly cheaper than the worst kept offspring, it overwrites the first worst slot with its cost; otherwise the kept offspring are returned |
| Replacement.BestNeverRegresses | src/componentes/reemplazo_peores.py:43-63 | with elitism and at least `N` offspring, the best new cost is no worse than the best parent cost |
| Replacement.FractionIgnored | src/componentes/reemplazo_peores.py:24 | `porcentaje` does not change the result |
| Breeding.ParseKind | src/componentes/main_ga.py:70-81 | accepts exactly names whose lowercase is one of the four operator names, and returns that operator; any other name is UnknownCrossover |
| Breeding.LowerIdempotent | src/componentes/main_ga.py:70 | lowering twice is lowering once |
| Breeding.CaseInsensitive | src/componentes/main_ga.py:70 | a name and its lowercase select the same operator |
| Breeding.ParseKindName | src/componentes/main_ga.py:72-79 | each operator's own name selects it |
| Breeding.ParseExamples | src/componentes/main_ga.py:70-81 | "BLX" selects BLX, "Un_Punto" one-point, and "aritmetica" is rejected |
| Breeding.Crossover | src/componentes/main_ga.py:72-79 | the dispatched crossover fails on a missing `rng` or a length mismatch and gives children of the first parent's length |
| Breeding.Children | src/componentes/main_ga.py:70-89 | an unknown operator name is an error, checked before `rng`; a missing `rng` is an error; the two children have the parents' length |
| Breeding.CreateChildren | src/componentes/main_ga.py:53-89 | crossover followed by two mutations returns exactly `Breeding.Children` |
| Breeding.ChildrenNeverFail | src/componentes/main_ga.py:70-89 | with a known operator, `pm` in `[0, 1]` and SBX's `eta_c > -1`, equal-length, non-empty parents always give two children |
| Breeding.ChildrenInDomain | src/componentes/main_ga.py:72-89 | one-point and uniform crossover followed by mutation keep in-domain parents in `[a, b]` |
| Breeding.MakerKeepsLength | src/componentes/main_ga.py:148-158 | the child maker gives children of the first parent's length |
| Breeding.MakerNeverFails | src/componentes/main_ga.py:148-158 | with sound parameters the child maker never fails on parents of the run's dimension |
| Breeding.Partner | src/componentes/main_ga.py:146 | the partner of parent `i` is an index of the parents |
| Breeding.Brood | src/componentes/main_ga.py:144-160 | the pairing loop from index `i`: parent `i` with parent `(i + 1) % tam_pob`, two children appended per pair, so the number of children is even |
| Breeding.PartnerIsModulo | src/componentes/main_ga.py:146 | the partner is `(i + 1) % tam_pob` |
| Breeding.BroodStep | src/componentes/main_ga.py:144-160 | one pass of the pairing loop: a failing crossover ends the brood with its error, a successful one appends its two children and moves on two parents with the generator it left |
| Breeding.Breed | src/componentes/main_ga.py:143-160 | the pairing loop returns exactly the offspring of the pairing function |
| Breeding.BroodPairs | src/componentes/main_ga.py:144-160 | the loop makes `tam_pob` or `tam_pob + 1` children, an even number, and children `2j`, `2j+1` are those the child maker gives for parents `2j` and `(2j + 1) mod tam_pob` in the generator state `Breeding.StreamAt` the first `j` pairs left |
| Breeding.PairShift | src/componentes/main_ga.py:144-160 | a pair made further on is still made correctly after two earlier children are put in front |
| Breeding.BroodShape | src/componentes/main_ga.py:144-160 | parents of dimension `d` give children of dimension `d` |
| Breeding.BroodNeverFails | src/componentes/main_ga.py:144-160 | with a maker that never fails on dimension `d` the loop never fails |
| Benchmarks.Square | src/componentes/funciones.py:10 | a square is non-negative |
| Benchmarks.SquarePositive | src/componentes/funciones.py:10 | the square of a non-zero number is positive |
| Benchmarks.Squares | src/componentes/funciones.py:10 | `x**2` has one non-negative entry per gene |
| Benchmarks.Sphere | src/componentes/funciones.py:4-10 | `sphere(x) = sum(x**2)` is never negative |
| Benchmarks.SphereMinimum | src/componentes/funciones.py:4-10 | sphere is non-negative and is zero exactly at the origin |
| Benchmarks.SphereExamples | src/componentes/funciones.py:69-70 | sphere([0, 0]) is 0 and sphere([1, 2, 3]) is 14 |
| Benchmarks.Term | src/componentes/funciones.py:63 | each Rosenbrock term is non-negative |
| Benchmarks.RosenbrockSum | src/componentes/funciones.py:61-64 | the partial sums are non-negative |
| Benchmarks.RosenbrockSpec | src/componentes/funciones.py:52-64 | error iff fewer than 2 dimensions, reported as such; otherwise the value is non-negative |
| Benchmarks.Rosenbrock | src/componentes/funciones.py:52-64 | the accumulating loop returns exactly `Benchmarks.RosenbrockSpec` |
| Benchmarks.TermZero | src/componentes/funciones.py:63 | a term is zero iff both of its genes are 1 |
| Benchmarks.RosenbrockSumZero | src/componentes/funciones.py:61-64 | a partial sum is zero when all genes so far are 1 and positive otherwise |
| Benchmarks.RosenbrockMinimum | src/componentes/funciones.py:52-64 | with at least 2 dimensions Rosenbrock is 0 exactly at the all-ones vector |
| Driver.Domain | src/componentes/main_ga.py:18-24 | exactly the five registered names have a domain, each a symmetric interval around 0 |
| Driver.ObjectiveTotal | src/componentes/main_ga.py:18-24 | a registered objective never fails on vectors of the run's dimension (at least 2 for Rosenbrock) |
| Driver.Score | src/componentes/main_ga.py:18-24 | the registered objective applied to `x`: it fails only for Rosenbrock below two dimensions, with TooFewDimensions, and sphere and Rosenbrock are never negative |
| Driver.Objective | src/componentes/main_ga.py:18-24 | the function `f` taken from `MAPA_FUNCIONES[nombre_func]` fails on `x` iff the name is Rosenbrock and `x` has fewer than two genes |
| Driver.Evaluate | src/componentes/main_ga.py:45-50 | succeeds iff every individual has a cost; then one cost per individual, `costs[i] == f(pob[i])`; otherwise the error of the first individual that fails |
| Driver.Individual | src/componentes/main_ga.py:40 | an individual has `dim` genes |
| Driver.Initial | src/componentes/main_ga.py:30-42 | `tam_pob` individuals of `dim` genes each |
| Driver.InitialDraws | src/componentes/main_ga.py:38-41 | gene `j` of individual `i` is `uniform(a, b)` of draw `i*dim + j` |
| Driver.InitialInDomain | src/componentes/main_ga.py:30-42 | every initial gene lies in `[a, b]` |
| Driver.InitPopulation | src/componentes/main_ga.py:30-42 | the appending loop returns exactly `Driver.Initial` and consumes `tam_pob * dim` draws |
| Driver.Litter | src/componentes/main_ga.py:144-163 | the truncated offspring list exists iff the pairing loop succeeds, and has exactly `tam_pob` children |
| Driver.LitterShape | src/componentes/main_ga.py:144-163 | parents of dimension `d` give offspring of dimension `d`, and a maker that never fails gives offspring |
| Driver.Step | src/componentes/main_ga.py:139-176 | one generation (transform, selection, pairing, truncation, evaluation, replacement) returns exactly the generation function |
| Driver.Generation | src/componentes/main_ga.py:139-176 | one generation: transform, selection of `tam_pob` parents, pairing, `hijos[:tam_pob]`, evaluation and replacement, the first error ending it; it succeeds only on a population with one cost per individual |
| Driver.GenerationSize | src/componentes/main_ga.py:159-176 | a successful generation keeps `min(N, tam_pob)` individuals, each with a cost |
| Driver.Evolve | src/componentes/main_ga.py:137-182 | after `k` generations both curves have `k` more entries |
| Driver.EvolvePrefix | src/componentes/main_ga.py:181-182 | later generations only append to the curves |
| Driver.EvolveRecords | src/componentes/main_ga.py:179-182 | curve entry `g` is `min(costos)` and the mean of the costs after generation `g` |
| Driver.EvolveKeeps | src/componentes/main_ga.py:166-176 | a step that keeps populations and costs aligned keeps them aligned over any number of generations |
| Driver.EvolveSucceeds | src/componentes/main_ga.py:137-182 | a step that never fails on aligned states gives a run that never fails |
| Driver.AppendNonIncreasing | src/componentes/main_ga.py:181 | appending a value no larger than the last keeps the best curve non-increasing |
| Driver.EvolveMonotone | src/componentes/main_ga.py:137-182 | with a step whose best cost never regresses the best curve is non-increasing and never above the initial best |
| Driver.EvolveNonIncreasing | src/componentes/main_ga.py:137-182 | for any step that keeps an invariant of non-empty states and never worsens the best cost, the best curve stays non-increasing |
| Driver.EvolveBounded | src/componentes/main_ga.py:137-182 | for such a step, every best-curve entry recorded from a state onwards is at most that state's best cost |
| Driver.ParentsShape | src/componentes/main_ga.py:139-140 | selected parents have the population's dimension |
| Driver.GenerationKeeps | src/componentes/main_ga.py:137-176 | a generation keeps `tam_pob` individuals of dimension `d`, each with its own cost |
| Driver.GenerationSucceeds | src/componentes/main_ga.py:137-176 | with sound parameters, a non-empty population and a total objective a generation never fails |
| Driver.GenerationNoRegress | src/componentes/main_ga.py:169-176 | with `elitismo >= 1` a generation keeps `tam_pob` costs and the best cost does not regress |
| Driver.ElitistCurve | src/componentes/main_ga.py:137-182 | with `elitismo >= 1`, generations from a consistent state give a non-increasing best curve that never exceeds the starting best cost |
| Driver.GenerationProperties | src/componentes/main_ga.py:137-176 | the generation step preserves alignment, never fails under sound parameters, and never regresses with elitism |
| Driver.Summarize | src/componentes/main_ga.py:188-213 | fails iff the final costs are empty; then best <= average <= worst, every final cost lies between best and worst, and the curves, population and costs are reported unchanged |
| Driver.SetupFor | src/componentes/main_ga.py:117-123 | the generation parameters: `pm_gen * dim == 1`, a probability in `(0, 1]` for `dim >= 1`, the registered domain `(a, b)`, and the other parameters passed through |
| Driver.Start | src/componentes/main_ga.py:117-129 | the initial population and its costs: fails, with TooFewDimensions, iff Rosenbrock is evaluated below two dimensions on a non-empty population; otherwise `tam_pob` individuals of `dim` genes with one cost each, after `tam_pob * dim` draws |
| Driver.RunSpec | src/componentes/main_ga.py:95-213 | an unknown benchmark name fails before anything else, `dim == 0` fails with ZeroDivision; on success both curves have `generaciones` entries, best <= average <= worst, and every final cost lies between best and worst |
| Driver.Generations | src/componentes/main_ga.py:137-182 | the generation loop with its two curves returns exactly `Driver.Evolve` |
| Driver.Run | src/componentes/main_ga.py:95-213 | the whole run returns exactly `Driver.RunSpec` |
| Driver.SetupSound | src/componentes/main_ga.py:123 | `pm_gen = 1 / dim` with `dim >= 1` is a probability, so the operator parameters are sound |
| Driver.StartConsistent | src/componentes/main_ga.py:126-129 | the initial population has `tam_pob` individuals of `dim` genes, each with its own cost |
| Driver.EvolveValid | src/componentes/main_ga.py:137-182 | with valid parameters every generation succeeds and the population stays aligned with its costs |
| Driver.RunSucceeds | src/componentes/main_ga.py:95-213 | with valid parameters the run succeeds with `tam_pob` individuals of `dim` genes, `costs[i] == f(pob[i])`, curves of `generaciones` entries and best <= average <= worst |
| Driver.RunRecords | src/componentes/main_ga.py:137-190 | every curve entry is the metric of its generation, and the final best and mean are the last curve entries |
| Driver.RunElitism | src/componentes/main_ga.py:137-182 | with `elitismo >= 1` the best curve is non-increasing and never above the best initial cost |
| Driver.RunUnknownCrossover | src/componentes/main_ga.py:70-81 | an unknown operator name fails the run in the first generation |
| Driver.RunEmptyPopulation | src/componentes/main_ga.py:179-190 | `tam_pob <= 0` fails the run on `min` of an empty list |
| Driver.RunRosenbrockTooFew | src/componentes/funciones.py:59-60 | Rosenbrock with one dimension fails the run on the first evaluation |

## Left out

- Timing: `time.perf_counter` and `tiempo_total` are clocks, not logic.
- The result dictionary: it echoes the run's parameters. `Driver.Report` keeps only the computed fields.
- The seed and the Mersenne Twister: the stream of draws is a parameter of the run, so no seed is modelled.
- `randint`, `choice` and `choices`: each is modelled as consuming exactly one draw. For `choices` this is exact, since CPython calls `random()` once per pick. `randint` and `choice` go through a rejection loop that spends a varying number of raw 32-bit words, so their draw counts hold in the model's units.
- Floating point: all arithmetic is on exact reals. The constants 1e-6, 1e-14 and the domains are exact decimals. Float overflow is not modelled: SBX's `**` at `cruza_sbx.py:42-45` can raise OverflowError, for example with `eta_c = -0.99` and `u` near 1, or with `eta_c = -1.01` and a tiny `u`. `Sbx.Spread`, `Sbx.NeverFails` and `Sbx.GenesNeverFail` therefore state the error cases of exact arithmetic only.
- SBX's `**`: it is an uninterpreted parameter `pow`, constrained only by the range facts in `Sbx.PowLaw`.
- Sbx.Spread, Sbx.NeverFails, Sbx.GenesNeverFail: their error statements hold on exact reals only. They do not cover the OverflowError that a floating-point `**` raises when `beta_q` exceeds the largest double.
- SBX's dead `beta` computation (`cruza_sbx.py:40`): its value is never used.
- `ackley`, `griewank` and `rastrigin`: they rely on cos, exp, sqrt and π. They are one abstract total function (`others`) inside `Driver.Objective`.
- `str.lower`: it is modelled on ASCII letters only. This is exact for matching the four ASCII operator names, but not for other Unicode case mappings.
- Copies and aliasing: `.copy()` and fresh lists are not modelled, because sequences are values. That the input list of mutation is never modified therefore holds by construction.
- The plotting, experiment and diversity scripts: they are file I/O and numpy statistics around the core.
- The `__main__` demonstrations at the end of the operator files: they only print results.
- The imperative generation loop (`Driver.Generations`) calls the generation function. It does not call `Driver.Step`. `Driver.Step` separately proves that the imperative loop body equals that function.
- The source's IndexError in replacement when fewer than `N` offspring are kept under elitism appears as `Err(IndexOutOfRange)`. The driver never reaches it, because it always keeps `tam_pob` offspring.
