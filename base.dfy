/** Shared vocabulary of the genetic algorithm: individuals, errors, results and
    the stream of pseudo-random draws that every stochastic operator consumes. */
module Base {

  /** An individual: a fixed-length vector of real genes. */
  type Genes = seq<real>

  /** The exceptions the Python code raises, one constructor per cause. */
  datatype Error =
    | MissingRng          // `rng is None`
    | LengthMismatch      // parents, population or cost lists of different lengths
    | EmptyRange          // `randint(lo, hi)` with lo > hi
    | InvalidProbability  // mutation probability outside [0, 1]
    | NegativeFitness     // a negative weight handed to the roulette
    | EmptySequence       // `choice` or `min` on an empty list
    | IndexOutOfRange     // an index past the end of a list
    | ZeroDivision        // a division by zero, or 0.0 raised to a negative power
    | UnknownCrossover    // an operator name the dispatcher does not know
    | UnknownBenchmark    // a benchmark name missing from the registry
    | TooFewDimensions    // Rosenbrock on fewer than two genes

  datatype Option<T> = None | Some(value: T)

  datatype Result<T> = Ok(value: T) | Err(error: Error)

  /** A value of `random.Random.random()`: a real in [0, 1). */
  type Unit = r: real | 0.0 <= r < 1.0 witness 0.0

  /** The state of a `random.Random`: an unbounded sequence of draws and the
      position of the next one. Only `pos` changes as draws are consumed. */
  datatype Stream = Stream(draw: nat -> Unit, pos: nat) {

    /** The k-th draw from now (`At(0)` is the next `random()`). */
    function At(k: nat): Unit {
      draw(pos + k)
    }

    /** The stream after k draws have been consumed. */
    function Skip(k: nat): (s: Stream)
      ensures s.draw == draw && s.pos == pos + k
    {
      Stream(draw, pos + k)
    }
  }

  /** A value produced together with the stream left after producing it. */
  datatype Drawn<T> = Drawn(value: T, rest: Stream)

  /** The two children of a crossover and the stream left after it. */
  datatype Offspring = Offspring(child1: Genes, child2: Genes, rest: Stream)

  /** `random.uniform(lo, hi)` for the draw u: `lo + (hi - lo) * u`. */
  function Uniform(lo: real, hi: real, u: Unit): real {
    lo + (hi - lo) * u
  }

  /** For lo <= hi a uniform sample never leaves [lo, hi]. */
  lemma UniformWithin(lo: real, hi: real, u: Unit)
    requires lo <= hi
    ensures lo <= Uniform(lo, hi, u) <= hi
  {
    var d := hi - lo;
    MulMono(d, u as real, 1.0);
    MulMono(d, 0.0, u as real);
    assert d * 0.0 == 0.0 && d * 1.0 == d;
  }

  /** A uniform sample on a degenerate interval is its single point. */
  lemma UniformPoint(x: real, u: Unit)
    ensures Uniform(x, x, u) == x
  {
  }

  /** Multiplying by a non-negative factor keeps an order. */
  lemma MulMono(k: real, x: real, y: real)
    requires k >= 0.0 && x <= y
    ensures k * x <= k * y
  {
    assert k * y - k * x == k * (y - x);
  }

  /** `randint(lo, hi)` for the draw u: an index in [lo, hi], each equally likely. */
  function RandInt(lo: int, hi: int, u: Unit): (k: int)
    requires lo <= hi
    ensures lo <= k <= hi
  {
    var width := (hi - lo + 1) as real;
    assert 0.0 <= width * u < width by {
      MulMono(width, 0.0, u);
      assert width * 1.0 - width * u == width * (1.0 - u);
      assert width * (1.0 - u) > 0.0;
    }
    lo + (width * u).Floor
  }
}
