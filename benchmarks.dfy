/** The two polynomial benchmark objectives of `funciones.py`: Sphere and
    Rosenbrock. Both are minimised; their global minimum is 0. */
module Benchmarks {
  import opened Base
  import opened Reals

  /** `v**2`. */
  function Square(v: real): (r: real)
    ensures r >= 0.0
  {
    v * v
  }

  /** A nonzero value has a positive square. */
  lemma SquarePositive(v: real)
    requires v != 0.0
    ensures Square(v) > 0.0
  {
    var r := Square(v);
    assert r == v * v;
    assert r / v == v;
  }

  /** The squares of the coordinates, `x**2` element-wise. */
  function Squares(x: Genes): (q: seq<real>)
    ensures |q| == |x|
    ensures forall i :: 0 <= i < |x| ==> q[i] >= 0.0
  {
    seq(|x|, i requires 0 <= i < |x| => Square(x[i]))
  }

  /** `sphere(x) = sum(x**2)`. */
  function Sphere(x: Genes): (r: real)
    ensures r >= 0.0
  {
    SumNonNegative(Squares(x));
    Sum(Squares(x))
  }

  /** Sphere is never negative, and it is zero exactly at the origin. */
  lemma SphereMinimum(x: Genes)
    ensures Sphere(x) >= 0.0
    ensures Sphere(x) == 0.0 <==> forall i :: 0 <= i < |x| ==> x[i] == 0.0
  {
    SumNonNegative(Squares(x));
    forall i | 0 <= i < |x| && x[i] != 0.0
      ensures Sphere(x) > 0.0
    {
      SquarePositive(x[i]);
      SumPositiveTerm(Squares(x), i);
    }
    if forall i :: 0 <= i < |x| ==> x[i] == 0.0 {
      SumOfZeros(Squares(x));
    }
  }

  /** The worked values: sphere([0, 0]) = 0 and sphere([1, 2, 3]) = 14. */
  lemma SphereExamples()
    ensures Sphere([0.0, 0.0]) == 0.0
    ensures Sphere([1.0, 2.0, 3.0]) == 14.0
  {
    var x := [1.0, 2.0, 3.0];
    assert Squares(x) == [1.0, 4.0, 9.0];
    assert Sum(Squares(x)) == 1.0 + Sum([4.0, 9.0]);
    var z := [0.0, 0.0];
    assert Squares(z) == [0.0, 0.0];
    assert Sum(Squares(z)) == 0.0 + Sum([0.0]);
  }

  /** The term of coordinate i: `100 (x[i+1] - x[i]^2)^2 + (1 - x[i])^2`. */
  function Term(x: Genes, i: nat): (t: real)
    requires i + 1 < |x|
    ensures t >= 0.0
  {
    100.0 * Square(x[i + 1] - Square(x[i])) + Square(1.0 - x[i])
  }

  /** The value of `suma` after the first k iterations of the loop. */
  function RosenbrockSum(x: Genes, k: nat): (r: real)
    requires k < |x|
    ensures r >= 0.0
  {
    if k == 0 then 0.0 else RosenbrockSum(x, k - 1) + Term(x, k - 1)
  }

  /** What `rosenbrock(x)` returns: an error below two dimensions. */
  function RosenbrockSpec(x: Genes): (r: Result<real>)
    ensures r.Err? <==> |x| < 2
    ensures r.Err? ==> r.error == TooFewDimensions
    ensures r.Ok? ==> r.value >= 0.0
  {
    if |x| < 2 then Err(TooFewDimensions) else Ok(RosenbrockSum(x, |x| - 1))
  }

  /** `rosenbrock(x)`: the accumulating loop. */
  method Rosenbrock(x: Genes) returns (r: Result<real>)
    ensures r == RosenbrockSpec(x)
  {
    var n := |x|;
    if n < 2 {
      return Err(TooFewDimensions);
    }
    var suma := 0.0;
    for i := 0 to n - 1
      invariant suma == RosenbrockSum(x, i)
    {
      suma := suma + 100.0 * Square(x[i + 1] - Square(x[i])) + Square(1.0 - x[i]);
    }
    return Ok(suma);
  }

  /** A term is zero when x[i] = x[i+1] = 1 and positive otherwise. */
  lemma TermZero(x: Genes, i: nat)
    requires i + 1 < |x|
    ensures x[i] == 1.0 && x[i + 1] == 1.0 ==> Term(x, i) == 0.0
    ensures !(x[i] == 1.0 && x[i + 1] == 1.0) ==> Term(x, i) > 0.0
  {
    if x[i] != 1.0 {
      SquarePositive(1.0 - x[i]);
    } else if x[i + 1] != 1.0 {
      assert Square(x[i]) == 1.0;
      SquarePositive(x[i + 1] - Square(x[i]));
    }
  }

  /** The partial sum is zero when the first k + 1 coordinates are 1, and
      positive otherwise. */
  lemma {:induction false} RosenbrockSumZero(x: Genes, k: nat)
    requires 0 < k < |x|
    ensures (forall i :: 0 <= i <= k ==> x[i] == 1.0) ==> RosenbrockSum(x, k) == 0.0
    ensures (exists i :: 0 <= i <= k && x[i] != 1.0) ==> RosenbrockSum(x, k) > 0.0
  {
    TermZero(x, k - 1);
    if k > 1 {
      RosenbrockSumZero(x, k - 1);
    }
  }

  /** Rosenbrock is zero exactly at the all-ones vector. */
  lemma RosenbrockMinimum(x: Genes)
    requires |x| >= 2
    ensures RosenbrockSpec(x) == Ok(0.0) <==> forall i :: 0 <= i < |x| ==> x[i] == 1.0
  {
    RosenbrockSumZero(x, |x| - 1);
  }
}
