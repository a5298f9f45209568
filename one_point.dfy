/** One-point crossover (`cruza_un_punto`): the children swap their tails at a
    single cut point drawn from 1 .. n-1. */
module OnePoint {
  import opened Base

  /** x up to the cut, y from the cut on: `x[:c] + y[c:]`. */
  function Splice(x: Genes, y: Genes, c: nat): (r: Genes)
    requires c <= |x| && c <= |y|
    ensures |r| == |y|
    ensures forall i :: 0 <= i < c ==> r[i] == x[i]
    ensures forall i :: c <= i < |y| ==> r[i] == y[i]
  {
    x[..c] + y[c..]
  }

  /** `cruza_un_punto(p1, p2, pc, rng)`. One draw decides whether crossing
      happens; a second draw, only when it does and n >= 2, gives the cut. */
  function Cross(p1: Genes, p2: Genes, pc: real, rng: Option<Stream>): (r: Result<Offspring>)
    // the error cases: no generator, parents of different lengths, and
    // `randint(1, -1)` when two empty parents are to be crossed
    ensures r == Err(MissingRng) <==> rng.None?
    ensures r == Err(LengthMismatch) <==> rng.Some? && |p1| != |p2|
    ensures r == Err(EmptyRange) <==> rng.Some? && |p1| == |p2| == 0 && rng.value.At(0) < pc
    // no crossing: copies of the parents, one draw consumed
    ensures rng.Some? && |p1| == |p2| && rng.value.At(0) >= pc ==>
              r == Ok(Offspring(p1, p2, rng.value.Skip(1)))
    // a single gene cannot be cut: copies again
    ensures rng.Some? && |p1| == |p2| == 1 ==> r == Ok(Offspring(p1, p2, rng.value.Skip(1)))
    // crossing with n >= 2: the tails after a cut c in [1, n-1] are exchanged
    ensures rng.Some? && |p1| == |p2| >= 2 && rng.value.At(0) < pc ==>
              var c := RandInt(1, |p1| - 1, rng.value.At(1));
              1 <= c <= |p1| - 1 &&
              r == Ok(Offspring(Splice(p1, p2, c), Splice(p2, p1, c), rng.value.Skip(2)))
    // shape: every position holds the parents' two genes, in one order or the other
    ensures r.Ok? ==> |r.value.child1| == |p1| && |r.value.child2| == |p1|
    ensures r.Ok? ==> forall i :: 0 <= i < |p1| ==>
              multiset{r.value.child1[i], r.value.child2[i]} == multiset{p1[i], p2[i]}
  {
    if rng.None? then Err(MissingRng)
    else if |p2| != |p1| then Err(LengthMismatch)
    else
      var s := rng.value;
      if s.At(0) >= pc then Ok(Offspring(p1, p2, s.Skip(1)))
      else if |p1| == 1 then Ok(Offspring(p1, p2, s.Skip(1)))
      else if |p1| - 1 < 1 then Err(EmptyRange)
      else
        var c := RandInt(1, |p1| - 1, s.At(1));
        Ok(Offspring(Splice(p1, p2, c), Splice(p2, p1, c), s.Skip(2)))
  }

  /** Crossing the two children again at the same cut gives back the parents. */
  lemma SpliceRoundTrip(p1: Genes, p2: Genes, c: nat)
    requires |p1| == |p2| && c <= |p1|
    ensures Splice(Splice(p1, p2, c), Splice(p2, p1, c), c) == p1
    ensures Splice(Splice(p2, p1, c), Splice(p1, p2, c), c) == p2
  {
  }

  /** With `prob_cruza <= 0` the first draw is never below it: the operator
      always returns copies of the parents. */
  lemma NeverCrossesAtZero(p1: Genes, p2: Genes, pc: real, s: Stream)
    requires |p1| == |p2| && pc <= 0.0
    ensures Cross(p1, p2, pc, Some(s)) == Ok(Offspring(p1, p2, s.Skip(1)))
  {
  }

  /** The worked example: parents [1,2,3,4] and [5,6,7,8] cut at 2. */
  lemma CutAtTwo()
    ensures Splice([1.0, 2.0, 3.0, 4.0], [5.0, 6.0, 7.0, 8.0], 2) == [1.0, 2.0, 7.0, 8.0]
    ensures Splice([5.0, 6.0, 7.0, 8.0], [1.0, 2.0, 3.0, 4.0], 2) == [5.0, 6.0, 3.0, 4.0]
  {
  }
}
