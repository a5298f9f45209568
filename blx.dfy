/** BLX-alpha crossover (`cruza_blx`): each child gene is sampled uniformly
    from the parents' interval widened by alpha times its length on each side.
    No bounds are applied: children may leave the search domain. */
module Blx {
  import opened Base
  import opened Reals

  /** Lower end of the sampling interval: `min(x, y) - alpha * I`. */
  function Low(x: real, y: real, alpha: real): real {
    Smaller(x, y) - alpha * (Larger(x, y) - Smaller(x, y))
  }

  /** Upper end of the sampling interval: `max(x, y) + alpha * I`. */
  function High(x: real, y: real, alpha: real): real {
    Larger(x, y) + alpha * (Larger(x, y) - Smaller(x, y))
  }

  /** One child gene: `uniform(low, high)` over the widened interval, for draw u. */
  function Sample(x: real, y: real, alpha: real, u: Unit): real {
    Uniform(Low(x, y, alpha), High(x, y, alpha), u)
  }

  /** The children after a crossing: gene i of the first child uses draw 2i,
      gene i of the second child draw 2i + 1, both from the same interval. */
  function Blend(p1: Genes, p2: Genes, alpha: real, s: Stream): (o: Offspring)
    requires |p1| == |p2|
    ensures |o.child1| == |p1| && |o.child2| == |p1|
    ensures o.rest == s.Skip(2 * |p1|)
  {
    Offspring(
      seq(|p1|, i requires 0 <= i < |p1| => Sample(p1[i], p2[i], alpha, s.At(2 * i))),
      seq(|p1|, i requires 0 <= i < |p1| => Sample(p1[i], p2[i], alpha, s.At(2 * i + 1))),
      s.Skip(2 * |p1|))
  }

  /** What `cruza_blx(p1, p2, pc, alpha, rng)` returns. */
  function Spec(p1: Genes, p2: Genes, pc: real, alpha: real, rng: Option<Stream>): (r: Result<Offspring>)
    ensures r == Err(MissingRng) <==> rng.None?
    ensures r == Err(LengthMismatch) <==> rng.Some? && |p1| != |p2|
    ensures r.Err? ==> rng.None? || |p1| != |p2|
    ensures r.Ok? ==> |r.value.child1| == |p1| && |r.value.child2| == |p1|
    // no crossing: the parents themselves, after one draw
    ensures rng.Some? && |p1| == |p2| && rng.value.At(0) >= pc ==>
              r == Ok(Offspring(p1, p2, rng.value.Skip(1)))
    // crossing: gene i of the children samples draws 1 + 2i and 2 + 2i
    ensures rng.Some? && |p1| == |p2| && rng.value.At(0) < pc ==>
              && r.Ok? && r.value.rest == rng.value.Skip(1 + 2 * |p1|)
              && (forall i :: 0 <= i < |p1| ==>
                    r.value.child1[i] == Sample(p1[i], p2[i], alpha, rng.value.At(1 + 2 * i)) &&
                    r.value.child2[i] == Sample(p1[i], p2[i], alpha, rng.value.At(2 + 2 * i)))
  {
    if rng.None? then Err(MissingRng)
    else if |p2| != |p1| then Err(LengthMismatch)
    else if rng.value.At(0) >= pc then Ok(Offspring(p1, p2, rng.value.Skip(1)))
    else Ok(Blend(p1, p2, alpha, rng.value.Skip(1)))
  }

  /** `cruza_blx`, gene by gene as the source loops. */
  method Cross(p1: Genes, p2: Genes, pc: real, alpha: real, rng: Option<Stream>)
    returns (r: Result<Offspring>)
    ensures r == Spec(p1, p2, pc, alpha, rng)
  {
    if rng.None? {
      return Err(MissingRng);
    }
    var n := |p1|;
    if |p2| != n {
      return Err(LengthMismatch);
    }
    var s := rng.value;
    if s.At(0) >= pc {
      return Ok(Offspring(p1, p2, s.Skip(1)));
    }
    s := s.Skip(1);
    ghost var start := s;
    var hijo1: Genes := [];
    var hijo2: Genes := [];
    var i := 0;
    while i < n
      invariant 0 <= i <= n
      invariant s == start.Skip(2 * i)
      invariant |hijo1| == i && |hijo2| == i
      invariant forall k :: 0 <= k < i ==> hijo1[k] == Sample(p1[k], p2[k], alpha, start.At(2 * k))
      invariant forall k :: 0 <= k < i ==> hijo2[k] == Sample(p1[k], p2[k], alpha, start.At(2 * k + 1))
    {
      var x, y := p1[i], p2[i];
      var cMin := Smaller(x, y);
      var cMax := Larger(x, y);
      var width := cMax - cMin;
      var low := cMin - alpha * width;
      var high := cMax + alpha * width;
      var h1 := Uniform(low, high, s.At(0));
      s := s.Skip(1);
      var h2 := Uniform(low, high, s.At(0));
      s := s.Skip(1);
      assert h1 == Sample(x, y, alpha, start.At(2 * i));
      assert h2 == Sample(x, y, alpha, start.At(2 * i + 1));
      hijo1 := hijo1 + [h1];
      hijo2 := hijo2 + [h2];
      i := i + 1;
    }
    var o := Blend(p1, p2, alpha, start);
    assert hijo1 == o.child1 && hijo2 == o.child2;
    return Ok(Offspring(hijo1, hijo2, s));
  }

  /** For alpha >= 0 the widened interval contains the parents' interval, and a
      child gene sampled from it lies in [min - alpha*I, max + alpha*I]. */
  lemma GeneInInterval(x: real, y: real, alpha: real, u: Unit)
    requires alpha >= 0.0
    ensures Low(x, y, alpha) <= Smaller(x, y) && Larger(x, y) <= High(x, y, alpha)
    ensures Low(x, y, alpha) <= Sample(x, y, alpha, u) <= High(x, y, alpha)
  {
    var width := Larger(x, y) - Smaller(x, y);
    MulMono(alpha, 0.0, width);
    UniformWithin(Low(x, y, alpha), High(x, y, alpha), u);
  }

  /** Every gene of every child of a crossing lies in its widened interval. */
  lemma {:induction false} ChildrenInInterval(p1: Genes, p2: Genes, pc: real, alpha: real, s: Stream)
    requires |p1| == |p2| && alpha >= 0.0
    ensures var r := Spec(p1, p2, pc, alpha, Some(s));
      r.Ok? && forall i :: 0 <= i < |p1| ==>
        Low(p1[i], p2[i], alpha) <= r.value.child1[i] <= High(p1[i], p2[i], alpha) &&
        Low(p1[i], p2[i], alpha) <= r.value.child2[i] <= High(p1[i], p2[i], alpha)
  {
    if s.At(0) < pc {
      var o := Blend(p1, p2, alpha, s.Skip(1));
      forall i | 0 <= i < |p1|
        ensures Low(p1[i], p2[i], alpha) <= o.child1[i] <= High(p1[i], p2[i], alpha)
        ensures Low(p1[i], p2[i], alpha) <= o.child2[i] <= High(p1[i], p2[i], alpha)
      {
        GeneInInterval(p1[i], p2[i], alpha, s.Skip(1).At(2 * i));
        GeneInInterval(p1[i], p2[i], alpha, s.Skip(1).At(2 * i + 1));
      }
    } else {
      forall i | 0 <= i < |p1|
        ensures Low(p1[i], p2[i], alpha) <= p1[i] <= High(p1[i], p2[i], alpha)
        ensures Low(p1[i], p2[i], alpha) <= p2[i] <= High(p1[i], p2[i], alpha)
      {
        GeneInInterval(p1[i], p2[i], alpha, 0.0);
      }
    }
  }

  /** Where the parents agree (I = 0) both children take exactly that value. */
  lemma AgreeingGene(p1: Genes, p2: Genes, pc: real, alpha: real, s: Stream, i: nat)
    requires |p1| == |p2| && i < |p1| && p1[i] == p2[i]
    ensures var r := Spec(p1, p2, pc, alpha, Some(s));
      r.Ok? && r.value.child1[i] == p1[i] && r.value.child2[i] == p1[i]
  {
    assert Low(p1[i], p2[i], alpha) == p1[i] == High(p1[i], p2[i], alpha);
  }

  /** The worked example: parents [2] and [8] with alpha 0.5 sample from [-1, 11]. */
  lemma ExampleInterval()
    ensures Low(2.0, 8.0, 0.5) == -1.0 && High(2.0, 8.0, 0.5) == 11.0
  {
  }
}
