/** Uniform crossover (`cruza_uniforme`): a random 0/1 mask decides, gene by
    gene, which parent each child copies. */
module UniformCrossover {
  import opened Base

  /** The mask `[randint(0, 1) for _ in range(n)]`, one draw per bit. */
  function Mask(s: Stream, n: nat): (m: seq<int>)
    ensures |m| == n
    ensures forall i :: 0 <= i < n ==> m[i] == 0 || m[i] == 1
  {
    seq(n, i requires 0 <= i < n => RandInt(0, 1, s.At(i)))
  }

  /** The first child keeps p1's gene where the mask bit is set and p2's where it is not. */
  function Keep(p1: Genes, p2: Genes, mask: seq<int>): (c: Genes)
    requires |p1| == |p2| == |mask|
    ensures |c| == |p1|
  {
    seq(|p1|, i requires 0 <= i < |p1| => if mask[i] != 0 then p1[i] else p2[i])
  }

  /** `cruza_uniforme(p1, p2, pc, rng)`. */
  function Cross(p1: Genes, p2: Genes, pc: real, rng: Option<Stream>): (r: Result<Offspring>)
    ensures r == Err(MissingRng) <==> rng.None?
    ensures r == Err(LengthMismatch) <==> rng.Some? && |p1| != |p2|
    ensures r.Err? ==> rng.None? || |p1| != |p2|
    // no crossing: copies of the parents, one draw consumed
    ensures rng.Some? && |p1| == |p2| && rng.value.At(0) >= pc ==>
              r == Ok(Offspring(p1, p2, rng.value.Skip(1)))
    // crossing: bit 1 keeps the parents in place, bit 0 swaps them; 1 + n draws consumed
    ensures rng.Some? && |p1| == |p2| && rng.value.At(0) < pc ==>
              var m := Mask(rng.value.Skip(1), |p1|);
              r.Ok? && r.value.rest == rng.value.Skip(1 + |p1|) &&
              |r.value.child1| == |p1| && |r.value.child2| == |p1| &&
              (forall i :: 0 <= i < |p1| && m[i] == 1 ==>
                 r.value.child1[i] == p1[i] && r.value.child2[i] == p2[i]) &&
              (forall i :: 0 <= i < |p1| && m[i] == 0 ==>
                 r.value.child1[i] == p2[i] && r.value.child2[i] == p1[i])
    // every position of the children holds the parents' two genes
    ensures r.Ok? ==> |r.value.child1| == |p1| && |r.value.child2| == |p1|
    ensures r.Ok? ==> forall i :: 0 <= i < |p1| ==>
              multiset{r.value.child1[i], r.value.child2[i]} == multiset{p1[i], p2[i]}
  {
    if rng.None? then Err(MissingRng)
    else if |p2| != |p1| then Err(LengthMismatch)
    else
      var s := rng.value;
      if s.At(0) >= pc then Ok(Offspring(p1, p2, s.Skip(1)))
      else
        var m := Mask(s.Skip(1), |p1|);
        Ok(Offspring(Keep(p1, p2, m), Keep(p2, p1, m), s.Skip(1 + |p1|)))
  }

  /** Identical parents give children equal to them, whatever the mask. */
  lemma IdenticalParents(p: Genes, mask: seq<int>)
    requires |mask| == |p|
    ensures Keep(p, p, mask) == p
  {
  }

  /** An all-ones mask returns the parents; an all-zeros mask returns them swapped. */
  lemma ConstantMasks(p1: Genes, p2: Genes, mask: seq<int>)
    requires |p1| == |p2| == |mask|
    ensures (forall i :: 0 <= i < |mask| ==> mask[i] == 1) ==>
              Keep(p1, p2, mask) == p1 && Keep(p2, p1, mask) == p2
    ensures (forall i :: 0 <= i < |mask| ==> mask[i] == 0) ==>
              Keep(p1, p2, mask) == p2 && Keep(p2, p1, mask) == p1
  {
  }
}
