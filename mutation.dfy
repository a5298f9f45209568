/** Bounded uniform mutation (`mutacion_real`): each gene of a copy of the
    individual is, with probability pm, perturbed by uniform noise in
    [-amplitud * (b - a), amplitud * (b - a)] and then clamped to [a, b].
    Genes that are not mutated are never clamped. */
module Mutation {
  import opened Base
  import opened Reals

  /** The saturation step: below a becomes a, above b becomes b. */
  function Clamp(v: real, a: real, b: real): (r: real)
    ensures a <= b ==> a <= r <= b
    ensures a <= v <= b ==> r == v
    ensures r == v || r == a || r == b
  {
    if v < a then a else if v > b then b else v
  }

  /** One iteration of the loop for value v with maximum change m: the
      selection draw, and the noise draw only when the gene is mutated. */
  function MutateGene(v: real, pm: real, a: real, b: real, m: real, s: Stream): (d: Drawn<real>)
    ensures s.At(0) >= pm ==> d == Drawn(v, s.Skip(1))
    ensures s.At(0) < pm ==> d.rest == s.Skip(2)
  {
    if s.At(0) < pm then Drawn(Clamp(v + Uniform(-m, m, s.At(1)), a, b), s.Skip(2))
    else Drawn(v, s.Skip(1))
  }

  /** Put one gene in front of the mutated remaining genes. */
  function Prepend(v: real, d: Drawn<Genes>): Drawn<Genes> {
    Drawn([v] + d.value, d.rest)
  }

  /** The loop over all genes, threading the stream. */
  function MutateGenes(ind: Genes, pm: real, a: real, b: real, m: real, s: Stream): (d: Drawn<Genes>)
    ensures |d.value| == |ind|
    // one selection draw per gene, and at most one noise draw more
    ensures d.rest.draw == s.draw && s.pos + |ind| <= d.rest.pos <= s.pos + 2 * |ind|
    decreases |ind|
  {
    if |ind| == 0 then Drawn([], s)
    else
      var g := MutateGene(ind[0], pm, a, b, m, s);
      Prepend(g.value, MutateGenes(ind[1..], pm, a, b, m, g.rest))
  }

  /** What `mutacion_real(individuo, pm, a, b, amplitud, rng)` returns. */
  function Spec(ind: Genes, pm: real, a: real, b: real, amplitud: real, rng: Option<Stream>)
    : (r: Result<Drawn<Genes>>)
    ensures r == Err(MissingRng) <==> rng.None?
    ensures r == Err(InvalidProbability) <==> rng.Some? && !(0.0 <= pm <= 1.0)
    ensures r.Err? ==> rng.None? || !(0.0 <= pm <= 1.0)
    ensures r.Ok? ==> |r.value.value| == |ind|
  {
    if rng.None? then Err(MissingRng)
    else if !(0.0 <= pm <= 1.0) then Err(InvalidProbability)
    else Ok(MutateGenes(ind, pm, a, b, amplitud * (b - a), rng.value))
  }

  /** The genes found so far followed by the mutations of the remaining ones. */
  function Join(h: Genes, d: Drawn<Genes>): Drawn<Genes> {
    Drawn(h + d.value, d.rest)
  }

  lemma JoinPrepend(h: Genes, v: real, d: Drawn<Genes>)
    ensures Join(h, Prepend(v, d)) == Join(h + [v], d)
  {
    assert h + ([v] + d.value) == (h + [v]) + d.value;
  }

  /** `mutacion_real`: a copy `hijo` whose slot i the loop overwrites. */
  method Mutate(individuo: Genes, pm: real, a: real, b: real, amplitud: real, rng: Option<Stream>)
    returns (r: Result<Drawn<Genes>>)
    ensures r == Spec(individuo, pm, a, b, amplitud, rng)
  {
    if rng.None? {
      return Err(MissingRng);
    }
    if !(0.0 <= pm <= 1.0) {
      return Err(InvalidProbability);
    }
    var s := rng.value;
    var hijo := individuo;
    var rango := b - a;
    var maxCambio := amplitud * rango;
    ghost var whole := MutateGenes(individuo, pm, a, b, maxCambio, s);
    assert maxCambio == amplitud * (b - a);
    assert Spec(individuo, pm, a, b, amplitud, rng) == Ok(whole);
    assert individuo[0..] == individuo;
    assert hijo[..0] == [] && [] + whole.value == whole.value;
    var i := 0;
    while i < |hijo|
      invariant 0 <= i <= |hijo| == |individuo|
      invariant hijo[i..] == individuo[i..]
      invariant whole == Join(hijo[..i], MutateGenes(individuo[i..], pm, a, b, maxCambio, s))
    {
      var valor := hijo[i];
      ghost var g := MutateGene(valor, pm, a, b, maxCambio, s);
      ghost var tail := MutateGenes(individuo[i + 1..], pm, a, b, maxCambio, g.rest);
      assert individuo[i..][1..] == individuo[i + 1..];
      assert MutateGenes(individuo[i..], pm, a, b, maxCambio, s) == Prepend(g.value, tail);
      JoinPrepend(hijo[..i], g.value, tail);
      var nuevo := valor;
      if s.At(0) < pm {
        var ruido := Uniform(-maxCambio, maxCambio, s.At(1));
        nuevo := valor + ruido;
        if nuevo < a {
          nuevo := a;
        } else if nuevo > b {
          nuevo := b;
        }
        hijo := hijo[i := nuevo];
        s := s.Skip(2);
      } else {
        s := s.Skip(1);
      }
      assert hijo[..i + 1] == hijo[..i] + [nuevo];
      assert nuevo == g.value && s == g.rest;
      i := i + 1;
    }
    assert individuo[i..] == [];
    assert hijo[..i] == hijo && hijo + [] == hijo;
    assert whole == Drawn(hijo, s);
    return Ok(Drawn(hijo, s));
  }

  /** A mutated gene moves by uniform noise of magnitude at most m and is then
      clamped; for a gene inside [a, b] the clamp only brings it closer, so it
      ends within m of where it started. */
  lemma MutatedGene(v: real, pm: real, a: real, b: real, m: real, s: Stream)
    requires s.At(0) < pm && m >= 0.0
    ensures var noise := Uniform(-m, m, s.At(1));
      && -m <= noise <= m
      && MutateGene(v, pm, a, b, m, s) == Drawn(Clamp(v + noise, a, b), s.Skip(2))
      && (a <= v <= b ==> Abs(MutateGene(v, pm, a, b, m, s).value - v) <= m)
  {
    UniformWithin(-m, m, s.At(1));
  }

  /** With probability 0 (or below) no gene is mutated: the output equals the
      input and each gene consumed one draw. */
  lemma {:induction false} NoMutation(ind: Genes, pm: real, a: real, b: real, m: real, s: Stream)
    requires pm <= 0.0
    ensures MutateGenes(ind, pm, a, b, m, s) == Drawn(ind, s.Skip(|ind|))
    decreases |ind|
  {
    if |ind| > 0 {
      NoMutation(ind[1..], pm, a, b, m, s.Skip(1));
      assert [ind[0]] + ind[1..] == ind;
    }
  }

  /** With probability 1 every gene is mutated, so each consumes two draws. */
  lemma {:induction false} AllMutated(ind: Genes, pm: real, a: real, b: real, m: real, s: Stream)
    requires pm >= 1.0
    ensures MutateGenes(ind, pm, a, b, m, s).rest == s.Skip(2 * |ind|)
    decreases |ind|
  {
    if |ind| > 0 {
      AllMutated(ind[1..], pm, a, b, m, s.Skip(2));
    }
  }

  /** With a <= b every output gene is either its input gene unchanged or lies
      in [a, b]; an unmutated gene outside the domain stays outside. */
  lemma {:induction false} KeptOrInDomain(ind: Genes, pm: real, a: real, b: real, m: real, s: Stream)
    requires a <= b
    ensures var out := MutateGenes(ind, pm, a, b, m, s).value;
      forall i :: 0 <= i < |ind| ==> out[i] == ind[i] || a <= out[i] <= b
    decreases |ind|
  {
    if |ind| > 0 {
      var g := MutateGene(ind[0], pm, a, b, m, s);
      KeptOrInDomain(ind[1..], pm, a, b, m, g.rest);
      var out := MutateGenes(ind, pm, a, b, m, s).value;
      var rest := MutateGenes(ind[1..], pm, a, b, m, g.rest).value;
      assert out == [g.value] + rest;
      forall i | 1 <= i < |ind|
        ensures out[i] == ind[i] || a <= out[i] <= b
      {
        assert out[i] == rest[i - 1] && ind[i] == ind[1..][i - 1];
      }
    }
  }

  /** An individual inside [a, b] stays inside [a, b]. */
  lemma DomainPreserved(ind: Genes, pm: real, a: real, b: real, amplitud: real, s: Stream)
    requires a <= b && 0.0 <= pm <= 1.0
    requires forall i :: 0 <= i < |ind| ==> a <= ind[i] <= b
    ensures var r := Spec(ind, pm, a, b, amplitud, Some(s));
      r.Ok? && forall i :: 0 <= i < |ind| ==> a <= r.value.value[i] <= b
  {
    KeptOrInDomain(ind, pm, a, b, amplitud * (b - a), s);
  }
}
