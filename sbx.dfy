/** Simulated binary crossover (`cruza_sbx`). Gene by gene, a coin draw decides
    whether the gene is crossed; a crossed gene spreads the two parent values
    around their midpoint by a factor beta_q. No bounds are applied. */
module Sbx {
  import opened Base
  import opened Reals

  /** Genes closer than this are treated as identical (`eps = 1e-14`). */
  const Eps: real := 0.00000000000001

  /** The range facts of `x ** e` for a positive exponent that SBX relies on;
      `pow` itself is left uninterpreted. */
  ghost predicate PowLaw(pow: (real, real) -> real) {
    && (forall x, e :: 0.0 <= x <= 1.0 && e > 0.0 ==> 0.0 <= pow(x, e) <= 1.0)
    && (forall x, e :: x >= 1.0 && e > 0.0 ==> pow(x, e) >= 1.0)
  }

  /** The base of the power that gives beta_q for the draw u. */
  function PowerBase(u: Unit): real {
    if u <= 0.5 then 2.0 * u else 1.0 / (2.0 * (1.0 - u))
  }

  /** The spread factor beta_q: `base ** (1 / (eta_c + 1))`. Python raises
      ZeroDivisionError for eta_c == -1, and for 0.0 raised to a negative power. */
  function Spread(u: Unit, eta: real, pow: (real, real) -> real): (r: Result<real>)
    ensures r.Err? <==> eta + 1.0 == 0.0 || (PowerBase(u) == 0.0 && 1.0 / (eta + 1.0) < 0.0)
    ensures r.Err? ==> r.error == ZeroDivision
  {
    if eta + 1.0 == 0.0 then Err(ZeroDivision)
    else
      var e := 1.0 / (eta + 1.0);
      if PowerBase(u) == 0.0 && e < 0.0 then Err(ZeroDivision) else Ok(pow(PowerBase(u), e))
  }

  /** The two child values of a crossed gene with lo <= hi and spread bq. */
  function Spreads(lo: real, hi: real, bq: real): (real, real) {
    (0.5 * ((lo + hi) - bq * (hi - lo)), 0.5 * ((lo + hi) + bq * (hi - lo)))
  }

  /** Whether gene (x1, x2) is crossed for the coin draw. */
  predicate Crossed(x1: real, x2: real, coin: real) {
    coin <= 0.5 && Abs(x1 - x2) > Eps
  }

  /** One iteration of the loop: the coin draw always, the draw u only for a crossed gene. */
  function Gene(x1: real, x2: real, eta: real, pow: (real, real) -> real, s: Stream): (r: Result<Drawn<(real, real)>>)
    // a copied gene keeps its values and its order, and consumes one draw
    ensures !Crossed(x1, x2, s.At(0)) ==> r == Ok(Drawn((x1, x2), s.Skip(1)))
    // a crossed gene consumes two draws
    ensures Crossed(x1, x2, s.At(0)) ==> r.Err? || r.value.rest == s.Skip(2)
  {
    if Crossed(x1, x2, s.At(0)) then
      var lo := if x1 > x2 then x2 else x1;
      var hi := if x1 > x2 then x1 else x2;
      match Spread(s.At(1), eta, pow)
      case Err(e) => Err(e)
      case Ok(bq) => Ok(Drawn(Spreads(lo, hi, bq), s.Skip(2)))
    else Ok(Drawn((x1, x2), s.Skip(1)))
  }

  /** Put one gene pair in front of the children of the remaining genes. */
  function Prepend(c1: real, c2: real, r: Result<Offspring>): Result<Offspring> {
    match r
    case Err(e) => Err(e)
    case Ok(o) => Ok(Offspring([c1] + o.child1, [c2] + o.child2, o.rest))
  }

  /** The per-gene loop over equal-length parents, threading the stream. */
  function CrossGenes(p1: Genes, p2: Genes, eta: real, pow: (real, real) -> real, s: Stream): (r: Result<Offspring>)
    requires |p1| == |p2|
    ensures r.Ok? ==> |r.value.child1| == |p1| && |r.value.child2| == |p1|
    // each gene consumes one coin draw and at most one more
    ensures r.Ok? ==> r.value.rest.draw == s.draw &&
                      s.pos + |p1| <= r.value.rest.pos <= s.pos + 2 * |p1|
    ensures r.Err? ==> r.error == ZeroDivision
    decreases |p1|
  {
    if |p1| == 0 then Ok(Offspring([], [], s))
    else
      match Gene(p1[0], p2[0], eta, pow, s)
      case Err(e) => Err(e)
      case Ok(g) => Prepend(g.value.0, g.value.1, CrossGenes(p1[1..], p2[1..], eta, pow, g.rest))
  }

  /** What `cruza_sbx(p1, p2, pc, eta_c, rng)` returns. */
  function Spec(p1: Genes, p2: Genes, pc: real, eta: real, pow: (real, real) -> real, rng: Option<Stream>)
    : (r: Result<Offspring>)
    ensures r == Err(MissingRng) <==> rng.None?
    ensures r == Err(LengthMismatch) <==> rng.Some? && |p1| != |p2|
    ensures rng.Some? && |p1| == |p2| && rng.value.At(0) >= pc ==>
              r == Ok(Offspring(p1, p2, rng.value.Skip(1)))
    ensures r.Ok? ==> |r.value.child1| == |p1| && |r.value.child2| == |p1|
    // a crossed gene can only fail by dividing by zero
    ensures r.Err? ==> r.error == MissingRng || r.error == LengthMismatch || r.error == ZeroDivision
  {
    if rng.None? then Err(MissingRng)
    else if |p2| != |p1| then Err(LengthMismatch)
    else if rng.value.At(0) >= pc then Ok(Offspring(p1, p2, rng.value.Skip(1)))
    else CrossGenes(p1, p2, eta, pow, rng.value.Skip(1))
  }

  /** The children found so far followed by those of the remaining genes. */
  function Glue(h1: Genes, h2: Genes, r: Result<Offspring>): Result<Offspring> {
    match r
    case Err(e) => Err(e)
    case Ok(o) => Ok(Offspring(h1 + o.child1, h2 + o.child2, o.rest))
  }

  lemma GluePrepend(h1: Genes, h2: Genes, c1: real, c2: real, r: Result<Offspring>)
    ensures Glue(h1, h2, Prepend(c1, c2, r)) == Glue(h1 + [c1], h2 + [c2], r)
  {
    if r.Ok? {
      assert h1 + ([c1] + r.value.child1) == (h1 + [c1]) + r.value.child1;
      assert h2 + ([c2] + r.value.child2) == (h2 + [c2]) + r.value.child2;
    }
  }

  /** The body of the source's loop for one gene pair: the coin, the swap that
      puts the smaller value first, the draw u and the two children. */
  method CrossGene(x1: real, x2: real, eta: real, pow: (real, real) -> real, s: Stream)
    returns (r: Result<Drawn<(real, real)>>)
    ensures r == Gene(x1, x2, eta, pow, s)
  {
    var coin := s.At(0);
    if coin <= 0.5 && Abs(x1 - x2) > Eps {
      var lo: real, hi: real := x1, x2;
      if lo > hi {
        lo, hi := hi, lo;
      }
      var u: real := s.At(1);
      if eta + 1.0 == 0.0 {
        return Err(ZeroDivision);
      }
      var exponent := 1.0 / (eta + 1.0);
      var betaQ: real;
      if u <= 0.5 {
        if 2.0 * u == 0.0 && exponent < 0.0 {
          return Err(ZeroDivision);
        }
        betaQ := pow(2.0 * u, exponent);
      } else {
        betaQ := pow(1.0 / (2.0 * (1.0 - u)), exponent);
      }
      var children := Spreads(lo, hi, betaQ);
      assert PowerBase(s.At(1)) == if u <= 0.5 then 2.0 * u else 1.0 / (2.0 * (1.0 - u));
      assert Spread(s.At(1), eta, pow) == Ok(betaQ);
      return Ok(Drawn(children, s.Skip(2)));
    }
    return Ok(Drawn((x1, x2), s.Skip(1)));
  }

  /** `cruza_sbx` as the source runs it: a loop appending to both children. */
  method Cross(p1: Genes, p2: Genes, pc: real, eta: real, pow: (real, real) -> real, rng: Option<Stream>)
    returns (r: Result<Offspring>)
    ensures r == Spec(p1, p2, pc, eta, pow, rng)
  {
    if rng.None? {
      return Err(MissingRng);
    }
    var n := |p1|;
    if |p2| != n {
      return Err(LengthMismatch);
    }
    var s := rng.value;
    if s.At(0) >= pc {
      return Ok(Offspring(p1, p2, s.Skip(1)));
    }
    s := s.Skip(1);
    ghost var whole := CrossGenes(p1, p2, eta, pow, s);
    var hijo1: Genes := [];
    var hijo2: Genes := [];
    var i := 0;
    assert p1[0..] == p1 && p2[0..] == p2;
    if whole.Ok? {
      assert [] + whole.value.child1 == whole.value.child1 && [] + whole.value.child2 == whole.value.child2;
    }
    while i < n
      invariant 0 <= i <= n
      invariant whole == Glue(hijo1, hijo2, CrossGenes(p1[i..], p2[i..], eta, pow, s))
    {
      var g := CrossGene(p1[i], p2[i], eta, pow, s);
      assert p1[i..][1..] == p1[i + 1..] && p2[i..][1..] == p2[i + 1..];
      if g.Err? {
        return Err(g.error);
      }
      var (c1, c2) := g.value.value;
      s := g.value.rest;
      GluePrepend(hijo1, hijo2, c1, c2, CrossGenes(p1[i + 1..], p2[i + 1..], eta, pow, s));
      hijo1 := hijo1 + [c1];
      hijo2 := hijo2 + [c2];
      i := i + 1;
    }
    assert p1[n..] == [] && p2[n..] == [];
    assert hijo1 + [] == hijo1 && hijo2 + [] == hijo2;
    return Ok(Offspring(hijo1, hijo2, s));
  }

  /** For a crossed gene the midpoint of the parents is preserved, and for a
      non-negative spread the smaller child value goes to the first child,
      whichever parent held the larger value. */
  lemma CrossedGeneMidpoint(x1: real, x2: real, eta: real, pow: (real, real) -> real, s: Stream)
    requires Crossed(x1, x2, s.At(0)) && Gene(x1, x2, eta, pow, s).Ok?
    ensures var c := Gene(x1, x2, eta, pow, s).value.value;
      var bq := Spread(s.At(1), eta, pow).value;
      && c.0 + c.1 == x1 + x2
      && c == Spreads(Smaller(x1, x2), Larger(x1, x2), bq)
      && (bq >= 0.0 ==> c.0 <= c.1)
  {
    var bq := Spread(s.At(1), eta, pow).value;
    var lo, hi := Smaller(x1, x2), Larger(x1, x2);
    if bq >= 0.0 {
      MulMono(bq, 0.0, hi - lo);
    }
  }

  /** With eta_c > -1 the exponent is positive, so no error occurs, and the
      range facts of the power give beta_q in [0, 1] for u <= 0.5 and
      beta_q >= 1 otherwise. */
  lemma SpreadRange(u: Unit, eta: real, pow: (real, real) -> real)
    requires PowLaw(pow) && eta > -1.0
    ensures Spread(u, eta, pow).Ok?
    ensures u <= 0.5 ==> 0.0 <= Spread(u, eta, pow).value <= 1.0
    ensures u > 0.5 ==> Spread(u, eta, pow).value >= 1.0
  {
    Reciprocal(eta + 1.0);
    if u > 0.5 {
      Reciprocal(2.0 * (1.0 - u));
    }
  }

  /** A fraction in [0, 1] of a non-negative width is at most that width. */
  lemma FractionOf(k: real, d: real)
    requires 0.0 <= k <= 1.0 && d >= 0.0
    ensures 0.0 <= k * d <= d
  {
    MulMono(d, 0.0, 1.0 - k);
    assert d * (1.0 - k) == d - k * d;
  }

  /** A spread in [0, 1] keeps both children inside [lo, hi]. */
  lemma SpreadsWithin(lo: real, hi: real, bq: real)
    requires lo <= hi && 0.0 <= bq <= 1.0
    ensures lo <= Spreads(lo, hi, bq).0 <= Spreads(lo, hi, bq).1 <= hi
  {
    var w := bq * (hi - lo);
    FractionOf(bq, hi - lo);
    var c := Spreads(lo, hi, bq);
    assert c.0 == 0.5 * ((lo + hi) - w) && c.1 == 0.5 * ((lo + hi) + w);
  }

  /** A spread of at least 1 puts the children on or outside [lo, hi]. */
  lemma SpreadsOutside(lo: real, hi: real, bq: real)
    requires lo <= hi && bq >= 1.0
    ensures Spreads(lo, hi, bq).0 <= lo && hi <= Spreads(lo, hi, bq).1
  {
    MulMono(hi - lo, 1.0, bq);
  }

  /** A crossed gene (eta_c > -1) contracts towards the parents for u <= 0.5
      and expands beyond them for u > 0.5; it consumes exactly two draws. */
  lemma CrossedGeneSpread(x1: real, x2: real, eta: real, pow: (real, real) -> real, s: Stream)
    requires Crossed(x1, x2, s.At(0)) && PowLaw(pow) && eta > -1.0
    ensures var r := Gene(x1, x2, eta, pow, s);
      && r.Ok? && r.value.rest == s.Skip(2)
      && r.value.value.0 + r.value.value.1 == x1 + x2
      && r.value.value.0 <= r.value.value.1
      && (s.At(1) <= 0.5 ==>
            Smaller(x1, x2) <= r.value.value.0 && r.value.value.1 <= Larger(x1, x2))
      && (s.At(1) > 0.5 ==>
            r.value.value.0 <= Smaller(x1, x2) && Larger(x1, x2) <= r.value.value.1)
  {
    SpreadRange(s.At(1), eta, pow);
    CrossedGeneMidpoint(x1, x2, eta, pow, s);
    var bq := Spread(s.At(1), eta, pow).value;
    if s.At(1) <= 0.5 {
      SpreadsWithin(Smaller(x1, x2), Larger(x1, x2), bq);
    } else {
      SpreadsOutside(Smaller(x1, x2), Larger(x1, x2), bq);
    }
  }

  /** Identical parents are never crossed gene by gene: the children equal
      them, and one coin draw per gene is consumed. */
  lemma {:induction false} IdenticalGenes(p: Genes, eta: real, pow: (real, real) -> real, s: Stream)
    ensures CrossGenes(p, p, eta, pow, s) == Ok(Offspring(p, p, s.Skip(|p|)))
    decreases |p|
  {
    if |p| > 0 {
      assert Abs(p[0] - p[0]) == 0.0;
      assert Gene(p[0], p[0], eta, pow, s) == Ok(Drawn((p[0], p[0]), s.Skip(1)));
      IdenticalGenes(p[1..], eta, pow, s.Skip(1));
      assert [p[0]] + p[1..] == p;
    }
  }

  /** SBX on identical parents returns children equal to them. */
  lemma IdenticalParents(p: Genes, pc: real, eta: real, pow: (real, real) -> real, s: Stream)
    ensures Spec(p, p, pc, eta, pow, Some(s)).Ok?
    ensures Spec(p, p, pc, eta, pow, Some(s)).value.child1 == p
    ensures Spec(p, p, pc, eta, pow, Some(s)).value.child2 == p
  {
    IdenticalGenes(p, eta, pow, s.Skip(1));
  }

  /** With eta_c > -1 and the range facts of the power, no gene raises: SBX on
      equal-length parents always returns two children. */
  lemma {:induction false} NeverFails(p1: Genes, p2: Genes, pc: real, eta: real, pow: (real, real) -> real, s: Stream)
    requires |p1| == |p2| && PowLaw(pow) && eta > -1.0
    ensures Spec(p1, p2, pc, eta, pow, Some(s)).Ok?
  {
    if s.At(0) < pc {
      GenesNeverFail(p1, p2, eta, pow, s.Skip(1));
    }
  }

  lemma {:induction false} GenesNeverFail(p1: Genes, p2: Genes, eta: real, pow: (real, real) -> real, s: Stream)
    requires |p1| == |p2| && PowLaw(pow) && eta > -1.0
    ensures CrossGenes(p1, p2, eta, pow, s).Ok?
    decreases |p1|
  {
    if |p1| > 0 {
      SpreadRange(s.At(1), eta, pow);
      var g := Gene(p1[0], p2[0], eta, pow, s);
      assert g.Ok?;
      GenesNeverFail(p1[1..], p2[1..], eta, pow, g.value.rest);
    }
  }

  /** Every gene of the children, crossed or copied, keeps the parents' sum. */
  lemma {:induction false} GenesMidpoint(p1: Genes, p2: Genes, eta: real, pow: (real, real) -> real, s: Stream)
    requires |p1| == |p2|
    ensures var r := CrossGenes(p1, p2, eta, pow, s);
      r.Ok? ==> forall i :: 0 <= i < |p1| ==> r.value.child1[i] + r.value.child2[i] == p1[i] + p2[i]
    decreases |p1|
  {
    var r := CrossGenes(p1, p2, eta, pow, s);
    if |p1| > 0 && r.Ok? {
      var g := Gene(p1[0], p2[0], eta, pow, s);
      if Crossed(p1[0], p2[0], s.At(0)) {
        CrossedGeneMidpoint(p1[0], p2[0], eta, pow, s);
      }
      GenesMidpoint(p1[1..], p2[1..], eta, pow, g.value.rest);
      var rest := CrossGenes(p1[1..], p2[1..], eta, pow, g.value.rest);
      assert r.value.child1 == [g.value.value.0] + rest.value.child1;
      assert r.value.child2 == [g.value.value.1] + rest.value.child2;
      forall i | 0 < i < |p1|
        ensures r.value.child1[i] + r.value.child2[i] == p1[i] + p2[i]
      {
        assert p1[1..][i - 1] == p1[i] && p2[1..][i - 1] == p2[i];
      }
    }
  }

  /** With eta_c > -1, every gene of the children is either copied from the
      parents in their order, or crossed with the smaller value first. */
  lemma {:induction false} GenesOrdered(p1: Genes, p2: Genes, eta: real, pow: (real, real) -> real, s: Stream)
    requires |p1| == |p2| && PowLaw(pow) && eta > -1.0
    ensures var r := CrossGenes(p1, p2, eta, pow, s);
      r.Ok? ==> forall i :: 0 <= i < |p1| ==>
        (r.value.child1[i] == p1[i] && r.value.child2[i] == p2[i]) || r.value.child1[i] <= r.value.child2[i]
    decreases |p1|
  {
    var r := CrossGenes(p1, p2, eta, pow, s);
    if |p1| > 0 && r.Ok? {
      var g := Gene(p1[0], p2[0], eta, pow, s);
      if Crossed(p1[0], p2[0], s.At(0)) {
        CrossedGeneSpread(p1[0], p2[0], eta, pow, s);
      }
      GenesOrdered(p1[1..], p2[1..], eta, pow, g.value.rest);
      var rest := CrossGenes(p1[1..], p2[1..], eta, pow, g.value.rest);
      assert r.value.child1 == [g.value.value.0] + rest.value.child1;
      assert r.value.child2 == [g.value.value.1] + rest.value.child2;
      forall i | 0 < i < |p1|
        ensures (r.value.child1[i] == p1[i] && r.value.child2[i] == p2[i]) || r.value.child1[i] <= r.value.child2[i]
      {
        assert p1[1..][i - 1] == p1[i] && p2[1..][i - 1] == p2[i];
      }
    }
  }

  /** With eta_c > -1, each gene pair of `cruza_sbx`'s result is either the
      parents' pair or ordered smaller first. */
  lemma Ordered(p1: Genes, p2: Genes, pc: real, eta: real, pow: (real, real) -> real, rng: Option<Stream>)
    requires PowLaw(pow) && eta > -1.0
    ensures var r := Spec(p1, p2, pc, eta, pow, rng);
      r.Ok? ==> forall i :: 0 <= i < |p1| ==>
        (r.value.child1[i] == p1[i] && r.value.child2[i] == p2[i]) || r.value.child1[i] <= r.value.child2[i]
  {
    if rng.Some? && |p1| == |p2| && rng.value.At(0) < pc {
      GenesOrdered(p1, p2, eta, pow, rng.value.Skip(1));
    }
  }

  /** SBX keeps the midpoint of the parents at every gene. */
  lemma Midpoint(p1: Genes, p2: Genes, pc: real, eta: real, pow: (real, real) -> real, rng: Option<Stream>)
    ensures var r := Spec(p1, p2, pc, eta, pow, rng);
      r.Ok? ==> forall i :: 0 <= i < |p1| ==> r.value.child1[i] + r.value.child2[i] == p1[i] + p2[i]
  {
    if rng.Some? && |p1| == |p2| && rng.value.At(0) < pc {
      GenesMidpoint(p1, p2, eta, pow, rng.value.Skip(1));
    }
  }
}
