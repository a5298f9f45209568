/** Offspring creation in `main_ga.py`: `crear_hijos_reales` (the crossover
    named by a case-insensitive string, then mutation of both children) and
    the pairing loop of `ejecutar_ga_real` that breeds a whole brood. */
module Breeding {
  import opened Base
  import opened Reals
  import OnePoint
  import UniformCrossover
  import Blx
  import Sbx
  import Mutation

  /** The four crossover operators. */
  datatype Kind = OnePointKind | UniformKind | BlxKind | SbxKind

  /** The name `crear_hijos_reales` accepts for each operator. */
  function KindName(k: Kind): string {
    match k
    case OnePointKind => "un_punto"
    case UniformKind => "uniforme"
    case BlxKind => "blx"
    case SbxKind => "sbx"
  }

  /** `c.lower()` on ASCII letters. */
  function LowerChar(c: char): char {
    if 'A' <= c <= 'Z' then (c as int + 32) as char else c
  }

  /** `s.lower()`, letter by letter. */
  function Lower(s: string): string {
    seq(|s|, i requires 0 <= i < |s| => LowerChar(s[i]))
  }

  /** The operator `tipo_cruza.lower()` names, or the error for any other name. */
  function ParseKind(name: string): (r: Result<Kind>)
    ensures r.Ok? <==> exists k: Kind :: KindName(k) == Lower(name)
    ensures r.Ok? ==> KindName(r.value) == Lower(name)
    ensures r.Err? ==> r.error == UnknownCrossover
  {
    var t := Lower(name);
    if t == "un_punto" then assert KindName(OnePointKind) == t; Ok(OnePointKind)
    else if t == "uniforme" then assert KindName(UniformKind) == t; Ok(UniformKind)
    else if t == "blx" then assert KindName(BlxKind) == t; Ok(BlxKind)
    else if t == "sbx" then assert KindName(SbxKind) == t; Ok(SbxKind)
    else
      assert forall k: Kind :: KindName(k) != t;
      Err(UnknownCrossover)
  }

  /** Lowering twice is lowering once. */
  lemma LowerIdempotent(s: string)
    ensures Lower(Lower(s)) == Lower(s)
  {
    forall i | 0 <= i < |s|
      ensures LowerChar(LowerChar(s[i])) == LowerChar(s[i])
    {
    }
  }

  /** Matching ignores case: a name and its lower-case form select the same operator. */
  lemma CaseInsensitive(name: string)
    ensures ParseKind(Lower(name)) == ParseKind(name)
  {
    LowerIdempotent(name);
  }

  /** Each operator's own name selects it. */
  lemma ParseKindName(k: Kind)
    ensures ParseKind(KindName(k)) == Ok(k)
  {
    var t := KindName(k);
    assert Lower(t) == t by {
      forall i | 0 <= i < |t|
        ensures LowerChar(t[i]) == t[i]
      {
      }
    }
  }

  /** Upper-case spellings are accepted. */
  lemma ParseExamples()
    ensures ParseKind("BLX") == Ok(BlxKind)
    ensures ParseKind("Un_Punto") == Ok(OnePointKind)
    ensures ParseKind("aritmetica") == Err(UnknownCrossover)
  {
    assert Lower("BLX") == "blx";
    assert Lower("Un_Punto") == "un_punto";
    var t := Lower("aritmetica");
    assert t == "aritmetica";
    assert forall k: Kind :: KindName(k) != t;
  }

  /** The operator parameters `crear_hijos_reales` receives. `pow` is Python's
      `**` as SBX uses it. */
  datatype Params = Params(pc: real, pm: real, a: real, b: real, alpha: real, eta: real,
                           amplitud: real, pow: (real, real) -> real)

  /** The crossover the dispatch calls for the operator k. */
  function Crossover(k: Kind, p1: Genes, p2: Genes, q: Params, rng: Option<Stream>): (r: Result<Offspring>)
    ensures r.Ok? ==> |r.value.child1| == |p1| && |r.value.child2| == |p1|
    ensures rng.None? ==> r == Err(MissingRng)
    ensures rng.Some? && |p1| != |p2| ==> r == Err(LengthMismatch)
  {
    match k
    case OnePointKind => OnePoint.Cross(p1, p2, q.pc, rng)
    case UniformKind => UniformCrossover.Cross(p1, p2, q.pc, rng)
    case BlxKind => Blx.Spec(p1, p2, q.pc, q.alpha, rng)
    case SbxKind => Sbx.Spec(p1, p2, q.pc, q.eta, q.pow, rng)
  }

  /** What `crear_hijos_reales(p1, p2, pc, pm_gen, a, b, tipo_cruza, rng, ...)`
      returns: the crossover's two children, each passed through mutation,
      the first before the second. */
  function Children(p1: Genes, p2: Genes, q: Params, name: string, rng: Option<Stream>): (r: Result<Offspring>)
    ensures ParseKind(name).Err? ==> r == Err(UnknownCrossover)
    ensures ParseKind(name).Ok? && rng.None? ==> r == Err(MissingRng)
    ensures r.Ok? ==> |r.value.child1| == |p1| && |r.value.child2| == |p1|
  {
    match ParseKind(name)
    case Err(e) => Err(e)
    case Ok(k) =>
      match Crossover(k, p1, p2, q, rng)
      case Err(e) => Err(e)
      case Ok(o) =>
        match Mutation.Spec(o.child1, q.pm, q.a, q.b, q.amplitud, Some(o.rest))
        case Err(e) => Err(e)
        case Ok(m1) =>
          match Mutation.Spec(o.child2, q.pm, q.a, q.b, q.amplitud, Some(m1.rest))
          case Err(e) => Err(e)
          case Ok(m2) => Ok(Offspring(m1.value, m2.value, m2.rest))
  }

  /** `crear_hijos_reales`: the dispatch on the lowered name, then the two mutations. */
  method CreateChildren(p1: Genes, p2: Genes, q: Params, tipoCruza: string, rng: Option<Stream>)
    returns (r: Result<Offspring>)
    ensures r == Children(p1, p2, q, tipoCruza, rng)
  {
    var tipo := Lower(tipoCruza);
    var cruza: Result<Offspring>;
    if tipo == "un_punto" {
      cruza := OnePoint.Cross(p1, p2, q.pc, rng);
    } else if tipo == "uniforme" {
      cruza := UniformCrossover.Cross(p1, p2, q.pc, rng);
    } else if tipo == "blx" {
      cruza := Blx.Cross(p1, p2, q.pc, q.alpha, rng);
    } else if tipo == "sbx" {
      cruza := Sbx.Cross(p1, p2, q.pc, q.eta, q.pow, rng);
    } else {
      return Err(UnknownCrossover);
    }
    if cruza.Err? {
      return Err(cruza.error);
    }
    var c1 := Mutation.Mutate(cruza.value.child1, q.pm, q.a, q.b, q.amplitud, Some(cruza.value.rest));
    if c1.Err? {
      return Err(c1.error);
    }
    var c2 := Mutation.Mutate(cruza.value.child2, q.pm, q.a, q.b, q.amplitud, Some(c1.value.rest));
    if c2.Err? {
      return Err(c2.error);
    }
    return Ok(Offspring(c1.value.value, c2.value.value, c2.value.rest));
  }

  /** The parameters under which no operator raises: a mutation probability
      in [0, 1] and, for SBX, eta_c > -1 with the range facts of the power. */
  ghost predicate Sound(q: Params, name: string) {
    && 0.0 <= q.pm <= 1.0
    && ParseKind(name).Ok?
    && (ParseKind(name).value == SbxKind ==> Sbx.PowLaw(q.pow) && q.eta > -1.0)
  }

  /** With sound parameters, two non-empty parents of equal length always
      give two children. */
  lemma ChildrenNeverFail(p1: Genes, p2: Genes, q: Params, name: string, s: Stream)
    requires Sound(q, name) && |p1| == |p2| >= 1
    ensures Children(p1, p2, q, name, Some(s)).Ok?
  {
    var k := ParseKind(name).value;
    if k == SbxKind {
      Sbx.NeverFails(p1, p2, q.pc, q.eta, q.pow, s);
    }
    var o := Crossover(k, p1, p2, q, Some(s));
    assert o.Ok?;
  }

  /** The copying and exchanging crossovers only move parent genes around:
      each child gene is one of the two parent genes at its position. */
  lemma CrossoverInDomain(k: Kind, p1: Genes, p2: Genes, q: Params, s: Stream)
    requires k == OnePointKind || k == UniformKind
    requires |p1| == |p2|
    requires forall i :: 0 <= i < |p1| ==> q.a <= p1[i] <= q.b && q.a <= p2[i] <= q.b
    ensures var r := Crossover(k, p1, p2, q, Some(s));
      r.Ok? ==> forall i :: 0 <= i < |p1| ==> q.a <= r.value.child1[i] <= q.b && q.a <= r.value.child2[i] <= q.b
  {
    var r := Crossover(k, p1, p2, q, Some(s));
    if r.Ok? {
      assert forall i :: 0 <= i < |p1| ==>
        r.value.child1[i] in multiset{p1[i], p2[i]} && r.value.child2[i] in multiset{p1[i], p2[i]};
    }
  }

  /** With a <= b and parents inside [a, b], the children of the copying and
      the exchanging operators stay inside [a, b]. */
  lemma ChildrenInDomain(p1: Genes, p2: Genes, q: Params, name: string, s: Stream)
    requires q.a <= q.b && Sound(q, name) && |p1| == |p2|
    requires ParseKind(name).value == OnePointKind || ParseKind(name).value == UniformKind
    requires forall i :: 0 <= i < |p1| ==> q.a <= p1[i] <= q.b && q.a <= p2[i] <= q.b
    ensures var r := Children(p1, p2, q, name, Some(s));
      r.Ok? ==> (forall i :: 0 <= i < |p1| ==> q.a <= r.value.child1[i] <= q.b && q.a <= r.value.child2[i] <= q.b)
  {
    var r := Children(p1, p2, q, name, Some(s));
    if r.Ok? {
      var c := Crossover(ParseKind(name).value, p1, p2, q, Some(s));
      CrossoverInDomain(ParseKind(name).value, p1, p2, q, s);
      var o := c.value;
      var m1 := Mutation.Spec(o.child1, q.pm, q.a, q.b, q.amplitud, Some(o.rest)).value;
      Mutation.DomainPreserved(o.child1, q.pm, q.a, q.b, q.amplitud, o.rest);
      Mutation.DomainPreserved(o.child2, q.pm, q.a, q.b, q.amplitud, m1.rest);
    }
  }

  /** What making two children from two parents does in the pairing loop:
      the parents and the generator's state in, the children and the
      advanced state out. */
  type Maker = (Genes, Genes, Stream) -> Result<Offspring>

  /** `crear_hijos_reales` with the run's parameters and operator name. */
  function MakerFor(q: Params, name: string): Maker {
    (p1: Genes, p2: Genes, t: Stream) => Children(p1, p2, q, name, Some(t))
  }

  /** Children have the first parent's length. */
  ghost predicate KeepsLength(make: Maker) {
    forall p1, p2, t :: make(p1, p2, t).Ok? ==>
      |make(p1, p2, t).value.child1| == |p1| && |make(p1, p2, t).value.child2| == |p1|
  }

  /** Two parents of length d always give children. */
  ghost predicate NeverFailsOn(make: Maker, d: nat) {
    forall p1, p2, t :: |p1| == d && |p2| == d ==> make(p1, p2, t).Ok?
  }

  lemma MakerKeepsLength(q: Params, name: string)
    ensures KeepsLength(MakerFor(q, name))
  {
  }

  lemma MakerNeverFails(q: Params, name: string, d: nat)
    requires Sound(q, name) && d >= 1
    ensures NeverFailsOn(MakerFor(q, name), d)
  {
    forall p1: Genes, p2: Genes, t: Stream | |p1| == d && |p2| == d
      ensures MakerFor(q, name)(p1, p2, t).Ok?
    {
      ChildrenNeverFail(p1, p2, q, name, t);
    }
  }

  /** The index of the second parent of pair i, `(i + 1) % tam_pob`: the
      next parent, or the first one for the last index of an odd count. */
  function Partner(i: nat, n: nat): (k: nat)
    requires i < n
    ensures k < n
  {
    if i + 1 < n then i + 1 else 0
  }

  lemma PartnerIsModulo(i: nat, n: nat)
    requires i < n
    ensures Partner(i, n) == (i + 1) % n
  {
  }

  /** The children made by the pairing loop from index i on: parent i with
      parent (i + 1) mod n, for i = 0, 2, 4, ... while i < n. */
  function Brood(parents: seq<Genes>, n: nat, i: nat, make: Maker, s: Stream)
    : (r: Result<Drawn<seq<Genes>>>)
    requires |parents| == n
    // two children per pair
    ensures r.Ok? ==> |r.value.value| % 2 == 0
    decreases n - i
  {
    if i >= n then Ok(Drawn([], s))
    else
      match make(parents[i], parents[Partner(i, n)], s)
      case Err(e) => Err(e)
      case Ok(o) =>
        match Brood(parents, n, i + 2, make, o.rest)
        case Err(e) => Err(e)
        case Ok(d) => Ok(Drawn([o.child1, o.child2] + d.value, d.rest))
  }

  /** The children bred so far followed by the brood of the remaining pairs. */
  function Gather(h: seq<Genes>, r: Result<Drawn<seq<Genes>>>): Result<Drawn<seq<Genes>>> {
    match r
    case Err(e) => Err(e)
    case Ok(d) => Ok(Drawn(h + d.value, d.rest))
  }

  /** One pair of the pairing loop: a failed crossover ends the brood with its
      error, a successful one appends its two children. */
  lemma BroodStep(parents: seq<Genes>, n: nat, i: nat, make: Maker, s: Stream, h: seq<Genes>)
    requires |parents| == n && i < n
    ensures var o := make(parents[i], parents[Partner(i, n)], s);
      && (o.Err? ==> Gather(h, Brood(parents, n, i, make, s)) == Err(o.error))
      && (o.Ok? ==> Gather(h, Brood(parents, n, i, make, s))
                    == Gather(h + [o.value.child1, o.value.child2], Brood(parents, n, i + 2, make, o.value.rest)))
  {
    var o := make(parents[i], parents[Partner(i, n)], s);
    if o.Ok? {
      var tail := Brood(parents, n, i + 2, make, o.value.rest);
      if tail.Ok? {
        assert h + ([o.value.child1, o.value.child2] + tail.value.value)
            == (h + [o.value.child1, o.value.child2]) + tail.value.value;
      }
    }
  }

  /** The pairing loop of `ejecutar_ga_real`, appending two children per pair. */
  method Breed(padres: seq<Genes>, tamPob: nat, q: Params, tipoCruza: string, s: Stream)
    returns (r: Result<Drawn<seq<Genes>>>)
    requires |padres| == tamPob
    ensures r == Brood(padres, tamPob, 0, MakerFor(q, tipoCruza), s)
  {
    ghost var make := MakerFor(q, tipoCruza);
    ghost var whole := Brood(padres, tamPob, 0, make, s);
    var hijos: seq<Genes> := [];
    var rng := s;
    var i := 0;
    if whole.Ok? {
      assert [] + whole.value.value == whole.value.value;
    }
    while i < tamPob
      invariant whole == Gather(hijos, Brood(padres, tamPob, i, make, rng))
      decreases tamPob - i
    {
      var p1 := padres[i];
      var p2 := padres[(i + 1) % tamPob];
      PartnerIsModulo(i, tamPob);
      var h := CreateChildren(p1, p2, q, tipoCruza, Some(rng));
      assert h == make(p1, p2, rng);
      BroodStep(padres, tamPob, i, make, rng, hijos);
      if h.Err? {
        return Err(h.error);
      }
      hijos := hijos + [h.value.child1, h.value.child2];
      rng := h.value.rest;
      i := i + 2;
    }
    assert hijos + [] == hijos;
    return Ok(Drawn(hijos, rng));
  }

  /** Children 2j and 2j + 1 of the brood h from index i were made from the
      pair (i + 2j, (i + 2j + 1) mod n), with the generator in state t. */
  predicate PairMadeWith(parents: seq<Genes>, n: nat, i: nat, j: nat, make: Maker, h: seq<Genes>, t: Stream)
    requires |parents| == n && i + 2 * j < n && 2 * j + 1 < |h|
  {
    var k := i + 2 * j;
    var r := make(parents[k], parents[Partner(k, n)], t);
    r.Ok? && r.value.child1 == h[2 * j] && r.value.child2 == h[2 * j + 1]
  }

  /** The state of the generator when the loop from index i reaches pair j:
      s for the first pair, then the state the previous pair left. */
  function StreamAt(parents: seq<Genes>, n: nat, i: nat, make: Maker, s: Stream, j: nat): Stream
    requires |parents| == n
    decreases j
  {
    if j == 0 || i >= n then s
    else
      match make(parents[i], parents[Partner(i, n)], s)
      case Err(_) => s
      case Ok(o) => StreamAt(parents, n, i + 2, make, o.rest, j - 1)
  }

  /** The brood from index i holds two children per pair (so at least one
      per remaining parent and at most one more), and children 2j and 2j + 1
      are those of the pair (i + 2j, (i + 2j + 1) mod n), made with the
      generator in the state the earlier pairs left. */
  lemma {:induction false} BroodPairs(parents: seq<Genes>, n: nat, i: nat, make: Maker, s: Stream)
    requires |parents| == n && i <= n
    requires Brood(parents, n, i, make, s).Ok?
    ensures var h := Brood(parents, n, i, make, s).value.value;
      && n - i <= |h| <= n - i + 1
      && |h| % 2 == 0
      && forall j: nat :: i + 2 * j < n ==>
           2 * j + 1 < |h| && PairMadeWith(parents, n, i, j, make, h, StreamAt(parents, n, i, make, s, j))
    decreases n - i
  {
    if i < n {
      var o := make(parents[i], parents[Partner(i, n)], s).value;
      var h := Brood(parents, n, i, make, s).value.value;
      var next := i + 2;
      if next <= n {
        BroodPairs(parents, n, next, make, o.rest);
      }
      var d := Brood(parents, n, next, make, o.rest).value.value;
      assert h == [o.child1, o.child2] + d;
      assert PairMadeWith(parents, n, i, 0, make, h, s);
      forall j: nat | i + 2 * j < n
        ensures 2 * j + 1 < |h| && PairMadeWith(parents, n, i, j, make, h, StreamAt(parents, n, i, make, s, j))
      {
        if j > 0 {
          var t := StreamAt(parents, n, next, make, o.rest, j - 1);
          assert StreamAt(parents, n, i, make, s, j) == t;
          PairShift(parents, n, i, j - 1, make, [o.child1, o.child2], d, t);
        }
      }
    }
  }

  /** Pair j of the brood from index i + 2 is pair j + 1 of the brood from
      index i, which has two more children in front. */
  lemma PairShift(parents: seq<Genes>, n: nat, i: nat, j: nat, make: Maker, front: seq<Genes>, d: seq<Genes>, t: Stream)
    requires |parents| == n && |front| == 2 && i + 2 + 2 * j < n && 2 * j + 1 < |d|
    requires PairMadeWith(parents, n, i + 2, j, make, d, t)
    ensures PairMadeWith(parents, n, i, j + 1, make, front + d, t)
  {
    var h := front + d;
    assert h[2 * (j + 1)] == d[2 * j] && h[2 * (j + 1) + 1] == d[2 * j + 1];
  }

  /** A brood of parents of length d is made of individuals of length d. */
  lemma {:induction false} BroodShape(parents: seq<Genes>, n: nat, i: nat, make: Maker, s: Stream, d: nat)
    requires |parents| == n && forall k :: 0 <= k < n ==> |parents[k]| == d
    requires KeepsLength(make) && Brood(parents, n, i, make, s).Ok?
    ensures forall k :: 0 <= k < |Brood(parents, n, i, make, s).value.value| ==>
              |Brood(parents, n, i, make, s).value.value[k]| == d
    decreases n - i
  {
    if i < n {
      var o := make(parents[i], parents[Partner(i, n)], s).value;
      BroodShape(parents, n, i + 2, make, o.rest, d);
    }
  }

  /** With a step that never fails on parents of length d, the pairing loop
      never fails either. */
  lemma {:induction false} BroodNeverFails(parents: seq<Genes>, n: nat, i: nat, make: Maker, s: Stream, d: nat)
    requires |parents| == n && forall k :: 0 <= k < n ==> |parents[k]| == d
    requires NeverFailsOn(make, d)
    ensures Brood(parents, n, i, make, s).Ok?
    decreases n - i
  {
    if i < n {
      var o := make(parents[i], parents[Partner(i, n)], s).value;
      BroodNeverFails(parents, n, i + 2, make, o.rest, d);
    }
  }
}
