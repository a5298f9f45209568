/** Generational replacement with one-slot elitism (`reemplazo_peores`).
    The new population is the N lowest-cost offspring, in ascending cost order
    with ties in index order (Python's sort is stable); then, if the best
    parent is strictly better than the worst of them, it takes that one slot. */
module Replacement {
  import opened Base
  import opened Reals

  /** Index x comes before index y when sorting by cost c stably. */
  predicate Precedes(c: seq<real>, x: nat, y: nat)
    requires x < |c| && y < |c|
  {
    c[x] < c[y] || (c[x] == c[y] && x < y)
  }

  /** s lists valid indices of c in strictly increasing (cost, index) order. */
  predicate Ranked(c: seq<real>, s: seq<nat>) {
    && (forall i :: 0 <= i < |s| ==> s[i] < |c|)
    && (forall i, j :: 0 <= i < j < |s| ==> Precedes(c, s[i], s[j]))
  }

  lemma RankedCons(c: seq<real>, x: nat, s: seq<nat>)
    requires x < |c| && Ranked(c, s)
    requires forall i :: 0 <= i < |s| ==> Precedes(c, x, s[i])
    ensures Ranked(c, [x] + s)
  {
    var r := [x] + s;
    forall i, j | 0 <= i < j < |r|
      ensures Precedes(c, r[i], r[j])
    {
      if i == 0 {
        assert r[j] == s[j - 1];
      } else {
        assert r[i] == s[i - 1] && r[j] == s[j - 1];
      }
    }
  }

  lemma RankedTail(c: seq<real>, s: seq<nat>)
    requires |s| > 0 && Ranked(c, s)
    ensures Ranked(c, s[1..])
    ensures forall e :: e in s[1..] ==> Precedes(c, s[0], e)
  {
    forall i, j | 0 <= i < j < |s| - 1
      ensures Precedes(c, s[1..][i], s[1..][j])
    {
      assert s[1..][i] == s[i + 1] && s[1..][j] == s[j + 1];
    }
    forall e | e in s[1..]
      ensures Precedes(c, s[0], e)
    {
      var k :| 0 <= k < |s| - 1 && s[1..][k] == e;
      assert s[k + 1] == e;
    }
  }

  /** Insert x, larger than every index of s, at its stable place. */
  function Insert(c: seq<real>, x: nat, s: seq<nat>): (r: seq<nat>)
    requires x < |c| && Ranked(c, s)
    requires forall i :: 0 <= i < |s| ==> s[i] < x
    ensures Ranked(c, r) && |r| == |s| + 1
    ensures forall e :: e in r <==> e == x || e in s
    decreases |s|
  {
    if |s| == 0 then [x]
    else if c[x] < c[s[0]] then
      assert forall i :: 0 <= i < |s| ==> Precedes(c, x, s[i]) by {
        forall i | 0 <= i < |s|
          ensures Precedes(c, x, s[i])
        {
          if i > 0 {
            assert Precedes(c, s[0], s[i]);
          }
        }
      }
      RankedCons(c, x, s);
      [x] + s
    else
      RankedTail(c, s);
      var t := Insert(c, x, s[1..]);
      assert forall i :: 0 <= i < |t| ==> Precedes(c, s[0], t[i]) by {
        forall i | 0 <= i < |t|
          ensures Precedes(c, s[0], t[i])
        {
          assert t[i] in t;
        }
      }
      RankedCons(c, s[0], t);
      assert forall e :: e in s <==> e == s[0] || e in s[1..] by {
        assert s == [s[0]] + s[1..];
      }
      [s[0]] + t
  }

  /** `sorted(range(n), key=lambda i: c[i])`: insertion of 0, 1, ..., n-1. */
  function SortedBy(c: seq<real>, n: nat): (s: seq<nat>)
    requires n <= |c|
    ensures Ranked(c, s) && |s| == n
    ensures forall i :: 0 <= i < n ==> s[i] < n
    ensures forall e :: 0 <= e < n ==> e in s
    decreases n
  {
    if n == 0 then []
    else
      var t := SortedBy(c, n - 1);
      var r := Insert(c, n - 1, t);
      assert forall i :: 0 <= i < n ==> r[i] < n by {
        forall i | 0 <= i < n
          ensures r[i] < n
        {
          assert r[i] in r;
        }
      }
      r
  }

  /** Two stably ranked lists of the same indices are equal: the stable
      sort is the only list that is sorted by cost, ties in index order. */
  lemma {:induction false} RankedUnique(c: seq<real>, s: seq<nat>, t: seq<nat>)
    requires Ranked(c, s) && Ranked(c, t) && |s| == |t|
    requires forall e :: e in s <==> e in t
    ensures s == t
    decreases |s|
  {
    if |s| > 0 {
      assert s[0] in t && t[0] in s;
      var k :| 0 <= k < |t| && t[k] == s[0];
      var m :| 0 <= m < |s| && s[m] == t[0];
      assert s[0] == t[0];
      RankedTail(c, s);
      RankedTail(c, t);
      forall e
        ensures e in s[1..] <==> e in t[1..]
      {
        assert s == [s[0]] + s[1..] && t == [t[0]] + t[1..];
        if e in s[1..] {
          assert Precedes(c, s[0], e) && e in t;
        }
        if e in t[1..] {
          assert Precedes(c, t[0], e) && e in s;
        }
      }
      RankedUnique(c, s[1..], t[1..]);
      assert s == [s[0]] + s[1..] && t == [t[0]] + t[1..];
    }
  }

  /** The sort is exactly the stable sort: any list of the indices 0 .. n-1,
      each once, ordered by cost with ties by index, is the one it returns. */
  lemma StableSortUnique(c: seq<real>, t: seq<nat>)
    requires Ranked(c, t) && |t| == |c|
    requires forall i :: 0 <= i < |t| ==> t[i] < |c|
    requires forall e :: 0 <= e < |c| ==> e in t
    ensures t == SortedBy(c, |c|)
  {
    RankedUnique(c, t, SortedBy(c, |c|));
  }

  /** `min(a, b)` of two naturals. */
  function MinNat(a: nat, b: nat): nat {
    if a < b then a else b
  }

  /** `sorted(range(len(c)), key=...)[:n]`: the indices of the kept offspring. */
  function Survivors(c: seq<real>, n: nat): (idx: seq<nat>)
    ensures |idx| == MinNat(n, |c|)
    ensures Ranked(c, idx)
  {
    SortedBy(c, |c|)[..MinNat(n, |c|)]
  }

  /** The survivors' costs ascend, equal costs keep index order, and no
      dropped offspring costs less than a kept one. */
  lemma SurvivorsAreBest(c: seq<real>, n: nat)
    ensures var idx := Survivors(c, n);
      && (forall i, j :: 0 <= i < j < |idx| ==> c[idx[i]] <= c[idx[j]])
      && (forall i, j :: 0 <= i < j < |idx| && c[idx[i]] == c[idx[j]] ==> idx[i] < idx[j])
      && (forall i, d :: 0 <= i < |idx| && 0 <= d < |c| && d !in idx ==> c[idx[i]] <= c[d])
  {
    var all := SortedBy(c, |c|);
    var idx := Survivors(c, n);
    forall i, d | 0 <= i < |idx| && 0 <= d < |c| && d !in idx
      ensures c[idx[i]] <= c[d]
    {
      assert d in all;
      var p :| 0 <= p < |all| && all[p] == d;
      assert p >= |idx| by {
        assert forall q :: 0 <= q < |idx| ==> all[q] in idx;
      }
      assert idx[i] == all[i] && i < p;
      assert Precedes(c, all[i], all[p]);
    }
  }

  /** `max(range(n), key=lambda i: c[i])`: Python keeps the first maximum. */
  function ArgMax(c: seq<real>): (w: nat)
    requires |c| > 0
    ensures w < |c|
    ensures forall i :: 0 <= i < |c| ==> c[i] <= c[w]
    ensures forall i :: 0 <= i < w ==> c[i] < c[w]
    decreases |c|
  {
    if |c| == 1 then 0
    else
      var m := ArgMax(c[..|c| - 1]);
      assert forall i :: 0 <= i < |c| - 1 ==> c[..|c| - 1][i] == c[i];
      if c[|c| - 1] > c[m] then |c| - 1 else m
  }

  /** `idx_padres[0]`: the first index of minimal cost. */
  function BestIndex(c: seq<real>): (b: nat)
    requires |c| > 0
    ensures b < |c|
    ensures forall i :: 0 <= i < |c| ==> c[b] <= c[i]
    ensures forall i :: 0 <= i < b ==> c[b] < c[i]
  {
    var s := SortedBy(c, |c|);
    assert forall i :: 0 <= i < |c| ==> c[s[0]] <= c[i] && (i < s[0] ==> c[s[0]] < c[i]) by {
      forall i | 0 <= i < |c|
        ensures c[s[0]] <= c[i] && (i < s[0] ==> c[s[0]] < c[i])
      {
        assert i in s;
        var p :| 0 <= p < |s| && s[p] == i;
        if p > 0 {
          assert Precedes(c, s[0], s[p]);
        }
      }
    }
    s[0]
  }

  /** A population with one cost per member. */
  datatype Pool = Pool(members: seq<Genes>, costs: seq<real>)

  /** The kept offspring and their costs (`nueva_pob`, `nuevas_apt`). */
  function Kept(hijos: seq<Genes>, aptHijos: seq<real>, n: nat): (k: Pool)
    requires |hijos| == |aptHijos|
    ensures |k.members| == |k.costs| == MinNat(n, |hijos|)
  {
    var idx := Survivors(aptHijos, n);
    Pool(seq(|idx|, i requires 0 <= i < |idx| => hijos[idx[i]]),
         seq(|idx|, i requires 0 <= i < |idx| => aptHijos[idx[i]]))
  }

  /** Whether elitism is active: `e = max(0, min(elitismo, N)) >= 1`. */
  predicate Elitist(elitismo: int, n: nat) {
    elitismo >= 1 && n >= 1
  }

  /** What `reemplazo_peores(poblacion, hijos, apt_pob, apt_hijos, porcentaje,
      elitismo)` returns. `porcentaje` is accepted and ignored. */
  function Replacement(pop: seq<Genes>, hijos: seq<Genes>, aptPob: seq<real>, aptHijos: seq<real>,
                       porcentaje: real, elitismo: int): (r: Result<Pool>)
    ensures r == Err(LengthMismatch) <==> |aptPob| != |pop| || |hijos| != |aptHijos|
    // `max(range(N), ...)` reads `nuevas_apt` past its end when fewer than N offspring were kept
    ensures r == Err(IndexOutOfRange) <==>
              |aptPob| == |pop| && |hijos| == |aptHijos| && Elitist(elitismo, |pop|) && |hijos| < |pop|
    ensures r.Ok? <==> |aptPob| == |pop| && |hijos| == |aptHijos| && !(Elitist(elitismo, |pop|) && |hijos| < |pop|)
    ensures r.Ok? ==> |r.value.members| == |r.value.costs| == MinNat(|pop|, |hijos|)
  {
    var n := |pop|;
    if |aptPob| != n || |hijos| != |aptHijos| then Err(LengthMismatch)
    else
      var kept := Kept(hijos, aptHijos, n);
      if !Elitist(elitismo, n) then Ok(kept)
      else if |hijos| < n then Err(IndexOutOfRange)
      else
        var w := ArgMax(kept.costs);
        var b := BestIndex(aptPob);
        if aptPob[b] < kept.costs[w] then
          Ok(Pool(kept.members[w := pop[b]], kept.costs[w := aptPob[b]]))
        else Ok(kept)
  }

  /** `reemplazo_peores`: the survivors are built purely, then the elite
      overwrites one slot of both lists in place. */
  method Replace(pop: seq<Genes>, hijos: seq<Genes>, aptPob: seq<real>, aptHijos: seq<real>,
                 porcentaje: real, elitismo: int) returns (r: Result<Pool>)
    ensures r == Replacement(pop, hijos, aptPob, aptHijos, porcentaje, elitismo)
  {
    var n := |pop|;
    if |aptPob| != n || |hijos| != |aptHijos| {
      return Err(LengthMismatch);
    }
    var idxMejHijos := Survivors(aptHijos, n);
    var nuevaPob := seq(|idxMejHijos|, i requires 0 <= i < |idxMejHijos| => hijos[idxMejHijos[i]]);
    var nuevasApt := seq(|idxMejHijos|, i requires 0 <= i < |idxMejHijos| => aptHijos[idxMejHijos[i]]);
    var e := if elitismo < n then elitismo else n;
    if e < 0 {
      e := 0;
    }
    if e >= 1 {
      if |nuevasApt| < n {
        return Err(IndexOutOfRange);
      }
      var idxPeorNueva := ArgMax(nuevasApt);
      var bestPadreIdx := BestIndex(aptPob);
      if aptPob[bestPadreIdx] < nuevasApt[idxPeorNueva] {
        nuevaPob := nuevaPob[idxPeorNueva := pop[bestPadreIdx]];
        nuevasApt := nuevasApt[idxPeorNueva := aptPob[bestPadreIdx]];
      }
    }
    return Ok(Pool(nuevaPob, nuevasApt));
  }

  /** Every slot pairs an individual with its own cost: an offspring with
      its offspring cost, or (after the swap) a parent with its parent cost. */
  lemma Aligned(pop: seq<Genes>, hijos: seq<Genes>, aptPob: seq<real>, aptHijos: seq<real>,
                porcentaje: real, elitismo: int)
    requires |aptPob| == |pop| && |hijos| == |aptHijos|
    ensures var r := Replacement(pop, hijos, aptPob, aptHijos, porcentaje, elitismo);
      r.Ok? ==> forall i :: 0 <= i < |r.value.members| ==>
        (exists j :: 0 <= j < |hijos| && r.value.members[i] == hijos[j] && r.value.costs[i] == aptHijos[j]) ||
        (exists j :: 0 <= j < |pop| && r.value.members[i] == pop[j] && r.value.costs[i] == aptPob[j])
  {
    var r := Replacement(pop, hijos, aptPob, aptHijos, porcentaje, elitismo);
    var kept := Kept(hijos, aptHijos, |pop|);
    var idx := Survivors(aptHijos, |pop|);
    if r.Ok? {
      forall i | 0 <= i < |r.value.members|
        ensures (exists j :: 0 <= j < |hijos| && r.value.members[i] == hijos[j] && r.value.costs[i] == aptHijos[j]) ||
                (exists j :: 0 <= j < |pop| && r.value.members[i] == pop[j] && r.value.costs[i] == aptPob[j])
      {
        if r.value.members[i] == kept.members[i] && r.value.costs[i] == kept.costs[i] {
          assert kept.members[i] == hijos[idx[i]] && kept.costs[i] == aptHijos[idx[i]];
        } else {
          var b := BestIndex(aptPob);
          assert r.value.members[i] == pop[b] && r.value.costs[i] == aptPob[b];
        }
      }
    }
  }

  /** p has q's shape and agrees with q on every slot but w. */
  predicate SameExcept(p: Pool, q: Pool, w: nat) {
    && |p.members| == |q.members| && |p.costs| == |q.costs|
    && (forall i :: 0 <= i < |q.members| && i != w ==> p.members[i] == q.members[i])
    && (forall i :: 0 <= i < |q.costs| && i != w ==> p.costs[i] == q.costs[i])
  }

  /** Elitism changes at most one slot of the kept offspring, whatever
      `elitismo` is; with `elitismo <= 0` the result is the kept offspring. */
  lemma AtMostOneSlot(pop: seq<Genes>, hijos: seq<Genes>, aptPob: seq<real>, aptHijos: seq<real>,
                      porcentaje: real, elitismo: int)
    requires |aptPob| == |pop| && |hijos| == |aptHijos|
    ensures var r := Replacement(pop, hijos, aptPob, aptHijos, porcentaje, elitismo);
      var kept := Kept(hijos, aptHijos, |pop|);
      && (elitismo <= 0 ==> r == Ok(kept))
      && (r.Ok? ==> exists w :: SameExcept(r.value, kept, w))
  {
    var r := Replacement(pop, hijos, aptPob, aptHijos, porcentaje, elitismo);
    var kept := Kept(hijos, aptHijos, |pop|);
    if r.Ok? {
      if Elitist(elitismo, |pop|) {
        assert SameExcept(r.value, kept, ArgMax(kept.costs));
      } else {
        assert SameExcept(r.value, kept, 0);
      }
    }
  }

  /** The elite swap: when active and the best parent is strictly better than
      the worst kept offspring, the first slot holding the maximal kept cost
      receives that parent and its cost; otherwise nothing changes. */
  lemma EliteSwap(pop: seq<Genes>, hijos: seq<Genes>, aptPob: seq<real>, aptHijos: seq<real>,
                  porcentaje: real, elitismo: int)
    requires |aptPob| == |pop| >= 1 && |hijos| == |aptHijos| >= |pop| && elitismo >= 1
    ensures var r := Replacement(pop, hijos, aptPob, aptHijos, porcentaje, elitismo);
      var kept := Kept(hijos, aptHijos, |pop|);
      r.Ok? && |kept.costs| == |pop| &&
      var w := ArgMax(kept.costs);
      var b := BestIndex(aptPob);
      && (forall i :: 0 <= i < |kept.costs| ==> kept.costs[i] <= kept.costs[w])
      && (forall i :: 0 <= i < w ==> kept.costs[i] < kept.costs[w])
      && (forall i :: 0 <= i < |pop| ==> aptPob[b] <= aptPob[i])
      && (aptPob[b] < kept.costs[w] ==>
            r.value == Pool(kept.members[w := pop[b]], kept.costs[w := aptPob[b]]))
      && (aptPob[b] >= kept.costs[w] ==> r.value == kept)
  {
  }

  /** With elitism and at least N offspring, the best cost never regresses. */
  lemma BestNeverRegresses(pop: seq<Genes>, hijos: seq<Genes>, aptPob: seq<real>, aptHijos: seq<real>,
                           porcentaje: real, elitismo: int)
    requires |aptPob| == |pop| >= 1 && |hijos| == |aptHijos| >= |pop| && elitismo >= 1
    ensures var r := Replacement(pop, hijos, aptPob, aptHijos, porcentaje, elitismo);
      r.Ok? && |r.value.costs| == |pop| && Min(r.value.costs) <= Min(aptPob)
  {
    var r := Replacement(pop, hijos, aptPob, aptHijos, porcentaje, elitismo);
    var kept := Kept(hijos, aptHijos, |pop|);
    var w := ArgMax(kept.costs);
    var b := BestIndex(aptPob);
    assert aptPob[b] == Min(aptPob);
    if aptPob[b] < kept.costs[w] {
      assert r.value.costs[w] == aptPob[b];
    } else {
      assert r.value.costs[w] == kept.costs[w];
    }
  }

  /** `porcentaje` has no effect on the result. */
  lemma FractionIgnored(pop: seq<Genes>, hijos: seq<Genes>, aptPob: seq<real>, aptHijos: seq<real>,
                        p1: real, p2: real, elitismo: int)
    ensures Replacement(pop, hijos, aptPob, aptHijos, p1, elitismo) ==
            Replacement(pop, hijos, aptPob, aptHijos, p2, elitismo)
  {
  }
}
