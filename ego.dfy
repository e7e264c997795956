/**
 * The small tree of one person (`SmallTreeRender`): the focal person on a
 * grid with their parents above and one lane per family they head, each
 * lane holding a partner and the children below. Two copies of the
 * renderer share this algorithm: content_generator/src/presenters/small_tree_render.py
 * and content_generator/src/small_tree_render.py; they differ in the font
 * size and in how the canvas size is counted, both kept here side by side.
 */
module Ego {
  import opened Wrappers
  import opened Entities
  import opened Svg
  import Timeline

  const PersonWidth: real := 150.0
  const PersonHeight: real := 50.0
  const YSpacing: real := 50.0
  const XSpacing: real := 20.0
  /** The font of the presenters copy; the goldens show `font-size="14"`. */
  const PresentersFont: int := 14
  /** The font of the other copy. */
  const LegacyFont: int := 12

  /** `_PartnerRelation`: the partner of one family the focal person heads, if set, and its children. */
  datatype Lane = Lane(partner: Option<Id>, children: seq<Id>)

  /** The family's other parent as `__create_relationships` picks it: the mother for a man, else the father. */
  function PartnerIn(base: Person, f: Family): Option<Id> {
    if base.gender == Male then f.mother else f.father
  }

  /** The parents a family contributes when the focal person is one of its children: father first. */
  function ParentsIn(f: Family): seq<Id> {
    (if f.father.Some? then [f.father.value] else []) + (if f.mother.Some? then [f.mother.value] else [])
  }

  /** `__create_relationships` over the families in dict order: the lanes and the parents found so far. */
  function RelationsOf(base: Person, fids: seq<Id>, families: map<Id, Family>): (seq<Lane>, seq<Id>)
    requires forall i :: 0 <= i < |fids| ==> fids[i] in families
  {
    if |fids| == 0 then ([], [])
    else
      var n := |fids| - 1;
      var (lanes, parents) := RelationsOf(base, fids[..n], families);
      var f := families[fids[n]];
      (if base.id in Parents(f) then lanes + [Lane(PartnerIn(base, f), f.children)] else lanes,
       if base.id in f.children then parents + ParentsIn(f) else parents)
  }

  lemma RelationsSnoc(base: Person, fids: seq<Id>, families: map<Id, Family>, i: nat)
    requires forall i :: 0 <= i < |fids| ==> fids[i] in families
    requires i < |fids|
    ensures var f := families[fids[i]];
            RelationsOf(base, fids[..i + 1], families).0
            == if base.id in Parents(f) then RelationsOf(base, fids[..i], families).0 + [Lane(PartnerIn(base, f), f.children)]
               else RelationsOf(base, fids[..i], families).0
    ensures var f := families[fids[i]];
            RelationsOf(base, fids[..i + 1], families).1
            == if base.id in f.children then RelationsOf(base, fids[..i], families).1 + ParentsIn(f)
               else RelationsOf(base, fids[..i], families).1
  {
    assert fids[..i + 1][..i] == fids[..i];
  }

  method CreateRelationships(base: Person, fids: seq<Id>, families: map<Id, Family>)
    returns (lanes: seq<Lane>, parents: seq<Id>)
    requires forall i :: 0 <= i < |fids| ==> fids[i] in families
    ensures (lanes, parents) == RelationsOf(base, fids, families)
  {
    lanes, parents := [], [];
    var i := 0;
    while i < |fids|
      invariant 0 <= i <= |fids|
      invariant lanes == RelationsOf(base, fids[..i], families).0
      invariant parents == RelationsOf(base, fids[..i], families).1
    {
      RelationsSnoc(base, fids, families, i);
      var f := families[fids[i]];
      if base.id in Parents(f) {
        lanes := lanes + [Lane(PartnerIn(base, f), f.children)];
      }
      ghost var before := parents;
      if base.id in f.children {
        var fathers: seq<Id> := if f.father.Some? then [f.father.value] else [];
        var mothers: seq<Id> := if f.mother.Some? then [f.mother.value] else [];
        if f.father.Some? {
          parents := parents + [f.father.value];
        }
        ConcatEmpty(before);
        assert parents == before + fathers;
        if f.mother.Some? {
          parents := parents + [f.mother.value];
        }
        ConcatEmpty(before + fathers);
        ConcatAssoc(before, fathers, mothers);
      }
      i := i + 1;
    }
    assert fids[..|fids|] == fids;
  }

  /** The lane a family gives when the focal person heads it. */
  predicate LaneFrom(base: Person, f: Family, l: Lane) {
    base.id in Parents(f) && l == Lane(PartnerIn(base, f), f.children)
  }

  /** A parent a family gives when the focal person is one of its children. */
  predicate ParentFrom(base: Person, f: Family, p: Id) {
    base.id in f.children && (f.father == Some(p) || f.mother == Some(p))
  }

  /** Each lane comes from a family the focal person heads, and each such family gives its lane. */
  lemma {:induction false} LanesCollected(base: Person, fids: seq<Id>, families: map<Id, Family>)
    requires forall i :: 0 <= i < |fids| ==> fids[i] in families
    ensures forall l :: l in RelationsOf(base, fids, families).0 <==>
              exists i :: 0 <= i < |fids| && LaneFrom(base, families[fids[i]], l)
  {
    if |fids| > 0 {
      var n := |fids| - 1;
      LanesCollected(base, fids[..n], families);
      var lanes0 := RelationsOf(base, fids[..n], families).0;
      forall l | exists i :: 0 <= i < |fids| && LaneFrom(base, families[fids[i]], l)
        ensures l in RelationsOf(base, fids, families).0
      {
        var i :| 0 <= i < |fids| && LaneFrom(base, families[fids[i]], l);
        if i < n {
          assert fids[..n][i] == fids[i];
        }
      }
      forall l | l in lanes0
        ensures exists i :: 0 <= i < |fids| && LaneFrom(base, families[fids[i]], l)
      {
        var i :| 0 <= i < n && LaneFrom(base, families[fids[..n][i]], l);
        assert fids[..n][i] == fids[i];
      }
    }
  }

  /** Each parent comes from a family the focal person is a child of, and each such family gives its parents. */
  lemma {:induction false} ParentsCollected(base: Person, fids: seq<Id>, families: map<Id, Family>)
    requires forall i :: 0 <= i < |fids| ==> fids[i] in families
    ensures forall p :: p in RelationsOf(base, fids, families).1 <==>
              exists i :: 0 <= i < |fids| && ParentFrom(base, families[fids[i]], p)
  {
    if |fids| > 0 {
      var n := |fids| - 1;
      ParentsCollected(base, fids[..n], families);
      var parents0 := RelationsOf(base, fids[..n], families).1;
      forall p | exists i :: 0 <= i < |fids| && ParentFrom(base, families[fids[i]], p)
        ensures p in RelationsOf(base, fids, families).1
      {
        var i :| 0 <= i < |fids| && ParentFrom(base, families[fids[i]], p);
        if i < n {
          assert fids[..n][i] == fids[i];
        }
      }
      forall p | p in parents0
        ensures exists i :: 0 <= i < |fids| && ParentFrom(base, families[fids[i]], p)
      {
        var i :| 0 <= i < n && ParentFrom(base, families[fids[..n][i]], p);
        assert fids[..n][i] == fids[i];
      }
    }
  }

  /**
   * One lane per family the focal person heads, in family order, with that
   * family's children; the parents are those of the families the focal
   * person is a child of, father before mother.
   */
  lemma RelationsCollected(base: Person, fids: seq<Id>, families: map<Id, Family>)
    requires forall i :: 0 <= i < |fids| ==> fids[i] in families
    ensures var (lanes, parents) := RelationsOf(base, fids, families);
            && (forall l :: l in lanes <==>
                  exists i :: 0 <= i < |fids| && base.id in Parents(families[fids[i]])
                    && l == Lane(PartnerIn(base, families[fids[i]]), families[fids[i]].children))
            && (forall p :: p in parents <==>
                  exists i :: 0 <= i < |fids| && base.id in families[fids[i]].children
                    && (families[fids[i]].father == Some(p) || families[fids[i]].mother == Some(p)))
  {
    LanesCollected(base, fids, families);
    ParentsCollected(base, fids, families);
  }

  /**
   * `WithoutRelationsError` is raised exactly when the focal person heads no
   * family and every family they are a child of has no parent set.
   */
  lemma NoRelationsIff(base: Person, fids: seq<Id>, families: map<Id, Family>)
    requires forall i :: 0 <= i < |fids| ==> fids[i] in families
    ensures var (lanes, parents) := RelationsOf(base, fids, families);
            (lanes == [] && parents == []) <==>
            forall i :: 0 <= i < |fids| ==>
              base.id !in Parents(families[fids[i]])
              && (base.id in families[fids[i]].children ==> families[fids[i]].father.None? && families[fids[i]].mother.None?)
  {
    var (lanes, parents) := RelationsOf(base, fids, families);
    LanesCollected(base, fids, families);
    ParentsCollected(base, fids, families);
    if lanes != [] {
      assert lanes[0] in lanes;
    }
    if parents != [] {
      assert parents[0] in parents;
    }
    forall i | 0 <= i < |fids|
      ensures var f := families[fids[i]];
              base.id in Parents(f) ==> Lane(PartnerIn(base, f), f.children) in lanes
      ensures var f := families[fids[i]];
              base.id in f.children && f.father.Some? ==> f.father.value in parents
      ensures var f := families[fids[i]];
              base.id in f.children && f.mother.Some? ==> f.mother.value in parents
    {
      var f := families[fids[i]];
      if base.id in Parents(f) {
        assert LaneFrom(base, f, Lane(PartnerIn(base, f), f.children));
      }
      if base.id in f.children && f.father.Some? {
        assert ParentFrom(base, f, f.father.value);
      }
      if base.id in f.children && f.mother.Some? {
        assert ParentFrom(base, f, f.mother.value);
      }
    }
  }

  // ---------------------------------------------------------------------
  // Generations

  /** The set held under key `k`, or none. */
  function At(g: map<int, set<Id>>, k: int): set<Id> {
    if k in g then g[k] else {}
  }

  /**
   * One family of `__arrange_in_generation`: heading it puts its parents in
   * generation 0 and its children in generation 1; being its child puts its
   * children in generation -1. A key appears once some family asks for it.
   */
  function GenerationStep(g: map<int, set<Id>>, base: Id, f: Family): map<int, set<Id>> {
    var g1 := if base in Parents(f) then g[0 := At(g, 0) + set p | p in Parents(f)][1 := At(g, 1) + set c | c in f.children] else g;
    if base in f.children then g1[-1 := At(g1, -1) + set c | c in f.children] else g1
  }

  /** The generations after the families `fids`, starting from `init`. */
  function GenerationsOf(init: map<int, set<Id>>, base: Id, fids: seq<Id>, families: map<Id, Family>): map<int, set<Id>>
    requires forall i :: 0 <= i < |fids| ==> fids[i] in families
  {
    if |fids| == 0 then init
    else GenerationStep(GenerationsOf(init, base, fids[..|fids| - 1], families), base, families[fids[|fids| - 1]])
  }

  /** The presenters copy starts with the focal person alone in generation 0. */
  method ArrangeInGeneration(base: Id, fids: seq<Id>, families: map<Id, Family>) returns (g: map<int, set<Id>>)
    requires forall i :: 0 <= i < |fids| ==> fids[i] in families
    ensures g == GenerationsOf(map[0 := {base}], base, fids, families)
  {
    g := map[0 := {base}];
    var i := 0;
    while i < |fids|
      invariant 0 <= i <= |fids|
      invariant 0 in g
      invariant g == GenerationsOf(map[0 := {base}], base, fids[..i], families)
    {
      assert fids[..i + 1][..i] == fids[..i];
      g := AddFamily(g, base, families[fids[i]]);
      i := i + 1;
    }
    assert fids[..|fids|] == fids;
  }

  /** The body of the loop of `__arrange_in_generation` for one family, generation 0 being present. */
  method AddFamily(g0: map<int, set<Id>>, base: Id, f: Family) returns (g: map<int, set<Id>>)
    requires 0 in g0
    ensures 0 in g && g == GenerationStep(g0, base, f)
  {
    g := g0;
    if base in Parents(f) {
      if 1 !in g {
        g := g[1 := {}];
      }
      g := g[0 := g[0] + set p | p in Parents(f)];
      g := g[1 := g[1] + set c | c in f.children];
    }
    if base in f.children {
      if -1 !in g {
        g := g[-1 := {}];
      }
      g := g[-1 := g[-1] + set c | c in f.children];
    }
  }

  /** A family the focal person heads, or one they are a child of. */
  predicate Heads(base: Id, f: Family) {
    base in Parents(f)
  }

  /** A generation key exists only once some family asks for it, or when it was there from the start. */
  lemma {:induction false} GenerationKeys(init: map<int, set<Id>>, base: Id, fids: seq<Id>, families: map<Id, Family>)
    requires forall i :: 0 <= i < |fids| ==> fids[i] in families
    ensures forall k :: k in GenerationsOf(init, base, fids, families) <==>
              k in init
              || ((k == 0 || k == 1) && exists i :: 0 <= i < |fids| && Heads(base, families[fids[i]]))
              || (k == -1 && exists i :: 0 <= i < |fids| && base in families[fids[i]].children)
  {
    if |fids| > 0 {
      var n := |fids| - 1;
      GenerationKeys(init, base, fids[..n], families);
      var g0 := GenerationsOf(init, base, fids[..n], families);
      GenerationStepAt(g0, base, families[fids[n]]);
      forall i | 0 <= i < n
        ensures fids[..n][i] == fids[i]
      {
      }
      assert GenerationsOf(init, base, fids, families) == GenerationStep(g0, base, families[fids[n]]);
    }
  }

  /** One family adds to generations 0, 1 and -1 exactly what `__arrange_in_generation` adds, and keys only for those. */
  lemma GenerationStepAt(g: map<int, set<Id>>, base: Id, f: Family)
    ensures forall x :: x in At(GenerationStep(g, base, f), 0) <==> x in At(g, 0) || (Heads(base, f) && x in Parents(f))
    ensures forall x :: x in At(GenerationStep(g, base, f), 1) <==> x in At(g, 1) || (Heads(base, f) && x in f.children)
    ensures forall x :: x in At(GenerationStep(g, base, f), -1) <==> x in At(g, -1) || (base in f.children && x in f.children)
    ensures forall k :: k in GenerationStep(g, base, f) <==>
              k in g || ((k == 0 || k == 1) && Heads(base, f)) || (k == -1 && base in f.children)
  {
  }

  /** Generation 0 gains the parents of the families the focal person heads, and nobody else. */
  lemma {:induction false} GenerationZero(init: map<int, set<Id>>, base: Id, fids: seq<Id>, families: map<Id, Family>)
    requires forall i :: 0 <= i < |fids| ==> fids[i] in families
    ensures forall x :: x in At(GenerationsOf(init, base, fids, families), 0) <==>
              x in At(init, 0) || exists i :: 0 <= i < |fids| && Heads(base, families[fids[i]]) && x in Parents(families[fids[i]])
  {
    if |fids| > 0 {
      var n := |fids| - 1;
      GenerationZero(init, base, fids[..n], families);
      GenerationStepAt(GenerationsOf(init, base, fids[..n], families), base, families[fids[n]]);
      assert forall i :: 0 <= i < n ==> fids[..n][i] == fids[i];
    }
  }

  /** Generation 1 gains the children of the families the focal person heads, and nobody else. */
  lemma {:induction false} GenerationOne(init: map<int, set<Id>>, base: Id, fids: seq<Id>, families: map<Id, Family>)
    requires forall i :: 0 <= i < |fids| ==> fids[i] in families
    ensures forall x :: x in At(GenerationsOf(init, base, fids, families), 1) <==>
              x in At(init, 1) || exists i :: 0 <= i < |fids| && Heads(base, families[fids[i]]) && x in families[fids[i]].children
  {
    if |fids| > 0 {
      var n := |fids| - 1;
      GenerationOne(init, base, fids[..n], families);
      GenerationStepAt(GenerationsOf(init, base, fids[..n], families), base, families[fids[n]]);
      assert forall i :: 0 <= i < n ==> fids[..n][i] == fids[i];
    }
  }

  /** Generation -1 gains the children of the families the focal person is a child of: siblings and the focal person. */
  lemma {:induction false} GenerationAbove(init: map<int, set<Id>>, base: Id, fids: seq<Id>, families: map<Id, Family>)
    requires forall i :: 0 <= i < |fids| ==> fids[i] in families
    ensures forall x :: x in At(GenerationsOf(init, base, fids, families), -1) <==>
              x in At(init, -1) || exists i :: 0 <= i < |fids| && base in families[fids[i]].children && x in families[fids[i]].children
  {
    if |fids| > 0 {
      var n := |fids| - 1;
      GenerationAbove(init, base, fids[..n], families);
      GenerationStepAt(GenerationsOf(init, base, fids[..n], families), base, families[fids[n]]);
      assert forall i :: 0 <= i < n ==> fids[..n][i] == fids[i];
    }
  }

  // ---------------------------------------------------------------------
  // Ordering

  /** The sort key of `sorted(..., key=birth_day.date)`; a loaded child always has a person, the key is total for that reason only. */
  function BirthKey(id: Id, persons: map<Id, Person>): int {
    if id in persons then persons[id].birth.ordinal else 0
  }

  /** Children are drawn in order of birth: `sorted(..., key=birth_day.date)`, which is stable. */
  function InsertByBirth(x: Id, s: seq<Id>, persons: map<Id, Person>): (r: seq<Id>)
    ensures multiset(r) == multiset(s) + multiset{x} && |r| == |s| + 1
  {
    if |s| == 0 || BirthKey(x, persons) <= BirthKey(s[0], persons) then [x] + s
    else
      assert s == [s[0]] + s[1..];
      [s[0]] + InsertByBirth(x, s[1..], persons)
  }

  function SortByBirth(s: seq<Id>, persons: map<Id, Person>): (r: seq<Id>)
    ensures |r| == |s|
  {
    if |s| == 0 then []
    else InsertByBirth(s[0], SortByBirth(s[1..], persons), persons)
  }

  predicate BirthOrdered(s: seq<Id>, persons: map<Id, Person>) {
    forall i, j :: 0 <= i < j < |s| ==> BirthKey(s[i], persons) <= BirthKey(s[j], persons)
  }

  lemma {:induction false} InsertKeepsOrder(x: Id, s: seq<Id>, persons: map<Id, Person>)
    requires BirthOrdered(s, persons)
    ensures BirthOrdered(InsertByBirth(x, s, persons), persons)
  {
    if |s| > 0 && BirthKey(x, persons) > BirthKey(s[0], persons) {
      InsertKeepsOrder(x, s[1..], persons);
      var r := InsertByBirth(x, s[1..], persons);
      forall y | y in r
        ensures BirthKey(s[0], persons) <= BirthKey(y, persons)
      {
        assert y in multiset(r);
      }
    }
  }

  /** The children of a lane come out in birth order and are the same children. */
  lemma {:induction false} SortByBirthSorts(s: seq<Id>, persons: map<Id, Person>)
    ensures BirthOrdered(SortByBirth(s, persons), persons)
    ensures multiset(SortByBirth(s, persons)) == multiset(s)
  {
    if |s| > 0 {
      assert s == [s[0]] + s[1..];
      SortByBirthSorts(s[1..], persons);
      InsertKeepsOrder(s[0], SortByBirth(s[1..], persons), persons);
    }
  }

  /** Sorting keeps every child, so children that all have a person still do. */
  lemma SortedKnown(s: seq<Id>, persons: map<Id, Person>)
    requires forall i :: 0 <= i < |s| ==> s[i] in persons
    ensures forall i :: 0 <= i < |SortByBirth(s, persons)| ==> SortByBirth(s, persons)[i] in persons
  {
    SortByBirthSorts(s, persons);
    var r := SortByBirth(s, persons);
    forall i | 0 <= i < |r|
      ensures r[i] in persons
    {
      assert r[i] in multiset(s);
    }
  }
}

module EgoDraw {
  import opened Wrappers
  import opened Entities
  import opened Svg
  import opened Ego
  import Timeline

  // ---------------------------------------------------------------------
  // Jitter

  /**
   * `__get_family_jitter` in hundredths: one lane sits at 0.5, `n` lanes at
   * `round(1 / (n + 1), 2)`. Python rounds the float's exact value, so the
   * only tie is 1/8 = 0.125, which goes to the even 0.12; every other value
   * rounds half up.
   */
  function JitterHundredths(n: nat): int {
    if n == 1 then 50
    else if n == 7 then 12
    else (200 + (n + 1)) / (2 * (n + 1))
  }

  /**
   * Apart from the single lane and the tie at seven lanes, the jitter is
   * `1 / (n + 1)` rounded to the nearest hundredth: it is within half a
   * hundredth of it, and a tie is rounded up.
   */
  lemma JitterRounds(n: nat)
    requires n != 1 && n != 7
    ensures var m := n + 1;
            2 * (JitterHundredths(n) * m - 100) <= m && 2 * (100 - JitterHundredths(n) * m) < m
  {
    var m := n + 1;
    var q := (200 + m) / (2 * m);
    var r := (200 + m) % (2 * m);
    assert 200 + m == 2 * m * q + r && 0 <= r < 2 * m;
    assert q * m == m * q;
  }

  /** The doctest of `__get_family_jitter`: one lane gives 0.5, two give 0.33; seven give 0.12, not 0.13. */
  lemma JitterDoctest()
    ensures JitterHundredths(1) == 50 && JitterHundredths(2) == 33 && JitterHundredths(7) == 12
  {
  }

  /** `__get_family_jitter(n)` as a number. */
  function BaseJitter(n: nat): real {
    JitterHundredths(n) as real / 100.0
  }

  /** The height fraction of lane `k` among `n`: `1 - base_fj * (k + 1)`. */
  function LaneFraction(n: nat, k: nat): real {
    1.0 - BaseJitter(n) * (k + 1) as real
  }

  /** Up to sixteen lanes the jitter is positive and the lanes together stay below a whole cell. */
  lemma JitterBound(n: nat)
    requires 1 <= n <= 16
    ensures 0 < JitterHundredths(n) && JitterHundredths(n) * n < 100
  {
    if n == 1 {} else if n == 2 {} else if n == 3 {} else if n == 4 {}
    else if n == 5 {} else if n == 6 {} else if n == 7 {} else if n == 8 {}
    else if n == 9 {} else if n == 10 {} else if n == 11 {} else if n == 12 {}
    else if n == 13 {} else if n == 14 {} else if n == 15 {} else {}
  }

  /** The fraction of lane `k` is one less the jitter's share of `k + 1` hundredths. */
  lemma LaneFractionExact(n: nat, k: nat)
    ensures LaneFraction(n, k) == 1.0 - (JitterHundredths(n) * (k + 1)) as real / 100.0
  {
    var j := JitterHundredths(n);
    var jr, m := j as real, (k + 1) as real;
    assert (j * (k + 1)) as real == jr * m;
    assert BaseJitter(n) * m == jr / 100.0 * m == (jr * m) / 100.0;
  }

  /**
   * Up to sixteen lanes the lanes' lines sit strictly inside the cell, each
   * lane strictly above the one before it.
   */
  lemma LanesInsideCell(n: nat)
    requires 1 <= n <= 16
    ensures forall k :: 0 <= k < n ==> 0.0 < LaneFraction(n, k) < 1.0
    ensures forall k :: 0 < k < n ==> LaneFraction(n, k) < LaneFraction(n, k - 1)
  {
    JitterBound(n);
    forall k | 0 <= k < n
      ensures 0.0 < LaneFraction(n, k) < 1.0
      ensures 0 < k ==> LaneFraction(n, k) < LaneFraction(n, k - 1)
    {
      LaneInside(n, k);
    }
  }

  lemma LaneInside(n: nat, k: nat)
    requires 0 < JitterHundredths(n) && JitterHundredths(n) * n < 100 && k < n
    ensures 0.0 < LaneFraction(n, k) < 1.0
    ensures 0 < k ==> LaneFraction(n, k) < LaneFraction(n, k - 1)
  {
    var j := JitterHundredths(n);
    var a := j * (k + 1);
    MulGrows(j, k + 1, n);
    LaneFractionExact(n, k);
    assert LaneFraction(n, k) == 1.0 - a as real / 100.0;
    assert 0 < a < 100;
    if 0 < k {
      LaneFractionExact(n, k - 1);
      MulGrows(j, k, k + 1);
      assert LaneFraction(n, k - 1) == 1.0 - (j * k) as real / 100.0;
      assert j * k < a;
    }
  }

  /** Multiplying by a positive factor keeps the order. */
  lemma MulGrows(j: int, x: int, y: int)
    requires 0 < j && x <= y
    ensures j * x <= j * y && (x < y ==> j * x < j * y) && j * y == j * x + j * (y - x)
  {
  }

  /** From seventeen lanes on, the last lane's line leaves the cell. */
  lemma SeventeenLanesLeaveTheCell()
    ensures LaneFraction(17, 16) < 0.0
  {
    assert JitterHundredths(17) == 6;
  }

  // ---------------------------------------------------------------------
  // Cells and lines

  function CellX(col: int): real {
    col as real * (PersonWidth + XSpacing)
  }

  function RowTop(gen: int): real {
    gen as real * (PersonHeight + YSpacing)
  }

  /** The estimated width of a label: 0.55 of the font size per character, added up character by character. */
  function LabelWidth(font: int, chars: nat): real {
    if chars == 0 then 0.0 else LabelWidth(font, chars - 1) + font as real * 0.55
  }

  /** The estimate is `font_size * 0.55 * len(name)`. */
  lemma {:induction false} LabelWidthExact(font: int, chars: nat)
    ensures LabelWidth(font, chars) == font as real * 0.55 * chars as real
  {
    if chars > 0 {
      LabelWidthExact(font, chars - 1);
    }
  }

  /**
   * `__add_person`: the cell of `p`, a rectangle with the name centred by
   * its estimated width and, at the same anchor, the hidden id label the
   * hyperlink pass looks for.
   */
  function Cell(p: Person, gen: int, col: int, font: int): seq<Shape> {
    var weight := LabelWidth(font, |p.name|);
    var x := CellX(col) + PersonWidth / 2.0 - weight / 2.0;
    var y := RowTop(gen) + PersonHeight / 2.0;
    [Rect(CellX(col), RowTop(gen), PersonWidth, PersonHeight, Solid(Timeline.Color(p.gender))),
     Text(p.name, font, x, y, false),
     Text(p.id, font, x, y, true)]
  }

  /**
   * A cell is a rectangle at its grid position, the visible name and the
   * hidden id label at one anchor, halfway down the rectangle.
   */
  lemma CellLabels(p: Person, gen: int, col: int, font: int)
    ensures var r := Cell(p, gen, col, font);
            && |r| == 3 && r[0] == Rect(CellX(col), RowTop(gen), PersonWidth, PersonHeight, Solid(Timeline.Color(p.gender)))
            && r[1].Text? && r[2].Text? && r[1].x == r[2].x && r[1].y == r[2].y == RowTop(gen) + PersonHeight / 2.0
            && r[1].content == p.name && !r[1].hidden && r[2].content == p.id && r[2].hidden
  {
  }

  /** Where a descent line starts: just left of the partner's cell, or under the middle of a cell. */
  datatype ParentSide = RightParent(col: int) | LeftParent(col: int)

  /** `__create_parents_line`: from the parents' line down to the top middle of the child's cell, shifted by the jitter. */
  function DescentLine(up: int, down: int, child: int, jitter: real, side: ParentSide): Shape {
    var xUp := match side
      case RightParent(c) => CellX(c) - XSpacing / 2.0
      case LeftParent(c) => CellX(c) + PersonWidth / 2.0;
    Lines([Point(xUp, RowTop(up) + PersonHeight * jitter), Point(CellX(child) + PersonWidth * jitter, RowTop(down))], "gray")
  }

  /** `__create_relationships_line`: a horizontal from the right edge of the left cell to the right cell. */
  function MarriageLine(gen: int, left: int, right: int, jitter: real): Shape {
    var y := RowTop(gen) + PersonHeight * jitter;
    Lines([Point(left as real * PersonWidth + PersonWidth, y), Point(CellX(right), y)], "black")
  }

  // ---------------------------------------------------------------------
  // The plan of the drawing

  /**
   * One step of `__draw_objects`: a person's cell at a generation and
   * column, a `__create_parents_line` or a `__create_relationships_line`.
   */
  datatype Item =
    | Put(id: Id, gen: int, col: int)
    | DescentLink(up: int, down: int, child: int, jitter: real, side: ParentSide)
    | MarriageLink(row: int, left: int, right: int, jitter: real)

  /** The shapes of one step; a cell needs its person, which the loaded tree always has. */
  function ItemShapes(it: Item, persons: map<Id, Person>, font: int): seq<Shape> {
    match it
    case Put(id, gen, col) => if id in persons then Cell(persons[id], gen, col, font) else []
    case DescentLink(up, down, child, jitter, side) => [DescentLine(up, down, child, jitter, side)]
    case MarriageLink(row, left, right, jitter) => [MarriageLine(row, left, right, jitter)]
  }

  /** The shapes of a plan, in order. */
  function Render(items: seq<Item>, persons: map<Id, Person>, font: int): seq<Shape> {
    if |items| == 0 then []
    else Render(items[..|items| - 1], persons, font) + ItemShapes(items[|items| - 1], persons, font)
  }

  lemma RenderSnoc(items: seq<Item>, x: Item, persons: map<Id, Person>, font: int)
    ensures Render(items + [x], persons, font) == Render(items, persons, font) + ItemShapes(x, persons, font)
  {
    assert (items + [x])[..|items|] == items;
  }

  predicate Known(items: seq<Item>, persons: map<Id, Person>) {
    forall i :: 0 <= i < |items| ==> items[i].Put? ==> items[i].id in persons
  }

  /** Every cell is three shapes and every line one. */
  lemma {:induction false} RenderCount(items: seq<Item>, persons: map<Id, Person>, font: int)
    requires Known(items, persons)
    ensures |Render(items, persons, font)| == 3 * |Puts(items)| + (|items| - |Puts(items)|)
  {
    if |items| > 0 {
      var init := items[..|items| - 1];
      RenderCount(init, persons, font);
      assert items == init + [items[|items| - 1]];
      PutsAppend(init, [items[|items| - 1]]);
    }
  }

  /** The cells of a plan, in order. */
  function Puts(items: seq<Item>): (r: seq<Item>)
    ensures |r| <= |items|
    ensures forall i :: 0 <= i < |r| ==> r[i].Put? && r[i] in items
  {
    if |items| == 0 then []
    else (if items[0].Put? then [items[0]] else []) + Puts(items[1..])
  }

  lemma {:induction false} PutsAppend(a: seq<Item>, b: seq<Item>)
    ensures Puts(a + b) == Puts(a) + Puts(b)
  {
    if |a| > 0 {
      assert (a + b)[1..] == a[1..] + b;
      PutsAppend(a[1..], b);
    } else {
      assert a + b == b;
    }
  }

  /** The two parents in the order `sorted(parents, key=gender.value)` gives them: women first, a tie keeps their order. */
  function ByGender(a: Id, b: Id, persons: map<Id, Person>): (r: (Id, Id))
    requires a in persons && b in persons
    ensures {r.0, r.1} == {a, b}
    ensures GenderCode(persons[r.0].gender) <= GenderCode(persons[r.1].gender)
  {
    if GenderCode(persons[b].gender) < GenderCode(persons[a].gender) then (b, a) else (a, b)
  }

  /** The parents' part of `__draw_objects` and the generation the focal person then takes. */
  function ParentItems(parents: seq<Id>, persons: map<Id, Person>): (seq<Item>, int)
    requires forall i :: 0 <= i < |parents| ==> parents[i] in persons
  {
    if |parents| == 1 then
      ([Put(parents[0], 0, 0), DescentLink(0, 1, 0, 0.5, LeftParent(0))], 1)
    else if |parents| == 2 then
      var (left, right) := ByGender(parents[0], parents[1], persons);
      ([Put(left, 0, 0), Put(right, 0, 1), MarriageLink(0, 0, 1, 0.5),
        DescentLink(0, 1, 0, 0.5, RightParent(1))], 1)
    else ([], 0)
  }

  /** The children of one lane below generation `gen`, the first of them at global column `col`. */
  function ChildItems(kids: seq<Id>, gen: int, col: int, side: ParentSide, jitter: real): (r: seq<Item>)
    ensures |r| == 2 * |kids|
  {
    if |kids| == 0 then []
    else
      var n := |kids| - 1;
      ChildItems(kids[..n], gen, col, side, jitter)
      + [Put(kids[n], gen + 1, col + n), DescentLink(gen, gen + 1, col + n, jitter, side)]
  }

  /** Where lane `k` puts its partner: right of the focal person for the first lane, else at the current column. */
  function PartnerColumn(k: nat, col: int): int {
    col + (if k == 0 then 1 else 0)
  }

  predicate LaneKnown(lane: Lane, persons: map<Id, Person>) {
    (lane.partner.Some? ==> lane.partner.value in persons)
    && forall i :: 0 <= i < |lane.children| ==> lane.children[i] in persons
  }

  /** The side of the partner's cell that the descent lines of a lane leave from. */
  function LaneSide(lane: Lane, k: nat, col: int): ParentSide {
    if lane.partner.Some? then RightParent(PartnerColumn(k, col)) else LeftParent(col)
  }

  /** A lane's partner cell and marriage line, when the lane has a partner. */
  function LaneHead(lane: Lane, k: nat, col: int, gen: int, jitter: real): seq<Item> {
    match lane.partner
    case Some(partner) => [Put(partner, gen, PartnerColumn(k, col)), MarriageLink(gen, 0, PartnerColumn(k, col), jitter)]
    case None => []
  }

  /**
   * Lane `k` at height fraction `jitter`: the partner and the marriage line,
   * then the children in birth order from global column `col` on.
   */
  function LaneItems(lane: Lane, k: nat, col: int, gen: int, jitter: real, persons: map<Id, Person>): seq<Item> {
    LaneHead(lane, k, col, gen, jitter)
    + ChildItems(SortByBirth(lane.children, persons), gen, col, LaneSide(lane, k, col), jitter)
  }

  /** The number of children of the lanes: lane `k` starts at global column `TotalChildren(lanes[..k])`. */
  function TotalChildren(lanes: seq<Lane>): nat {
    if |lanes| == 0 then 0 else TotalChildren(lanes[..|lanes| - 1]) + |lanes[|lanes| - 1].children|
  }

  /**
   * The items of each lane of `__draw_objects`' loop: lane `k` at
   * `family_jitter = 1 - fj * (k + 1)`, starting at the global children
   * column reached after the lanes before it.
   */
  function LaneBlocks(lanes: seq<Lane>, fj: real, gen: int, persons: map<Id, Person>): (r: seq<seq<Item>>)
    ensures |r| == |lanes|
  {
    seq(|lanes|, k requires 0 <= k < |lanes| =>
      LaneItems(lanes[k], k, TotalChildren(lanes[..k]), gen, 1.0 - fj * (k + 1) as real, persons))
  }

  /** The blocks one after another. */
  function Flatten(blocks: seq<seq<Item>>): seq<Item> {
    if |blocks| == 0 then [] else Flatten(blocks[..|blocks| - 1]) + blocks[|blocks| - 1]
  }

  /** `__draw_objects` as a plan: parents, the focal person at column 0, then the lanes. */
  function Plan(base: Person, lanes: seq<Lane>, parents: seq<Id>, persons: map<Id, Person>): seq<Item>
    requires forall i :: 0 <= i < |parents| ==> parents[i] in persons
  {
    var (top, gen) := ParentItems(parents, persons);
    top + [Put(base.id, gen, 0)] + Flatten(LaneBlocks(lanes, BaseJitter(|lanes|), gen, persons))
  }

  predicate AllKnown(ids: seq<Id>, persons: map<Id, Person>) {
    forall i :: 0 <= i < |ids| ==> ids[i] in persons
  }

  predicate LanesKnown(lanes: seq<Lane>, persons: map<Id, Person>) {
    forall i :: 0 <= i < |lanes| ==> LaneKnown(lanes[i], persons)
  }

  lemma {:induction false} RenderAppend(a: seq<Item>, b: seq<Item>, persons: map<Id, Person>, font: int)
    ensures Render(a + b, persons, font) == Render(a, persons, font) + Render(b, persons, font)
    decreases |b|
  {
    if |b| == 0 {
      assert a + b == a;
    } else {
      var n := |b| - 1;
      var init, last := b[..n], b[n];
      assert b == init + [last];
      assert a + b == (a + init) + [last];
      RenderSnoc(a + init, last, persons, font);
      RenderAppend(a, init, persons, font);
      RenderSnoc(init, last, persons, font);
      var ra, ri, rl := Render(a, persons, font), Render(init, persons, font), ItemShapes(last, persons, font);
      ConcatAssoc(ra, ri, rl);
    }
  }

  /** Drawing child `i` adds its cell and its descent line to the drawing of the children before it. */
  lemma ChildStep(kids: seq<Id>, i: nat, gen: int, col: int, side: ParentSide, jitter: real, persons: map<Id, Person>, font: int)
    requires i < |kids| && kids[i] in persons
    ensures Render(ChildItems(kids[..i + 1], gen, col, side, jitter), persons, font)
            == Render(ChildItems(kids[..i], gen, col, side, jitter), persons, font)
               + (Cell(persons[kids[i]], gen + 1, col + i, font) + [DescentLine(gen, gen + 1, col + i, jitter, side)])
  {
    assert kids[..i + 1][..i] == kids[..i];
    var done := ChildItems(kids[..i], gen, col, side, jitter);
    var cell := Put(kids[i], gen + 1, col + i);
    var line := DescentLink(gen, gen + 1, col + i, jitter, side);
    assert ChildItems(kids[..i + 1], gen, col, side, jitter) == (done + [cell]) + [line];
    RenderSnoc(done, cell, persons, font);
    RenderSnoc(done + [cell], line, persons, font);
  }

  /** The inner loop of `__draw_objects`: each child in birth order takes the next global column. */
  method DrawChildren(kids: seq<Id>, gen: int, col: int, side: ParentSide, jitter: real, persons: map<Id, Person>, font: int)
    returns (r: seq<Shape>, next: int)
    requires AllKnown(kids, persons)
    ensures r == Render(ChildItems(kids, gen, col, side, jitter), persons, font)
    ensures next == col + |kids|
  {
    r, next := [], col;
    var i := 0;
    while i < |kids|
      invariant 0 <= i <= |kids| && next == col + i
      invariant r == Render(ChildItems(kids[..i], gen, col, side, jitter), persons, font)
    {
      ChildStep(kids, i, gen, col, side, jitter, persons, font);
      r := r + (Cell(persons[kids[i]], gen + 1, next, font) + [DescentLine(gen, gen + 1, next, jitter, side)]);
      next := next + 1;
      i := i + 1;
    }
    assert kids[..|kids|] == kids;
  }

  /**
   * One lane of `__draw_objects`: the partner and the marriage line if the
   * partner is set, then the children in birth order.
   */
  method DrawLane(lane: Lane, k: nat, col: int, gen: int, jitter: real, persons: map<Id, Person>, font: int)
    returns (r: seq<Shape>, next: int)
    requires LaneKnown(lane, persons)
    ensures r == Render(LaneItems(lane, k, col, gen, jitter, persons), persons, font)
    ensures next == col + |lane.children|
  {
    var kids := SortByBirth(lane.children, persons);
    SortedKnown(lane.children, persons);
    r := DrawLaneHead(lane, k, col, gen, jitter, persons, font);
    var rest;
    rest, next := DrawChildren(kids, gen, col, LaneSide(lane, k, col), jitter, persons, font);
    RenderAppend(LaneHead(lane, k, col, gen, jitter), ChildItems(kids, gen, col, LaneSide(lane, k, col), jitter), persons, font);
    r := r + rest;
  }

  /** The partner's cell right of the focal person (first lane) or at the current column, and the marriage line to it. */
  method DrawLaneHead(lane: Lane, k: nat, col: int, gen: int, jitter: real, persons: map<Id, Person>, font: int)
    returns (r: seq<Shape>)
    requires LaneKnown(lane, persons)
    ensures r == Render(LaneHead(lane, k, col, gen, jitter), persons, font)
  {
    r := [];
    if lane.partner.Some? {
      var pc := col + (if k == 0 then 1 else 0);
      var cell := Put(lane.partner.value, gen, pc);
      var line := MarriageLink(gen, 0, pc, jitter);
      RenderSnoc([], cell, persons, font);
      RenderSnoc([cell], line, persons, font);
      assert [cell] + [line] == LaneHead(lane, k, col, gen, jitter);
      r := Cell(persons[lane.partner.value], gen, pc, font) + [MarriageLine(gen, 0, pc, jitter)];
    }
  }

  /**
   * `__draw_objects`: the parents with their lines, the focal person at
   * column 0 of the next generation, then the lanes.
   */
  method DrawObjects(base: Person, lanes: seq<Lane>, parents: seq<Id>, persons: map<Id, Person>, font: int)
    returns (r: seq<Shape>)
    requires base.id in persons && persons[base.id] == base
    requires AllKnown(parents, persons) && LanesKnown(lanes, persons)
    ensures r == Render(Plan(base, lanes, parents, persons), persons, font)
  {
    var gen;
    r, gen := DrawParents(parents, persons, font);
    ghost var top := ParentItems(parents, persons).0;
    var fj := BaseJitter(|lanes|);
    ghost var rest := Flatten(LaneBlocks(lanes, fj, gen, persons));
    PlanParts(base, lanes, parents, persons);
    RenderSnoc(top, Put(base.id, gen, 0), persons, font);
    assert ItemShapes(Put(base.id, gen, 0), persons, font) == Cell(base, gen, 0, font);
    var below := DrawLanes(lanes, fj, gen, persons, font);
    RenderAppend(top + [Put(base.id, gen, 0)], rest, persons, font);
    r := r + Cell(base, gen, 0, font) + below;
  }

  /** The plan is the parents' part, the focal person's cell, then the lanes' part. */
  lemma PlanParts(base: Person, lanes: seq<Lane>, parents: seq<Id>, persons: map<Id, Person>)
    requires AllKnown(parents, persons)
    ensures var (top, gen) := ParentItems(parents, persons);
            Plan(base, lanes, parents, persons)
            == (top + [Put(base.id, gen, 0)]) + Flatten(LaneBlocks(lanes, BaseJitter(|lanes|), gen, persons))
  {
  }

  /** Block `k` is lane `k` at its column and jitter. */
  lemma BlockAt(lanes: seq<Lane>, fj: real, gen: int, persons: map<Id, Person>, k: nat)
    requires k < |lanes|
    ensures LaneBlocks(lanes, fj, gen, persons)[k]
            == LaneItems(lanes[k], k, TotalChildren(lanes[..k]), gen, 1.0 - fj * (k + 1) as real, persons)
  {
  }

  /** The first `k + 1` blocks are the first `k` and block `k`. */
  lemma FlattenStep(blocks: seq<seq<Item>>, k: nat)
    requires k < |blocks|
    ensures Flatten(blocks[..k + 1]) == Flatten(blocks[..k]) + blocks[k]
  {
    assert blocks[..k + 1][..k] == blocks[..k];
  }

  /** The lanes before lane `k + 1` hold those before lane `k` and lane `k`'s children. */
  lemma TotalChildrenStep(lanes: seq<Lane>, k: nat)
    requires k < |lanes|
    ensures TotalChildren(lanes[..k + 1]) == TotalChildren(lanes[..k]) + |lanes[k].children|
  {
    assert lanes[..k + 1][..k] == lanes[..k];
  }

  /** Drawing lane `k` after the lanes before it draws the first `k + 1` blocks. */
  lemma LaneStep(lanes: seq<Lane>, fj: real, gen: int, persons: map<Id, Person>, font: int,
                 k: nat, col: int, jitter: real, done: seq<Shape>, shapes: seq<Shape>)
    requires k < |lanes| && col == TotalChildren(lanes[..k]) && jitter == 1.0 - fj * (k + 1) as real
    requires done == Render(Flatten(LaneBlocks(lanes, fj, gen, persons)[..k]), persons, font)
    requires shapes == Render(LaneItems(lanes[k], k, col, gen, jitter, persons), persons, font)
    ensures done + shapes == Render(Flatten(LaneBlocks(lanes, fj, gen, persons)[..k + 1]), persons, font)
  {
    var blocks := LaneBlocks(lanes, fj, gen, persons);
    BlockAt(lanes, fj, gen, persons, k);
    RenderBlockStep(blocks, k, persons, font, done, shapes);
  }

  /** Rendering the first `k + 1` blocks renders the first `k`, then block `k`. */
  lemma RenderBlockStep(blocks: seq<seq<Item>>, k: nat, persons: map<Id, Person>, font: int, done: seq<Shape>, shapes: seq<Shape>)
    requires k < |blocks|
    requires done == Render(Flatten(blocks[..k]), persons, font) && shapes == Render(blocks[k], persons, font)
    ensures done + shapes == Render(Flatten(blocks[..k + 1]), persons, font)
  {
    FlattenStep(blocks, k);
    RenderAppend(Flatten(blocks[..k]), blocks[k], persons, font);
  }

  /**
   * The loop over the lanes: lane `k` at `family_jitter = 1 - fj * (k + 1)`,
   * the global children column running on from lane to lane.
   */
  method DrawLanes(lanes: seq<Lane>, fj: real, gen: int, persons: map<Id, Person>, font: int) returns (r: seq<Shape>)
    requires LanesKnown(lanes, persons)
    ensures r == Render(Flatten(LaneBlocks(lanes, fj, gen, persons)), persons, font)
  {
    r := [];
    var col := 0;
    for k := 0 to |lanes|
      invariant col == TotalChildren(lanes[..k])
      invariant r == Render(Flatten(LaneBlocks(lanes, fj, gen, persons)[..k]), persons, font)
    {
      var jitter := 1.0 - fj * (k + 1) as real;
      var shapes, next := DrawLane(lanes[k], k, col, gen, jitter, persons, font);
      LaneStep(lanes, fj, gen, persons, font, k, col, jitter, r, shapes);
      TotalChildrenStep(lanes, k);
      r := r + shapes;
      col := next;
    }
    assert LaneBlocks(lanes, fj, gen, persons)[..|lanes|] == LaneBlocks(lanes, fj, gen, persons);
  }

  /** The parents' part of `__draw_objects`: one parent above the focal person, or two ordered by gender. */
  method DrawParents(parents: seq<Id>, persons: map<Id, Person>, font: int) returns (r: seq<Shape>, gen: int)
    requires AllKnown(parents, persons)
    ensures r == Render(ParentItems(parents, persons).0, persons, font) && gen == ParentItems(parents, persons).1
  {
    gen := 0;
    r := [];
    ghost var items: seq<Item> := [];
    if |parents| == 1 {
      RenderSnoc(items, Put(parents[0], 0, 0), persons, font);
      r := r + Cell(persons[parents[0]], gen, 0, font);
      items := items + [Put(parents[0], 0, 0)];
      gen := gen + 1;
      RenderSnoc(items, DescentLink(0, 1, 0, 0.5, LeftParent(0)), persons, font);
      r := r + [DescentLine(0, gen, 0, 0.5, LeftParent(0))];
      items := items + [DescentLink(0, 1, 0, 0.5, LeftParent(0))];
    } else if |parents| == 2 {
      var (left, right) := ByGender(parents[0], parents[1], persons);
      RenderSnoc(items, Put(left, 0, 0), persons, font);
      r := r + Cell(persons[left], gen, 0, font);
      items := items + [Put(left, 0, 0)];
      RenderSnoc(items, Put(right, 0, 1), persons, font);
      r := r + Cell(persons[right], gen, 1, font);
      items := items + [Put(right, 0, 1)];
      RenderSnoc(items, MarriageLink(0, 0, 1, 0.5), persons, font);
      r := r + [MarriageLine(gen, 0, 1, 0.5)];
      items := items + [MarriageLink(0, 0, 1, 0.5)];
      gen := gen + 1;
      RenderSnoc(items, DescentLink(0, 1, 0, 0.5, RightParent(1)), persons, font);
      r := r + [DescentLine(0, gen, 0, 0.5, RightParent(1))];
      items := items + [DescentLink(0, 1, 0, 0.5, RightParent(1))];
    }
    assert items == ParentItems(parents, persons).0;
  }
}
