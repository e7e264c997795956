/**
 * The read-only queries of the full-timeline layout: which unplaced person
 * seeds a new round, and which one comes next after a placed person.
 *
 * The pool of unplaced persons is the set of their ids; as a dict it is
 * iterated in the tree's own order, so every scan below walks `t.order`
 * (or `t.relations`, `t.familyOrder`) and keeps the ids still in the pool.
 * `min`/`max` with a key return the first extremal element and
 * `sorted(...)[-1]` the last maximal one, and the functions keep those
 * tie-breaks.
 */
module TreeWalk {
  import opened Wrappers
  import opened Dates
  import opened Entities

  /** Every person is stored under its own id, as the loaders build the dict. */
  predicate Keyed(persons: map<Id, Person>) {
    forall id | id in persons :: persons[id].id == id
  }

  function Born(p: Person): int {
    p.birth.ordinal
  }

  /** The persons whose ids are listed in `ids` and still in the pool, in the order of `ids`. */
  function InPool(ids: seq<Id>, persons: map<Id, Person>, pool: set<Id>): (r: seq<Person>)
    requires Keyed(persons)
    ensures forall p {:trigger p in r} :: p in r ==> p.id in ids && p.id in pool && p.id in persons && persons[p.id] == p
    ensures forall id :: id in ids && id in pool && id in persons ==> persons[id] in r
    ensures |r| <= |ids|
  {
    if |ids| == 0 then []
    else
      var rest := InPool(ids[1..], persons, pool);
      if ids[0] in pool && ids[0] in persons then [persons[ids[0]]] + rest else rest
  }

  /** The index `min(ps, key=birth)` picks: an earliest birth, the first one among equals. */
  function FirstEarliest(ps: seq<Person>): (i: nat)
    requires |ps| > 0
    ensures i < |ps|
    ensures forall j :: 0 <= j < |ps| ==> Born(ps[i]) <= Born(ps[j])
    ensures forall j :: 0 <= j < i ==> Born(ps[j]) > Born(ps[i])
  {
    if |ps| == 1 then 0
    else
      var k := FirstEarliest(ps[1..]) + 1;
      assert ps[1..][k - 1] == ps[k];
      if Born(ps[0]) <= Born(ps[k]) then 0 else k
  }

  /** The index `max(ps, key=birth)` picks: a latest birth, the first one among equals. */
  function FirstLatest(ps: seq<Person>): (i: nat)
    requires |ps| > 0
    ensures i < |ps|
    ensures forall j :: 0 <= j < |ps| ==> Born(ps[j]) <= Born(ps[i])
    ensures forall j :: 0 <= j < i ==> Born(ps[j]) < Born(ps[i])
  {
    if |ps| == 1 then 0
    else
      var k := FirstLatest(ps[1..]) + 1;
      assert ps[1..][k - 1] == ps[k];
      if Born(ps[0]) >= Born(ps[k]) then 0 else k
  }

  /** The index `sorted(ps, key=birth)[-1]` picks: the stable sort leaves the last of the latest-born at the end. */
  function LastLatest(ps: seq<Person>): (i: nat)
    requires |ps| > 0
    ensures i < |ps|
    ensures forall j :: 0 <= j < |ps| ==> Born(ps[j]) <= Born(ps[i])
    ensures forall j :: i < j < |ps| ==> Born(ps[j]) < Born(ps[i])
  {
    if |ps| == 1 then 0
    else
      var k := LastLatest(ps[1..]) + 1;
      assert ps[1..][k - 1] == ps[k];
      if Born(ps[0]) > Born(ps[k]) then 0 else k
  }

  function OfGender(ps: seq<Person>, g: Gender): (r: seq<Person>)
    ensures forall p {:trigger p in r} {:trigger p in ps} :: p in r <==> p in ps && p.gender == g
  {
    if |ps| == 0 then []
    else (if ps[0].gender == g then [ps[0]] else []) + OfGender(ps[1..], g)
  }

  /** `__older_grandpa` / `__older_grandma`: the earliest-born person of one gender, if any. */
  function EarliestOfGender(ps: seq<Person>, g: Gender): (r: Option<Person>)
    ensures r.None? <==> forall p {:trigger p in ps} :: p in ps ==> p.gender != g
    ensures r.Some? ==> r.value in ps && r.value.gender == g
    ensures r.Some? ==> forall p {:trigger p in ps} :: p in ps && p.gender == g ==> Born(r.value) <= Born(p)
  {
    var candidates := OfGender(ps, g);
    assert forall p {:trigger p in ps} :: p in ps && p.gender == g ==> p in candidates;
    if |candidates| == 0 then None
    else
      var c := candidates[FirstEarliest(candidates)];
      assert c in candidates;
      Some(c)
  }

  /** The persons of the pool, as the dict holding them is iterated. */
  function PoolPersons(t: GrampsTree, pool: set<Id>): (r: seq<Person>)
    requires Keyed(t.persons)
  {
    InPool(t.order, t.persons, pool)
  }

  /**
   * `__get_patriarch`: the earliest-born man of the pool, otherwise the
   * earliest-born woman, otherwise nobody. A person of unknown gender never
   * starts a round.
   */
  function Patriarch(ps: seq<Person>): (r: Option<Person>)
    ensures r.None? <==> forall p {:trigger p in ps} :: p in ps ==> p.gender == Unknown
    ensures r.Some? ==> r.value in ps && r.value.gender != Unknown
    ensures r.Some? && r.value.gender == Female ==> forall p {:trigger p in ps} :: p in ps ==> p.gender != Male
    ensures r.Some? ==> forall p {:trigger p in ps} :: p in ps && p.gender == r.value.gender ==> Born(r.value) <= Born(p)
  {
    var man := EarliestOfGender(ps, Male);
    if man.Some? then man else EarliestOfGender(ps, Female)
  }

  /** The other side of a MARRIAGE relation that has `pid` on one side; `first` is checked before `other`. */
  function PartnerId(rel: Relation, pid: Id): (r: Option<Id>)
    ensures r.Some? <==> rel.kind == Marriage && (rel.first == pid || rel.other == pid)
    ensures r.Some? ==> (rel.first == pid ==> r.value == rel.other) && (rel.first != pid ==> r.value == rel.first)
  {
    if rel.kind != Marriage then None
    else if rel.first == pid then Some(rel.other)
    else if rel.other == pid then Some(rel.first)
    else None
  }

  predicate PartnerVia(rel: Relation, pid: Id, q: Person, persons: map<Id, Person>, pool: set<Id>) {
    var o := PartnerId(rel, pid);
    o.Some? && o.value in pool && o.value in persons && persons[o.value] == q
  }

  /** `__get_partners`: the unplaced persons married to `pid`, one entry per relation. */
  function Partners(rels: seq<Relation>, pid: Id, persons: map<Id, Person>, pool: set<Id>): (r: seq<Person>)
    requires Keyed(persons)
    ensures forall q {:trigger q in r} :: q in r <==> exists k :: 0 <= k < |rels| && PartnerVia(rels[k], pid, q, persons, pool)
    ensures forall q {:trigger q in r} :: q in r ==> q.id in pool && q.id in persons && persons[q.id] == q
  {
    if |rels| == 0 then []
    else
      var o := PartnerId(rels[0], pid);
      var head := if o.Some? && o.value in pool && o.value in persons then [persons[o.value]] else [];
      var rest := Partners(rels[1..], pid, persons, pool);
      assert forall k :: 1 <= k < |rels| ==> rels[k] == rels[1..][k - 1];
      head + rest
  }

  /**
   * `__get_oldest_partner`: despite its name, the LATEST-born unplaced
   * partner (the last of them in relation order among equal births).
   */
  function OldestPartner(t: GrampsTree, person: Person, pool: set<Id>): (r: Option<Person>)
    requires Keyed(t.persons)
    ensures var ps := Partners(t.relations, person.id, t.persons, pool);
            && (r.None? <==> |ps| == 0)
            && (r.Some? ==> r.value in ps && forall q {:trigger q in ps} :: q in ps ==> Born(q) <= Born(r.value))
  {
    var ps := Partners(t.relations, person.id, t.persons, pool);
    if |ps| == 0 then None else Some(ps[LastLatest(ps)])
  }

  /** The family whose father and mother are `person` and `partner`, the slots chosen by `person`'s gender. */
  predicate CoupleOf(f: Family, person: Person, partner: Id) {
    (person.gender == Male && f.father == Some(person.id) && f.mother == Some(partner))
    || (person.gender == Female && f.father == Some(partner) && f.mother == Some(person.id))
  }

  /** The first family, in dict order, of `person` with `partner`. */
  function FamilyWith(fids: seq<Id>, families: map<Id, Family>, person: Person, partner: Id): (r: Option<Id>)
    ensures r.Some? ==> r.value in fids && r.value in families && CoupleOf(families[r.value], person, partner)
    ensures r.None? <==> forall fid :: fid in fids && fid in families ==> !CoupleOf(families[fid], person, partner)
  {
    if |fids| == 0 then None
    else if fids[0] in families && CoupleOf(families[fids[0]], person, partner) then Some(fids[0])
    else FamilyWith(fids[1..], families, person, partner)
  }

  /** `__get_oldest_family`: the family of `person` with the partner `OldestPartner` chose. */
  function OldestFamily(t: GrampsTree, person: Person, pool: set<Id>): (r: Option<Id>)
    requires Keyed(t.persons)
    ensures r.Some? ==> OldestPartner(t, person, pool).Some? && r.value in t.families
                        && CoupleOf(t.families[r.value], person, OldestPartner(t, person, pool).value.id)
  {
    match OldestPartner(t, person, pool)
    case None => None
    case Some(partner) => FamilyWith(t.familyOrder, t.families, person, partner.id)
  }

  /** The unplaced children of the family of `person` with their latest-born partner. */
  function FamilyKids(t: GrampsTree, person: Person, pool: set<Id>): (r: seq<Person>)
    requires Keyed(t.persons)
    ensures forall c {:trigger c in r} :: c in r ==> c.id in pool && c.id in t.persons && t.persons[c.id] == c
  {
    match OldestFamily(t, person, pool)
    case None => []
    case Some(fid) => InPool(t.families[fid].children, t.persons, pool)
  }

  predicate BornFrom(rel: Relation, pid: Id, c: Person, persons: map<Id, Person>, pool: set<Id>) {
    rel.kind == BirthFrom && rel.other == pid && rel.first in pool && rel.first in persons && persons[rel.first] == c
  }

  /** The unplaced persons with a BIRTH_FROM relation pointing at `pid`, one entry per relation. */
  function BirthKids(rels: seq<Relation>, pid: Id, persons: map<Id, Person>, pool: set<Id>): (r: seq<Person>)
    requires Keyed(persons)
    ensures forall c {:trigger c in r} :: c in r <==> exists k :: 0 <= k < |rels| && BornFrom(rels[k], pid, c, persons, pool)
    ensures forall c {:trigger c in r} :: c in r ==> c.id in pool && c.id in persons && persons[c.id] == c
  {
    if |rels| == 0 then []
    else
      var rel := rels[0];
      var head := if rel.kind == BirthFrom && rel.other == pid && rel.first in pool && rel.first in persons
                  then [persons[rel.first]] else [];
      var rest := BirthKids(rels[1..], pid, persons, pool);
      assert forall k :: 1 <= k < |rels| ==> rels[k] == rels[1..][k - 1];
      head + rest
  }

  /**
   * `__get_latest_child_by_last_partner`: the latest-born unplaced child of
   * the family with the chosen partner; when there is none, the latest-born
   * unplaced person born from `person` by a BIRTH_FROM relation.
   */
  function LatestChild(t: GrampsTree, person: Person, pool: set<Id>): (r: Option<Person>)
    requires Keyed(t.persons)
    ensures var fk := FamilyKids(t, person, pool);
            var bk := BirthKids(t.relations, person.id, t.persons, pool);
            && (r.None? <==> |fk| == 0 && |bk| == 0)
            && (|fk| > 0 ==> r.Some? && r.value in fk && forall c {:trigger c in fk} :: c in fk ==> Born(c) <= Born(r.value))
            && (|fk| == 0 && r.Some? ==> r.value in bk && forall c {:trigger c in bk} :: c in bk ==> Born(c) <= Born(r.value))
  {
    var fk := FamilyKids(t, person, pool);
    if |fk| > 0 then Some(fk[FirstLatest(fk)])
    else
      var bk := BirthKids(t.relations, person.id, t.persons, pool);
      if |bk| > 0 then Some(bk[FirstLatest(bk)]) else None
  }

  /** A child of `person` that the walk may still place. */
  predicate ChildCandidate(t: GrampsTree, person: Person, pool: set<Id>, c: Person)
    requires Keyed(t.persons)
  {
    c in FamilyKids(t, person, pool) || c in BirthKids(t.relations, person.id, t.persons, pool)
  }

  /**
   * `__get_next_person`: a child first, a partner second, nobody at the end
   * of the branch. Whoever is chosen is still in the pool.
   */
  function NextPerson(t: GrampsTree, person: Person, pool: set<Id>): (r: Option<Person>)
    requires Keyed(t.persons)
    ensures r.Some? ==> r.value.id in pool && r.value.id in t.persons && t.persons[r.value.id] == r.value
  {
    var child := LatestChild(t, person, pool);
    if child.Some? then child else OldestPartner(t, person, pool)
  }

  /**
   * The next person after `person` is an unplaced child when there is one;
   * otherwise the latest-born unplaced partner; nobody only when neither
   * exists.
   */
  lemma NextPersonPrefersChildren(t: GrampsTree, person: Person, pool: set<Id>)
    requires Keyed(t.persons)
    ensures var r := NextPerson(t, person, pool);
            && ((exists c :: ChildCandidate(t, person, pool, c)) ==> r.Some? && ChildCandidate(t, person, pool, r.value))
            && ((forall c :: !ChildCandidate(t, person, pool, c)) ==>
                  var ps := Partners(t.relations, person.id, t.persons, pool);
                  && (r.None? <==> |ps| == 0)
                  && (r.Some? ==> r.value in ps && forall q {:trigger q in ps} :: q in ps ==> Born(q) <= Born(r.value)))
  {
    var fk := FamilyKids(t, person, pool);
    var bk := BirthKids(t.relations, person.id, t.persons, pool);
    if exists c :: ChildCandidate(t, person, pool, c) {
      var c :| ChildCandidate(t, person, pool, c);
      assert c in fk || c in bk;
      assert LatestChild(t, person, pool).Some?;
    } else {
      assert |fk| == 0 && |bk| == 0 by {
        if |fk| > 0 {
          assert ChildCandidate(t, person, pool, fk[0]);
        }
        if |bk| > 0 {
          assert ChildCandidate(t, person, pool, bk[0]);
        }
      }
    }
  }

  /** `__get_parental_family`: the first family, in dict order, that lists `pid` among its children. */
  function ParentalFamily(fids: seq<Id>, families: map<Id, Family>, pid: Id): (r: Option<Id>)
    ensures r.Some? ==> r.value in fids && r.value in families && pid in families[r.value].children
    ensures r.None? <==> forall fid :: fid in fids && fid in families ==> pid !in families[fid].children
  {
    if |fids| == 0 then None
    else if fids[0] in families && pid in families[fids[0]].children then Some(fids[0])
    else ParentalFamily(fids[1..], families, pid)
  }

  /** A subset is no larger: the pool shrinks as persons leave it. */
  lemma {:induction false} SubsetSmaller(a: set<Id>, b: set<Id>)
    requires a <= b
    ensures |a| <= |b|
  {
    if a != {} {
      var x :| x in a;
      SubsetSmaller(a - {x}, b - {x});
    }
  }

  /** Two duplicate-free sequences with no common element concatenate to one. */
  lemma NoDuplicatesConcat(a: seq<Id>, b: seq<Id>)
    requires NoDuplicates(a) && NoDuplicates(b)
    requires forall x :: x in a ==> x !in b
    ensures NoDuplicates(a + b)
  {
    var c := a + b;
    forall i, j | 0 <= i < j < |c|
      ensures c[i] != c[j]
    {
      if i < |a| && |a| <= j {
        assert c[i] in a && c[j] == b[j - |a|];
      } else if |a| <= i {
        assert c[i] == b[i - |a|] && c[j] == b[j - |a|];
      }
    }
  }

  /**
   * The walk `__recursively_adding_person_to_the_right` makes from `person`
   * over `pool`: the ids it places, in placement order, and the pool it
   * leaves behind. Each person placed is walked from in turn before the
   * walk comes back to `person` for its next child or partner.
   */
  function Walk(t: GrampsTree, person: Person, pool: set<Id>): (r: (seq<Id>, set<Id>))
    requires Keyed(t.persons)
    ensures r.1 <= pool
    decreases |pool|
  {
    match NextPerson(t, person, pool)
    case None => ([], pool)
    case Some(n) =>
      var inner := Walk(t, n, pool - {n.id});
      SubsetSmaller(inner.1, pool - {n.id});
      var outer := Walk(t, person, inner.1);
      ([n.id] + inner.0 + outer.0, outer.1)
  }

  /**
   * The walk splits the pool: it places each person at most once, takes
   * them from the pool, leaves the rest, and stops only when `person` has
   * nobody next in what is left.
   */
  lemma {:induction false} WalkSplitsPool(t: GrampsTree, person: Person, pool: set<Id>)
    requires Keyed(t.persons)
    ensures var w := Walk(t, person, pool);
            && NoDuplicates(w.0)
            && (forall id :: id in w.0 ==> id in pool && id !in w.1)
            && (forall id :: id in pool ==> id in w.0 || id in w.1)
            && NextPerson(t, person, w.1).None?
    decreases |pool|
  {
    match NextPerson(t, person, pool)
    case None =>
    case Some(n) =>
      var inner := Walk(t, n, pool - {n.id});
      WalkSplitsPool(t, n, pool - {n.id});
      SubsetSmaller(inner.1, pool - {n.id});
      WalkSplitsPool(t, person, inner.1);
      var outer := Walk(t, person, inner.1);
      SplitsCompose(pool, n.id, inner.0, inner.1, outer.0, outer.1);
  }

  /** A person taken from the pool, then two walks that each split what they were given, split the pool. */
  lemma SplitsCompose(pool: set<Id>, n: Id, a: seq<Id>, mid: set<Id>, b: seq<Id>, rest: set<Id>)
    requires n in pool && mid <= pool - {n} && rest <= mid
    requires NoDuplicates(a) && (forall id :: id in a ==> id in pool - {n} && id !in mid)
    requires forall id :: id in pool - {n} ==> id in a || id in mid
    requires NoDuplicates(b) && (forall id :: id in b ==> id in mid && id !in rest)
    requires forall id :: id in mid ==> id in b || id in rest
    ensures NoDuplicates([n] + a + b)
    ensures forall id :: id in [n] + a + b ==> id in pool && id !in rest
    ensures forall id :: id in pool ==> id in [n] + a + b || id in rest
  {
    NoDuplicatesConcat([n], a);
    NoDuplicatesConcat([n] + a, b);
  }

  /** All rounds' ids in one sequence, round after round. */
  function Flatten(rs: seq<seq<Id>>): (r: seq<Id>)
    ensures |rs| > 0 ==> rs[0] <= r
  {
    if |rs| == 0 then [] else rs[0] + Flatten(rs[1..])
  }

  /** One more round adds its ids at the end. */
  lemma {:induction false} FlattenSnoc(rs: seq<seq<Id>>, last: seq<Id>)
    ensures Flatten(rs + [last]) == Flatten(rs) + last
    decreases |rs|
  {
    if |rs| == 0 {
      assert [] + [last] == [last];
    } else {
      assert (rs + [last])[1..] == rs[1..] + [last];
      FlattenSnoc(rs[1..], last);
    }
  }

  /** A non-empty round in front of non-empty rounds leaves every round non-empty. */
  lemma RoundsCons(first: seq<Id>, rest: seq<seq<Id>>)
    requires |first| > 0 && forall i :: 0 <= i < |rest| ==> |rest[i]| > 0
    ensures forall i :: 0 <= i < |[first] + rest| ==> |([first] + rest)[i]| > 0
  {
  }

  /**
   * The rounds the timeline walks over `pool`: each starts at the
   * patriarch of what is left, placed first, and continues with the walk
   * from it; no round starts once only persons of unknown gender remain.
   */
  function Rounds(t: GrampsTree, pool: set<Id>): (r: seq<seq<Id>>)
    requires Keyed(t.persons)
    ensures forall i :: 0 <= i < |r| ==> |r[i]| > 0
    decreases |pool|
  {
    match Patriarch(PoolPersons(t, pool))
    case None => []
    case Some(s) =>
      var w := Walk(t, s, pool - {s.id});
      SubsetSmaller(w.1, pool - {s.id});
      var rest := Rounds(t, w.1);
      RoundsCons([s.id] + w.0, rest);
      [[s.id] + w.0] + rest
  }

  /**
   * The rounds place every man and woman of the pool exactly once, and
   * nobody from outside it.
   */
  lemma {:induction false} RoundsPlaceEachOnce(t: GrampsTree, pool: set<Id>)
    requires Keyed(t.persons)
    requires forall id :: id in pool ==> id in t.persons && id in t.order
    ensures var f := Flatten(Rounds(t, pool));
            && NoDuplicates(f)
            && (forall id :: id in f ==> id in pool)
            && (forall id :: id in pool && t.persons[id].gender != Unknown ==> id in f)
    decreases |pool|
  {
    var ps := PoolPersons(t, pool);
    match Patriarch(ps)
    case None =>
      forall id | id in pool
        ensures t.persons[id].gender == Unknown
      {
        assert t.persons[id] in ps;
      }
    case Some(s) =>
      var w := Walk(t, s, pool - {s.id});
      WalkSplitsPool(t, s, pool - {s.id});
      SubsetSmaller(w.1, pool - {s.id});
      RoundsPlaceEachOnce(t, w.1);
      var rest := Flatten(Rounds(t, w.1));
      assert Rounds(t, pool)[1..] == Rounds(t, w.1);
      assert Flatten(Rounds(t, pool)) == [s.id] + w.0 + rest;
      RoundCompose(pool, s.id, w.0, w.1, rest);
  }

  /** A seed, the walk from it, and the later rounds over what the walk left place each pooled person at most once. */
  lemma RoundCompose(pool: set<Id>, n: Id, a: seq<Id>, mid: set<Id>, rest: seq<Id>)
    requires n in pool && mid <= pool - {n}
    requires NoDuplicates(a) && (forall id :: id in a ==> id in pool - {n} && id !in mid)
    requires forall id :: id in pool - {n} ==> id in a || id in mid
    requires NoDuplicates(rest) && (forall id :: id in rest ==> id in mid)
    ensures NoDuplicates([n] + a + rest)
    ensures forall id :: id in [n] + a + rest ==> id in pool
    ensures forall id :: id in pool ==> id in [n] + a + rest || (id in mid && id !in rest)
  {
    NoDuplicatesConcat([n], a);
    NoDuplicatesConcat([n] + a, rest);
  }
}
