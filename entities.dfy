/**
 * The entities of a Gramps family tree: persons, families, relations and media.
 *
 * Entities are values keyed by their Gramps id; a family refers to its
 * members by id. Python sets and dicts whose iteration order the code relies
 * on are kept as sequences in that order.
 */
module Entities {
  import opened Wrappers
  import opened Dates

  type Id = string

  datatype Gender = Female | Male | Unknown

  /** The numeric value of the `Gender` enum. */
  function GenderCode(g: Gender): (c: int)
    ensures 0 <= c <= 2
  {
    match g
    case Female => 0
    case Male => 1
    case Unknown => 2
  }

  /** `Gender(code)`: any other code raises ValueError. */
  function GenderFromCode(code: int): (r: Result<Gender>)
    ensures r.Ok? <==> 0 <= code <= 2
    ensures r.Ok? ==> GenderCode(r.value) == code
    ensures r.Err? ==> r.error == ValueError
  {
    if code == 0 then Ok(Female)
    else if code == 1 then Ok(Male)
    else if code == 2 then Ok(Unknown)
    else Err(ValueError)
  }

  lemma GenderCodeRoundTrip(g: Gender)
    ensures GenderFromCode(GenderCode(g)) == Ok(g)
  {
  }

  datatype Note = Note(id: Id, content: string)

  /** An event of a person's life; the older schema allows an event without a date. */
  datatype Event = Event(id: Id, date: Option<Date>, description: string)

  /**
   * A person. `caption` stands for `str(person)`, which reads the wall clock and
   * is taken as given. `notes`, `events` and `media` are the sets the loaders
   * fill, in insertion order and without repetition.
   */
  datatype Person = Person(
    id: Id,
    name: string,
    caption: string,
    birth: Date,
    death: Date,
    gender: Gender,
    notes: seq<Note>,
    events: seq<Event>,
    media: seq<Id>)

  /** A person's life is assumed to last 100 years of 365 days when no death is recorded. */
  const MaxLifetimeDays := 365 * 100

  /** `birth + timedelta(days=36500)` marked ESTIMATED; past 9999-12-31 Python raises OverflowError. */
  function DefaultDeath(birth: Date): (r: Result<Date>)
    ensures r.Ok? <==> birth.ordinal + MaxLifetimeDays <= MaxOrdinal
    ensures r.Ok? ==> r.value.ordinal - birth.ordinal == MaxLifetimeDays && r.value.quality == Estimated
    ensures r.Err? ==> r.error == OverflowError
  {
    if birth.ordinal + MaxLifetimeDays <= MaxOrdinal then Ok(Date(birth.ordinal + MaxLifetimeDays, Estimated))
    else Err(OverflowError)
  }

  /** The part of `Person.__init__` shared by every copy, once the birth day is known. */
  function WithLifetime(id: Id, name: string, caption: string, birth: Date, death: Option<Date>, gender: Gender): (r: Result<Person>)
    ensures death.Some? ==> r.Ok? && r.value.death == death.value
    ensures death.None? ==> r.Ok? == (birth.ordinal + MaxLifetimeDays <= MaxOrdinal)
    ensures death.None? && r.Ok? ==> r.value.death == DefaultDeath(birth).value
    ensures r.Ok? ==> r.value.id == id && r.value.name == name && r.value.caption == caption
                      && r.value.birth == birth && r.value.gender == gender
                      && r.value.notes == [] && r.value.events == [] && r.value.media == []
    ensures r.Err? ==> r.error == OverflowError
  {
    var d :- if death.Some? then Ok(death.value) else DefaultDeath(birth);
    Ok(Person(id, name, caption, birth, d, gender, [], [], []))
  }

  /** `Person.__init__` of content_generator/src/app/entities.py. */
  function NewPerson(id: Id, name: string, caption: string, birth: Option<Date>, death: Option<Date>, gender: Gender): (r: Result<Person>)
    ensures birth.None? ==> r == Err(PersonWithoutBirthdayError)
    ensures birth.Some? ==> r == WithLifetime(id, name, caption, birth.value, death, gender)
  {
    if birth.None? then Err(PersonWithoutBirthdayError)
    else WithLifetime(id, name, caption, birth.value, death, gender)
  }

  /** `Person.__init__` of content_generator/entities.py: a missing birth day is a ValueError. */
  function NewPersonLegacy(id: Id, name: string, caption: string, birth: Option<Date>, death: Option<Date>, gender: Gender): (r: Result<Person>)
    ensures birth.None? ==> r == Err(ValueError)
    ensures birth.Some? ==> r == WithLifetime(id, name, caption, birth.value, death, gender)
  {
    if birth.None? then Err(ValueError)
    else WithLifetime(id, name, caption, birth.value, death, gender)
  }

  /**
   * A person of gramps_parser/db.py. Its constructor does not check the
   * birth day, so a person with a known death day may have none.
   */
  datatype DbPerson = DbPerson(id: Id, name: string, birth: Option<Date>, death: Date, gender: Gender, notes: seq<Note>)

  /**
   * `Person.__init__` of gramps_parser/db.py: the death day defaults to 100
   * years after the birth day, and with neither day `None.date` raises
   * AttributeError.
   */
  function NewPersonDb(id: Id, name: string, birth: Option<Date>, death: Option<Date>, gender: Gender): (r: Result<DbPerson>)
    ensures r.Ok? <==> death.Some? || (birth.Some? && birth.value.ordinal + MaxLifetimeDays <= MaxOrdinal)
    ensures birth.None? && death.None? ==> r == Err(AttributeError)
    ensures birth.Some? && death.None? && r.Err? ==> r.error == OverflowError
    ensures r.Ok? ==> r.value.id == id && r.value.name == name && r.value.birth == birth
                      && r.value.gender == gender && r.value.notes == []
    ensures r.Ok? && death.Some? ==> r.value.death == death.value
    ensures r.Ok? && death.None? ==> r.value.death == DefaultDeath(birth.value).value
  {
    if death.Some? then Ok(DbPerson(id, name, birth, death.value, gender, []))
    else if birth.None? then Err(AttributeError)
    else
      var d :- DefaultDeath(birth.value);
      Ok(DbPerson(id, name, birth, d, gender, []))
  }

  /** `days_of_life` of gramps_parser/db.py: a person without a birth day raises ValueError. */
  function DbDaysOfLife(p: DbPerson): (r: Result<int>)
    ensures r.Ok? <==> p.birth.Some?
    ensures r.Ok? ==> p.birth.value.ordinal + r.value == p.death.ordinal
    ensures r.Err? ==> r.error == ValueError
  {
    if p.birth.None? then Err(ValueError) else Ok(p.death.ordinal - p.birth.value.ordinal)
  }

  /** A db person with a birth day and the default death day lives exactly 36500 days. */
  lemma DbDefaultLifeSpan(id: Id, name: string, birth: Date, gender: Gender)
    requires NewPersonDb(id, name, Some(birth), None, gender).Ok?
    ensures DbDaysOfLife(NewPersonDb(id, name, Some(birth), None, gender).value) == Ok(MaxLifetimeDays)
  {
  }

  /** `days_of_life`: whole days from the birth day to the death day. */
  function DaysOfLife(p: Person): (n: int)
    ensures p.birth.ordinal + n == p.death.ordinal
  {
    p.death.ordinal - p.birth.ordinal
  }

  /** A person created without a death day lives exactly 36500 days. */
  lemma DefaultLifeSpan(id: Id, name: string, caption: string, birth: Date, gender: Gender)
    requires NewPerson(id, name, caption, Some(birth), None, gender).Ok?
    ensures var p := NewPerson(id, name, caption, Some(birth), None, gender).value;
            DaysOfLife(p) == MaxLifetimeDays && p.death.quality == Estimated
  {
  }

  /** `mid_life`: half the life span added to the birth day; a half day is dropped. */
  function MidLife(p: Person): (d: int)
    ensures 2 * (d - p.birth.ordinal) <= DaysOfLife(p) < 2 * (d - p.birth.ordinal) + 2
  {
    p.birth.ordinal + DaysOfLife(p) / 2
  }

  lemma MidLifeWithinLife(p: Person)
    requires p.birth.ordinal <= p.death.ordinal
    ensures p.birth.ordinal <= MidLife(p) <= p.death.ordinal
  {
  }

  /** `Person.__eq__` of content_generator/src/app/entities.py and gramps_parser/db.py. */
  function PersonEq(p: Person, other: Option<Person>): (r: bool)
    ensures other.None? ==> !r
    ensures other.Some? ==> (r <==> p.id == other.value.id)
  {
    other.Some? && p.id == other.value.id
  }

  /** `Person.__hash__`: the hash is taken of the id alone. */
  function PersonHashKey(p: Person): Id {
    p.id
  }

  /** Equal persons hash alike, so sets and dict keys of persons behave as sets of ids. */
  lemma PersonEqIsIdentity(p: Person, q: Person, s: Person)
    ensures PersonEq(p, Some(p))
    ensures PersonEq(p, Some(q)) <==> PersonEq(q, Some(p))
    ensures PersonEq(p, Some(q)) && PersonEq(q, Some(s)) ==> PersonEq(p, Some(s))
    ensures PersonEq(p, Some(q)) ==> PersonHashKey(p) == PersonHashKey(q)
  {
  }

  /**
   * `Person.__eq__` of content_generator/entities.py as written: it reads
   * `other.id`, an attribute that Person class does not have.
   */
  function PersonEqLegacy(p: Person, other: Option<Person>): (r: Result<bool>)
    ensures other.None? ==> r == Ok(false)
    ensures other.Some? ==> r == Err(AttributeError)
  {
    if other.None? then Ok(false) else Err(AttributeError)
  }

  /** Comparing a person with itself already fails, where the intended comparison holds. */
  lemma LegacyEqualityFailsOnItself(p: Person)
    ensures PersonEqLegacy(p, Some(p)) == Err(AttributeError)
    ensures PersonEq(p, Some(p))
  {
  }

  /** A family; `children` is the set of children in insertion order. */
  datatype Family = Family(id: Id, father: Option<Id>, mother: Option<Id>, children: seq<Id>)

  predicate NoDuplicates<T(==)>(s: seq<T>) {
    forall i, j :: 0 <= i < j < |s| ==> s[i] != s[j]
  }

  function NewFamily(id: Id): (f: Family)
    ensures f.id == id && f.father.None? && f.mother.None? && f.children == []
  {
    Family(id, None, None, [])
  }

  /** `add_child`: a set insertion, so a child already present is not added again. */
  function AddChild(f: Family, child: Id): (r: Family)
    ensures r.id == f.id && r.father == f.father && r.mother == f.mother
    ensures |f.children| <= |r.children| && r.children[..|f.children|] == f.children
    ensures forall c :: c in r.children <==> c in f.children || c == child
    ensures NoDuplicates(f.children) ==> NoDuplicates(r.children)
  {
    if child in f.children then f else f.(children := f.children + [child])
  }

  /** `parents`: the father and the mother that are set, each once. */
  function Parents(f: Family): (r: seq<Id>)
    ensures forall x :: x in r <==> f.father == Some(x) || f.mother == Some(x)
    ensures |r| <= 2 && (|r| == 2 ==> r[0] != r[1])
  {
    (if f.father.Some? then [f.father.value] else [])
    + (if f.mother.Some? && f.mother != f.father then [f.mother.value] else [])
  }

  /** `is_full`: both parents are set. */
  predicate IsFull(f: Family) {
    f.father.Some? && f.mother.Some?
  }

  lemma FullFamilyHasBothParents(f: Family)
    ensures |Parents(f)| == 2 ==> IsFull(f)
    ensures IsFull(f) && f.father != f.mother ==> |Parents(f)| == 2
    ensures !IsFull(f) ==> |Parents(f)| <= 1
  {
  }

  /** The earliest birth day among `ids`, as `min(..., key=birth_day.date)` finds it. */
  function EarliestBirth(ids: seq<Id>, persons: map<Id, Person>): (d: int)
    requires |ids| > 0
    requires forall i :: 0 <= i < |ids| ==> ids[i] in persons
    ensures exists i :: 0 <= i < |ids| && d == persons[ids[i]].birth.ordinal
    ensures forall i :: 0 <= i < |ids| ==> d <= persons[ids[i]].birth.ordinal
  {
    if |ids| == 1 then persons[ids[0]].birth.ordinal
    else
      var rest := EarliestBirth(ids[1..], persons);
      var first := persons[ids[0]].birth.ordinal;
      if first <= rest then first else rest
  }

  /** Forty weeks of pregnancy. */
  const GestationDays := 7 * 40
  /** The age of majority used for childless families: 18 years of 360 days. */
  const MajorityDays := 360 * 18
  /** `randint(0, 500)`: the extra weeks are drawn from both ends inclusive. */
  const MaxExtraWeeks := 500

  predicate MembersKnown(f: Family, persons: map<Id, Person>) {
    (forall i :: 0 <= i < |f.children| ==> f.children[i] in persons)
    && (f.father.Some? ==> f.father.value in persons)
    && (f.mother.Some? ==> f.mother.value in persons)
  }

  /**
   * `Family.wedding_day` as an ordinal. With children it is the earliest
   * child's birth less 40 weeks and `weeks` more weeks (the random draw);
   * without, the earliest-born parent's birth plus 6480 days; with neither,
   * `min` of nothing raises ValueError. Dates outside the calendar raise
   * OverflowError.
   */
  function WeddingDay(f: Family, persons: map<Id, Person>, weeks: int): (r: Result<int>)
    requires 0 <= weeks <= MaxExtraWeeks
    requires MembersKnown(f, persons)
    ensures |f.children| > 0 && r.Ok? ==>
              (forall i :: 0 <= i < |f.children| ==>
                 r.value + GestationDays + 7 * weeks <= persons[f.children[i]].birth.ordinal)
              && (exists i :: 0 <= i < |f.children|
                   && r.value + GestationDays + 7 * weeks == persons[f.children[i]].birth.ordinal)
    ensures |f.children| == 0 && |Parents(f)| == 0 ==> r == Err(ValueError)
    ensures |f.children| == 0 && r.Ok? ==>
              (forall i :: 0 <= i < |Parents(f)| ==> r.value <= persons[Parents(f)[i]].birth.ordinal + MajorityDays)
              && (exists i :: 0 <= i < |Parents(f)| && r.value == persons[Parents(f)[i]].birth.ordinal + MajorityDays)
    ensures |f.children| > 0 ==>
              (r.Err? <==> exists i :: 0 <= i < |f.children|
                             && persons[f.children[i]].birth.ordinal - GestationDays - 7 * weeks < MinOrdinal)
    ensures |f.children| == 0 && |Parents(f)| > 0 ==>
              (r.Err? <==> forall i :: 0 <= i < |Parents(f)| ==> persons[Parents(f)[i]].birth.ordinal + MajorityDays > MaxOrdinal)
    ensures r.Err? ==> r.error == ValueError || r.error == OverflowError
  {
    if |f.children| > 0 then
      var d := EarliestBirth(f.children, persons) - GestationDays - 7 * weeks;
      if d < MinOrdinal then Err(OverflowError) else Ok(d)
    else
      var parents := Parents(f);
      if |parents| == 0 then Err(ValueError)
      else
        var d := EarliestBirth(parents, persons) + MajorityDays;
        if d > MaxOrdinal then Err(OverflowError) else Ok(d)
  }

  /** Every child is born between 40 and 540 weeks after a wedding that does not overflow. */
  lemma WeddingBeforeChildren(f: Family, persons: map<Id, Person>, weeks: int)
    requires 0 <= weeks <= MaxExtraWeeks
    requires MembersKnown(f, persons)
    requires |f.children| > 0
    requires WeddingDay(f, persons, weeks).Ok?
    ensures var w := WeddingDay(f, persons, weeks).value;
            (forall i :: 0 <= i < |f.children| ==> w + GestationDays <= persons[f.children[i]].birth.ordinal)
            && (exists i :: 0 <= i < |f.children| && persons[f.children[i]].birth.ordinal - w <= GestationDays + 7 * MaxExtraWeeks)
  {
    var w := WeddingDay(f, persons, weeks).value;
    var i :| 0 <= i < |f.children| && w + GestationDays + 7 * weeks == persons[f.children[i]].birth.ordinal;
    assert persons[f.children[i]].birth.ordinal - w <= GestationDays + 7 * MaxExtraWeeks;
  }

  /**
   * The cached `wedding_day`: the first successful computation is kept and
   * returned on every later access; a failed one is not cached.
   */
  class WeddingMemo {
    const family: Family
    var cached: Option<int>

    constructor (f: Family)
      ensures family == f && cached == None
    {
      family := f;
      cached := None;
    }

    method Get(persons: map<Id, Person>, weeks: int) returns (r: Result<int>)
      requires 0 <= weeks <= MaxExtraWeeks
      requires MembersKnown(family, persons)
      modifies this
      ensures old(cached).Some? ==> r == Ok(old(cached).value) && cached == old(cached)
      ensures old(cached).None? ==> r == WeddingDay(family, persons, weeks)
      ensures old(cached).None? ==> cached == (if r.Ok? then Some(r.value) else None)
    {
      if cached.Some? {
        r := Ok(cached.value);
      } else {
        r := WeddingDay(family, persons, weeks);
        if r.Ok? {
          cached := Some(r.value);
        }
      }
    }
  }

  datatype RelationType = Marriage | BirthFrom | Simple

  function RelationTypeCode(t: RelationType): (c: int)
    ensures 1 <= c <= 3
  {
    match t
    case Marriage => 1
    case BirthFrom => 2
    case Simple => 3
  }

  /** A relation: `first` married `other`, or `first` was born of `other`, in `family`. */
  datatype Relation = Relation(first: Id, kind: RelationType, other: Id, family: Id)

  /** `Relation.__eq__`: all four fields. */
  function RelationEq(a: Relation, b: Relation): (r: bool)
    ensures r <==> a.first == b.first && a.kind == b.kind && a.other == b.other && a.family == b.family
  {
    a.first == b.first && a.kind == b.kind && a.other == b.other && a.family == b.family
  }

  /** `Relation.__hash__`: the family id alone. */
  function RelationHashKey(r: Relation): Id {
    r.family
  }

  /** A set of relations is a set of values, and equal relations share a hash bucket. */
  lemma RelationEqIsIdentity(a: Relation, b: Relation)
    ensures RelationEq(a, b) <==> a == b
    ensures RelationEq(a, b) ==> RelationHashKey(a) == RelationHashKey(b)
  {
  }

  /** A picture file; `persons` is a list, so a person marked twice appears twice. */
  datatype Media = Media(path: string, description: string, persons: seq<Id>)

  /** `Media.mark_person`. */
  function MarkPerson(m: Media, p: Id): (r: Media)
    ensures r.path == m.path && r.description == m.description
    ensures |r.persons| == |m.persons| + 1 && r.persons[..|m.persons|] == m.persons
    ensures r.persons[|m.persons|] == p
  {
    m.(persons := m.persons + [p])
  }

  /** `Person.add_media`: a set insertion of the media id. */
  function AddMedia(p: Person, m: Id): (r: Person)
    ensures r == p.(media := r.media)
    ensures forall x :: x in r.media <==> x in p.media || x == m
    ensures NoDuplicates(p.media) ==> NoDuplicates(r.media)
  {
    if m in p.media then p else p.(media := p.media + [m])
  }

  /**
   * The loaded tree: persons keyed by id with the dict's iteration order,
   * families keyed by id with theirs, and the relation set in some order.
   */
  datatype GrampsTree = GrampsTree(
    persons: map<Id, Person>,
    order: seq<Id>,
    families: map<Id, Family>,
    familyOrder: seq<Id>,
    relations: seq<Relation>)

  /** What a tree produced by the loaders satisfies. */
  ghost predicate TreeValid(t: GrampsTree) {
    NoDuplicates(t.order)
    && (forall id :: id in t.persons <==> id in t.order)
    && (forall id :: id in t.persons ==> t.persons[id].id == id)
    && NoDuplicates(t.familyOrder)
    && (forall id :: id in t.families <==> id in t.familyOrder)
    && (forall id :: id in t.families ==> t.families[id].id == id && MembersKnown(t.families[id], t.persons))
  }
}
