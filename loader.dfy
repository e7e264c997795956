/**
 * The loaders' loops: the relationship rows folded into families and
 * relations, a person's lifetime read from their events, the picture
 * filter, the media-person links and the event table.
 *
 * The SQL queries are not modelled: their result rows are the inputs. A
 * person lookup `persons[id]` that fails raises KeyError; `known` is the set
 * of ids the persons dict holds.
 */
module Loader {
  import opened Wrappers
  import opened Dates
  import opened Entities
  import opened Paths

  // ---------------------------------------------------------------------
  // Relationship rows

  /** One row of the relationship query: a family, its father and mother ids, and a member. */
  datatype Row = Row(family: Id, father: Option<Id>, mother: Option<Id>, person: Id)

  /** The loaded families (dict with its insertion order) and the relation set. */
  datatype Loaded = Loaded(families: map<Id, Family>, familyOrder: seq<Id>, relations: set<Relation>)

  /** A row for a parent whose partner is recorded. */
  predicate IsMarriageRow(row: Row) {
    (row.father == Some(row.person) && row.mother.Some?)
    || (row.mother == Some(row.person) && row.father.Some?)
  }

  /** A row for a member who is neither the father nor the mother. */
  predicate IsChildRow(row: Row) {
    row.father != Some(row.person) && row.mother != Some(row.person)
  }

  /** The ids a row looks up in the persons dict. */
  function Lookups(row: Row): set<Id> {
    if IsMarriageRow(row) then {row.father.value, row.mother.value}
    else if IsChildRow(row) && row.father.Some? then {row.father.value, row.person}
    else if IsChildRow(row) && row.mother.Some? then {row.mother.value, row.person}
    else {}
  }

  /** `families[family_id] = Family(family_id)` unless the id is already there. */
  function EnsureFamily(s: Loaded, fid: Id): (r: Loaded)
    ensures fid in r.families && r.relations == s.relations
    ensures fid in s.families ==> r == s
    ensures fid !in s.families ==> r.families == s.families[fid := NewFamily(fid)] && r.familyOrder == s.familyOrder + [fid]
  {
    if fid in s.families then s
    else Loaded(s.families[fid := NewFamily(fid)], s.familyOrder + [fid], s.relations)
  }

  /** One iteration of the row loop of `__get_relationship`. */
  function Step(s: Loaded, row: Row, known: set<Id>): (r: Result<Loaded>)
    ensures r.Ok? <==> Lookups(row) <= known
    ensures r.Err? ==> r.error == KeyError
  {
    var s1 := EnsureFamily(s, row.family);
    var f := s1.families[row.family];
    if !(Lookups(row) <= known) then Err(KeyError)
    else if IsMarriageRow(row) then
      Ok(Loaded(s1.families[row.family := f.(father := row.father, mother := row.mother)], s1.familyOrder,
                s1.relations + {Relation(row.father.value, Marriage, row.mother.value, row.family)}))
    else if IsChildRow(row) && row.father.Some? then
      Ok(Loaded(s1.families[row.family := AddChild(f.(father := row.father), row.person)], s1.familyOrder,
                s1.relations + {Relation(row.person, BirthFrom, row.father.value, row.family)}))
    else if IsChildRow(row) && row.mother.Some? then
      Ok(Loaded(s1.families[row.family := AddChild(f.(mother := row.mother), row.person)], s1.familyOrder,
                s1.relations + {Relation(row.person, BirthFrom, row.mother.value, row.family)}))
    else Ok(s1)
  }

  /** The rows folded one by one into `s`; the first failed lookup stops the load. */
  function FoldFrom(s: Loaded, rows: seq<Row>, known: set<Id>): (r: Result<Loaded>)
    ensures r.Err? ==> r.error == KeyError
    decreases |rows|
  {
    if |rows| == 0 then Ok(s)
    else
      var s1 :- Step(s, rows[0], known);
      FoldFrom(s1, rows[1..], known)
  }

  const NoFamilies := Loaded(map[], [], {})

  /** What `__get_relationship` returns for the rows of its query. */
  function Fold(rows: seq<Row>, known: set<Id>): Result<Loaded> {
    FoldFrom(NoFamilies, rows, known)
  }

  /**
   * The row loop of `__get_relationship`. The lookups are checked before the
   * row changes anything, which is equivalent: a KeyError ends the load.
   */
  method FoldRows(rows: seq<Row>, known: set<Id>) returns (r: Result<Loaded>)
    ensures r == Fold(rows, known)
  {
    var families: map<Id, Family> := map[];
    var order: seq<Id> := [];
    var relations: set<Relation> := {};
    var i := 0;
    while i < |rows|
      invariant 0 <= i <= |rows|
      invariant FoldFrom(Loaded(families, order, relations), rows[i..], known) == Fold(rows, known)
    {
      var row := rows[i];
      ghost var before := Loaded(families, order, relations);
      if row.family !in families {
        families := families[row.family := NewFamily(row.family)];
        order := order + [row.family];
      }
      if !(Lookups(row) <= known) {
        return Err(KeyError);
      }
      var f := families[row.family];
      if IsMarriageRow(row) {
        families := families[row.family := f.(father := row.father, mother := row.mother)];
        relations := relations + {Relation(row.father.value, Marriage, row.mother.value, row.family)};
      } else if IsChildRow(row) {
        if row.father.Some? {
          families := families[row.family := AddChild(f.(father := row.father), row.person)];
          relations := relations + {Relation(row.person, BirthFrom, row.father.value, row.family)};
        } else if row.mother.Some? {
          families := families[row.family := AddChild(f.(mother := row.mother), row.person)];
          relations := relations + {Relation(row.person, BirthFrom, row.mother.value, row.family)};
        }
      }
      assert Step(before, row, known) == Ok(Loaded(families, order, relations));
      assert rows[i..][1..] == rows[i + 1..];
      i := i + 1;
    }
    r := Ok(Loaded(families, order, relations));
  }

  /** The load succeeds exactly when every id a row looks up is a known person. */
  lemma {:induction false} FoldOkIff(s: Loaded, rows: seq<Row>, known: set<Id>)
    ensures FoldFrom(s, rows, known).Ok? <==> forall i :: 0 <= i < |rows| ==> Lookups(rows[i]) <= known
    decreases |rows|
  {
    if |rows| > 0 {
      if Step(s, rows[0], known).Ok? {
        FoldOkIff(Step(s, rows[0], known).value, rows[1..], known);
        assert forall i :: 1 <= i < |rows| ==> rows[i] == rows[1..][i - 1];
      }
    }
  }

  /** The relation a marriage row adds. */
  predicate MarriageRowFor(row: Row, a: Id, b: Id, fid: Id) {
    row.family == fid && IsMarriageRow(row) && row.father == Some(a) && row.mother == Some(b)
  }

  /** The relation a child row adds: to the father if there is one, else to the mother. */
  predicate ChildRowFor(row: Row, c: Id, p: Id, fid: Id) {
    row.family == fid && row.person == c && IsChildRow(row)
    && (row.father == Some(p) || (row.father.None? && row.mother == Some(p)))
  }

  /** The relations a row adds, by the two rules above. */
  predicate RowGives(row: Row, rel: Relation) {
    (rel.kind == Marriage && MarriageRowFor(row, rel.first, rel.other, rel.family))
    || (rel.kind == BirthFrom && ChildRowFor(row, rel.first, rel.other, rel.family))
  }

  lemma StepRelations(s: Loaded, row: Row, known: set<Id>)
    requires Step(s, row, known).Ok?
    ensures forall rel :: rel in Step(s, row, known).value.relations <==> rel in s.relations || RowGives(row, rel)
  {
  }

  /**
   * MARRIAGE(father, mother, family) is loaded exactly when a parent row of
   * that family names both; BIRTH_FROM(child, parent, family) exactly when a
   * child row names the child and that parent, the father if there is one.
   */
  lemma {:induction false} FoldRelations(s: Loaded, rows: seq<Row>, known: set<Id>)
    requires FoldFrom(s, rows, known).Ok?
    ensures forall rel :: rel in FoldFrom(s, rows, known).value.relations <==>
              rel in s.relations || exists i :: 0 <= i < |rows| && RowGives(rows[i], rel)
    decreases |rows|
  {
    if |rows| > 0 {
      var s1 := Step(s, rows[0], known).value;
      StepRelations(s, rows[0], known);
      FoldRelations(s1, rows[1..], known);
      forall rel
        ensures rel in FoldFrom(s, rows, known).value.relations <==>
                rel in s.relations || exists i :: 0 <= i < |rows| && RowGives(rows[i], rel)
      {
        if exists i :: 0 <= i < |rows| && RowGives(rows[i], rel) {
          var i :| 0 <= i < |rows| && RowGives(rows[i], rel);
          if i > 0 {
            assert RowGives(rows[1..][i - 1], rel);
          }
        }
        if exists i :: 0 <= i < |rows[1..]| && RowGives(rows[1..][i], rel) {
          var i :| 0 <= i < |rows[1..]| && RowGives(rows[1..][i], rel);
          assert RowGives(rows[i + 1], rel);
        }
      }
    }
  }

  /** Only MARRIAGE and BIRTH_FROM relations come out of the rows. */
  lemma LoadedRelationKinds(rows: seq<Row>, known: set<Id>)
    requires Fold(rows, known).Ok?
    ensures forall rel :: rel in Fold(rows, known).value.relations ==>
              (rel.kind == Marriage || rel.kind == BirthFrom)
              && exists i :: 0 <= i < |rows| && rows[i].family == rel.family
  {
    FoldRelations(NoFamilies, rows, known);
  }

  /** A family as the loader builds it: under its own id, children once each, members known. */
  ghost predicate FamilyOk(f: Family, fid: Id, known: set<Id>) {
    f.id == fid && NoDuplicates(f.children)
    && (f.father.Some? ==> f.father.value in known)
    && (f.mother.Some? ==> f.mother.value in known)
    && (forall c :: c in f.children ==> c in known)
  }

  /** The shape of the family dict: one entry per id, in first-seen order. */
  ghost predicate FamiliesShape(s: Loaded, known: set<Id>) {
    NoDuplicates(s.familyOrder)
    && (forall fid :: fid in s.families <==> fid in s.familyOrder)
    && (forall fid :: fid in s.families ==> FamilyOk(s.families[fid], fid, known))
  }

  lemma EnsureFamilyShape(s: Loaded, fid: Id, known: set<Id>)
    requires FamiliesShape(s, known)
    ensures FamiliesShape(EnsureFamily(s, fid), known)
    ensures forall x :: x in EnsureFamily(s, fid).families <==> x in s.families || x == fid
    ensures |s.familyOrder| <= |EnsureFamily(s, fid).familyOrder|
    ensures EnsureFamily(s, fid).familyOrder[..|s.familyOrder|] == s.familyOrder
  {
    if fid !in s.families {
      var r := EnsureFamily(s, fid);
      assert r.familyOrder[..|s.familyOrder|] == s.familyOrder;
      assert forall x :: x in r.familyOrder <==> x in s.familyOrder || x == fid;
    }
  }

  lemma StepShape(s: Loaded, row: Row, known: set<Id>)
    requires FamiliesShape(s, known) && Step(s, row, known).Ok?
    ensures FamiliesShape(Step(s, row, known).value, known)
    ensures var r := Step(s, row, known).value;
            (forall fid :: fid in r.families <==> fid in s.families || fid == row.family)
            && |s.familyOrder| <= |r.familyOrder| && r.familyOrder[..|s.familyOrder|] == s.familyOrder
  {
    var s1 := EnsureFamily(s, row.family);
    EnsureFamilyShape(s, row.family, known);
    var f := s1.families[row.family];
    var r := Step(s, row, known).value;
    assert r.familyOrder == s1.familyOrder;
    assert FamilyOk(f, row.family, known);
    if IsMarriageRow(row) {
      assert FamilyOk(r.families[row.family], row.family, known);
    } else if IsChildRow(row) && row.father.Some? {
      assert FamilyOk(r.families[row.family], row.family, known);
    } else if IsChildRow(row) && row.mother.Some? {
      assert FamilyOk(r.families[row.family], row.family, known);
    }
  }

  /**
   * A family is created once per family id, in the order the ids first occur,
   * and holds only known persons.
   */
  lemma {:induction false} FoldFamilies(s: Loaded, rows: seq<Row>, known: set<Id>)
    requires FamiliesShape(s, known)
    requires FoldFrom(s, rows, known).Ok?
    ensures FamiliesShape(FoldFrom(s, rows, known).value, known)
    ensures forall fid :: fid in FoldFrom(s, rows, known).value.families <==>
              fid in s.families || exists i :: 0 <= i < |rows| && rows[i].family == fid
    decreases |rows|
  {
    if |rows| > 0 {
      var s1 := Step(s, rows[0], known).value;
      StepShape(s, rows[0], known);
      FoldFamilies(s1, rows[1..], known);
      forall fid
        ensures fid in FoldFrom(s, rows, known).value.families <==>
                fid in s.families || exists i :: 0 <= i < |rows| && rows[i].family == fid
      {
        if exists i :: 0 <= i < |rows[1..]| && rows[1..][i].family == fid {
          var i :| 0 <= i < |rows[1..]| && rows[1..][i].family == fid;
          assert rows[i + 1].family == fid;
        }
        if exists i :: 0 <= i < |rows| && rows[i].family == fid {
          var i :| 0 <= i < |rows| && rows[i].family == fid;
          if i > 0 {
            assert rows[1..][i - 1].family == fid;
          }
        }
      }
    }
  }

  /** A lone parent's own row only creates the family when it is new. */
  lemma LoneParentRow(s: Loaded, row: Row, known: set<Id>)
    requires (row.father == Some(row.person) && row.mother.None?)
             || (row.mother == Some(row.person) && row.father.None?)
    ensures Step(s, row, known) == Ok(EnsureFamily(s, row.family))
  {
  }

  // ---------------------------------------------------------------------
  // Lifetimes

  const BirthEvent := 12
  const DeathEvent := 13

  /** An event of the lifetime query: its type value and its raw date, if any. */
  datatype RawEvent<D> = RawEvent(kind: int, date: Option<D>)

  datatype Lifetime = Lifetime(birth: Option<Date>, death: Option<Date>)

  /** The index of the last event of type `k`, or -1 if there is none. */
  function LastOfKind<D>(events: seq<RawEvent<D>>, k: int): (i: int)
    ensures -1 <= i < |events|
    ensures i >= 0 ==> events[i].kind == k
    ensures forall j :: i < j < |events| ==> events[j].kind != k
  {
    if |events| == 0 then -1
    else
      var rest := LastOfKind(events[1..], k);
      if rest >= 0 then rest + 1
      else if events[0].kind == k then 0
      else -1
  }

  /** `Date.from_gramps_json_date` of the `date` entry; a missing date is not subscriptable. */
  function ReadJsonDate(d: Option<JsonDate>): (r: Result<Date>)
    ensures d.None? ==> r == Err(TypeError)
    ensures d.Some? ==> r == FromGrampsJson(d.value)
  {
    if d.None? then Err(TypeError) else FromGrampsJson(d.value)
  }

  /** One event of `__parse_lifetime` in content_generator/src/gramps_tree.py. */
  function JsonLifetimeStep(lt: Lifetime, e: RawEvent<JsonDate>): Result<Lifetime> {
    if e.kind == BirthEvent then
      var b :- ReadJsonDate(e.date);
      Ok(lt.(birth := Some(b)))
    else if e.kind == DeathEvent then
      var d :- ReadJsonDate(e.date);
      Ok(lt.(death := Some(d)))
    else Ok(lt)
  }

  function JsonLifetimeFrom(lt: Lifetime, events: seq<RawEvent<JsonDate>>): Result<Lifetime>
    decreases |events|
  {
    if |events| == 0 then Ok(lt)
    else
      var lt1 :- JsonLifetimeStep(lt, events[0]);
      JsonLifetimeFrom(lt1, events[1..])
  }

  /** The event loop of `__parse_lifetime` in content_generator/src/gramps_tree.py. */
  method ParseLifetimeJson(events: seq<RawEvent<JsonDate>>) returns (r: Result<Lifetime>)
    ensures r == JsonLifetimeFrom(Lifetime(None, None), events)
  {
    var birth: Option<Date> := None;
    var death: Option<Date> := None;
    var i := 0;
    while i < |events|
      invariant 0 <= i <= |events|
      invariant JsonLifetimeFrom(Lifetime(birth, death), events[i..]) == JsonLifetimeFrom(Lifetime(None, None), events)
    {
      var e := events[i];
      ghost var before := Lifetime(birth, death);
      if e.kind == BirthEvent {
        var b := ReadJsonDate(e.date);
        if b.Err? {
          return Err(b.error);
        }
        birth := Some(b.value);
      }
      if e.kind == DeathEvent {
        var d := ReadJsonDate(e.date);
        if d.Err? {
          return Err(d.error);
        }
        death := Some(d.value);
      }
      assert JsonLifetimeStep(before, e) == Ok(Lifetime(birth, death));
      assert events[i..][1..] == events[i + 1..];
      i := i + 1;
    }
    r := Ok(Lifetime(birth, death));
  }

  /**
   * The birth day is the date of the last BIRTH event and the death day that
   * of the last DEATH event, each None when there is no such event; any
   * BIRTH or DEATH date that cannot be read fails the whole lifetime.
   */
  lemma {:induction false} JsonLifetimeReadsLastEvents(lt: Lifetime, events: seq<RawEvent<JsonDate>>)
    ensures JsonLifetimeFrom(lt, events).Ok? <==>
              forall i :: 0 <= i < |events| && (events[i].kind == BirthEvent || events[i].kind == DeathEvent)
                          ==> ReadJsonDate(events[i].date).Ok?
    ensures JsonLifetimeFrom(lt, events).Ok? ==>
              var b := LastOfKind(events, BirthEvent);
              var d := LastOfKind(events, DeathEvent);
              JsonLifetimeFrom(lt, events).value.birth
                == (if b < 0 then lt.birth else Some(ReadJsonDate(events[b].date).value))
              && JsonLifetimeFrom(lt, events).value.death
                == (if d < 0 then lt.death else Some(ReadJsonDate(events[d].date).value))
    decreases |events|
  {
    if |events| > 0 {
      var step := JsonLifetimeStep(lt, events[0]);
      if step.Ok? {
        JsonLifetimeReadsLastEvents(step.value, events[1..]);
        assert forall i :: 1 <= i < |events| ==> events[i] == events[1..][i - 1];
      }
    }
  }

  /** `Date.from_gramps_db` (four or eight fields) of a date that may be missing. */
  function ReadDbDate(d: Option<DbDate>): (r: Result<Date>)
    ensures d.None? ==> r == Err(TypeError)
    ensures d.Some? ==> r == FromGrampsDb(d.value)
  {
    if d.None? then Err(TypeError) else FromGrampsDb(d.value)
  }

  /**
   * One event of `__parse_lifetime` in content_generator/gramps_tree.py: a
   * BIRTH without a date raises PersonWithoutBirthdayError, and a DEATH is
   * read only once a birth day has been seen.
   */
  function LegacyLifetimeStep(lt: Lifetime, e: RawEvent<DbDate>): Result<Lifetime> {
    if e.kind == BirthEvent then
      if e.date.None? then Err(PersonWithoutBirthdayError)
      else
        var b :- FromGrampsDb(e.date.value);
        Ok(lt.(birth := Some(b)))
    else if e.kind == DeathEvent then
      if lt.birth.None? then Ok(lt.(death := None))
      else
        var d :- ReadDbDate(e.date);
        Ok(lt.(death := Some(d)))
    else Ok(lt)
  }

  function LegacyLifetimeFrom(lt: Lifetime, events: seq<RawEvent<DbDate>>): Result<Lifetime>
    decreases |events|
  {
    if |events| == 0 then Ok(lt)
    else
      var lt1 :- LegacyLifetimeStep(lt, events[0]);
      LegacyLifetimeFrom(lt1, events[1..])
  }

  /** The event loop of `__parse_lifetime` in content_generator/gramps_tree.py. */
  method ParseLifetimeLegacy(events: seq<RawEvent<DbDate>>) returns (r: Result<Lifetime>)
    ensures r == LegacyLifetimeFrom(Lifetime(None, None), events)
  {
    var birth: Option<Date> := None;
    var death: Option<Date> := None;
    var i := 0;
    while i < |events|
      invariant 0 <= i <= |events|
      invariant LegacyLifetimeFrom(Lifetime(birth, death), events[i..]) == LegacyLifetimeFrom(Lifetime(None, None), events)
    {
      var e := events[i];
      ghost var before := Lifetime(birth, death);
      if e.kind == BirthEvent {
        if e.date.None? {
          return Err(PersonWithoutBirthdayError);
        }
        var b := FromGrampsDb(e.date.value);
        if b.Err? {
          return Err(b.error);
        }
        birth := Some(b.value);
      }
      if e.kind == DeathEvent {
        if birth.None? {
          death := None;
        } else {
          var d := ReadDbDate(e.date);
          if d.Err? {
            return Err(d.error);
          }
          death := Some(d.value);
        }
      }
      assert LegacyLifetimeStep(before, e) == Ok(Lifetime(birth, death));
      assert events[i..][1..] == events[i + 1..];
      i := i + 1;
    }
    r := Ok(Lifetime(birth, death));
  }

  /** Some BIRTH event comes before index `j`. */
  predicate BirthBefore<D>(events: seq<RawEvent<D>>, j: int) {
    exists i :: 0 <= i < j && i < |events| && events[i].kind == BirthEvent
  }

  /**
   * Starting from nothing, a death day is kept exactly when the last DEATH
   * event comes after some BIRTH event, and the birth day is that of the
   * last BIRTH event.
   */
  lemma {:induction false} LegacyDeathNeedsEarlierBirth(lt: Lifetime, events: seq<RawEvent<DbDate>>)
    requires lt.birth.None? ==> lt.death.None?
    requires LegacyLifetimeFrom(lt, events).Ok?
    ensures var r := LegacyLifetimeFrom(lt, events).value;
            var b := LastOfKind(events, BirthEvent);
            var d := LastOfKind(events, DeathEvent);
            (b < 0 ==> r.birth == lt.birth)
            && (b >= 0 ==> events[b].date.Some? && FromGrampsDb(events[b].date.value).Ok?
                           && r.birth == Some(FromGrampsDb(events[b].date.value).value))
            && (d >= 0 ==> (r.death.Some? <==> lt.birth.Some? || BirthBefore(events, d)))
            && (d >= 0 && r.death.Some? ==> events[d].date.Some? && FromGrampsDb(events[d].date.value).Ok?
                                            && r.death == Some(FromGrampsDb(events[d].date.value).value))
            && (d < 0 ==> r.death == lt.death)
    decreases |events|
  {
    if |events| > 0 {
      var lt1 := LegacyLifetimeStep(lt, events[0]).value;
      LegacyDeathNeedsEarlierBirth(lt1, events[1..]);
      assert forall i :: 1 <= i < |events| ==> events[i] == events[1..][i - 1];
      var b := LastOfKind(events, BirthEvent);
      var b1 := LastOfKind(events[1..], BirthEvent);
      if b >= 1 {
        assert b1 == b - 1 && events[1..][b1] == events[b];
      } else if b == 0 {
        assert b1 < 0 && events[0].kind == BirthEvent;
      }
      var d := LastOfKind(events, DeathEvent);
      var d1 := LastOfKind(events[1..], DeathEvent);
      if d >= 1 {
        assert d1 == d - 1;
        BirthBeforeShift(events, d);
        if lt1.birth.Some? && lt.birth.None? {
          assert events[0].kind == BirthEvent;
        }
      }
    }
  }

  /** Some BIRTH event comes before index `j` (j >= 1) exactly when the first event is one or one comes before `j - 1` in the rest. */
  lemma BirthBeforeShift<D>(events: seq<RawEvent<D>>, j: int)
    requires 1 <= j <= |events|
    ensures BirthBefore(events, j) <==> events[0].kind == BirthEvent || BirthBefore(events[1..], j - 1)
  {
    if BirthBefore(events[1..], j - 1) {
      var i :| 0 <= i < j - 1 && i < |events[1..]| && events[1..][i].kind == BirthEvent;
      assert events[i + 1].kind == BirthEvent;
    }
    if BirthBefore(events, j) && events[0].kind != BirthEvent {
      var i :| 0 <= i < j && i < |events| && events[i].kind == BirthEvent;
      assert events[1..][i - 1].kind == BirthEvent;
    }
  }

  /**
   * Event `i` can be read by the gramps_tree.py loop: a BIRTH has a readable
   * date, and a DEATH that comes after a birth day has been seen has one too.
   */
  predicate LegacyReadable(lt: Lifetime, events: seq<RawEvent<DbDate>>, i: int)
    requires 0 <= i < |events|
  {
    (events[i].kind == BirthEvent ==> events[i].date.Some? && FromGrampsDb(events[i].date.value).Ok?)
    && (events[i].kind == DeathEvent && (lt.birth.Some? || BirthBefore(events, i)) ==> ReadDbDate(events[i].date).Ok?)
  }

  /** The exception an unreadable event raises in the gramps_tree.py loop. */
  function LegacyEventError(e: RawEvent<DbDate>): Error {
    if e.date.None? then
      if e.kind == BirthEvent then PersonWithoutBirthdayError else TypeError
    else if FromGrampsDb(e.date.value).Err? then FromGrampsDb(e.date.value).error
    else TypeError
  }

  /**
   * The gramps_tree.py lifetime fails exactly when some event cannot be
   * read, and then with the exception of the first such event.
   */
  lemma {:induction false} LegacyLifetimeFails(lt: Lifetime, events: seq<RawEvent<DbDate>>)
    ensures LegacyLifetimeFrom(lt, events).Ok? <==> forall i :: 0 <= i < |events| ==> LegacyReadable(lt, events, i)
    ensures LegacyLifetimeFrom(lt, events).Err? ==>
              exists k :: 0 <= k < |events| && !LegacyReadable(lt, events, k)
                          && (forall i :: 0 <= i < k ==> LegacyReadable(lt, events, i))
                          && LegacyLifetimeFrom(lt, events).error == LegacyEventError(events[k])
    decreases |events|
  {
    if |events| > 0 {
      var step := LegacyLifetimeStep(lt, events[0]);
      assert !BirthBefore(events, 0);
      if step.Err? {
        assert !LegacyReadable(lt, events, 0);
        assert LegacyLifetimeFrom(lt, events).error == LegacyEventError(events[0]);
      } else {
        var lt1 := step.value;
        assert LegacyReadable(lt, events, 0);
        assert lt1.birth.Some? <==> lt.birth.Some? || events[0].kind == BirthEvent;
        LegacyLifetimeFails(lt1, events[1..]);
        forall i | 1 <= i < |events|
          ensures LegacyReadable(lt, events, i) <==> LegacyReadable(lt1, events[1..], i - 1)
        {
          BirthBeforeShift(events, i);
          assert events[1..][i - 1] == events[i];
        }
        if LegacyLifetimeFrom(lt, events).Err? {
          var k :| 0 <= k < |events[1..]| && !LegacyReadable(lt1, events[1..], k)
                   && (forall i :: 0 <= i < k ==> LegacyReadable(lt1, events[1..], i))
                   && LegacyLifetimeFrom(lt1, events[1..]).error == LegacyEventError(events[1..][k]);
          assert events[1..][k] == events[k + 1];
          assert forall i :: 1 <= i < k + 1 ==> LegacyReadable(lt, events, i);
          assert !LegacyReadable(lt, events, k + 1);
        } else {
          assert forall i :: 1 <= i < |events| ==> LegacyReadable(lt, events, i);
        }
      }
    }
  }

  /**
   * One event of `__parse_lifetime` in gramps_parser/db.py: a BIRTH without
   * a date raises ValueError; a DEATH without a date clears the death day.
   */
  function DbLifetimeStep(lt: Lifetime, e: RawEvent<DbDate>): Result<Lifetime> {
    if e.kind == BirthEvent then
      if e.date.None? then Err(ValueError)
      else
        var b :- FromGrampsDbFour(e.date.value);
        Ok(lt.(birth := Some(b)))
    else if e.kind == DeathEvent then
      if e.date.None? then Ok(lt.(death := None))
      else
        var d :- FromGrampsDbFour(e.date.value);
        Ok(lt.(death := Some(d)))
    else Ok(lt)
  }

  function DbLifetimeFrom(lt: Lifetime, events: seq<RawEvent<DbDate>>): Result<Lifetime>
    decreases |events|
  {
    if |events| == 0 then Ok(lt)
    else
      var lt1 :- DbLifetimeStep(lt, events[0]);
      DbLifetimeFrom(lt1, events[1..])
  }

  /** The event loop of `Database.__parse_lifetime` in gramps_parser/db.py. */
  method ParseLifetimeDb(events: seq<RawEvent<DbDate>>) returns (r: Result<Lifetime>)
    ensures r == DbLifetimeFrom(Lifetime(None, None), events)
  {
    var birth: Option<Date> := None;
    var death: Option<Date> := None;
    var i := 0;
    while i < |events|
      invariant 0 <= i <= |events|
      invariant DbLifetimeFrom(Lifetime(birth, death), events[i..]) == DbLifetimeFrom(Lifetime(None, None), events)
    {
      var e := events[i];
      ghost var before := Lifetime(birth, death);
      if e.kind == BirthEvent {
        if e.date.None? {
          return Err(ValueError);
        }
        var b := FromGrampsDbFour(e.date.value);
        if b.Err? {
          return Err(b.error);
        }
        birth := Some(b.value);
      }
      if e.kind == DeathEvent {
        if e.date.None? {
          death := None;
        } else {
          var d := FromGrampsDbFour(e.date.value);
          if d.Err? {
            return Err(d.error);
          }
          death := Some(d.value);
        }
      }
      assert DbLifetimeStep(before, e) == Ok(Lifetime(birth, death));
      assert events[i..][1..] == events[i + 1..];
      i := i + 1;
    }
    r := Ok(Lifetime(birth, death));
  }

  /**
   * The birth day is read from the last BIRTH event and the death day from
   * the last DEATH event, which leaves it None when that event has no date.
   */
  lemma {:induction false} DbLifetimeReadsLastEvents(lt: Lifetime, events: seq<RawEvent<DbDate>>)
    requires DbLifetimeFrom(lt, events).Ok?
    ensures var r := DbLifetimeFrom(lt, events).value;
            var b := LastOfKind(events, BirthEvent);
            var d := LastOfKind(events, DeathEvent);
            (b < 0 ==> r.birth == lt.birth)
            && (b >= 0 ==> events[b].date.Some? && FromGrampsDbFour(events[b].date.value).Ok?
                           && r.birth == Some(FromGrampsDbFour(events[b].date.value).value))
            && (d < 0 ==> r.death == lt.death)
            && (d >= 0 && events[d].date.None? ==> r.death.None?)
            && (d >= 0 && events[d].date.Some? ==> FromGrampsDbFour(events[d].date.value).Ok?
                                                   && r.death == Some(FromGrampsDbFour(events[d].date.value).value))
    decreases |events|
  {
    if |events| > 0 {
      var lt1 := DbLifetimeStep(lt, events[0]).value;
      DbLifetimeReadsLastEvents(lt1, events[1..]);
      assert forall i :: 1 <= i < |events| ==> events[i] == events[1..][i - 1];
    }
  }

  /** An event the db.py loop can read: a BIRTH needs a readable date, a DEATH's date, if any, must be readable. */
  predicate DbReadable(e: RawEvent<DbDate>) {
    (e.kind == BirthEvent ==> e.date.Some? && FromGrampsDbFour(e.date.value).Ok?)
    && (e.kind == DeathEvent && e.date.Some? ==> FromGrampsDbFour(e.date.value).Ok?)
  }

  /** The exception an unreadable event raises in the db.py loop. */
  function DbEventError(e: RawEvent<DbDate>): Error {
    if e.date.None? then ValueError
    else if FromGrampsDbFour(e.date.value).Err? then FromGrampsDbFour(e.date.value).error
    else ValueError
  }

  /**
   * The db.py lifetime fails exactly when some event cannot be read, and
   * then with the exception of the first such event: ValueError for a BIRTH
   * without a date.
   */
  lemma {:induction false} DbLifetimeFails(lt: Lifetime, events: seq<RawEvent<DbDate>>)
    ensures DbLifetimeFrom(lt, events).Ok? <==> forall i :: 0 <= i < |events| ==> DbReadable(events[i])
    ensures DbLifetimeFrom(lt, events).Err? ==>
              exists k :: 0 <= k < |events| && !DbReadable(events[k])
                          && (forall i :: 0 <= i < k ==> DbReadable(events[i]))
                          && DbLifetimeFrom(lt, events).error == DbEventError(events[k])
    decreases |events|
  {
    if |events| > 0 {
      var step := DbLifetimeStep(lt, events[0]);
      if step.Err? {
        assert !DbReadable(events[0]);
        assert DbLifetimeFrom(lt, events).error == DbEventError(events[0]);
      } else {
        DbLifetimeFails(step.value, events[1..]);
        assert forall i :: 1 <= i < |events| ==> events[1..][i - 1] == events[i];
        if DbLifetimeFrom(lt, events).Err? {
          var k :| 0 <= k < |events[1..]| && !DbReadable(events[1..][k])
                   && (forall i :: 0 <= i < k ==> DbReadable(events[1..][i]))
                   && DbLifetimeFrom(step.value, events[1..]).error == DbEventError(events[1..][k]);
          assert events[1..][k] == events[k + 1];
          assert forall i :: 0 <= i < k + 1 ==> DbReadable(events[i]);
        }
      }
    }
  }

  // ---------------------------------------------------------------------
  // Media

  /** One row of the media table. */
  datatype MediaRow = MediaRow(id: Id, mime: string, path: string, description: string)

  predicate IsPicture(mime: string) {
    mime == "image/jpeg" || mime == "image/png"
  }

  /** Where a picture of the tree at `treePath` lives: `tree / "media" / path`. */
  function MediaPath(treePath: string, path: string): string {
    JoinPath(JoinPath(treePath, "media"), path)
  }

  /**
   * A picture stored under a relative path keeps its file name, and its
   * path is the tree's, then "media", then the stored one.
   */
  lemma MediaPathKeepsFileName(treePath: string, path: string)
    requires !IsAbsolute(path) && IsSegment(FileName(path))
    ensures FileName(MediaPath(treePath, path)) == FileName(path)
    ensures Segments(MediaPath(treePath, path)) == Segments(treePath) + ["media"] + Segments(path)
  {
    assert IsSegment("media");
    FileNameOfJoinPath(JoinPath(treePath, "media"), path);
    NestedJoin(treePath, "media", path);
  }

  datatype MediaTable = MediaTable(media: map<Id, Media>, order: seq<Id>)

  function MediaStep(treePath: string, t: MediaTable, row: MediaRow): MediaTable {
    if !IsPicture(row.mime) then t
    else MediaTable(t.media[row.id := Media(MediaPath(treePath, row.path), row.description, [])],
                    if row.id in t.media then t.order else t.order + [row.id])
  }

  function MediaFrom(treePath: string, t: MediaTable, rows: seq<MediaRow>): MediaTable
    decreases |rows|
  {
    if |rows| == 0 then t else MediaFrom(treePath, MediaStep(treePath, t, rows[0]), rows[1..])
  }

  /** `__get_media` of content_generator/src/gramps_tree.py. */
  method LoadMedia(treePath: string, rows: seq<MediaRow>) returns (r: MediaTable)
    ensures r == MediaFrom(treePath, MediaTable(map[], []), rows)
  {
    var media: map<Id, Media> := map[];
    var order: seq<Id> := [];
    var i := 0;
    while i < |rows|
      invariant 0 <= i <= |rows|
      invariant MediaFrom(treePath, MediaTable(media, order), rows[i..]) == MediaFrom(treePath, MediaTable(map[], []), rows)
    {
      var row := rows[i];
      ghost var before := MediaTable(media, order);
      if IsPicture(row.mime) {
        if row.id !in media {
          order := order + [row.id];
        }
        media := media[row.id := Media(MediaPath(treePath, row.path), row.description, [])];
      }
      assert MediaStep(treePath, before, row) == MediaTable(media, order);
      assert rows[i..][1..] == rows[i + 1..];
      i := i + 1;
    }
    r := MediaTable(media, order);
  }

  /** The last picture row with this id, or -1. */
  function LastPictureRow(rows: seq<MediaRow>, id: Id): (i: int)
    ensures -1 <= i < |rows|
    ensures i >= 0 ==> rows[i].id == id && IsPicture(rows[i].mime)
    ensures forall j :: i < j < |rows| ==> !(rows[j].id == id && IsPicture(rows[j].mime))
  {
    if |rows| == 0 then -1
    else
      var rest := LastPictureRow(rows[1..], id);
      if rest >= 0 then rest + 1
      else if rows[0].id == id && IsPicture(rows[0].mime) then 0
      else -1
  }

  /**
   * Only JPEG and PNG pictures are kept; each kept id holds the media built
   * from its last picture row, under `tree/media/path`, with no persons yet.
   */
  lemma {:induction false} MediaKeepsPictures(treePath: string, t: MediaTable, rows: seq<MediaRow>)
    ensures forall id :: id in MediaFrom(treePath, t, rows).media <==> id in t.media || LastPictureRow(rows, id) >= 0
    ensures forall id :: LastPictureRow(rows, id) >= 0 ==>
              MediaFrom(treePath, t, rows).media[id]
                == Media(MediaPath(treePath, rows[LastPictureRow(rows, id)].path), rows[LastPictureRow(rows, id)].description, [])
    ensures forall id :: id in t.media && LastPictureRow(rows, id) < 0 ==> MediaFrom(treePath, t, rows).media[id] == t.media[id]
    decreases |rows|
  {
    if |rows| > 0 {
      MediaKeepsPictures(treePath, MediaStep(treePath, t, rows[0]), rows[1..]);
    }
  }

  /**
   * `__map_media_to_person`: for each (person, media) row, the media gains
   * the person and the person gains the media; an id missing from either
   * dict raises KeyError.
   */
  datatype Linked = Linked(persons: map<Id, Person>, media: map<Id, Media>)

  function LinkStep(s: Linked, row: (Id, Id)): (r: Result<Linked>)
    ensures r.Ok? <==> row.1 in s.media && row.0 in s.persons
    ensures r.Err? ==> r.error == KeyError
  {
    var (pid, mid) := row;
    if mid !in s.media || pid !in s.persons then Err(KeyError)
    else Ok(Linked(s.persons[pid := AddMedia(s.persons[pid], mid)], s.media[mid := MarkPerson(s.media[mid], pid)]))
  }

  function LinkFrom(s: Linked, rows: seq<(Id, Id)>): Result<Linked>
    decreases |rows|
  {
    if |rows| == 0 then Ok(s)
    else
      var s1 :- LinkStep(s, rows[0]);
      LinkFrom(s1, rows[1..])
  }

  method LinkMedia(persons: map<Id, Person>, media: map<Id, Media>, rows: seq<(Id, Id)>) returns (r: Result<Linked>)
    ensures r == LinkFrom(Linked(persons, media), rows)
  {
    var ps := persons;
    var ms := media;
    var i := 0;
    while i < |rows|
      invariant 0 <= i <= |rows|
      invariant LinkFrom(Linked(ps, ms), rows[i..]) == LinkFrom(Linked(persons, media), rows)
    {
      var (pid, mid) := rows[i];
      ghost var before := Linked(ps, ms);
      if mid !in ms || pid !in ps {
        return Err(KeyError);
      }
      var m := ms[mid];
      var p := ps[pid];
      ms := ms[mid := MarkPerson(m, pid)];
      ps := ps[pid := AddMedia(p, mid)];
      assert LinkStep(before, rows[i]) == Ok(Linked(ps, ms));
      assert rows[i..][1..] == rows[i + 1..];
      i := i + 1;
    }
    r := Ok(Linked(ps, ms));
  }

  /** Linking adds links and nothing else: no person or media appears or vanishes, no other field changes. */
  lemma {:induction false} LinkKeepsEntries(s: Linked, rows: seq<(Id, Id)>)
    requires LinkFrom(s, rows).Ok?
    ensures LinkFrom(s, rows).value.persons.Keys == s.persons.Keys
    ensures LinkFrom(s, rows).value.media.Keys == s.media.Keys
    ensures forall pid :: pid in s.persons ==>
              LinkFrom(s, rows).value.persons[pid] == s.persons[pid].(media := LinkFrom(s, rows).value.persons[pid].media)
    ensures forall mid :: mid in s.media ==> (forall x :: x in s.media[mid].persons ==> x in LinkFrom(s, rows).value.media[mid].persons)
    ensures forall pid :: pid in s.persons ==> (forall x :: x in s.persons[pid].media ==> x in LinkFrom(s, rows).value.persons[pid].media)
    decreases |rows|
  {
    if |rows| > 0 {
      LinkKeepsEntries(LinkStep(s, rows[0]).value, rows[1..]);
    }
  }

  /** Every linked pair names a known person and media, and ends up linked both ways. */
  lemma {:induction false} LinksBothWays(s: Linked, rows: seq<(Id, Id)>)
    requires LinkFrom(s, rows).Ok?
    ensures forall i :: 0 <= i < |rows| ==> rows[i].0 in s.persons && rows[i].1 in s.media
    ensures var r := LinkFrom(s, rows).value;
            forall i :: 0 <= i < |rows| ==>
              rows[i].1 in r.media && rows[i].0 in r.media[rows[i].1].persons
              && rows[i].0 in r.persons && rows[i].1 in r.persons[rows[i].0].media
    decreases |rows|
  {
    if |rows| > 0 {
      var s1 := LinkStep(s, rows[0]).value;
      LinksBothWays(s1, rows[1..]);
      LinkKeepsEntries(s1, rows[1..]);
      assert forall i :: 1 <= i < |rows| ==> rows[i] == rows[1..][i - 1];
    }
  }

  // ---------------------------------------------------------------------
  // Events

  /** One row of the event table: the key column and the JSON fields read. */
  datatype EventRow = EventRow(key: Id, id: Id, date: Option<JsonDate>, description: string)

  /** The events dict being filled, and the value the local `event` holds. */
  datatype EventTable = EventTable(events: map<Id, Event>, last: Option<Event>)

  /**
   * One iteration of `__get_events` in content_generator/src/gramps_tree.py:
   * a ValueError from the date is logged and the entry stored is whatever
   * `event` still holds from an earlier row; before any such row, reading
   * `event` raises UnboundLocalError. Other errors propagate.
   */
  function EventStep(t: EventTable, row: EventRow): Result<EventTable> {
    var d := ReadJsonDate(row.date);
    if d.Ok? then
      var e := Event(row.id, Some(d.value), row.description);
      Ok(EventTable(t.events[row.key := e], Some(e)))
    else if d.error != ValueError then Err(d.error)
    else if t.last.None? then Err(UnboundLocalError)
    else Ok(EventTable(t.events[row.key := t.last.value], t.last))
  }

  function EventsFrom(t: EventTable, rows: seq<EventRow>): Result<EventTable>
    decreases |rows|
  {
    if |rows| == 0 then Ok(t)
    else
      var t1 :- EventStep(t, rows[0]);
      EventsFrom(t1, rows[1..])
  }

  method LoadEvents(rows: seq<EventRow>) returns (r: Result<map<Id, Event>>)
    ensures r.Ok? <==> EventsFrom(EventTable(map[], None), rows).Ok?
    ensures r.Ok? ==> r.value == EventsFrom(EventTable(map[], None), rows).value.events
    ensures r.Err? ==> r.error == EventsFrom(EventTable(map[], None), rows).error
  {
    var events: map<Id, Event> := map[];
    var event: Option<Event> := None;
    var i := 0;
    while i < |rows|
      invariant 0 <= i <= |rows|
      invariant EventsFrom(EventTable(events, event), rows[i..]) == EventsFrom(EventTable(map[], None), rows)
    {
      var row := rows[i];
      ghost var before := EventTable(events, event);
      var d := ReadJsonDate(row.date);
      if d.Ok? {
        event := Some(Event(row.id, Some(d.value), row.description));
      } else if d.error != ValueError {
        return Err(d.error);
      }
      if event.None? {
        return Err(UnboundLocalError);
      }
      events := events[row.key := event.value];
      assert EventStep(before, row) == Ok(EventTable(events, event));
      assert rows[i..][1..] == rows[i + 1..];
      i := i + 1;
    }
    r := Ok(events);
  }

  /** The event a row whose date reads builds. */
  function EventOf(row: EventRow): Event
    requires ReadJsonDate(row.date).Ok?
  {
    Event(row.id, Some(ReadJsonDate(row.date).value), row.description)
  }

  /** The index of the last row whose date reads, or -1. */
  function LastGoodRow(rows: seq<EventRow>): (i: int)
    ensures -1 <= i < |rows|
    ensures i >= 0 ==> ReadJsonDate(rows[i].date).Ok?
    ensures forall j :: i < j < |rows| ==> ReadJsonDate(rows[j].date).Err?
  {
    if |rows| == 0 then -1
    else if ReadJsonDate(rows[|rows| - 1].date).Ok? then |rows| - 1
    else LastGoodRow(rows[..|rows| - 1])
  }

  /** Loading `a + b` is loading `a`, then `b` from where `a` left off. */
  lemma {:induction false} EventsSplit(t: EventTable, a: seq<EventRow>, b: seq<EventRow>)
    ensures EventsFrom(t, a + b)
         == (if EventsFrom(t, a).Err? then EventsFrom(t, a) else EventsFrom(EventsFrom(t, a).value, b))
    decreases |a|
  {
    if |a| > 0 {
      assert (a + b)[0] == a[0] && (a + b)[1..] == a[1..] + b;
      if EventStep(t, a[0]).Ok? {
        EventsSplit(EventStep(t, a[0]).value, a[1..], b);
      }
    } else {
      assert a + b == b;
    }
  }

  /** After loading, `event` holds the event of the last row whose date was read. */
  lemma {:induction false} EventVariableTracksLastGoodRow(rows: seq<EventRow>)
    requires EventsFrom(EventTable(map[], None), rows).Ok?
    ensures var last := EventsFrom(EventTable(map[], None), rows).value.last;
            (LastGoodRow(rows) < 0 ==> last.None?)
            && (LastGoodRow(rows) >= 0 ==> last == Some(EventOf(rows[LastGoodRow(rows)])))
    decreases |rows|
  {
    if |rows| > 0 {
      var init := rows[..|rows| - 1];
      assert init + [rows[|rows| - 1]] == rows;
      EventsSplit(EventTable(map[], None), init, [rows[|rows| - 1]]);
      EventVariableTracksLastGoodRow(init);
    }
  }

  /**
   * A row whose date raises ValueError is stored under its own key with the
   * event of the nearest earlier row whose date was read; with no such row
   * the load fails with UnboundLocalError.
   */
  lemma StaleEntry(rows: seq<EventRow>, i: int)
    requires 0 <= i < |rows|
    requires EventsFrom(EventTable(map[], None), rows[..i]).Ok?
    requires ReadJsonDate(rows[i].date) == Err(ValueError)
    ensures LastGoodRow(rows[..i]) < 0 ==> EventsFrom(EventTable(map[], None), rows[..i + 1]) == Err(UnboundLocalError)
    ensures LastGoodRow(rows[..i]) >= 0 ==>
              EventsFrom(EventTable(map[], None), rows[..i + 1]).Ok?
              && rows[i].key in EventsFrom(EventTable(map[], None), rows[..i + 1]).value.events
              && EventsFrom(EventTable(map[], None), rows[..i + 1]).value.events[rows[i].key] == EventOf(rows[LastGoodRow(rows[..i])])
  {
    assert rows[..i + 1] == rows[..i] + [rows[i]];
    EventsSplit(EventTable(map[], None), rows[..i], [rows[i]]);
    EventVariableTracksLastGoodRow(rows[..i]);
  }
}
