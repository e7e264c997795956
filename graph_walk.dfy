/**
 * What the graphviz layout of gramps_parser/render.py places, as values:
 * the steps of the walk from a person, the rounds of the constructor's
 * loop (with the seed as the program picks it, and as intended), and the
 * first exception the family nodes' wedding days raise on the way.
 */
module GraphTraversal {
  import opened Wrappers
  import opened Entities
  import opened TreeWalk
  import opened GraphNodes

  /** The ids of the persons the steps reach, in order. */
  function Reached(steps: seq<Step>): (r: seq<Id>)
    ensures |r| == |steps| && forall i :: 0 <= i < |steps| ==> r[i] == steps[i].next.id
  {
    if |steps| == 0 then [] else [steps[0].next.id] + Reached(steps[1..])
  }

  lemma ReachedConcat(a: seq<Step>, b: seq<Step>)
    ensures Reached(a + b) == Reached(a) + Reached(b)
  {
    assert forall i :: 0 <= i < |a + b| ==> Reached(a + b)[i] == (Reached(a) + Reached(b))[i];
  }

  /**
   * `__recursively_adding_person_to_the_right` from `person` over `pool`:
   * the steps it takes, in the order their nodes are appended, and the
   * pool it leaves. Each person reached is walked from in turn before the
   * walk comes back to `person` for its next child or partner.
   */
  function GraphWalk(t: GrampsTree, person: Person, pool: set<Id>): (r: (seq<Step>, set<Id>))
    requires Keyed(t.persons)
    ensures r.1 <= pool
    decreases |pool|
  {
    match NextStep(t, person, pool)
    case None => ([], pool)
    case Some(s) =>
      var inner := GraphWalk(t, s.next, pool - {s.next.id});
      SubsetSmaller(inner.1, pool - {s.next.id});
      var outer := GraphWalk(t, person, inner.1);
      ([s] + inner.0 + outer.0, outer.1)
  }

  /** A walk whose first step is `s` takes it, walks from the person reached, then resumes in what is left. */
  lemma GraphWalkUnfolds(t: GrampsTree, person: Person, pool: set<Id>, s: Step)
    requires Keyed(t.persons)
    requires NextStep(t, person, pool) == Some(s)
    ensures var inner := GraphWalk(t, s.next, pool - {s.next.id});
            var outer := GraphWalk(t, person, inner.1);
            GraphWalk(t, person, pool) == ([s] + inner.0 + outer.0, outer.1)
  {
  }

  /**
   * The walk splits the pool: it reaches each person at most once, takes
   * them from the pool, leaves the rest, and stops only when `person` has
   * no step left in what remains.
   */
  lemma {:induction false} GraphWalkSplitsPool(t: GrampsTree, person: Person, pool: set<Id>)
    requires Keyed(t.persons)
    ensures var w := GraphWalk(t, person, pool);
            && NoDuplicates(Reached(w.0))
            && (forall id :: id in Reached(w.0) ==> id in pool && id !in w.1)
            && (forall id :: id in pool ==> id in Reached(w.0) || id in w.1)
            && NextStep(t, person, w.1).None?
    decreases |pool|
  {
    match NextStep(t, person, pool)
    case None =>
    case Some(s) =>
      var inner := GraphWalk(t, s.next, pool - {s.next.id});
      GraphWalkSplitsPool(t, s.next, pool - {s.next.id});
      SubsetSmaller(inner.1, pool - {s.next.id});
      GraphWalkSplitsPool(t, person, inner.1);
      var outer := GraphWalk(t, person, inner.1);
      ReachedConcat([s], inner.0);
      ReachedConcat([s] + inner.0, outer.0);
      SplitsCompose(pool, s.next.id, Reached(inner.0), inner.1, Reached(outer.0), outer.1);
  }

  /** A round of the constructor's loop: its seed, then the steps of the walk from it. */
  datatype GraphRound = GraphRound(seed: Person, steps: seq<Step>)

  function RoundIds(r: GraphRound): seq<Id> {
    [r.seed.id] + Reached(r.steps)
  }

  /** The ids the rounds place, round after round. */
  function Placed(rs: seq<GraphRound>): (r: seq<Id>)
    ensures |rs| > 0 ==> RoundIds(rs[0]) <= r
  {
    if |rs| == 0 then [] else RoundIds(rs[0]) + Placed(rs[1..])
  }

  lemma {:induction false} PlacedSnoc(rs: seq<GraphRound>, last: GraphRound)
    ensures Placed(rs + [last]) == Placed(rs) + RoundIds(last)
    decreases |rs|
  {
    if |rs| == 0 {
      assert [] + [last] == [last];
    } else {
      assert (rs + [last])[1..] == rs[1..] + [last];
      PlacedSnoc(rs[1..], last);
    }
  }

  /** The steps of all rounds, round after round. */
  function AllSteps(rs: seq<GraphRound>): seq<Step> {
    if |rs| == 0 then [] else rs[0].steps + AllSteps(rs[1..])
  }

  lemma {:induction false} AllStepsSnoc(rs: seq<GraphRound>, last: GraphRound)
    ensures AllSteps(rs + [last]) == AllSteps(rs) + last.steps
    decreases |rs|
  {
    if |rs| == 0 {
      assert [] + [last] == [last];
    } else {
      assert (rs + [last])[1..] == rs[1..] + [last];
      AllStepsSnoc(rs[1..], last);
    }
  }

  /**
   * The rounds as intended: each starts at the earliest-born unplaced man,
   * else woman, and continues with the walk from it; none starts once only
   * persons of unknown gender remain.
   */
  function GraphRounds(t: GrampsTree, pool: set<Id>): (r: seq<GraphRound>)
    requires Keyed(t.persons)
    decreases |pool|
  {
    match Patriarch(PoolPersons(t, pool))
    case None => []
    case Some(s) =>
      var w := GraphWalk(t, s, pool - {s.id});
      SubsetSmaller(w.1, pool - {s.id});
      [GraphRound(s, w.0)] + GraphRounds(t, w.1)
  }

  /**
   * The rounds as the program runs them: the seed comes from `min` over
   * `Date` keys, which raises TypeError as soon as two candidates are left.
   * The rounds placed before that, and whether it raised.
   */
  function GraphRoundsAsWritten(t: GrampsTree, pool: set<Id>): (r: (seq<GraphRound>, bool))
    requires Keyed(t.persons)
    decreases |pool|
  {
    var ps := PoolPersons(t, pool);
    match SeedAsWritten(ps)
    case Err(_) => ([], true)
    case Ok(None) => ([], false)
    case Ok(Some(s)) =>
      SeedAsWrittenAgrees(ps);
      assert s in ps;
      var w := GraphWalk(t, s, pool - {s.id});
      SubsetSmaller(w.1, pool - {s.id});
      var rest := GraphRoundsAsWritten(t, w.1);
      ([GraphRound(s, w.0)] + rest.0, rest.1)
  }

  /** The error of a single step is its family's, when its wedding day raises. */
  lemma FirstOfOne(s: Step, wedding: map<Id, Result<int>>)
    ensures FirstWeddingError([s], wedding) == if WeddingFails(s, wedding) then Some(wedding[s.family].error) else None
  {
    assert [s][1..] == [];
  }

  /** One round of the program's loop: it raises, finds nobody, or places the seed's round and goes on with what is left. */
  lemma AsWrittenUnfolds(t: GrampsTree, pool: set<Id>)
    requires Keyed(t.persons)
    ensures var seed := SeedAsWritten(PoolPersons(t, pool));
            && (seed.Err? ==> GraphRoundsAsWritten(t, pool) == ([], true))
            && (seed == Ok(None) ==> GraphRoundsAsWritten(t, pool) == ([], false))
            && (seed.Ok? && seed.value.Some? ==>
                  var s := seed.value.value;
                  var w := GraphWalk(t, s, pool - {s.id});
                  var rest := GraphRoundsAsWritten(t, w.1);
                  GraphRoundsAsWritten(t, pool) == ([GraphRound(s, w.0)] + rest.0, rest.1))
  {
  }

  /**
   * The rounds the program gets through before it raises are the first
   * intended rounds, and when it does not raise they are all of them.
   */
  lemma {:induction false} AsWrittenAgrees(t: GrampsTree, pool: set<Id>)
    requires Keyed(t.persons)
    ensures var a := GraphRoundsAsWritten(t, pool);
            && a.0 <= GraphRounds(t, pool)
            && (!a.1 ==> a.0 == GraphRounds(t, pool))
    decreases |pool|
  {
    var ps := PoolPersons(t, pool);
    match SeedAsWritten(ps)
    case Err(_) =>
    case Ok(None) =>
      SeedAsWrittenAgrees(ps);
    case Ok(Some(s)) =>
      SeedAsWrittenAgrees(ps);
      var w := GraphWalk(t, s, pool - {s.id});
      SubsetSmaller(w.1, pool - {s.id});
      AsWrittenAgrees(t, w.1);
  }

  /** With two men unplaced, the program raises before placing a round. */
  lemma TwoMenStopTheLoop(t: GrampsTree, pool: set<Id>)
    requires Keyed(t.persons)
    requires |OfGender(PoolPersons(t, pool), Male)| >= 2
    ensures GraphRoundsAsWritten(t, pool) == ([], true)
  {
  }

  /**
   * The rounds place every man and woman of the pool exactly once, and
   * nobody from outside it.
   */
  lemma {:induction false} GraphRoundsPlaceEachOnce(t: GrampsTree, pool: set<Id>)
    requires Keyed(t.persons)
    requires forall id :: id in pool ==> id in t.persons && id in t.order
    ensures var f := Placed(GraphRounds(t, pool));
            && NoDuplicates(f)
            && (forall id :: id in f ==> id in pool)
            && (forall id :: id in pool && t.persons[id].gender != Unknown ==> id in f)
    decreases |pool|
  {
    var ps := PoolPersons(t, pool);
    match Patriarch(ps)
    case None =>
      forall id | id in pool
        ensures t.persons[id].gender == Unknown
      {
        assert t.persons[id] in ps;
      }
    case Some(s) =>
      var w := GraphWalk(t, s, pool - {s.id});
      GraphWalkSplitsPool(t, s, pool - {s.id});
      SubsetSmaller(w.1, pool - {s.id});
      GraphRoundsPlaceEachOnce(t, w.1);
      var rest := Placed(GraphRounds(t, w.1));
      assert GraphRounds(t, pool)[1..] == GraphRounds(t, w.1);
      assert Placed(GraphRounds(t, pool)) == [s.id] + Reached(w.0) + rest;
      RoundCompose(pool, s.id, Reached(w.0), w.1, rest);
  }

  /** The first of two outcomes that holds an error. */
  function OrElse(a: Option<Error>, b: Option<Error>): Option<Error> {
    if a.Some? then a else b
  }

  /** A step's family whose wedding day raises. */
  predicate WeddingFails(s: Step, wedding: map<Id, Result<int>>) {
    s.family in wedding && wedding[s.family].Err?
  }

  /**
   * The exception of the first step whose family node cannot be built
   * because its wedding day raises; nothing when every day is computed.
   */
  function FirstWeddingError(steps: seq<Step>, wedding: map<Id, Result<int>>): (r: Option<Error>)
    ensures r.None? <==> forall i :: 0 <= i < |steps| ==> !WeddingFails(steps[i], wedding)
    ensures r.Some? ==> exists i :: 0 <= i < |steps| && WeddingFails(steps[i], wedding)
                                    && r.value == wedding[steps[i].family].error
                                    && forall j :: 0 <= j < i ==> !WeddingFails(steps[j], wedding)
  {
    if |steps| == 0 then None
    else
      var rest := FirstWeddingError(steps[1..], wedding);
      assert forall i :: 1 <= i < |steps| ==> steps[i] == steps[1..][i - 1];
      if WeddingFails(steps[0], wedding) then Some(wedding[steps[0].family].error)
      else if rest.Some? then
        var i :| 0 <= i < |steps[1..]| && WeddingFails(steps[1..][i], wedding)
                 && rest.value == wedding[steps[1..][i].family].error
                 && forall j :: 0 <= j < i ==> !WeddingFails(steps[1..][j], wedding);
        assert WeddingFails(steps[i + 1], wedding) && rest.value == wedding[steps[i + 1].family].error;
        rest
      else rest
  }

  /** The first error of a sequence of steps is the first error of its first part, else of the rest. */
  lemma {:induction false} FirstWeddingErrorConcat(a: seq<Step>, b: seq<Step>, wedding: map<Id, Result<int>>)
    ensures FirstWeddingError(a + b, wedding) == OrElse(FirstWeddingError(a, wedding), FirstWeddingError(b, wedding))
    decreases |a|
  {
    if |a| > 0 {
      assert (a + b)[1..] == a[1..] + b;
      FirstWeddingErrorConcat(a[1..], b, wedding);
    } else {
      assert a + b == b;
    }
  }

  /** The first error is one of those the wedding days raise. */
  lemma FirstWeddingErrorIn(steps: seq<Step>, wedding: map<Id, Result<int>>, errors: set<Error>)
    requires forall fid :: fid in wedding && wedding[fid].Err? ==> wedding[fid].error in errors
    ensures FirstWeddingError(steps, wedding).Some? ==> FirstWeddingError(steps, wedding).value in errors
  {
  }

  /** Appending a round places its ids after the others, and its steps' first error comes after theirs. */
  lemma RoundsSnoc(done: seq<GraphRound>, r: GraphRound, rest: seq<GraphRound>, wedding: map<Id, Result<int>>)
    ensures done + ([r] + rest) == (done + [r]) + rest
    ensures Placed(done + [r]) == Placed(done) + RoundIds(r)
    ensures FirstWeddingError(AllSteps(done + [r]), wedding)
            == OrElse(FirstWeddingError(AllSteps(done), wedding), FirstWeddingError(r.steps, wedding))
  {
    ConcatAssoc(done, [r], rest);
    PlacedSnoc(done, r);
    AllStepsSnoc(done, r);
    FirstWeddingErrorConcat(AllSteps(done), r.steps, wedding);
  }

  /**
   * What the constructor raises: the first failing wedding day of the
   * rounds it gets through, else TypeError when the seed's `min` raised,
   * else nothing.
   */
  function GraphOutcome(t: GrampsTree, wedding: map<Id, Result<int>>, pool: set<Id>): Option<Error>
    requires Keyed(t.persons)
  {
    var run := GraphRoundsAsWritten(t, pool);
    OrElse(FirstWeddingError(AllSteps(run.0), wedding), if run.1 then Some(TypeError) else None)
  }

  /**
   * One step of the walk, then the walk from the person reached: the ids
   * and the first wedding error regroup into those of the whole walk.
   */
  lemma WalkStepRegroups(done: seq<Id>, s: Step, inner: seq<Step>, outer: seq<Step>,
                         f0: Option<Error>, wedding: map<Id, Result<int>>)
    ensures done + Reached([s] + inner + outer) == (done + [s.next.id] + Reached(inner)) + Reached(outer)
    ensures OrElse(f0, FirstWeddingError([s] + inner + outer, wedding))
            == OrElse(OrElse(OrElse(f0, FirstWeddingError([s], wedding)), FirstWeddingError(inner, wedding)),
                      FirstWeddingError(outer, wedding))
  {
    WalkStepIds(done, s, inner, outer);
    WalkStepErrors(s, inner, outer, f0, wedding);
  }

  lemma WalkStepIds(done: seq<Id>, s: Step, inner: seq<Step>, outer: seq<Step>)
    ensures done + Reached([s] + inner + outer) == (done + [s.next.id] + Reached(inner)) + Reached(outer)
  {
    ReachedConcat([s], inner);
    ReachedConcat([s] + inner, outer);
    var a, b, c := Reached([s]), Reached(inner), Reached(outer);
    assert a == [s.next.id];
    ConcatAssoc(done, a + b, c);
    ConcatAssoc(done, a, b);
  }

  lemma WalkStepErrors(s: Step, inner: seq<Step>, outer: seq<Step>, f0: Option<Error>, wedding: map<Id, Result<int>>)
    ensures OrElse(f0, FirstWeddingError([s] + inner + outer, wedding))
            == OrElse(OrElse(OrElse(f0, FirstWeddingError([s], wedding)), FirstWeddingError(inner, wedding)),
                      FirstWeddingError(outer, wedding))
  {
    FirstWeddingErrorConcat([s], inner, wedding);
    FirstWeddingErrorConcat([s] + inner, outer, wedding);
  }
}
