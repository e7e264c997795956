/**
 * The graphviz layout of gramps_parser/render.py. It walks the tree like the
 * timeline does (seed, then child or partner, depth first), but every step
 * adds a family node and a person node to the de-duplicating lists, and the
 * row counter `ti` moves on twice per placed person. What it places is
 * proved to be the rounds of `GraphTraversal.GraphRoundsAsWritten`.
 */
module GraphRender {
  import opened Wrappers
  import opened Entities
  import opened TreeWalk
  import opened GraphNodes
  import opened GraphTraversal
  import Timeline

  // ---------------------------------------------------------------------
  // The renderer


  class GraphRender {
    const tree: GrampsTree
    /** `family.wedding_day` of every family: the day, or the error computing it raises. */
    const wedding: map<Id, Result<int>>
    /** `__unpined_person`: the ids of the persons without a node yet. */
    var pool: set<Id>
    /** `__ti`: the last row index handed out. */
    var ti: int
    var nodes: seq<Node>
    var edges: seq<Edge>
    /**
     * The error of the first family node whose wedding day raised: the
     * exception that ends the constructor. The walk does not read wedding
     * days, so going on with it changes nothing that is returned.
     */
    var failure: Option<Error>
    /** The rounds placed so far. */
    ghost var rounds: seq<GraphRound>
    /** Whether the loop ended with the TypeError of the seed's `min`. */
    var raised: bool

    ghost predicate Valid()
      reads this`pool, this`nodes, this`edges, this`ti, this`failure
    {
      && Walked(tree, wedding, pool, nodes, edges, ti)
      && (failure.None? ==> WeddingsOk(nodes))
    }

    /** Every person placed so far took two rows: a family's and their own. */
    ghost predicate Counted()
      reads this`nodes, this`ti
    {
      ti == 2 * |PersonIds(nodes)| - 1
    }

    /**
     * The constructor of `Render` up to its decor: the empty lists, then
     * the loop over the rounds. The rounds are those the program runs over
     * all persons, and `raised` whether the loop ended with TypeError.
     */
    constructor (tree: GrampsTree, wedding: map<Id, Result<int>>)
      requires Setup(tree, wedding)
      ensures this.tree == tree && this.wedding == wedding
      ensures Valid() && ti == 2 * |PersonIds(nodes)|
      ensures rounds == GraphRoundsAsWritten(tree, tree.persons.Keys).0
      ensures raised == GraphRoundsAsWritten(tree, tree.persons.Keys).1
      ensures PersonIds(nodes) == Placed(rounds)
      ensures failure == FirstWeddingError(AllSteps(rounds), wedding)
    {
      this.tree := tree;
      this.wedding := wedding;
      pool := tree.persons.Keys;
      ti := -1;
      nodes := [];
      edges := [];
      failure := None;
      rounds := [];
      raised := false;
      new;
      var r := PlaceAll();
      raised := r;
    }

    /** `__append_node`: the node is appended unless one with its id is there; a new person node takes its person from the pool. */
    method AppendNode(n: Node)
      requires n.PersonNode? && !Present(nodes, NodeId(n)) ==> NodeId(n) in pool
      modifies this`nodes, this`pool
      ensures nodes == WithNode(old(nodes), n)
      ensures pool == if n.PersonNode? && !Present(old(nodes), NodeId(n)) then old(pool) - {NodeId(n)} else old(pool)
    {
      var found := false;
      for i := 0 to |nodes|
        invariant found <==> exists j :: 0 <= j < i && NodeId(nodes[j]) == NodeId(n)
      {
        if NodeId(nodes[i]) == NodeId(n) {
          found := true;
        }
      }
      if !found {
        nodes := nodes + [n];
        if n.PersonNode? {
          pool := pool - {NodeId(n)};
        }
      }
    }

    /** `__append_edge`: the edge is appended unless one with the same two ends is there. */
    method AppendEdge(e: Edge)
      modifies this`edges
      ensures edges == WithEdge(old(edges), e)
    {
      var found := false;
      for i := 0 to |edges|
        invariant found <==> exists j :: 0 <= j < i && EdgeEq(edges[j], e)
      {
        if EdgeEq(edges[i], e) {
          found := true;
        }
      }
      if !found {
        edges := edges + [e];
      }
    }

    /**
     * The first half of `__add_first_child` or `__add_first_partner`: the
     * family node at the next row, built with its wedding day (whose error
     * is recorded if it is the first), and the edge from `person` to it.
     */
    method AddFamily(person: Person, s: Step)
      requires Setup(tree, wedding) && Valid() && Counted()
      requires s.family in wedding
      modifies this`ti, this`nodes, this`edges, this`pool, this`failure
      ensures Valid() && ti == old(ti) + 1 && pool == old(pool)
      ensures PersonIds(nodes) == PersonIds(old(nodes))
      ensures nodes == WithNode(old(nodes), FamilyNode(s.family, ti, wedding[s.family]))
      ensures edges == WithEdge(old(edges), Edge(person.id, Marriage, s.family))
      ensures failure == OrElse(old(failure), FirstWeddingError([s], wedding))
    {
      var w := wedding[s.family];
      if failure.None? && w.Err? {
        failure := Some(w.error);
      }
      var e := Edge(person.id, Marriage, s.family);
      ti := ti + 1;
      AppendNode(FamilyNode(s.family, ti, w));
      AppendEdge(e);
      FamilyStepped(tree, wedding, pool, old(nodes), old(edges), old(ti), s.family, e, nodes, edges);
      if failure.None? {
        WithNodeKeepsOk(old(nodes), FamilyNode(s.family, ti, w));
      }
      FirstOfOne(s, wedding);
    }

    /**
     * The second half: the edge from the person reached to the family, then
     * `__add_person_to_the_right`'s append of their node at the next row.
     */
    method AddReached(s: Step)
      requires Setup(tree, wedding) && Valid() && ti == 2 * |PersonIds(nodes)|
      requires s.next.id in pool
      modifies this`ti, this`nodes, this`edges, this`pool
      ensures Valid() && Counted()
      ensures ti == old(ti) + 1
      ensures pool == old(pool) - {s.next.id}
      ensures PersonIds(nodes) == PersonIds(old(nodes)) + [s.next.id]
      ensures nodes == WithNode(old(nodes), PersonNode(s.next, ti))
      ensures edges == WithEdge(old(edges), Edge(s.next.id, s.kind, s.family))
    {
      var e := Edge(s.next.id, s.kind, s.family);
      PoolNotPresent(tree, wedding, pool, nodes, edges, ti, s.next.id);
      ti := ti + 1;
      AppendEdge(e);
      AppendNode(PersonNode(s.next, ti));
      ReachedStepped(tree, wedding, old(pool), old(nodes), old(edges), old(ti), s.next, e, nodes, edges);
      if failure.None? {
        WithNodeKeepsOk(old(nodes), PersonNode(s.next, ti));
      }
    }

    /** One step from `person`: the family node and the reached person's node take the next two rows. */
    method TakeStep(person: Person, s: Step)
      requires Setup(tree, wedding) && Valid() && Counted()
      requires s.next.id in pool && s.family in wedding
      modifies this`ti, this`nodes, this`edges, this`pool, this`failure
      ensures Valid() && Counted()
      ensures pool == old(pool) - {s.next.id}
      ensures PersonIds(nodes) == PersonIds(old(nodes)) + [s.next.id]
      ensures failure == OrElse(old(failure), FirstWeddingError([s], wedding))
    {
      AddFamily(person, s);
      AddReached(s);
    }

    /** `__add_person_to_the_right`: take the next step from `person`, or report that there is none. */
    method AddPersonToTheRight(person: Person) returns (next: Option<Person>)
      requires Setup(tree, wedding) && Valid() && Counted()
      modifies this`ti, this`nodes, this`edges, this`pool, this`failure
      ensures Valid() && Counted()
      ensures next.None? <==> NextStep(tree, person, old(pool)).None?
      ensures next.None? ==> pool == old(pool) && nodes == old(nodes) && edges == old(edges) && ti == old(ti)
                             && failure == old(failure)
      ensures next.Some? ==> var s := NextStep(tree, person, old(pool)).value;
                             && next.value == s.next
                             && pool == old(pool) - {s.next.id} && s.next.id in old(pool)
                             && PersonIds(nodes) == PersonIds(old(nodes)) + [s.next.id]
                             && failure == OrElse(old(failure), FirstWeddingError([s], wedding))
    {
      var s := NextStep(tree, person, pool);
      if s.None? {
        return None;
      }
      TakeStep(person, s.value);
      next := Some(s.value.next);
    }

    /**
     * `__recursively_adding_person_to_the_right`: step from `person` and
     * walk on from whoever was reached, until `person` has no unplaced child
     * or partner left. The persons placed are those `GraphWalk` reaches, in
     * its order, and the first failing wedding day is its first.
     */
    method ExtendRight(person: Person)
      requires Setup(tree, wedding) && Valid() && Counted()
      modifies this`ti, this`nodes, this`edges, this`pool, this`failure
      ensures Valid() && Counted()
      ensures PersonIds(nodes) == PersonIds(old(nodes)) + Reached(GraphWalk(tree, person, old(pool)).0)
      ensures pool == GraphWalk(tree, person, old(pool)).1
      ensures failure == OrElse(old(failure), FirstWeddingError(GraphWalk(tree, person, old(pool)).0, wedding))
      decreases |pool|
    {
      while true
        invariant Valid() && Counted()
        invariant pool <= old(pool)
        invariant PersonIds(old(nodes)) + Reached(GraphWalk(tree, person, old(pool)).0)
                  == PersonIds(nodes) + Reached(GraphWalk(tree, person, pool).0)
        invariant GraphWalk(tree, person, old(pool)).1 == GraphWalk(tree, person, pool).1
        invariant OrElse(old(failure), FirstWeddingError(GraphWalk(tree, person, old(pool)).0, wedding))
                  == OrElse(failure, FirstWeddingError(GraphWalk(tree, person, pool).0, wedding))
        decreases |pool|
      {
        ghost var unplaced, before, f0 := pool, PersonIds(nodes), failure;
        ghost var s := NextStep(tree, person, pool);
        var next := AddPersonToTheRight(person);
        if next.None? {
          ConcatEmpty(PersonIds(nodes));
          break;
        }
        GraphWalkUnfolds(tree, person, unplaced, s.value);
        ghost var inner := GraphWalk(tree, s.value.next, unplaced - {s.value.next.id});
        SubsetSmaller(pool, old(pool) - {next.value.id});
        ExtendRight(next.value);
        SubsetSmaller(pool, unplaced - {next.value.id});
        WalkStepRegroups(before, s.value, inner.0, GraphWalk(tree, person, pool).0, f0, wedding);
      }
    }

    /**
     * The head of a round of the constructor's loop: the counter moves on,
     * and the seed is `__older_grandpa`, else `__older_grandma`, of the
     * pool, which raise TypeError when two or more candidates are left.
     * When it does not raise, it is the earliest-born man, else woman.
     */
    method NextRound() returns (seed: Result<Option<Person>>)
      requires Setup(tree, wedding) && Valid() && Counted()
      modifies this`ti
      ensures Valid() && ti == old(ti) + 1
      ensures seed == SeedAsWritten(PoolPersons(tree, pool))
      ensures seed.Ok? ==> seed.value == Patriarch(PoolPersons(tree, pool))
      ensures seed == Ok(None) ==> forall id :: id in pool ==> tree.persons[id].gender == Unknown
      ensures seed.Ok? && seed.value.Some? ==> seed.value.value.id in pool && tree.persons[seed.value.value.id] == seed.value.value
    {
      ti := ti + 1;
      var ps := PoolPersons(tree, pool);
      seed := SeedAsWritten(ps);
      if seed.Ok? {
        SeedAsWrittenAgrees(ps);
        if seed.value.None? {
          forall id | id in pool
            ensures tree.persons[id].gender == Unknown
          {
            assert tree.persons[id] in ps;
          }
        }
      }
    }

    /**
     * The rest of a round: the seed's node two rows after the previous one,
     * then the walk from it. The round is the seed and the steps
     * `GraphWalk` takes from it.
     */
    method Round(seed: Person) returns (ghost r: GraphRound)
      requires Setup(tree, wedding) && Valid() && ti == 2 * |PersonIds(nodes)|
      requires seed.id in pool && tree.persons[seed.id] == seed
      modifies this`ti, this`nodes, this`edges, this`pool, this`failure, this`rounds
      ensures Valid() && Counted()
      ensures r == GraphRound(seed, GraphWalk(tree, seed, old(pool) - {seed.id}).0)
      ensures PersonIds(nodes) == PersonIds(old(nodes)) + RoundIds(r)
      ensures pool == GraphWalk(tree, seed, old(pool) - {seed.id}).1
      ensures failure == OrElse(old(failure), FirstWeddingError(r.steps, wedding))
      ensures rounds == old(rounds) + [r]
    {
      ghost var w := GraphWalk(tree, seed, pool - {seed.id});
      PlaceSeed(seed);
      ExtendRight(seed);
      ConcatAssoc(PersonIds(old(nodes)), [seed.id], Reached(w.0));
      r := GraphRound(seed, w.0);
      rounds := rounds + [r];
    }

    /** The seed's node at the row after the counter. */
    method PlaceSeed(seed: Person)
      requires Setup(tree, wedding) && Valid() && ti == 2 * |PersonIds(nodes)|
      requires seed.id in pool
      modifies this`ti, this`nodes, this`pool
      ensures Valid() && Counted()
      ensures pool == old(pool) - {seed.id}
      ensures PersonIds(nodes) == PersonIds(old(nodes)) + [seed.id]
      ensures nodes == WithNode(old(nodes), PersonNode(seed, ti)) && ti == old(ti) + 1
    {
      PoolNotPresent(tree, wedding, pool, nodes, edges, ti, seed.id);
      ti := ti + 1;
      AppendNode(PersonNode(seed, ti));
      PersonStepped(tree, wedding, old(pool), old(nodes), edges, old(ti), seed, nodes);
      if failure.None? {
        WithNodeKeepsOk(old(nodes), PersonNode(seed, ti));
      }
    }

    /**
     * The loop so far, towards the rounds `target` the program runs: the
     * rounds placed are its first and it ends as the rest would, their ids are
     * the persons' nodes, and the failure recorded is their first.
     */
    ghost predicate Progress(target: (seq<GraphRound>, bool))
      reads this`rounds, this`pool, this`nodes, this`failure
    {
      && Keyed(tree.persons)
      && target.0 == rounds + GraphRoundsAsWritten(tree, pool).0
      && target.1 == GraphRoundsAsWritten(tree, pool).1
      && PersonIds(nodes) == Placed(rounds)
      && failure == FirstWeddingError(AllSteps(rounds), wedding)
    }

    /**
     * One round of the constructor's loop: the counter moves on, then the
     * seed is picked as the program does; when there is one, its node and
     * the walk from it follow. Otherwise the loop has run every round it
     * runs, and `seed` says whether it raised.
     */
    method RunRound(ghost target: (seq<GraphRound>, bool)) returns (seed: Result<Option<Person>>)
      requires Setup(tree, wedding) && Valid() && Counted() && Progress(target)
      modifies this`ti, this`nodes, this`edges, this`pool, this`failure, this`rounds
      ensures Valid() && Progress(target)
      ensures !(seed.Ok? && seed.value.Some?) ==>
                && ti == 2 * |PersonIds(nodes)|
                && target == (rounds, seed.Err?)
      ensures seed.Ok? && seed.value.Some? ==> Counted() && |pool| < |old(pool)|
    {
      seed := NextRound();
      AsWrittenUnfolds(tree, pool);
      if seed.Ok? && seed.value.Some? {
        PlaceRound(target, seed.value.value);
      } else {
        ConcatEmpty(rounds);
      }
    }

    /** The round of a seed the program picks, kept in step with the rounds it runs. */
    method PlaceRound(ghost target: (seq<GraphRound>, bool), seed: Person)
      requires Setup(tree, wedding) && Valid() && ti == 2 * |PersonIds(nodes)| && Progress(target)
      requires seed.id in pool && tree.persons[seed.id] == seed
      requires var w := GraphWalk(tree, seed, pool - {seed.id});
               GraphRoundsAsWritten(tree, pool)
               == ([GraphRound(seed, w.0)] + GraphRoundsAsWritten(tree, w.1).0, GraphRoundsAsWritten(tree, w.1).1)
      modifies this`ti, this`nodes, this`edges, this`pool, this`failure, this`rounds
      ensures Valid() && Counted() && Progress(target) && |pool| < |old(pool)|
    {
      ghost var done, ids, f := rounds, PersonIds(nodes), failure;
      var r := Round(seed);
      SubsetSmaller(pool, old(pool) - {seed.id});
      ProgressStep(wedding, target, done, GraphRoundsAsWritten(tree, old(pool)), GraphRoundsAsWritten(tree, pool),
                   ids, PersonIds(nodes), f, failure, r);
    }

    /**
     * The constructor's `while True` loop: each round moves the counter on,
     * then raises, stops when no man or woman is left unplaced, or places
     * the seed and walks on from it. The rounds are those the program runs
     * over the pool, and `raised` says whether the seed's `min` raised.
     */
    method PlaceAll() returns (raised: bool)
      requires Setup(tree, wedding) && Valid() && Counted()
      requires nodes == [] && rounds == [] && failure.None?
      modifies this`ti, this`nodes, this`edges, this`pool, this`failure, this`rounds
      ensures Valid() && ti == 2 * |PersonIds(nodes)|
      ensures rounds == GraphRoundsAsWritten(tree, old(pool)).0 && raised == GraphRoundsAsWritten(tree, old(pool)).1
      ensures PersonIds(nodes) == Placed(rounds)
      ensures failure == FirstWeddingError(AllSteps(rounds), wedding)
    {
      ghost var target := GraphRoundsAsWritten(tree, pool);
      ConcatEmpty(target.0);
      while true
        invariant Valid() && Counted() && Progress(target)
        decreases |pool|
      {
        var seed := RunRound(target);
        if !(seed.Ok? && seed.value.Some?) {
          raised := seed.Err?;
          break;
        }
      }
    }

    /**
     * The rest of the constructor once the loop is over: the exception of
     * the first failing family node, else the seed's TypeError, else the
     * decor, and the lists handed to graphviz.
     */
    method Finish(ghost weeks: map<Id, int>) returns (r: Result<Graph>)
      requires TreeReady(tree, weeks) && wedding == Timeline.Weddings(tree, weeks)
      requires Valid() && ti == 2 * |PersonIds(nodes)|
      modifies this`nodes, this`edges, this`pool
      ensures r.Err? <==> failure.Some? || raised
      ensures r.Err? ==> r.error == if failure.Some? then failure.value else TypeError
      ensures r.Ok? ==> && Drawn(tree, weeks, r.value)
                        && PersonIds(r.value.nodes) == old(PersonIds(nodes)) && r.value.ti == old(ti)
    {
      if failure.Some? {
        return Err(failure.value);
      }
      if raised {
        return Err(TypeError);
      }
      var g := Decorate(weeks);
      r := Ok(g);
    }

    /** The decor, then the lists handed to graphviz, drawn as `Drawn` says. */
    method Decorate(ghost weeks: map<Id, int>) returns (g: Graph)
      requires TreeReady(tree, weeks) && wedding == Timeline.Weddings(tree, weeks)
      requires Valid() && failure.None?
      modifies this`nodes, this`edges, this`pool
      ensures Drawn(tree, weeks, g)
      ensures PersonIds(g.nodes) == old(PersonIds(nodes)) && g.ti == ti
    {
      ghost var walked, walkedEdges, left := nodes, edges, pool;
      assert Walked(tree, Timeline.Weddings(tree, weeks), left, walked, walkedEdges, ti) && WeddingsOk(walked);
      AddDecor();
      DecoratedDrawn(tree, weeks, left, walked, walkedEdges, ti);
      NotesKeepPersons(walked, nodes);
      g := Graph(nodes, edges, ti);
    }

    /** `__add_hline`: a note above the first row, one two rows below the last, and a line between. */
    method AddHline(day: int, title: string)
      modifies this`nodes, this`edges, this`pool
      ensures nodes == HlineNodes(old(nodes), day, title, ti)
      ensures edges == HlineEdges(old(edges), title, ti)
      ensures pool == old(pool)
    {
      var n1 := NoteNode(title, -2, day);
      var n2 := NoteNode(title, ti + 2, day);
      AppendNode(n1);
      AppendNode(n2);
      AppendEdge(Edge(NodeId(n1), Simple, NodeId(n2)));
    }

    /** `__add_decor`: the six lines of `Decor`, one after another. */
    method AddDecor()
      modifies this`nodes, this`edges, this`pool
      ensures nodes == Decorated(old(nodes), Decor, ti)
      ensures edges == DecoratedEdges(old(edges), Decor, ti)
    {
      ghost var n0, e0 := nodes, edges;
      for k := 0 to |Decor|
        invariant nodes == Decorated(n0, Decor[..k], ti)
        invariant edges == DecoratedEdges(e0, Decor[..k], ti)
      {
        AddHline(Decor[k].0, Decor[k].1);
        DecoratedSnoc(n0, e0, Decor, k, ti);
      }
      assert Decor[..|Decor|] == Decor;
    }
  }

  /**
   * A round the loop runs keeps it in step with the rounds the program
   * runs: `run0` is what the program does from the pool before the round,
   * `run` what it does from the pool after it.
   */
  lemma ProgressStep(wedding: map<Id, Result<int>>, target: (seq<GraphRound>, bool), done: seq<GraphRound>,
                     run0: (seq<GraphRound>, bool), run: (seq<GraphRound>, bool),
                     ids0: seq<Id>, ids: seq<Id>, f0: Option<Error>, f: Option<Error>, r: GraphRound)
    requires target.0 == done + run0.0 && target.1 == run0.1
    requires run0 == ([r] + run.0, run.1)
    requires ids0 == Placed(done) && f0 == FirstWeddingError(AllSteps(done), wedding)
    requires ids == ids0 + RoundIds(r) && f == OrElse(f0, FirstWeddingError(r.steps, wedding))
    ensures target.0 == (done + [r]) + run.0 && target.1 == run.1
    ensures ids == Placed(done + [r]) && f == FirstWeddingError(AllSteps(done + [r]), wedding)
  {
    RoundsSnoc(done, r, run.0, wedding);
  }

  /** The lists the constructor hands to graphviz, and the last row index. */
  datatype Graph = Graph(nodes: seq<Node>, edges: seq<Edge>, ti: int)

  /** What the constructor raises is a seed's TypeError or a wedding day's ValueError or OverflowError. */
  lemma OutcomeErrors(tree: GrampsTree, weeks: map<Id, int>)
    requires TreeReady(tree, weeks)
    ensures var o := GraphOutcome(tree, Timeline.Weddings(tree, weeks), tree.persons.Keys);
            o.Some? ==> o.value in {TypeError, ValueError, OverflowError}
  {
    var wedding := Timeline.Weddings(tree, weeks);
    forall fid | fid in wedding && wedding[fid].Err?
      ensures wedding[fid].error in {TypeError, ValueError, OverflowError}
    {
      Timeline.WeddingErrors(tree, weeks, fid);
    }
    FirstWeddingErrorIn(AllSteps(GraphRoundsAsWritten(tree, tree.persons.Keys).0), wedding, {TypeError, ValueError, OverflowError});
  }

  /**
   * What the constructor hands to graphviz when it does not raise: the
   * persons placed are those of the intended rounds, in their order, so
   * every man and woman exactly once, and the counter ends at twice the
   * persons placed; and the drawing is `Drawn`.
   */
  ghost predicate Laid(tree: GrampsTree, weeks: map<Id, int>, g: Graph)
    requires TreeReady(tree, weeks)
  {
    var placed := PersonIds(g.nodes);
    && placed == Placed(GraphRounds(tree, tree.persons.Keys))
    && NoDuplicates(placed)
    && (forall id :: id in placed ==> id in tree.persons)
    && (forall id :: id in tree.persons && tree.persons[id].gender != Unknown ==> id in placed)
    && g.ti == 2 * |placed|
    && Drawn(tree, weeks, g)
  }

  /**
   * Ids and edges are distinct, person rows grow in placement order, every
   * family node sits at its family's wedding day, and both notes of every
   * decor line are present.
   */
  ghost predicate Drawn(tree: GrampsTree, weeks: map<Id, int>, g: Graph)
    requires TreeReady(tree, weeks)
  {
    && DistinctIds(g.nodes) && DistinctEdges(g.edges)
    && (forall i, j :: 0 <= i < j < |g.nodes| && g.nodes[i].PersonNode? && g.nodes[j].PersonNode?
          ==> NodeY(g.nodes[i]) < NodeY(g.nodes[j]))
    && (forall i :: 0 <= i < |g.nodes| && g.nodes[i].FamilyNode? ==>
          var fid := g.nodes[i].family;
          fid in tree.families && g.nodes[i].wedding.Ok?
          && g.nodes[i].wedding == WeddingDay(tree.families[fid], tree.persons, weeks[fid]))
    && (forall k :: 0 <= k < |Decor| ==> Present(g.nodes, Decor[k].1 + "-2") && Present(g.nodes, Decor[k].1 + IntText(g.ti + 2)))
  }

  /** The walk's nodes once the decor is added are drawn as `Drawn` says. */
  lemma DecoratedDrawn(tree: GrampsTree, weeks: map<Id, int>, pool: set<Id>, walked: seq<Node>, walkedEdges: seq<Edge>, ti: int)
    requires TreeReady(tree, weeks)
    requires Walked(tree, Timeline.Weddings(tree, weeks), pool, walked, walkedEdges, ti) && WeddingsOk(walked)
    ensures Drawn(tree, weeks, Graph(Decorated(walked, Decor, ti), DecoratedEdges(walkedEdges, Decor, ti), ti))
    ensures walked <= Decorated(walked, Decor, ti)
    ensures forall i :: |walked| <= i < |Decorated(walked, Decor, ti)| ==> Decorated(walked, Decor, ti)[i].NoteNode?
  {
    var wedding := Timeline.Weddings(tree, weeks);
    var nodes := Decorated(walked, Decor, ti);
    DecorKeeps(walked, walkedEdges, Decor, ti);
    NotesAfter(walked, nodes, wedding, ti);
  }

  /** Notes appended after the walk's nodes leave its person rows ascending and its family nodes as they were. */
  lemma NotesAfter(walked: seq<Node>, nodes: seq<Node>, wedding: map<Id, Result<int>>, ti: int)
    requires walked <= nodes && forall i :: |walked| <= i < |nodes| ==> nodes[i].NoteNode?
    requires Rows(walked, ti) && Kinds(walked, wedding) && WeddingsOk(walked)
    ensures forall i, j :: 0 <= i < j < |nodes| && nodes[i].PersonNode? && nodes[j].PersonNode?
              ==> NodeY(nodes[i]) < NodeY(nodes[j])
    ensures forall i :: 0 <= i < |nodes| && nodes[i].FamilyNode? ==> FamilyKnown(nodes[i], wedding) && nodes[i].wedding.Ok?
  {
    forall i | 0 <= i < |walked|
      ensures walked[i] == nodes[i]
    {
      assert nodes[..|walked|] == walked;
      assert nodes[..|walked|][i] == nodes[i];
    }
  }

  /**
   * The constructor of `Render` up to graphviz. It raises what
   * `GraphOutcome` says: the first family node's failing wedding day, else
   * the TypeError of the seed's `min`. Otherwise it places the intended
   * rounds, so every man and woman gets exactly one node, in the order of
   * the rounds; persons' rows grow in placement order, the counter ends at
   * twice the persons placed, every family node sits at its family's
   * wedding day, and the decor notes sit two rows above the first row and
   * two rows below the last.
   */
  method RenderGraph(tree: GrampsTree, weeks: map<Id, int>) returns (r: Result<Graph>)
    requires TreeReady(tree, weeks)
    ensures r.Err? <==> GraphOutcome(tree, Timeline.Weddings(tree, weeks), tree.persons.Keys).Some?
    ensures r.Err? ==> GraphOutcome(tree, Timeline.Weddings(tree, weeks), tree.persons.Keys) == Some(r.error)
                       && r.error in {TypeError, ValueError, OverflowError}
    ensures r.Ok? ==> Laid(tree, weeks, r.value)
  {
    var wedding := Timeline.Weddings(tree, weeks);
    ReadyIsSetup(tree, weeks);
    OutcomeErrors(tree, weeks);
    var render := new GraphRender(tree, wedding);
    AsWrittenAgrees(tree, tree.persons.Keys);
    r := render.Finish(weeks);
    if r.Ok? {
      GraphRoundsPlaceEachOnce(tree, tree.persons.Keys);
    }
  }
}
