/**
 * The values of the graphviz layout of gramps_parser/render.py: its nodes
 * and edges, the lists that refuse a second node with the same id or a
 * second edge between the same two ends, the walk's queries, and what the
 * walk keeps true of its lists.
 */
module GraphNodes {
  import opened Wrappers
  import opened Dates
  import opened Entities
  import opened TreeWalk
  import Timeline

  const DayInCentury: int := 360 * 100
  const YStep: real := 0.1
  const NodeHeight: real := 0.15
  const XScale: real := 7.0

  // ---------------------------------------------------------------------
  // Nodes and edges

  /**
   * A graph node: its kind's data and the row index it was created with. A
   * family node holds its family's wedding day, or the error computing it
   * raises.
   */
  datatype Node =
    | PersonNode(person: Person, index: int)
    | FamilyNode(family: Id, index: int, wedding: Result<int>)
    | NoteNode(caption: string, index: int, day: int)

  function Digit(d: nat): char
    requires d < 10
  {
    ('0' as int + d) as char
  }

  /** `str` of a natural number: its decimal digits, most significant first. */
  function NatText(n: nat): (s: string)
    ensures |s| > 0 && forall i :: 0 <= i < |s| ==> '0' <= s[i] <= '9'
  {
    if n < 10 then [Digit(n)] else NatText(n / 10) + [Digit(n % 10)]
  }

  /** The number `NatText` writes: reading the digits back gives `n`. */
  function DigitsValue(s: string): int {
    if |s| == 0 then 0 else 10 * DigitsValue(s[..|s| - 1]) + (s[|s| - 1] as int - '0' as int)
  }

  lemma {:induction false} NatTextReads(n: nat)
    ensures DigitsValue(NatText(n)) == n
  {
    if n >= 10 {
      NatTextReads(n / 10);
      var s := NatText(n);
      assert s[..|s| - 1] == NatText(n / 10);
    }
  }

  /** `str` of an integer: a minus sign for a negative one. */
  function IntText(i: int): (s: string)
    ensures |s| > 0 && (s[0] == '-' <==> i < 0)
  {
    if i < 0 then "-" + NatText(-i) else NatText(i)
  }

  /** `Node._id`: the person's id, the family's id, or a note's title followed by its row. */
  function NodeId(n: Node): Id {
    match n
    case PersonNode(p, _) => p.id
    case FamilyNode(f, _, _) => f
    case NoteNode(text, row, _) => text + IntText(row)
  }

  /** `Node._compute_x_pos`: days from `today` in units of seven per century of 360-day years. */
  function XAt(day: int, today: int): real {
    XScale * (day - today) as real / DayInCentury as real
  }

  function NodeY(n: Node): real {
    n.index as real * YStep
  }

  /** A person at mid-life, a family at its wedding day, a note at its date. */
  function NodeX(n: Node, today: int): real
    requires n.FamilyNode? ==> n.wedding.Ok?
  {
    match n
    case PersonNode(p, _) => XAt(MidLife(p), today)
    case FamilyNode(_, _, w) => XAt(w.value, today)
    case NoteNode(_, _, d) => XAt(d, today)
  }

  /** A person's box is as wide as the scaled days of its life. */
  function PersonBoxWidth(p: Person): real {
    XScale * DaysOfLife(p) as real / DayInCentury as real
  }

  /** Later days lie further right. */
  lemma XAtAscends(d1: int, d2: int, today: int)
    requires d1 < d2
    ensures XAt(d1, today) < XAt(d2, today)
  {
  }

  /**
   * A person's box, centred at mid-life, starts at the birth and ends at the
   * death, up to the half day `mid_life` drops.
   */
  lemma PersonBoxSpansLife(p: Person, today: int)
    ensures var x := NodeX(PersonNode(p, 0), today);
            var w := PersonBoxWidth(p);
            var slack := XScale / (2 * DayInCentury) as real;
            && XAt(p.birth.ordinal, today) - slack <= x - w / 2.0 <= XAt(p.birth.ordinal, today)
            && XAt(p.death.ordinal, today) - slack <= x + w / 2.0 <= XAt(p.death.ordinal, today)
  {
    var m := MidLife(p) - p.birth.ordinal;
    var n := DaysOfLife(p);
    assert 2 * m <= n < 2 * m + 2;
    var c := XScale / DayInCentury as real;
    assert NodeX(PersonNode(p, 0), today) == c * (MidLife(p) - today) as real;
    assert PersonBoxWidth(p) == c * n as real;
    assert XAt(p.birth.ordinal, today) == c * (p.birth.ordinal - today) as real;
    assert XAt(p.death.ordinal, today) == c * (p.death.ordinal - today) as real;
  }

  /** An edge from `first` to `other`: a marriage or birth link to a family node, or a decor line. */
  datatype Edge = Edge(first: Id, kind: RelationType, other: Id)

  /** The arrowhead of an edge by the code of its relation type; a code of no type raises ValueError. */
  function ArrowOfCode(code: int): (r: Result<string>)
    ensures r.Ok? <==> exists t :: RelationTypeCode(t) == code
    ensures r.Err? ==> r.error == ValueError
    ensures r.Ok? ==> (r.value == "vee" <==> code == RelationTypeCode(BirthFrom))
    ensures r.Ok? ==> (r.value == "none" <==> code != RelationTypeCode(BirthFrom))
  {
    if code == 2 then assert RelationTypeCode(BirthFrom) == code; Ok("vee")
    else if code == 1 then assert RelationTypeCode(Marriage) == code; Ok("none")
    else if code == 3 then assert RelationTypeCode(Simple) == code; Ok("none")
    else
      assert forall t :: RelationTypeCode(t) != code;
      Err(ValueError)
  }

  function Arrow(kind: RelationType): (a: string)
    ensures ArrowOfCode(RelationTypeCode(kind)) == Ok(a)
  {
    if kind == BirthFrom then "vee" else "none"
  }

  /** `Edge.__eq__`: the two ends only; the relation type is not compared. */
  function EdgeEq(a: Edge, b: Edge): bool {
    a.first == b.first && a.other == b.other
  }

  /** An edge as graphviz is given it: the tail is `other`, the head is `first`. */
  datatype DotEdge = DotEdge(tail: Id, head: Id, arrowhead: string)

  function ToDotEdge(e: Edge): (r: DotEdge)
    ensures r.tail == e.other && r.head == e.first
    ensures r.arrowhead == "vee" <==> e.kind == BirthFrom
  {
    DotEdge(e.other, e.first, Arrow(e.kind))
  }

  predicate Present(nodes: seq<Node>, id: Id) {
    exists i :: 0 <= i < |nodes| && NodeId(nodes[i]) == id
  }

  /** `__append_node` on the node list: a node whose id is already there is dropped. */
  function WithNode(nodes: seq<Node>, n: Node): seq<Node> {
    if Present(nodes, NodeId(n)) then nodes else nodes + [n]
  }

  predicate DistinctIds(nodes: seq<Node>) {
    forall i, j :: 0 <= i < j < |nodes| ==> NodeId(nodes[i]) != NodeId(nodes[j])
  }

  /** Appending keeps ids distinct, leaves the id present, and appending the same node again changes nothing. */
  lemma WithNodeKeepsDistinct(nodes: seq<Node>, n: Node)
    requires DistinctIds(nodes)
    ensures DistinctIds(WithNode(nodes, n))
    ensures Present(WithNode(nodes, n), NodeId(n))
    ensures WithNode(WithNode(nodes, n), n) == WithNode(nodes, n)
    ensures forall id :: Present(nodes, id) ==> Present(WithNode(nodes, n), id)
  {
    if !Present(nodes, NodeId(n)) {
      assert NodeId((nodes + [n])[|nodes|]) == NodeId(n);
      forall id | Present(nodes, id)
        ensures Present(nodes + [n], id)
      {
        var i :| 0 <= i < |nodes| && NodeId(nodes[i]) == id;
        assert (nodes + [n])[i] == nodes[i];
      }
    }
  }

  predicate EdgePresent(edges: seq<Edge>, e: Edge) {
    exists i :: 0 <= i < |edges| && EdgeEq(edges[i], e)
  }

  /** `__append_edge` on the edge list: an edge equal to one already there is dropped. */
  function WithEdge(edges: seq<Edge>, e: Edge): seq<Edge> {
    if EdgePresent(edges, e) then edges else edges + [e]
  }

  predicate DistinctEdges(edges: seq<Edge>) {
    forall i, j :: 0 <= i < j < |edges| ==> !EdgeEq(edges[i], edges[j])
  }

  /** No two edges join the same two ends, and appending the same edge again changes nothing. */
  lemma WithEdgeKeepsDistinct(edges: seq<Edge>, e: Edge)
    requires DistinctEdges(edges)
    ensures DistinctEdges(WithEdge(edges, e))
    ensures EdgePresent(WithEdge(edges, e), e)
    ensures WithEdge(WithEdge(edges, e), e) == WithEdge(edges, e)
  {
    if !EdgePresent(edges, e) {
      assert EdgeEq((edges + [e])[|edges|], e);
    }
  }

  /** The ids of the person nodes, in list order. */
  function PersonIds(nodes: seq<Node>): seq<Id> {
    if |nodes| == 0 then []
    else
      var n := |nodes| - 1;
      PersonIds(nodes[..n]) + (if nodes[n].PersonNode? then [nodes[n].person.id] else [])
  }

  lemma PersonIdsSnoc(nodes: seq<Node>, n: Node)
    ensures PersonIds(nodes + [n]) == PersonIds(nodes) + (if n.PersonNode? then [n.person.id] else [])
  {
    assert (nodes + [n])[..|nodes|] == nodes;
  }

  /** A walk's list holds only person nodes and family nodes of known families, each with its family's wedding day. */
  ghost predicate Kinds(nodes: seq<Node>, wedding: map<Id, Result<int>>) {
    forall i :: 0 <= i < |nodes| ==> !nodes[i].NoteNode? && (nodes[i].FamilyNode? ==> FamilyKnown(nodes[i], wedding))
  }

  predicate FamilyKnown(n: Node, wedding: map<Id, Result<int>>)
    requires n.FamilyNode?
  {
    n.family in wedding && n.wedding == wedding[n.family]
  }

  /** No family node holds a failed wedding day. */
  ghost predicate WeddingsOk(nodes: seq<Node>) {
    forall i :: 0 <= i < |nodes| && nodes[i].FamilyNode? ==> nodes[i].wedding.Ok?
  }

  /** Appending a person, a note or a family whose day was computed keeps every day computed. */
  lemma WithNodeKeepsOk(nodes: seq<Node>, n: Node)
    requires WeddingsOk(nodes)
    requires n.FamilyNode? ==> n.wedding.Ok?
    ensures WeddingsOk(WithNode(nodes, n))
  {
    if !Present(nodes, NodeId(n)) {
      forall i | 0 <= i < |nodes| + 1 && (nodes + [n])[i].FamilyNode?
        ensures (nodes + [n])[i].wedding.Ok?
      {
        if i < |nodes| {
          assert (nodes + [n])[i] == nodes[i];
        }
      }
    }
  }

  /** Rows strictly ascend along the list, and none is past `ti`. */
  ghost predicate Rows(nodes: seq<Node>, ti: int) {
    && (forall i, j :: 0 <= i < j < |nodes| ==> nodes[i].index < nodes[j].index)
    && (forall i :: 0 <= i < |nodes| ==> nodes[i].index <= ti)
  }

  /** A person or known family's node at the row after `ti` keeps both shapes. */
  lemma ShapeSnoc(nodes: seq<Node>, n: Node, wedding: map<Id, Result<int>>, ti: int)
    requires Kinds(nodes, wedding) && Rows(nodes, ti)
    requires !n.NoteNode? && (n.FamilyNode? ==> FamilyKnown(n, wedding)) && n.index == ti + 1
    ensures Kinds(nodes + [n], wedding) && Rows(nodes + [n], ti + 1)
  {
    var after := nodes + [n];
    forall i | 0 <= i < |after|
      ensures after[i].index <= ti + 1
      ensures !after[i].NoteNode? && (after[i].FamilyNode? ==> FamilyKnown(after[i], wedding))
      ensures i < |nodes| ==> after[i].index <= ti
    {
      if i < |nodes| {
        assert after[i] == nodes[i];
      }
    }
  }

  /** A node of a walk is a placed person or a known family. */
  lemma {:induction false} PresentIsPersonOrFamily(nodes: seq<Node>, wedding: map<Id, Result<int>>, id: Id)
    requires Kinds(nodes, wedding)
    requires Present(nodes, id)
    ensures id in PersonIds(nodes) || id in wedding
  {
    var n := |nodes| - 1;
    if NodeId(nodes[n]) != id {
      var i :| 0 <= i < |nodes| && NodeId(nodes[i]) == id;
      assert nodes[..n][i] == nodes[i];
      PresentIsPersonOrFamily(nodes[..n], wedding, id);
    }
  }

  // ---------------------------------------------------------------------
  // The walk's queries

  /** A BIRTH_FROM relation naming `pid` as parent whose child is still unplaced. */
  predicate ChildVia(rel: Relation, pid: Id, persons: map<Id, Person>, pool: set<Id>) {
    rel.kind == BirthFrom && rel.other == pid && rel.first in pool && rel.first in persons
  }

  /** A MARRIAGE relation with `pid` on one side and an unplaced person on the other. */
  predicate MarriedVia(rel: Relation, pid: Id, persons: map<Id, Person>, pool: set<Id>) {
    var o := PartnerId(rel, pid);
    o.Some? && o.value in pool && o.value in persons
  }

  /** The position of the first child relation `__get_first_child` stops at; `|rels|` if none. */
  function FirstChildAt(rels: seq<Relation>, pid: Id, persons: map<Id, Person>, pool: set<Id>): (k: nat)
    ensures k <= |rels|
    ensures k < |rels| ==> ChildVia(rels[k], pid, persons, pool)
    ensures forall j :: 0 <= j < k ==> !ChildVia(rels[j], pid, persons, pool)
  {
    if |rels| == 0 then 0
    else
      var n := |rels| - 1;
      var k := FirstChildAt(rels[..n], pid, persons, pool);
      assert forall j :: 0 <= j < n ==> rels[..n][j] == rels[j];
      if k < n then k else if ChildVia(rels[n], pid, persons, pool) then n else |rels|
  }

  /** The position of the relation giving `partners[0]` in `__get_partners`; `|rels|` if none. */
  function FirstPartnerAt(rels: seq<Relation>, pid: Id, persons: map<Id, Person>, pool: set<Id>): (k: nat)
    ensures k <= |rels|
    ensures k < |rels| ==> MarriedVia(rels[k], pid, persons, pool)
    ensures forall j :: 0 <= j < k ==> !MarriedVia(rels[j], pid, persons, pool)
  {
    if |rels| == 0 then 0
    else
      var n := |rels| - 1;
      var k := FirstPartnerAt(rels[..n], pid, persons, pool);
      assert forall j :: 0 <= j < n ==> rels[..n][j] == rels[j];
      if k < n then k else if MarriedVia(rels[n], pid, persons, pool) then n else |rels|
  }

  /** One step to the right: the person reached, the family they are reached through, and how. */
  datatype Step = Step(next: Person, family: Id, kind: RelationType)

  /**
   * `__add_person_to_the_right`'s choice: the first unplaced child in
   * relation order, otherwise the first unplaced partner, otherwise nobody.
   */
  function NextStep(t: GrampsTree, person: Person, pool: set<Id>): (r: Option<Step>)
    requires Keyed(t.persons)
    ensures r.None? <==>
              (forall k :: 0 <= k < |t.relations| ==> !ChildVia(t.relations[k], person.id, t.persons, pool))
              && (forall k :: 0 <= k < |t.relations| ==> !MarriedVia(t.relations[k], person.id, t.persons, pool))
    ensures r.Some? ==> r.value.next.id in pool && r.value.next.id in t.persons && t.persons[r.value.next.id] == r.value.next
    ensures r.Some? ==> exists k :: 0 <= k < |t.relations| && r.value.family == t.relations[k].family
    ensures (exists k :: 0 <= k < |t.relations| && ChildVia(t.relations[k], person.id, t.persons, pool))
            ==> r.Some? && r.value.kind == BirthFrom
    ensures r.Some? && r.value.kind != BirthFrom ==> r.value.kind == Marriage
  {
    var rels := t.relations;
    var c := FirstChildAt(rels, person.id, t.persons, pool);
    if c < |rels| then Some(Step(t.persons[rels[c].first], rels[c].family, BirthFrom))
    else
      var m := FirstPartnerAt(rels, person.id, t.persons, pool);
      if m < |rels| then
        var o := PartnerId(rels[m], person.id).value;
        Some(Step(t.persons[o], rels[m].family, Marriage))
      else None
  }

  // ---------------------------------------------------------------------
  // The seed, as written and as intended

  /**
   * `min(candidates, key=attrgetter('birth_day'))` with the parser's `Date`,
   * which defines no order: one candidate is returned without a comparison,
   * two or more raise TypeError.
   */
  function MinByBirthAsWritten(candidates: seq<Person>): (r: Result<Option<Person>>)
    ensures r.Err? <==> |candidates| >= 2
    ensures r.Err? ==> r.error == TypeError
    ensures r.Ok? ==> (r.value.None? <==> |candidates| == 0)
    ensures r.Ok? && r.value.Some? ==> r.value.value in candidates
  {
    if |candidates| == 0 then Ok(None)
    else if |candidates| == 1 then Ok(Some(candidates[0]))
    else Err(TypeError)
  }

  /** `__older_grandpa`, then `__older_grandma`, as written. */
  function SeedAsWritten(ps: seq<Person>): (r: Result<Option<Person>>) {
    var man :- MinByBirthAsWritten(OfGender(ps, Male));
    if man.Some? then Ok(man) else MinByBirthAsWritten(OfGender(ps, Female))
  }

  /** Where the seed as written does not raise, it is the earliest-born man, else woman. */
  lemma SeedAsWrittenAgrees(ps: seq<Person>)
    requires SeedAsWritten(ps).Ok?
    ensures SeedAsWritten(ps).value == Patriarch(ps)
  {
    var men := OfGender(ps, Male);
    if |men| == 1 {
      assert forall p :: p in ps && p.gender == Male ==> p == men[0];
    } else {
      var women := OfGender(ps, Female);
      if |women| == 1 {
        assert forall p :: p in ps && p.gender == Female ==> p == women[0];
      }
    }
  }

  /** Two unplaced men: the walk as written stops with TypeError before placing anybody. */
  lemma TwoMenRaise()
    ensures var a := Person("I1", "A", "", Date(1, Exactly), Date(2, Exactly), Male, [], [], []);
            var b := Person("I2", "B", "", Date(3, Exactly), Date(4, Exactly), Male, [], [], []);
            SeedAsWritten([a, b]) == Err(TypeError) && Patriarch([a, b]) == Some(a)
  {
    var a := Person("I1", "A", "", Date(1, Exactly), Date(2, Exactly), Male, [], [], []);
    var b := Person("I2", "B", "", Date(3, Exactly), Date(4, Exactly), Male, [], [], []);
    assert [b][1..] == [];
    assert OfGender([b], Male) == [b] + OfGender([], Male) == [b];
    assert [a, b][1..] == [b];
    assert OfGender([a, b], Male) == [a] + OfGender([b], Male) == [a, b];
    var man := EarliestOfGender([a, b], Male);
    assert man.Some? && man.value in [a, b];
    assert man.value != b by {
      assert Born(a) < Born(b);
    }
  }

  // ---------------------------------------------------------------------
  // State of the walk

  /**
   * What the loaded database guarantees the render: persons keyed by id and
   * iterated in `order`, every relation's family loaded, no family sharing
   * an id with a person, and a draw of extra weeks for every family.
   */
  ghost predicate TreeReady(tree: GrampsTree, weeks: map<Id, int>) {
    && Keyed(tree.persons)
    && (forall id :: id in tree.persons <==> id in tree.order)
    && (forall k :: 0 <= k < |tree.relations| ==> tree.relations[k].family in tree.families)
    && (forall fid :: fid in tree.families ==> fid !in tree.persons)
    && Timeline.WeeksFit(tree, weeks)
  }

  /** What the walk relies on: the tree as loaded and a wedding day, or its error, for every relation's family. */
  ghost predicate Setup(tree: GrampsTree, wedding: map<Id, Result<int>>) {
    && Keyed(tree.persons)
    && (forall id :: id in tree.persons <==> id in tree.order)
    && (forall k :: 0 <= k < |tree.relations| ==> tree.relations[k].family in wedding)
    && (forall fid :: fid in wedding ==> fid !in tree.persons)
  }

  /** The wedding days `Family.wedding_day` computes for a ready tree are what the walk relies on. */
  lemma ReadyIsSetup(tree: GrampsTree, weeks: map<Id, int>)
    requires TreeReady(tree, weeks)
    ensures Setup(tree, Timeline.Weddings(tree, weeks))
  {
  }

  /**
   * The lists while walking: every person is placed (has a node) or in the
   * pool, node ids and edge ends are distinct, and rows ascend up to `ti`.
   */
  ghost predicate Walked(tree: GrampsTree, wedding: map<Id, Result<int>>, pool: set<Id>, nodes: seq<Node>, edges: seq<Edge>, ti: int) {
    && Timeline.Partitioned(tree.persons, pool, PersonIds(nodes))
    && DistinctIds(nodes) && DistinctEdges(edges)
    && Kinds(nodes, wedding)
    && Rows(nodes, ti)
  }

  /** A family node at the next row: nobody is placed, and the walk's shape is kept. */
  lemma FamilyAdded(tree: GrampsTree, wedding: map<Id, Result<int>>, pool: set<Id>, nodes: seq<Node>, edges: seq<Edge>, ti: int, fid: Id)
    requires Walked(tree, wedding, pool, nodes, edges, ti)
    requires fid in wedding
    ensures Walked(tree, wedding, pool, WithNode(nodes, FamilyNode(fid, ti + 1, wedding[fid])), edges, ti + 1)
    ensures PersonIds(WithNode(nodes, FamilyNode(fid, ti + 1, wedding[fid]))) == PersonIds(nodes)
  {
    var n := FamilyNode(fid, ti + 1, wedding[fid]);
    if Present(nodes, fid) {
      assert WithNode(nodes, n) == nodes;
      assert Rows(nodes, ti + 1);
    } else {
      FamilyAppended(tree, wedding, pool, nodes, edges, ti, n);
    }
  }

  /** The family node appended when its family has no node yet. */
  lemma FamilyAppended(tree: GrampsTree, wedding: map<Id, Result<int>>, pool: set<Id>, nodes: seq<Node>, edges: seq<Edge>, ti: int, n: Node)
    requires Walked(tree, wedding, pool, nodes, edges, ti)
    requires n.FamilyNode? && FamilyKnown(n, wedding) && n.index == ti + 1 && !Present(nodes, n.family)
    ensures Walked(tree, wedding, pool, nodes + [n], edges, ti + 1)
    ensures PersonIds(nodes + [n]) == PersonIds(nodes)
  {
    WithNodeKeepsDistinct(nodes, n);
    PersonIdsSnoc(nodes, n);
    ShapeSnoc(nodes, n, wedding, ti);
  }

  /**
   * A family node at the next row together with the edge to it, stated of
   * the lists after the appends: the walk stays well formed and nobody new
   * is placed.
   */
  lemma FamilyStepped(tree: GrampsTree, wedding: map<Id, Result<int>>, pool: set<Id>, nodes0: seq<Node>, edges0: seq<Edge>, ti0: int,
                      fid: Id, e: Edge, nodes: seq<Node>, edges: seq<Edge>)
    requires Walked(tree, wedding, pool, nodes0, edges0, ti0)
    requires fid in wedding
    requires nodes == WithNode(nodes0, FamilyNode(fid, ti0 + 1, wedding[fid])) && edges == WithEdge(edges0, e)
    ensures Walked(tree, wedding, pool, nodes, edges, ti0 + 1)
    ensures PersonIds(nodes) == PersonIds(nodes0)
  {
    FamilyAdded(tree, wedding, pool, nodes0, edges0, ti0, fid);
    EdgeAdded(tree, wedding, pool, nodes, edges0, ti0 + 1, e);
  }

  /** An unplaced person has no node yet. */
  lemma PoolNotPresent(tree: GrampsTree, wedding: map<Id, Result<int>>, pool: set<Id>, nodes: seq<Node>, edges: seq<Edge>, ti: int, id: Id)
    requires forall fid :: fid in wedding ==> fid !in tree.persons
    requires Walked(tree, wedding, pool, nodes, edges, ti)
    requires id in pool
    ensures !Present(nodes, id)
  {
    if Present(nodes, id) {
      PresentIsPersonOrFamily(nodes, wedding, id);
      assert false;
    }
  }

  /**
   * The edge from a reached person to the family, then their node at the
   * next row, stated of the lists after the appends: the person leaves the
   * pool and joins the placed persons.
   */
  lemma ReachedStepped(tree: GrampsTree, wedding: map<Id, Result<int>>, pool: set<Id>, nodes0: seq<Node>, edges0: seq<Edge>, ti0: int,
                       p: Person, e: Edge, nodes: seq<Node>, edges: seq<Edge>)
    requires forall fid :: fid in wedding ==> fid !in tree.persons
    requires Walked(tree, wedding, pool, nodes0, edges0, ti0)
    requires p.id in pool
    requires edges == WithEdge(edges0, e) && nodes == WithNode(nodes0, PersonNode(p, ti0 + 1))
    ensures Walked(tree, wedding, pool - {p.id}, nodes, edges, ti0 + 1)
    ensures PersonIds(nodes) == PersonIds(nodes0) + [p.id]
  {
    EdgeAdded(tree, wedding, pool, nodes0, edges0, ti0, e);
    PersonAdded(tree, wedding, pool, nodes0, edges, ti0, p);
  }

  /** A pool person's node at the next row, stated of the list after the append. */
  lemma PersonStepped(tree: GrampsTree, wedding: map<Id, Result<int>>, pool: set<Id>, nodes0: seq<Node>, edges: seq<Edge>, ti0: int,
                      p: Person, nodes: seq<Node>)
    requires forall fid :: fid in wedding ==> fid !in tree.persons
    requires Walked(tree, wedding, pool, nodes0, edges, ti0)
    requires p.id in pool
    requires nodes == WithNode(nodes0, PersonNode(p, ti0 + 1))
    ensures Walked(tree, wedding, pool - {p.id}, nodes, edges, ti0 + 1)
    ensures PersonIds(nodes) == PersonIds(nodes0) + [p.id]
  {
    PersonAdded(tree, wedding, pool, nodes0, edges, ti0, p);
  }

  /** A pool person's node at the next row: they leave the pool and join the placed persons. */
  lemma PersonAdded(tree: GrampsTree, wedding: map<Id, Result<int>>, pool: set<Id>, nodes: seq<Node>, edges: seq<Edge>, ti: int, p: Person)
    requires forall fid :: fid in wedding ==> fid !in tree.persons
    requires Walked(tree, wedding, pool, nodes, edges, ti)
    requires p.id in pool
    ensures !Present(nodes, p.id)
    ensures Walked(tree, wedding, pool - {p.id}, WithNode(nodes, PersonNode(p, ti + 1)), edges, ti + 1)
    ensures PersonIds(WithNode(nodes, PersonNode(p, ti + 1))) == PersonIds(nodes) + [p.id]
  {
    var n := PersonNode(p, ti + 1);
    PoolNotPresent(tree, wedding, pool, nodes, edges, ti, p.id);
    WithNodeKeepsDistinct(nodes, n);
    PersonIdsSnoc(nodes, n);
    ShapeSnoc(nodes, n, wedding, ti);
    Timeline.PlaceKeepsPartition(tree.persons, pool, PersonIds(nodes), p.id);
  }

  /** A new edge keeps the edges distinct and the rest as it was. */
  lemma EdgeAdded(tree: GrampsTree, wedding: map<Id, Result<int>>, pool: set<Id>, nodes: seq<Node>, edges: seq<Edge>, ti: int, e: Edge)
    requires Walked(tree, wedding, pool, nodes, edges, ti)
    ensures Walked(tree, wedding, pool, nodes, WithEdge(edges, e), ti)
  {
    WithEdgeKeepsDistinct(edges, e);
  }

  // ---------------------------------------------------------------------
  // Decor

  /** `__add_decor`: the date and title of each horizontal line, the last one twice as in the source. */
  const Decor: seq<(int, string)> := [
    (Ordinal(1800, 1, 1), "1800"), (Ordinal(1900, 1, 1), "1900"), (Ordinal(1941, 6, 22), "ВОВ"),
    (Ordinal(1945, 5, 9), ""), (Ordinal(2000, 1, 1), "2000"), (Ordinal(2000, 1, 1), "2000")]

  /** `__add_hline`'s nodes: a note above the first row and one two rows below the last. */
  function HlineNodes(nodes: seq<Node>, day: int, title: string, ti: int): seq<Node> {
    WithNode(WithNode(nodes, NoteNode(title, -2, day)), NoteNode(title, ti + 2, day))
  }

  /** `__add_hline`'s edge: a plain line from the top note to the bottom note. */
  function HlineEdges(edges: seq<Edge>, title: string, ti: int): seq<Edge> {
    WithEdge(edges, Edge(title + IntText(-2), Simple, title + IntText(ti + 2)))
  }

  /** The notes are there afterwards, and the same line drawn twice adds nothing the second time. */
  lemma HlineOnce(nodes: seq<Node>, edges: seq<Edge>, day: int, title: string, ti: int)
    requires DistinctIds(nodes) && DistinctEdges(edges)
    ensures var once := HlineNodes(nodes, day, title, ti);
            && DistinctIds(once) && DistinctEdges(HlineEdges(edges, title, ti))
            && Present(once, title + "-2") && Present(once, title + IntText(ti + 2))
            && HlineNodes(once, day, title, ti) == once
            && HlineEdges(HlineEdges(edges, title, ti), title, ti) == HlineEdges(edges, title, ti)
  {
    var n1 := NoteNode(title, -2, day);
    var n2 := NoteNode(title, ti + 2, day);
    assert IntText(-2) == "-2";
    WithNodeKeepsDistinct(nodes, n1);
    var a := WithNode(nodes, n1);
    WithNodeKeepsDistinct(a, n2);
    var b := WithNode(a, n2);
    assert WithNode(b, n1) == b;
    WithNodeKeepsDistinct(b, n1);
    WithEdgeKeepsDistinct(edges, Edge(title + IntText(-2), Simple, title + IntText(ti + 2)));
  }

  /** Notes appended to a list add no person. */
  lemma {:induction false} NotesKeepPersons(a: seq<Node>, b: seq<Node>)
    requires a <= b
    requires forall i :: |a| <= i < |b| ==> b[i].NoteNode?
    ensures PersonIds(b) == PersonIds(a)
    decreases |b|
  {
    if |b| > |a| {
      var n := |b| - 1;
      assert a <= b[..n];
      NotesKeepPersons(a, b[..n]);
    } else {
      assert a == b;
    }
  }

  /** One line: ids stay distinct, the list only grows by notes, and what was present stays present. */
  lemma HlineKeeps(nodes: seq<Node>, edges: seq<Edge>, day: int, title: string, ti: int)
    requires DistinctIds(nodes) && DistinctEdges(edges)
    ensures var after := HlineNodes(nodes, day, title, ti);
            && DistinctIds(after) && DistinctEdges(HlineEdges(edges, title, ti))
            && nodes <= after
            && (forall i :: |nodes| <= i < |after| ==> after[i].NoteNode?)
            && Present(after, title + "-2") && Present(after, title + IntText(ti + 2))
            && (forall id :: Present(nodes, id) ==> Present(after, id))
  {
    var n1 := NoteNode(title, -2, day);
    var n2 := NoteNode(title, ti + 2, day);
    assert IntText(-2) == "-2";
    WithNodeKeepsDistinct(nodes, n1);
    var a := WithNode(nodes, n1);
    assert nodes <= a && forall i :: |nodes| <= i < |a| ==> a[i] == n1;
    WithNodeKeepsDistinct(a, n2);
    var after := WithNode(a, n2);
    assert a <= after && forall i :: |a| <= i < |after| ==> after[i] == n2;
    WithEdgeKeepsDistinct(edges, Edge(title + IntText(-2), Simple, title + IntText(ti + 2)));
  }

  /** The notes of `__add_decor`, one line after another. */
  function Decorated(nodes: seq<Node>, lines: seq<(int, string)>, ti: int): seq<Node> {
    if |lines| == 0 then nodes
    else HlineNodes(Decorated(nodes, lines[..|lines| - 1], ti), lines[|lines| - 1].0, lines[|lines| - 1].1, ti)
  }

  function DecoratedEdges(edges: seq<Edge>, lines: seq<(int, string)>, ti: int): seq<Edge> {
    if |lines| == 0 then edges
    else HlineEdges(DecoratedEdges(edges, lines[..|lines| - 1], ti), lines[|lines| - 1].1, ti)
  }

  lemma DecoratedSnoc(nodes: seq<Node>, edges: seq<Edge>, lines: seq<(int, string)>, k: nat, ti: int)
    requires k < |lines|
    ensures Decorated(nodes, lines[..k + 1], ti) == HlineNodes(Decorated(nodes, lines[..k], ti), lines[k].0, lines[k].1, ti)
    ensures DecoratedEdges(edges, lines[..k + 1], ti) == HlineEdges(DecoratedEdges(edges, lines[..k], ti), lines[k].1, ti)
  {
    assert lines[..k + 1][..k] == lines[..k];
  }

  /**
   * Decor keeps ids and edges distinct, keeps the walk's nodes as a prefix,
   * adds only notes, and leaves both notes of every line present.
   */
  lemma {:induction false} DecorKeeps(nodes: seq<Node>, edges: seq<Edge>, lines: seq<(int, string)>, ti: int)
    requires DistinctIds(nodes) && DistinctEdges(edges)
    ensures DistinctIds(Decorated(nodes, lines, ti)) && DistinctEdges(DecoratedEdges(edges, lines, ti))
    ensures nodes <= Decorated(nodes, lines, ti)
    ensures forall i :: |nodes| <= i < |Decorated(nodes, lines, ti)| ==> Decorated(nodes, lines, ti)[i].NoteNode?
    ensures forall k :: 0 <= k < |lines| ==>
              Present(Decorated(nodes, lines, ti), lines[k].1 + "-2")
              && Present(Decorated(nodes, lines, ti), lines[k].1 + IntText(ti + 2))
  {
    if |lines| > 0 {
      var n := |lines| - 1;
      var before := Decorated(nodes, lines[..n], ti);
      DecorKeeps(nodes, edges, lines[..n], ti);
      HlineKeeps(before, DecoratedEdges(edges, lines[..n], ti), lines[n].0, lines[n].1, ti);
      var after := Decorated(nodes, lines, ti);
      assert after == HlineNodes(before, lines[n].0, lines[n].1, ti);
      forall k | 0 <= k < |lines|
        ensures Present(after, lines[k].1 + "-2") && Present(after, lines[k].1 + IntText(ti + 2))
      {
        var top, bottom := lines[k].1 + "-2", lines[k].1 + IntText(ti + 2);
        if k < n {
          assert lines[..n][k] == lines[k];
          assert Present(before, top) && Present(before, bottom);
        } else {
          assert k == n;
        }
        assert Present(after, top) && Present(after, bottom);
      }
    }
  }

  /** The repeated "2000" line of the decor adds no node and no edge. */
  lemma DecorRepeatAddsNothing(nodes: seq<Node>, edges: seq<Edge>, ti: int)
    requires DistinctIds(nodes) && DistinctEdges(edges)
    ensures Decorated(nodes, Decor, ti) == Decorated(nodes, Decor[..5], ti)
    ensures DecoratedEdges(edges, Decor, ti) == DecoratedEdges(edges, Decor[..5], ti)
  {
    var four := Decorated(nodes, Decor[..4], ti);
    var fourEdges := DecoratedEdges(edges, Decor[..4], ti);
    DecorKeeps(nodes, edges, Decor[..4], ti);
    DecoratedSnoc(nodes, edges, Decor, 4, ti);
    DecoratedSnoc(nodes, edges, Decor, 5, ti);
    TakeAll(Decor);
    assert |Decor| == 6 && Decor[4] == Decor[5];
    HlineOnce(four, fourEdges, Decor[4].0, Decor[4].1, ti);
  }
}
