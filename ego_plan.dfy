/**
 * What the plan of `__draw_objects` promises about the grid: where the
 * parents, the focal person, the partners and the children end up, at which
 * heights the lanes' lines run, and how many columns and rows the drawn
 * cells take.
 */
module EgoPlan {
  import opened Wrappers
  import opened Entities
  import opened Ego
  import opened EgoDraw
  import opened Svg

  // ---------------------------------------------------------------------
  // Lanes

  /** The children of the lanes in the order they are drawn: lane after lane, by birth within a lane. */
  function AllKids(lanes: seq<Lane>, persons: map<Id, Person>): (r: seq<Id>)
    ensures |r| == TotalChildren(lanes)
  {
    if |lanes| == 0 then []
    else AllKids(lanes[..|lanes| - 1], persons) + SortByBirth(lanes[|lanes| - 1].children, persons)
  }

  /** The column right of the last partner drawn; 0 without partners. */
  function PartnerEnd(lanes: seq<Lane>): int {
    if |lanes| == 0 then 0
    else
      var k := |lanes| - 1;
      var own := if lanes[k].partner.Some? then PartnerColumn(k, TotalChildren(lanes[..k])) + 1 else 0;
      var before := PartnerEnd(lanes[..k]);
      if before < own then own else before
  }

  /** The lanes before lane `k + 1` are those before lane `k`, and lane `k`. */
  lemma PrefixStep(lanes: seq<Lane>, k: nat)
    requires k < |lanes|
    ensures lanes[..k + 1][..k] == lanes[..k] && lanes[..k + 1][k] == lanes[k]
  {
  }

  /** Three lanes (base jitter 0.25) run their marriage lines 37.5, 25 and 12.5 below the top of the row. */
  lemma ThreeLanes()
    ensures PersonHeight * LaneFraction(3, 0) == 37.5
    ensures PersonHeight * LaneFraction(3, 1) == 25.0
    ensures PersonHeight * LaneFraction(3, 2) == 12.5
  {
    assert JitterHundredths(3) == 25;
  }

  /** The lanes' part of the plan of `__draw_objects`, at generation `gen`. */
  function PlanLanes(lanes: seq<Lane>, gen: int, persons: map<Id, Person>): seq<Item> {
    Flatten(LaneBlocks(lanes, BaseJitter(|lanes|), gen, persons))
  }

  lemma PlanPartsLanes(base: Person, lanes: seq<Lane>, parents: seq<Id>, persons: map<Id, Person>)
    requires forall i :: 0 <= i < |parents| ==> parents[i] in persons
    ensures Plan(base, lanes, parents, persons)
            == ParentItems(parents, persons).0 + [Put(base.id, ParentItems(parents, persons).1, 0)]
               + PlanLanes(lanes, ParentItems(parents, persons).1, persons)
  {
    PlanParts(base, lanes, parents, persons);
  }

  /** Whatever block `k` holds is in the flattened blocks. */
  lemma {:induction false} FlattenHas(blocks: seq<seq<Item>>, k: nat, x: Item)
    requires k < |blocks| && x in blocks[k]
    ensures x in Flatten(blocks)
    decreases |blocks|
  {
    var n := |blocks| - 1;
    if k < n {
      FlattenHas(blocks[..n], k, x);
    }
  }

  // ---------------------------------------------------------------------
  // Children and partners

  /** The cells of a plan that sit in generation `gen`, in order. */
  function PutsAt(items: seq<Item>, gen: int): seq<Item>
    decreases |items|
  {
    if |items| == 0 then []
    else (if items[0].Put? && items[0].gen == gen then [items[0]] else []) + PutsAt(items[1..], gen)
  }

  /** `ids` placed side by side in generation `gen` from column `col` on. */
  function Columned(ids: seq<Id>, gen: int, col: int): (r: seq<Item>)
    ensures |r| == |ids|
  {
    seq(|ids|, j requires 0 <= j < |ids| => Put(ids[j], gen, col + j))
  }

  lemma {:induction false} PutsAtAppend(a: seq<Item>, b: seq<Item>, gen: int)
    ensures PutsAt(a + b, gen) == PutsAt(a, gen) + PutsAt(b, gen)
    decreases |a|
  {
    if |a| == 0 {
      assert a + b == b;
    } else {
      assert (a + b)[1..] == a[1..] + b;
      PutsAtAppend(a[1..], b, gen);
    }
  }

  /** A run without a cell in generation `gen` puts nobody there. */
  lemma {:induction false} PutsAtNone(items: seq<Item>, gen: int)
    requires forall it :: it in items && it.Put? ==> it.gen != gen
    ensures PutsAt(items, gen) == []
    decreases |items|
  {
    if |items| > 0 {
      assert items[0] in items;
      assert forall it :: it in items[1..] ==> it in items;
      PutsAtNone(items[1..], gen);
    }
  }

  lemma ColumnedAppend(a: seq<Id>, b: seq<Id>, gen: int, col: int)
    ensures Columned(a + b, gen, col) == Columned(a, gen, col) + Columned(b, gen, col + |a|)
  {
  }

  lemma PutsAtCons(x: Item, rest: seq<Item>, gen: int)
    ensures PutsAt([x] + rest, gen) == (if x.Put? && x.gen == gen then [x] else []) + PutsAt(rest, gen)
  {
    assert ([x] + rest)[0] == x && ([x] + rest)[1..] == rest;
  }

  /** The two items a child adds: its cell in the row below, and its line. */
  lemma ChildPair(id: Id, gen: int, c: int, line: Item)
    requires line.DescentLink?
    ensures PutsAt([Put(id, gen + 1, c), line], gen + 1) == [Put(id, gen + 1, c)]
  {
    assert [Put(id, gen + 1, c), line] == [Put(id, gen + 1, c)] + ([line] + []);
    PutsAtCons(line, [], gen + 1);
    PutsAtCons(Put(id, gen + 1, c), [line], gen + 1);
  }

  /** The children of one lane fill the row below from column `col` on, in the order given. */
  lemma {:induction false} ChildRow(kids: seq<Id>, gen: int, col: int, side: ParentSide, jitter: real)
    ensures PutsAt(ChildItems(kids, gen, col, side, jitter), gen + 1) == Columned(kids, gen + 1, col)
    decreases |kids|
  {
    if |kids| > 0 {
      var n := |kids| - 1;
      var line := DescentLink(gen, gen + 1, col + n, jitter, side);
      var last := [Put(kids[n], gen + 1, col + n), line];
      ChildRow(kids[..n], gen, col, side, jitter);
      PutsAtAppend(ChildItems(kids[..n], gen, col, side, jitter), last, gen + 1);
      ChildPair(kids[n], gen, col + n, line);
      ColumnedAppend(kids[..n], [kids[n]], gen + 1, col);
      assert kids[..n] + [kids[n]] == kids;
    }
  }

  /** A lane's row below: its children in birth order, from column `col` on; the partner is not in it. */
  lemma LaneRow(lane: Lane, k: nat, col: int, gen: int, jitter: real, persons: map<Id, Person>)
    ensures PutsAt(LaneItems(lane, k, col, gen, jitter, persons), gen + 1)
            == Columned(SortByBirth(lane.children, persons), gen + 1, col)
  {
    var kids := SortByBirth(lane.children, persons);
    var head := LaneHead(lane, k, col, gen, jitter);
    var body := ChildItems(kids, gen, col, LaneSide(lane, k, col), jitter);
    ChildRow(kids, gen, col, LaneSide(lane, k, col), jitter);
    PutsAtAppend(head, body, gen + 1);
    if lane.partner.Some? {
      assert head[1..][1..] == [];
    }
  }

  /** A block whose row holds `kids` from column `|before|` on extends a row holding `before`. */
  lemma RowBlockStep(blocks: seq<seq<Item>>, k: nat, g: int, before: seq<Id>, kids: seq<Id>, col: int)
    requires k < |blocks| && col == |before|
    requires PutsAt(Flatten(blocks[..k]), g) == Columned(before, g, 0)
    requires PutsAt(blocks[k], g) == Columned(kids, g, col)
    ensures PutsAt(Flatten(blocks[..k + 1]), g) == Columned(before + kids, g, 0)
  {
    FlattenStep(blocks, k);
    PutsAtAppend(Flatten(blocks[..k]), blocks[k], g);
    ColumnedAppend(before, kids, g, 0);
  }

  /** The children of the first `k + 1` lanes: those of the first `k`, then lane `k`'s by birth. */
  lemma AllKidsStep(lanes: seq<Lane>, persons: map<Id, Person>, k: nat)
    requires k < |lanes|
    ensures AllKids(lanes[..k + 1], persons) == AllKids(lanes[..k], persons) + SortByBirth(lanes[k].children, persons)
  {
    PrefixStep(lanes, k);
  }

  /** One more lane adds its children's cells, right after those of the lanes before it. */
  lemma RowStep(lanes: seq<Lane>, fj: real, gen: int, persons: map<Id, Person>, k: nat)
    requires k < |lanes|
    requires PutsAt(Flatten(LaneBlocks(lanes, fj, gen, persons)[..k]), gen + 1) == Columned(AllKids(lanes[..k], persons), gen + 1, 0)
    ensures PutsAt(Flatten(LaneBlocks(lanes, fj, gen, persons)[..k + 1]), gen + 1) == Columned(AllKids(lanes[..k + 1], persons), gen + 1, 0)
  {
    var blocks := LaneBlocks(lanes, fj, gen, persons);
    BlockRow(lanes, fj, gen, persons, k);
    RowBlockStep(blocks, k, gen + 1, AllKids(lanes[..k], persons), SortByBirth(lanes[k].children, persons), TotalChildren(lanes[..k]));
    AllKidsStep(lanes, persons, k);
  }

  /** Block `k`'s row below holds lane `k`'s children by birth, from the lane's global column on. */
  lemma BlockRow(lanes: seq<Lane>, fj: real, gen: int, persons: map<Id, Person>, k: nat)
    requires k < |lanes|
    ensures PutsAt(LaneBlocks(lanes, fj, gen, persons)[k], gen + 1)
            == Columned(SortByBirth(lanes[k].children, persons), gen + 1, TotalChildren(lanes[..k]))
  {
    var col, jitter := TotalChildren(lanes[..k]), 1.0 - fj * (k + 1) as real;
    var items := LaneItems(lanes[k], k, col, gen, jitter, persons);
    BlockAt(lanes, fj, gen, persons, k);
    LaneRow(lanes[k], k, col, gen, jitter, persons);
    assert LaneBlocks(lanes, fj, gen, persons)[k] == items;
  }

  /** The first `m` lanes fill the row below the focal person with their children, from column 0 on. */
  lemma {:induction false} LanesRow(lanes: seq<Lane>, fj: real, gen: int, persons: map<Id, Person>, m: nat)
    requires m <= |lanes|
    ensures PutsAt(Flatten(LaneBlocks(lanes, fj, gen, persons)[..m]), gen + 1) == Columned(AllKids(lanes[..m], persons), gen + 1, 0)
    decreases m
  {
    if m > 0 {
      LanesRow(lanes, fj, gen, persons, m - 1);
      RowStep(lanes, fj, gen, persons, m - 1);
    }
  }

  /**
   * Children take consecutive global columns across all lanes: the row
   * below the focal person holds exactly the children, lane by lane and in
   * birth order within a lane, in columns 0, 1, 2, ...
   */
  lemma ChildrenTakeConsecutiveColumns(lanes: seq<Lane>, gen: int, persons: map<Id, Person>)
    ensures PutsAt(PlanLanes(lanes, gen, persons), gen + 1) == Columned(AllKids(lanes, persons), gen + 1, 0)
  {
    var blocks := LaneBlocks(lanes, BaseJitter(|lanes|), gen, persons);
    LanesRow(lanes, BaseJitter(|lanes|), gen, persons, |lanes|);
    assert blocks[..|lanes|] == blocks && lanes[..|lanes|] == lanes;
  }

  /**
   * Lane `k` is drawn from global column `TotalChildren(lanes[..k])`: its
   * partner sits there, one column further right for the first lane, with
   * the marriage line from the focal person at the lane's height fraction
   * `1 - base_fj * (k + 1)`.
   */
  lemma PartnerPlaced(lanes: seq<Lane>, gen: int, persons: map<Id, Person>, k: nat)
    requires k < |lanes| && lanes[k].partner.Some?
    ensures var pc := TotalChildren(lanes[..k]) + (if k == 0 then 1 else 0);
            var items := PlanLanes(lanes, gen, persons);
            Put(lanes[k].partner.value, gen, pc) in items
            && MarriageLink(gen, 0, pc, LaneFraction(|lanes|, k)) in items
  {
    var fj := BaseJitter(|lanes|);
    var blocks := LaneBlocks(lanes, fj, gen, persons);
    var pc := PartnerColumn(k, TotalChildren(lanes[..k]));
    BlockAt(lanes, fj, gen, persons, k);
    var head := LaneHead(lanes[k], k, TotalChildren(lanes[..k]), gen, 1.0 - fj * (k + 1) as real);
    assert head == [Put(lanes[k].partner.value, gen, pc), MarriageLink(gen, 0, pc, LaneFraction(|lanes|, k))];
    assert blocks[k][0] == head[0] && blocks[k][1] == head[1];
    FlattenHas(blocks, k, head[0]);
    FlattenHas(blocks, k, head[1]);
  }

  // ---------------------------------------------------------------------
  // Parents and the focal row

  /**
   * The focal person is drawn at column 0, in generation 1 exactly when a
   * parent is drawn above (one or two parents), else in generation 0.
   */
  lemma FocalPlaced(base: Person, lanes: seq<Lane>, parents: seq<Id>, persons: map<Id, Person>)
    requires forall i :: 0 <= i < |parents| ==> parents[i] in persons
    ensures var gen := ParentItems(parents, persons).1;
            && gen == (if |parents| == 1 || |parents| == 2 then 1 else 0)
            && Put(base.id, gen, 0) in Plan(base, lanes, parents, persons)
  {
    var (top, gen) := ParentItems(parents, persons);
    PlanParts(base, lanes, parents, persons);
    var plan := Plan(base, lanes, parents, persons);
    assert plan[|top|] == Put(base.id, gen, 0);
  }

  /**
   * One parent is drawn at (0, 0); two are drawn at columns 0 and 1 of
   * generation 0, the lower gender value (women) first; otherwise no parent
   * is drawn.
   */
  lemma ParentRow(parents: seq<Id>, persons: map<Id, Person>)
    requires forall i :: 0 <= i < |parents| ==> parents[i] in persons
    ensures var top := ParentItems(parents, persons).0;
            && (|parents| == 1 ==> PutsAt(top, 0) == [Put(parents[0], 0, 0)])
            && (|parents| == 2 ==>
                  var (left, right) := ByGender(parents[0], parents[1], persons);
                  PutsAt(top, 0) == [Put(left, 0, 0), Put(right, 0, 1)])
            && (!(|parents| == 1 || |parents| == 2) ==> top == [])
  {
    var top := ParentItems(parents, persons).0;
    if |parents| == 1 {
      var line := DescentLink(0, 1, 0, 0.5, LeftParent(0));
      assert top == [Put(parents[0], 0, 0)] + ([line] + []);
      PutsAtCons(line, [], 0);
      PutsAtCons(Put(parents[0], 0, 0), [line], 0);
    } else if |parents| == 2 {
      var (left, right) := ByGender(parents[0], parents[1], persons);
      var marriage := MarriageLink(0, 0, 1, 0.5);
      var descent := DescentLink(0, 1, 0, 0.5, RightParent(1));
      assert top == [Put(left, 0, 0)] + ([Put(right, 0, 1)] + ([marriage] + ([descent] + [])));
      PutsAtCons(descent, [], 0);
      PutsAtCons(marriage, [descent], 0);
      PutsAtCons(Put(right, 0, 1), [marriage, descent], 0);
      PutsAtCons(Put(left, 0, 0), [Put(right, 0, 1), marriage, descent], 0);
    }
  }

  // ---------------------------------------------------------------------
  // Columns and rows

  /** The children of one lane sit in the row below, in columns `col .. col + |kids| - 1`. */
  lemma {:induction false} ChildCells(kids: seq<Id>, gen: int, col: int, side: ParentSide, jitter: real)
    ensures forall it :: it in ChildItems(kids, gen, col, side, jitter) && it.Put? ==>
              it.gen == gen + 1 && col <= it.col < col + |kids|
    decreases |kids|
  {
    if |kids| > 0 {
      ChildCells(kids[..|kids| - 1], gen, col, side, jitter);
    }
  }

  /** A lane's cells: its partner in the focal row, its children in the row below from column `col` on. */
  lemma LaneCells(lane: Lane, k: nat, col: int, gen: int, jitter: real, persons: map<Id, Person>)
    ensures forall it :: it in LaneItems(lane, k, col, gen, jitter, persons) && it.Put? ==>
              (lane.partner.Some? && it == Put(lane.partner.value, gen, PartnerColumn(k, col)))
              || (it.gen == gen + 1 && col <= it.col < col + |lane.children|)
  {
    ChildCells(SortByBirth(lane.children, persons), gen, col, LaneSide(lane, k, col), jitter);
  }

  /**
   * Every cell lies right of column 0 and left of column `children` or of
   * column `partners`; it is in the focal row or, when there are children,
   * in the row below.
   */
  predicate CellsWithin(items: seq<Item>, children: int, partners: int, gen: int) {
    forall it :: it in items && it.Put? ==>
      0 <= it.col
      && (it.col < children || it.col < partners)
      && (it.gen == gen || (it.gen == gen + 1 && children > 0))
  }

  /** A block within wider bounds keeps the blocks before it within those bounds too. */
  lemma CellsBlockStep(blocks: seq<seq<Item>>, k: nat, gen: int, children: int, partners: int, children': int, partners': int)
    requires k < |blocks| && children <= children' && partners <= partners'
    requires CellsWithin(Flatten(blocks[..k]), children, partners, gen)
    requires CellsWithin(blocks[k], children', partners', gen)
    ensures CellsWithin(Flatten(blocks[..k + 1]), children', partners', gen)
  {
    FlattenStep(blocks, k);
  }

  /** Lane `k`, drawn from column `col`, lies within the bounds of the first `k + 1` lanes, which only grow. */
  lemma LaneWithin(lanes: seq<Lane>, k: nat, col: int, gen: int, jitter: real, persons: map<Id, Person>)
    requires k < |lanes| && col == TotalChildren(lanes[..k])
    ensures CellsWithin(LaneItems(lanes[k], k, col, gen, jitter, persons), TotalChildren(lanes[..k + 1]), PartnerEnd(lanes[..k + 1]), gen)
    ensures TotalChildren(lanes[..k]) <= TotalChildren(lanes[..k + 1]) && PartnerEnd(lanes[..k]) <= PartnerEnd(lanes[..k + 1])
  {
    PrefixStep(lanes, k);
    LaneCells(lanes[k], k, col, gen, jitter, persons);
  }

  /** One more lane keeps every cell within the bounds of the lanes drawn so far. */
  lemma CellsStep(lanes: seq<Lane>, fj: real, gen: int, persons: map<Id, Person>, k: nat)
    requires k < |lanes|
    requires CellsWithin(Flatten(LaneBlocks(lanes, fj, gen, persons)[..k]), TotalChildren(lanes[..k]), PartnerEnd(lanes[..k]), gen)
    ensures CellsWithin(Flatten(LaneBlocks(lanes, fj, gen, persons)[..k + 1]), TotalChildren(lanes[..k + 1]), PartnerEnd(lanes[..k + 1]), gen)
  {
    var blocks := LaneBlocks(lanes, fj, gen, persons);
    var col := TotalChildren(lanes[..k]);
    var jitter := 1.0 - fj * (k + 1) as real;
    BlockAt(lanes, fj, gen, persons, k);
    LaneWithin(lanes, k, col, gen, jitter, persons);
    CellsBlockStep(blocks, k, gen, col, PartnerEnd(lanes[..k]), TotalChildren(lanes[..k + 1]), PartnerEnd(lanes[..k + 1]));
  }

  /**
   * Every cell of the first `m` lanes lies right of column 0 and left of
   * the children's end or the partners' end; it is in the focal row or,
   * when there are children, in the row below.
   */
  lemma {:induction false} LanesCells(lanes: seq<Lane>, fj: real, gen: int, persons: map<Id, Person>, m: nat)
    requires m <= |lanes|
    ensures CellsWithin(Flatten(LaneBlocks(lanes, fj, gen, persons)[..m]), TotalChildren(lanes[..m]), PartnerEnd(lanes[..m]), gen)
    decreases m
  {
    if m > 0 {
      LanesCells(lanes, fj, gen, persons, m - 1);
      CellsStep(lanes, fj, gen, persons, m - 1);
    }
  }

  /** The columns the plan's cells need: column 0 of the focal person, the parents', the children's and the partners'. */
  function NeededColumns(lanes: seq<Lane>, parents: seq<Id>): (r: nat)
    ensures r >= 1 && r >= |parents| && r >= TotalChildren(lanes) && r >= PartnerEnd(lanes)
  {
    var m := if |parents| < 1 then 1 else |parents|;
    var m' := if m < TotalChildren(lanes) then TotalChildren(lanes) else m;
    if m' < PartnerEnd(lanes) then PartnerEnd(lanes) else m'
  }

  /** The rows the plan draws: the parents' row if a parent is drawn, the focal row, the children's row if any. */
  function DrawnRows(lanes: seq<Lane>, parents: seq<Id>): nat {
    (if |parents| == 1 || |parents| == 2 then 1 else 0) + 1 + (if TotalChildren(lanes) > 0 then 1 else 0)
  }

  /** The parents' cells: generation 0, columns below the number of parents. */
  lemma ParentCells(parents: seq<Id>, persons: map<Id, Person>)
    requires forall i :: 0 <= i < |parents| ==> parents[i] in persons
    ensures forall it :: it in ParentItems(parents, persons).0 && it.Put? ==>
              it.gen == 0 && 0 <= it.col < |parents| && ParentItems(parents, persons).1 == 1
  {
  }

  /** Every cell of the lanes' plan lies within the children's or the partners' columns, in the focal row or the row below. */
  lemma PlanLanesCells(lanes: seq<Lane>, gen: int, persons: map<Id, Person>)
    ensures CellsWithin(PlanLanes(lanes, gen, persons), TotalChildren(lanes), PartnerEnd(lanes), gen)
  {
    var blocks := LaneBlocks(lanes, BaseJitter(|lanes|), gen, persons);
    LanesCells(lanes, BaseJitter(|lanes|), gen, persons, |lanes|);
    assert blocks[..|lanes|] == blocks && lanes[..|lanes|] == lanes;
  }

  /**
   * Every cell of the plan lies in a column the plan needs and in one of
   * the rows it draws.
   */
  lemma PlanCells(base: Person, lanes: seq<Lane>, parents: seq<Id>, persons: map<Id, Person>)
    requires forall i :: 0 <= i < |parents| ==> parents[i] in persons
    ensures forall it :: it in Plan(base, lanes, parents, persons) && it.Put? ==>
              0 <= it.col < NeededColumns(lanes, parents) && 0 <= it.gen < DrawnRows(lanes, parents)
  {
    var gen := ParentItems(parents, persons).1;
    PlanPartsLanes(base, lanes, parents, persons);
    ParentCells(parents, persons);
    PlanLanesCells(lanes, gen, persons);
  }
}
