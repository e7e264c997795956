/**
 * `SmallTreeRender.create_svg`: the focal person looked up, the lanes and
 * parents collected, the generations arranged, the plan drawn, the canvas
 * sized, and the shapes handed to the drawing grouped by their type. The
 * two newer copies of the renderer differ in the font and in `__get_size`.
 */
module EgoCanvas {
  import opened Wrappers
  import opened Entities
  import opened Svg
  import opened Ego
  import opened EgoDraw
  import opened EgoPlan

  /** content_generator/src/presenters/small_tree_render.py, or content_generator/src/small_tree_render.py. */
  datatype Copy = Presenters | Src

  function Font(c: Copy): int {
    match c
    case Presenters => PresentersFont
    case Src => LegacyFont
  }

  // ---------------------------------------------------------------------
  // Canvas size

  /** `__get_size` of the presenters copy: `max(len(parents), 2 if lanes else 0, all_children)`. */
  function ColumnsPresenters(lanes: seq<Lane>, parents: seq<Id>): nat {
    var pair := if |lanes| > 0 then 2 else 0;
    var m := if |parents| < pair then pair else |parents|;
    if m < TotalChildren(lanes) then TotalChildren(lanes) else m
  }

  /** `max(len(children), 1)` added up over the lanes, as the other copy counts its columns. */
  function LaneColumns(lanes: seq<Lane>): nat {
    if |lanes| == 0 then 0
    else
      var last := |lanes[|lanes| - 1].children|;
      LaneColumns(lanes[..|lanes| - 1]) + (if last < 1 then 1 else last)
  }

  /** `__get_size` of the other copy: the lane columns, or the parents if there are more. */
  function ColumnsSrc(lanes: seq<Lane>, parents: seq<Id>): nat {
    if LaneColumns(lanes) < |parents| then |parents| else LaneColumns(lanes)
  }

  /** The generations holding somebody: the presenters copy counts only those rows. */
  function NonBlank(g: map<int, set<Id>>): nat {
    |set k | k in g && g[k] != {}|
  }

  /** A lane takes at least one column, and one per child. */
  lemma {:induction false} LaneColumnsCover(lanes: seq<Lane>)
    ensures LaneColumns(lanes) >= TotalChildren(lanes) && LaneColumns(lanes) >= |lanes|
  {
    if |lanes| > 0 {
      LaneColumnsCover(lanes[..|lanes| - 1]);
    }
  }

  /** `all_children += len(rel.children)` over the lanes. */
  method CountChildren(lanes: seq<Lane>) returns (n: nat)
    ensures n == TotalChildren(lanes)
  {
    n := 0;
    for i := 0 to |lanes|
      invariant n == TotalChildren(lanes[..i])
    {
      TotalChildrenStep(lanes, i);
      n := n + |lanes[i].children|;
    }
    assert lanes[..|lanes|] == lanes;
  }

  /** `columns += max(len(rel.children), 1)` over the lanes. */
  method CountLaneColumns(lanes: seq<Lane>) returns (n: nat)
    ensures n == LaneColumns(lanes)
  {
    n := 0;
    for i := 0 to |lanes|
      invariant n == LaneColumns(lanes[..i])
    {
      assert lanes[..i + 1][..i] == lanes[..i];
      n := n + if |lanes[i].children| < 1 then 1 else |lanes[i].children|;
    }
    assert lanes[..|lanes|] == lanes;
  }

  /** A key set one larger than another, by one key, has one more element. */
  lemma CountOneMore(done: set<int>, k: int, g: map<int, set<Id>>)
    requires k !in done
    ensures |set j | j in done + {k} && j in g && g[j] != {}|
            == |set j | j in done && j in g && g[j] != {}| + (if k in g && g[k] != {} then 1 else 0)
  {
    var before := set j | j in done && j in g && g[j] != {};
    var after := set j | j in done + {k} && j in g && g[j] != {};
    if k in g && g[k] != {} {
      assert after == before + {k};
    } else {
      assert after == before;
    }
  }

  /** `non_blank_generation += 1` for each generation holding somebody, in any key order. */
  method CountNonBlank(g: map<int, set<Id>>) returns (n: nat)
    ensures n == NonBlank(g)
  {
    n := 0;
    var todo := g.Keys;
    ghost var done: set<int> := {};
    while |todo| > 0
      invariant done + todo == g.Keys && done !! todo
      invariant n == |set j | j in done && j in g && g[j] != {}|
      decreases |todo|
    {
      NonEmptyHas(todo);
      var k :| k in todo;
      CountOneMore(done, k, g);
      if g[k] != {} {
        n := n + 1;
      }
      done := done + {k};
      todo := todo - {k};
    }
    assert (set j | j in done && j in g && g[j] != {}) == (set k | k in g && g[k] != {});
  }

  /** `__get_size` of the presenters copy, in pixels. */
  method GetSizePresenters(lanes: seq<Lane>, g: map<int, set<Id>>, parents: seq<Id>) returns (width: real, height: real)
    ensures width == (PersonWidth + XSpacing) * ColumnsPresenters(lanes, parents) as real
    ensures height == (PersonHeight + YSpacing) * NonBlank(g) as real
  {
    var children := CountChildren(lanes);
    var columns := if |lanes| > 0 then 2 else 0;
    if columns < |parents| {
      columns := |parents|;
    }
    if columns < children {
      columns := children;
    }
    var rows := CountNonBlank(g);
    width := (PersonWidth + XSpacing) * columns as real;
    height := (PersonHeight + YSpacing) * rows as real;
  }

  /** `__get_size` of the other copy, in pixels: every generation key is a row. */
  method GetSizeSrc(lanes: seq<Lane>, g: map<int, set<Id>>, parents: seq<Id>) returns (width: real, height: real)
    ensures width == (PersonWidth + XSpacing) * ColumnsSrc(lanes, parents) as real
    ensures height == (PersonHeight + YSpacing) * |g| as real
  {
    var columns := CountLaneColumns(lanes);
    if columns < |parents| {
      columns := |parents|;
    }
    width := (PersonWidth + XSpacing) * columns as real;
    height := (PersonHeight + YSpacing) * |g.Keys| as real;
  }

  /** The width, in columns, a copy's `__get_size` counts. */
  function OwnColumns(c: Copy, lanes: seq<Lane>, parents: seq<Id>): nat {
    match c
    case Presenters => ColumnsPresenters(lanes, parents)
    case Src => ColumnsSrc(lanes, parents)
  }

  // ---------------------------------------------------------------------
  // The width the partners need

  /**
   * The width, in columns, that also holds the last partner: each copy's
   * own count, widened to `PartnerEnd`.
   */
  function FittingColumns(c: Copy, lanes: seq<Lane>, parents: seq<Id>): (n: nat)
    ensures n >= OwnColumns(c, lanes, parents) && n >= PartnerEnd(lanes)
    ensures n == OwnColumns(c, lanes, parents) || n == PartnerEnd(lanes)
  {
    var own := OwnColumns(c, lanes, parents);
    if own < PartnerEnd(lanes) then PartnerEnd(lanes) else own
  }

  /** With a lane or a parent, the widened width holds every column the plan needs. */
  lemma FittingCovers(c: Copy, lanes: seq<Lane>, parents: seq<Id>)
    requires lanes != [] || parents != []
    ensures FittingColumns(c, lanes, parents) >= NeededColumns(lanes, parents)
  {
    LaneColumnsCover(lanes);
  }

  /** Lane `k`'s partner column continues the running maximum. */
  lemma PartnerEndStep(lanes: seq<Lane>, k: nat)
    requires k < |lanes|
    ensures PartnerEnd(lanes[..k + 1])
            == (var own := if lanes[k].partner.Some? then PartnerColumn(k, TotalChildren(lanes[..k])) + 1 else 0;
                if PartnerEnd(lanes[..k]) < own then own else PartnerEnd(lanes[..k]))
  {
    PrefixStep(lanes, k);
  }

  /** The column right of the last partner, tracked along the loop of `__draw_objects`. */
  method PartnerEndOf(lanes: seq<Lane>) returns (end: int)
    ensures end == PartnerEnd(lanes)
  {
    end := 0;
    var col := 0;
    for k := 0 to |lanes|
      invariant col == TotalChildren(lanes[..k])
      invariant end == PartnerEnd(lanes[..k])
    {
      PartnerEndStep(lanes, k);
      TotalChildrenStep(lanes, k);
      if lanes[k].partner.Some? && end < PartnerColumn(k, col) + 1 {
        end := PartnerColumn(k, col) + 1;
      }
      col := col + |lanes[k].children|;
    }
    assert lanes[..|lanes|] == lanes;
  }

  /**
   * The presenters copy's canvas is too narrow for two partners when the
   * first lane's children fill the columns: the second partner's cell
   * starts where the canvas ends.
   */
  lemma PresentersWidthMissesPartner()
    ensures var lanes := [Lane(Some("B1"), ["C1", "C2"]), Lane(Some("B2"), [])];
            && Put("B2", 0, 2) in PlanLanes(lanes, 0, map[])
            && (PersonWidth + XSpacing) * ColumnsPresenters(lanes, []) as real == CellX(2)
  {
    var lanes := [Lane(Some("B1"), ["C1", "C2"]), Lane(Some("B2"), [])];
    assert lanes[..1] == [lanes[0]];
    assert TotalChildren(lanes[..1]) == 2;
    PartnerPlaced(lanes, 0, map[], 1);
  }

  /**
   * The other copy's canvas is one column wide for a single childless
   * lane, whose partner is drawn in column 1, outside it.
   */
  lemma SrcWidthMissesPartner()
    ensures var lanes := [Lane(Some("B1"), [])];
            && Put("B1", 0, 1) in PlanLanes(lanes, 0, map[])
            && (PersonWidth + XSpacing) * ColumnsSrc(lanes, []) as real == CellX(1)
  {
    var lanes := [Lane(Some("B1"), [])];
    assert lanes[..0] == [];
    assert lanes[..|lanes| - 1] == [];
    PartnerPlaced(lanes, 0, map[], 0);
  }

  // ---------------------------------------------------------------------
  // Rows

  /** The rows of each copy: the presenters copy counts the non-blank generations, the other every key. */
  function Rows(c: Copy, g: map<int, set<Id>>): nat {
    match c
    case Presenters => NonBlank(g)
    case Src => |g|
  }

  /** The generations are arranged from the focal person alone in generation 0. */
  function Generations(base: Id, fids: seq<Id>, families: map<Id, Family>): map<int, set<Id>>
    requires forall i :: 0 <= i < |fids| ==> fids[i] in families
  {
    GenerationsOf(map[0 := {base}], base, fids, families)
  }

  /** Some lane has a child when the lanes hold any. */
  lemma {:induction false} SomeLaneHasChildren(lanes: seq<Lane>)
    requires TotalChildren(lanes) > 0
    ensures exists l :: l in lanes && |l.children| > 0
  {
    var n := |lanes| - 1;
    if |lanes[n].children| == 0 {
      SomeLaneHasChildren(lanes[..n]);
      var l :| l in lanes[..n] && |l.children| > 0;
      assert l in lanes;
    } else {
      assert lanes[n] in lanes;
    }
  }

  /** The generations that hold somebody whenever the plan draws the rows around the focal row. */
  lemma GenerationsHeld(base: Person, fids: seq<Id>, families: map<Id, Family>)
    requires forall i :: 0 <= i < |fids| ==> fids[i] in families
    ensures var (lanes, parents) := RelationsOf(base, fids, families);
            var g := Generations(base.id, fids, families);
            && base.id in At(g, 0)
            && (parents != [] ==> base.id in At(g, -1))
            && (TotalChildren(lanes) > 0 ==> At(g, 1) != {})
  {
    var (lanes, parents) := RelationsOf(base, fids, families);
    var init := map[0 := {base.id}];
    RelationsCollected(base, fids, families);
    GenerationZero(init, base.id, fids, families);
    GenerationOne(init, base.id, fids, families);
    GenerationAbove(init, base.id, fids, families);
    if parents != [] {
      assert parents[0] in parents;
    }
    if TotalChildren(lanes) > 0 {
      SomeLaneHasChildren(lanes);
      var l :| l in lanes && |l.children| > 0;
      var i :| 0 <= i < |fids| && base.id in Parents(families[fids[i]])
               && l == Lane(PartnerIn(base, families[fids[i]]), families[fids[i]].children);
      assert l.children[0] in At(Generations(base.id, fids, families), 1);
    }
  }

  lemma NonEmptyHas(s: set<int>)
    requires |s| > 0
    ensures exists x :: x in s
  {
    if forall x :: x !in s {
      assert false;
    }
  }

  /** A subset is no larger. */
  lemma {:induction false} SubsetNoLarger(a: set<int>, b: set<int>)
    requires a <= b
    ensures |a| <= |b|
    decreases |b|
  {
    if |a| > 0 {
      NonEmptyHas(a);
      var x :| x in a;
      SubsetNoLarger(a - {x}, b - {x});
    }
  }

  /** Generation 0, and the generations above and below when asked for, hold somebody: that many rows at least. */
  lemma HeldRows(g: map<int, set<Id>>, above: bool, below: bool)
    requires 0 in g && g[0] != {}
    requires above ==> -1 in g && g[-1] != {}
    requires below ==> 1 in g && g[1] != {}
    ensures (if above then 1 else 0) + 1 + (if below then 1 else 0) <= NonBlank(g) <= |g|
  {
    var drawn := {0} + (if above then {-1} else {}) + (if below then {1} else {});
    var held := set k | k in g && g[k] != {};
    assert drawn <= held;
    SubsetNoLarger(drawn, held);
    SubsetNoLarger(held, g.Keys);
    assert |drawn| == (if above then 1 else 0) + 1 + (if below then 1 else 0);
  }

  /**
   * Each copy's canvas has at least the rows the plan draws: every drawn row
   * is a generation holding somebody.
   */
  lemma RowsFit(c: Copy, base: Person, fids: seq<Id>, families: map<Id, Family>)
    requires forall i :: 0 <= i < |fids| ==> fids[i] in families
    ensures var (lanes, parents) := RelationsOf(base, fids, families);
            DrawnRows(lanes, parents) <= Rows(c, Generations(base.id, fids, families))
  {
    var (lanes, parents) := RelationsOf(base, fids, families);
    var g := Generations(base.id, fids, families);
    GenerationsHeld(base, fids, families);
    HeldRows(g, parents != [], TotalChildren(lanes) > 0);
  }

  // ---------------------------------------------------------------------
  // Grouping the shapes by type

  /**
   * The sort key `str(type(obj))`: the class names order a line before the
   * polylines, the polylines before the rectangles, those before the texts.
   */
  function KindRank(s: Shape): nat {
    match s
    case Vertical(_, _, _) => 0
    case Lines(_, _) => 1
    case Rect(_, _, _, _, _) => 2
    case Text(_, _, _, _, _) => 3
  }

  function InsertByKind(x: Shape, s: seq<Shape>): (r: seq<Shape>)
    ensures multiset(r) == multiset(s) + multiset{x} && |r| == |s| + 1
  {
    if |s| == 0 || KindRank(x) <= KindRank(s[0]) then [x] + s
    else
      assert s == [s[0]] + s[1..];
      [s[0]] + InsertByKind(x, s[1..])
  }

  /** `sorted(draw_objects, key=self.__do_comparator)`, a stable sort. */
  function ByKind(s: seq<Shape>): (r: seq<Shape>)
    ensures |r| == |s|
  {
    if |s| == 0 then [] else InsertByKind(s[0], ByKind(s[1..]))
  }

  predicate KindOrdered(s: seq<Shape>) {
    forall i, j :: 0 <= i < j < |s| ==> KindRank(s[i]) <= KindRank(s[j])
  }

  /** The shapes of one kind, in order. */
  function OfKind(s: seq<Shape>, rank: nat): seq<Shape> {
    if |s| == 0 then []
    else Tag(s[0], rank) + OfKind(s[1..], rank)
  }

  /** `x` if it is of the kind, else nothing. */
  function Tag(x: Shape, rank: nat): seq<Shape> {
    if KindRank(x) == rank then [x] else []
  }

  lemma {:induction false} InsertKindOrdered(x: Shape, s: seq<Shape>)
    requires KindOrdered(s)
    ensures KindOrdered(InsertByKind(x, s))
  {
    if |s| > 0 && KindRank(x) > KindRank(s[0]) {
      InsertKindOrdered(x, s[1..]);
      var r := InsertByKind(x, s[1..]);
      forall y | y in r
        ensures KindRank(s[0]) <= KindRank(y)
      {
        assert y in multiset(r);
      }
    }
  }

  lemma OfKindCons(x: Shape, s: seq<Shape>, rank: nat)
    ensures OfKind([x] + s, rank) == Tag(x, rank) + OfKind(s, rank)
  {
    assert ([x] + s)[0] == x && ([x] + s)[1..] == s;
  }

  /** Inserting `x` puts it first among the shapes of its kind and leaves the other kinds alone. */
  lemma {:induction false} InsertKeepsKind(x: Shape, s: seq<Shape>, rank: nat)
    ensures OfKind(InsertByKind(x, s), rank) == OfKind([x] + s, rank)
  {
    if |s| > 0 && KindRank(x) > KindRank(s[0]) {
      var r := InsertByKind(x, s[1..]);
      var rest := OfKind(s[1..], rank);
      assert InsertByKind(x, s) == [s[0]] + r;
      InsertKeepsKind(x, s[1..], rank);
      OfKindCons(s[0], r, rank);
      OfKindCons(x, s[1..], rank);
      assert OfKind(InsertByKind(x, s), rank) == Tag(s[0], rank) + (Tag(x, rank) + rest);
      OfKindCons(x, s, rank);
      assert [s[0]] + s[1..] == s;
      OfKindCons(s[0], s[1..], rank);
      assert OfKind([x] + s, rank) == Tag(x, rank) + (Tag(s[0], rank) + rest);
      assert Tag(s[0], rank) == [] || Tag(x, rank) == [];
      SwapPastEmpty(Tag(s[0], rank), Tag(x, rank), rest);
    }
  }

  /** Two pieces one of which is empty can be swapped. */
  lemma SwapPastEmpty<T>(a: seq<T>, b: seq<T>, c: seq<T>)
    requires a == [] || b == []
    ensures a + (b + c) == b + (a + c)
  {
  }

  /**
   * The grouped shapes are the same shapes, ordered by kind, and within a
   * kind in drawing order: the sort is stable.
   */
  lemma {:induction false} ByKindGroups(s: seq<Shape>)
    ensures multiset(ByKind(s)) == multiset(s)
    ensures KindOrdered(ByKind(s))
    ensures forall rank: nat :: OfKind(ByKind(s), rank) == OfKind(s, rank)
  {
    if |s| > 0 {
      assert s == [s[0]] + s[1..];
      ByKindGroups(s[1..]);
      InsertKindOrdered(s[0], ByKind(s[1..]));
      forall rank: nat
        ensures OfKind(ByKind(s), rank) == OfKind(s, rank)
      {
        InsertKeepsKind(s[0], ByKind(s[1..]), rank);
        var r := ByKind(s[1..]);
        assert ([s[0]] + r)[0] == s[0] && ([s[0]] + r)[1..] == r;
      }
    }
  }

  // ---------------------------------------------------------------------
  // create_svg

  /** The drawing handed to the SVG library: its size and its shapes in order. */
  datatype Canvas = Canvas(width: real, height: real, shapes: seq<Shape>)

  /** What a loaded tree satisfies and the renderer relies on: persons keyed by id, families' members loaded. */
  predicate TreeShaped(t: GrampsTree) {
    (forall id :: id in t.persons ==> t.persons[id].id == id)
    && (forall i :: 0 <= i < |t.familyOrder| ==> t.familyOrder[i] in t.families)
    && (forall id :: id in t.families ==> MembersKnown(t.families[id], t.persons))
  }

  /**
   * `create_svg` of a copy: a missing focal person raises KeyError, one
   * without lanes and parents WithoutRelationsError; otherwise the plan is
   * drawn on a canvas of the copy's own columns and rows.
   */
  function SmallTree(c: Copy, baseId: Id, t: GrampsTree): (r: Result<Canvas>)
    requires TreeShaped(t)
  {
    if baseId !in t.persons then Err(KeyError)
    else
      var base := t.persons[baseId];
      var (lanes, parents) := RelationsOf(base, t.familyOrder, t.families);
      if lanes == [] && parents == [] then Err(WithoutRelationsError)
      else
        RelationsKnown(base, t);
        Ok(Drawing(c, base, lanes, parents, Generations(baseId, t.familyOrder, t.families), t.persons))
  }

  /** The canvas of a copy for a focal person with some relation. */
  function Drawing(c: Copy, base: Person, lanes: seq<Lane>, parents: seq<Id>, g: map<int, set<Id>>, persons: map<Id, Person>): Canvas
    requires AllKnown(parents, persons)
  {
    Canvas((PersonWidth + XSpacing) * OwnColumns(c, lanes, parents) as real,
           (PersonHeight + YSpacing) * Rows(c, g) as real,
           ByKind(Render(Plan(base, lanes, parents, persons), persons, Font(c))))
  }

  /**
   * `create_svg` with the width each copy evidently meant: the same result,
   * the canvas widened to hold the last partner.
   */
  function SmallTreeFitting(c: Copy, baseId: Id, t: GrampsTree): (r: Result<Canvas>)
    requires TreeShaped(t)
    ensures r.Ok? <==> SmallTree(c, baseId, t).Ok?
    ensures r.Err? ==> r == SmallTree(c, baseId, t)
    ensures r.Ok? ==> r.value.shapes == SmallTree(c, baseId, t).value.shapes
                      && r.value.height == SmallTree(c, baseId, t).value.height
                      && r.value.width >= SmallTree(c, baseId, t).value.width
  {
    var drawn := SmallTree(c, baseId, t);
    if drawn.Err? then drawn
    else
      var (lanes, parents) := RelationsOf(t.persons[baseId], t.familyOrder, t.families);
      Ok(drawn.value.(width := (PersonWidth + XSpacing) * FittingColumns(c, lanes, parents) as real))
  }

  /** The lanes and parents of a loaded tree name loaded persons. */
  lemma RelationsKnown(base: Person, t: GrampsTree)
    requires TreeShaped(t)
    ensures var (lanes, parents) := RelationsOf(base, t.familyOrder, t.families);
            AllKnown(parents, t.persons) && LanesKnown(lanes, t.persons)
  {
    var (lanes, parents) := RelationsOf(base, t.familyOrder, t.families);
    RelationsCollected(base, t.familyOrder, t.families);
    forall i | 0 <= i < |parents|
      ensures parents[i] in t.persons
    {
      assert parents[i] in parents;
    }
    forall i | 0 <= i < |lanes|
      ensures LaneKnown(lanes[i], t.persons)
    {
      assert lanes[i] in lanes;
    }
  }

  /** The copy's `__get_size`. */
  method GetSize(c: Copy, lanes: seq<Lane>, g: map<int, set<Id>>, parents: seq<Id>) returns (width: real, height: real)
    ensures width == (PersonWidth + XSpacing) * OwnColumns(c, lanes, parents) as real
    ensures height == (PersonHeight + YSpacing) * Rows(c, g) as real
  {
    match c {
      case Presenters =>
        width, height := GetSizePresenters(lanes, g, parents);
      case Src =>
        width, height := GetSizeSrc(lanes, g, parents);
    }
  }

  /** The copy's size with the width widened to the last partner, as the drawing needs. */
  method GetSizeFitting(c: Copy, lanes: seq<Lane>, g: map<int, set<Id>>, parents: seq<Id>) returns (width: real, height: real)
    ensures width == (PersonWidth + XSpacing) * FittingColumns(c, lanes, parents) as real
    ensures height == (PersonHeight + YSpacing) * Rows(c, g) as real
  {
    width, height := GetSize(c, lanes, g, parents);
    var end := PartnerEndOf(lanes);
    if width < (PersonWidth + XSpacing) * end as real {
      width := (PersonWidth + XSpacing) * end as real;
    }
  }

  /** The drawing, the size and the grouping of the shapes. */
  method DrawCanvas(c: Copy, base: Person, lanes: seq<Lane>, parents: seq<Id>, g: map<int, set<Id>>, persons: map<Id, Person>)
    returns (canvas: Canvas)
    requires base.id in persons && persons[base.id] == base
    requires AllKnown(parents, persons) && LanesKnown(lanes, persons)
    ensures canvas == Drawing(c, base, lanes, parents, g, persons)
  {
    var objects := DrawObjects(base, lanes, parents, persons, Font(c));
    var width, height := GetSize(c, lanes, g, parents);
    canvas := Canvas(width, height, ByKind(objects));
  }

  method CreateSvg(c: Copy, baseId: Id, t: GrampsTree) returns (r: Result<Canvas>)
    requires TreeShaped(t)
    ensures r == SmallTree(c, baseId, t)
  {
    if baseId !in t.persons {
      return Err(KeyError);
    }
    var base := t.persons[baseId];
    var lanes, parents := CreateRelationships(base, t.familyOrder, t.families);
    if lanes == [] && parents == [] {
      return Err(WithoutRelationsError);
    }
    var g := ArrangeInGeneration(baseId, t.familyOrder, t.families);
    RelationsKnown(base, t);
    var canvas := DrawCanvas(c, base, lanes, parents, g, t.persons);
    r := Ok(canvas);
  }

  // ---------------------------------------------------------------------
  // What the canvas promises

  /**
   * `create_svg` fails exactly when the focal person is missing (KeyError)
   * or has no lanes and no parents (WithoutRelationsError).
   */
  lemma SmallTreeErrors(c: Copy, baseId: Id, t: GrampsTree)
    requires TreeShaped(t)
    ensures SmallTree(c, baseId, t) == Err(KeyError) <==> baseId !in t.persons
    ensures SmallTree(c, baseId, t) == Err(WithoutRelationsError) <==>
              baseId in t.persons && RelationsOf(t.persons[baseId], t.familyOrder, t.families) == ([], [])
    ensures SmallTree(c, baseId, t).Err? ==> SmallTree(c, baseId, t).error in {KeyError, WithoutRelationsError}
  {
  }

  /** Rectangles of cells inside `columns` and `rows` lie inside the canvas they span. */
  lemma {:induction false} RectsInside(items: seq<Item>, persons: map<Id, Person>, font: int, columns: nat, rows: nat)
    requires forall it :: it in items && it.Put? ==> 0 <= it.col < columns && 0 <= it.gen < rows
    ensures forall s :: s in Render(items, persons, font) && s.Rect? ==>
              0.0 <= s.x && s.x + s.width <= (PersonWidth + XSpacing) * columns as real
              && 0.0 <= s.y && s.y + s.height <= (PersonHeight + YSpacing) * rows as real
  {
    if |items| > 0 {
      var n := |items| - 1;
      assert forall it :: it in items[..n] ==> it in items;
      RectsInside(items[..n], persons, font, columns, rows);
      assert items[n] in items;
      if items[n].Put? && items[n].id in persons {
        var col, gen := items[n].col, items[n].gen;
        assert (col + 1) as real <= columns as real && (gen + 1) as real <= rows as real;
        assert CellX(col) + PersonWidth <= (PersonWidth + XSpacing) * (col + 1) as real;
        assert RowTop(gen) + PersonHeight <= (PersonHeight + YSpacing) * (gen + 1) as real;
      }
    }
  }

  /**
   * Every rectangle lies inside the widened canvas: every cell's column is
   * below the widened width and its row below the copy's rows.
   */
  lemma CellsInsideCanvas(c: Copy, baseId: Id, t: GrampsTree)
    requires TreeShaped(t) && SmallTreeFitting(c, baseId, t).Ok?
    ensures var canvas := SmallTreeFitting(c, baseId, t).value;
            forall s :: s in canvas.shapes && s.Rect? ==>
              0.0 <= s.x && s.x + s.width <= canvas.width && 0.0 <= s.y && s.y + s.height <= canvas.height
  {
    var base := t.persons[baseId];
    var (lanes, parents) := RelationsOf(base, t.familyOrder, t.families);
    var g := Generations(baseId, t.familyOrder, t.families);
    RelationsKnown(base, t);
    var plan := Plan(base, lanes, parents, t.persons);
    PlanCells(base, lanes, parents, t.persons);
    FittingCovers(c, lanes, parents);
    RowsFit(c, base, t.familyOrder, t.families);
    RectsInside(plan, t.persons, Font(c), FittingColumns(c, lanes, parents), Rows(c, g));
    var shapes := Render(plan, t.persons, Font(c));
    ByKindGroups(shapes);
    forall s | s in ByKind(shapes)
      ensures s in shapes
    {
      assert s in multiset(ByKind(shapes));
    }
  }
}
