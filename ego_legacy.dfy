/**
 * The oldest copy of the small tree,
 * content_generator/small_tree_render/small_tree_render.py: the focal
 * person's generations are arranged without a starting generation, every
 * generation is drawn as one row of cells in the order its set yields its
 * members, and the canvas is as wide as the largest generation and as high
 * as the number of generations.
 */
module EgoLegacy {
  import opened Wrappers
  import opened Dates
  import opened Entities
  import opened Svg
  import opened Ego
  import opened EgoCanvas
  import Timeline

  const LegacyXSpacing: real := 50.0
  /** `_MIN_GENERATIONS`: generation -1 is drawn in the top row. */
  const MinGenerations: int := 1

  // ---------------------------------------------------------------------
  // Generations

  /** `__arrange_in_generation` of this copy starts from no generation at all. */
  function LegacyGenerations(base: Id, fids: seq<Id>, families: map<Id, Family>): map<int, set<Id>>
    requires forall i :: 0 <= i < |fids| ==> fids[i] in families
  {
    GenerationsOf(map[], base, fids, families)
  }

  /**
   * The keys are those some family asks for: 0 and 1 once the focal person
   * heads a family, -1 once they are a child of one; without families there
   * is no generation at all.
   */
  lemma LegacyKeys(base: Id, fids: seq<Id>, families: map<Id, Family>)
    requires forall i :: 0 <= i < |fids| ==> fids[i] in families
    ensures forall k :: k in LegacyGenerations(base, fids, families) <==>
              ((k == 0 || k == 1) && exists i :: 0 <= i < |fids| && base in Parents(families[fids[i]]))
              || (k == -1 && exists i :: 0 <= i < |fids| && base in families[fids[i]].children)
    ensures fids == [] ==> LegacyGenerations(base, fids, families) == map[]
  {
    GenerationKeys(map[], base, fids, families);
  }

  /** A focal person who heads a family and is a child in one is in generation 0 and in generation -1. */
  lemma ParentAndChild(base: Id, fids: seq<Id>, families: map<Id, Family>, i: nat, j: nat)
    requires forall i :: 0 <= i < |fids| ==> fids[i] in families
    requires i < |fids| && base in Parents(families[fids[i]])
    requires j < |fids| && base in families[fids[j]].children
    ensures base in At(LegacyGenerations(base, fids, families), 0)
    ensures base in At(LegacyGenerations(base, fids, families), -1)
  {
    GenerationZero(map[], base, fids, families);
    GenerationAbove(map[], base, fids, families);
  }

  // ---------------------------------------------------------------------
  // Cells

  /** `__add_person` of this copy: generation `gen` in row `gen + 1`, columns 1.3 cell widths apart, labels at 0.7 of the font per character. */
  function LegacyCell(p: Person, gen: int, col: int): seq<Shape> {
    var x := col as real * (PersonWidth * 1.3);
    var y := (gen + MinGenerations) as real * (PersonHeight + YSpacing);
    var weight := LegacyFont as real * 0.7 * |p.name| as real;
    [Rect(x, y, PersonWidth, PersonHeight, Solid(Timeline.Color(p.gender))),
     Text(p.name, LegacyFont, x + PersonWidth / 2.0 - weight / 2.0, y + PersonHeight / 2.0, false),
     Text(p.id, LegacyFont, x + PersonWidth / 2.0 - weight / 2.0, y + PersonHeight / 2.0, true)]
  }

  /** One generation as `items()` yields it: its key, and its members in the order the set yields them. */
  datatype Row = Row(gen: int, members: seq<Id>)

  /** `rows` lists every generation of `g` once, each with its members once. */
  ghost predicate Enumerates(rows: seq<Row>, g: map<int, set<Id>>) {
    |rows| == |g|
    && (forall i, j :: 0 <= i < j < |rows| ==> rows[i].gen != rows[j].gen)
    && (forall i :: 0 <= i < |rows| ==>
          rows[i].gen in g && NoDuplicates(rows[i].members)
          && forall x :: x in rows[i].members <==> x in g[rows[i].gen])
  }

  predicate RowsKnown(rows: seq<Row>, persons: map<Id, Person>) {
    forall i, j :: 0 <= i < |rows| && 0 <= j < |rows[i].members| ==> rows[i].members[j] in persons
  }

  /** The cells of one generation, member `j` in column `j`. */
  function RowShapes(members: seq<Id>, gen: int, persons: map<Id, Person>): (r: seq<Shape>)
    requires forall j :: 0 <= j < |members| ==> members[j] in persons
    ensures |r| == 3 * |members|
  {
    if |members| == 0 then []
    else
      var n := |members| - 1;
      RowShapes(members[..n], gen, persons) + LegacyCell(persons[members[n]], gen, n)
  }

  /** `__draw_objects_from_generations`: the generations one after another. */
  function GenerationShapes(rows: seq<Row>, persons: map<Id, Person>): seq<Shape>
    requires RowsKnown(rows, persons)
  {
    if |rows| == 0 then []
    else
      var n := |rows| - 1;
      GenerationShapes(rows[..n], persons) + RowShapes(rows[n].members, rows[n].gen, persons)
  }

  /** The number of members over all generations. */
  function Members(rows: seq<Row>): nat {
    if |rows| == 0 then 0 else Members(rows[..|rows| - 1]) + |rows[|rows| - 1].members|
  }

  method DrawRow(members: seq<Id>, gen: int, persons: map<Id, Person>) returns (r: seq<Shape>)
    requires forall j :: 0 <= j < |members| ==> members[j] in persons
    ensures r == RowShapes(members, gen, persons)
  {
    r := [];
    for j := 0 to |members|
      invariant r == RowShapes(members[..j], gen, persons)
    {
      assert members[..j + 1][..j] == members[..j];
      r := r + LegacyCell(persons[members[j]], gen, j);
    }
    assert members[..|members|] == members;
  }

  method DrawFromGenerations(rows: seq<Row>, persons: map<Id, Person>) returns (r: seq<Shape>)
    requires RowsKnown(rows, persons)
    ensures r == GenerationShapes(rows, persons)
  {
    r := [];
    for i := 0 to |rows|
      invariant RowsKnown(rows[..i], persons)
      invariant r == GenerationShapes(rows[..i], persons)
    {
      assert rows[..i + 1][..i] == rows[..i];
      var cells := DrawRow(rows[i].members, rows[i].gen, persons);
      r := r + cells;
    }
    assert rows[..|rows|] == rows;
  }

  /** Member `j` of a generation is drawn by shapes `3j` to `3j + 2`: the cell in column `j`. */
  lemma {:induction false} RowCell(members: seq<Id>, gen: int, persons: map<Id, Person>, j: nat)
    requires forall j :: 0 <= j < |members| ==> members[j] in persons
    requires j < |members|
    ensures RowShapes(members, gen, persons)[3 * j .. 3 * j + 3] == LegacyCell(persons[members[j]], gen, j)
    decreases |members|
  {
    var n := |members| - 1;
    var before := RowShapes(members[..n], gen, persons);
    if j < n {
      RowCell(members[..n], gen, persons, j);
      assert RowShapes(members, gen, persons)[3 * j .. 3 * j + 3] == before[3 * j .. 3 * j + 3];
    } else {
      assert RowShapes(members, gen, persons)[3 * j .. 3 * j + 3] == LegacyCell(persons[members[n]], gen, n);
    }
  }

  /** Exactly three shapes are drawn per member of a generation. */
  lemma {:induction false} ThreePerPerson(rows: seq<Row>, persons: map<Id, Person>)
    requires RowsKnown(rows, persons)
    ensures |GenerationShapes(rows, persons)| == 3 * Members(rows)
  {
    if |rows| > 0 {
      var n := |rows| - 1;
      assert RowsKnown(rows[..n], persons) by {
        forall i, j | 0 <= i < n && 0 <= j < |rows[..n][i].members|
          ensures rows[..n][i].members[j] in persons
        {
          assert rows[..n][i] == rows[i];
        }
      }
      ThreePerPerson(rows[..n], persons);
    }
  }

  // ---------------------------------------------------------------------
  // Canvas size

  /** The largest generation. */
  function Widest(rows: seq<Row>): nat {
    if |rows| == 0 then 0
    else
      var n := |rows| - 1;
      var w := Widest(rows[..n]);
      if w < |rows[n].members| then |rows[n].members| else w
  }

  /** `__get_size` of this copy: the largest generation times a column, the number of generations times a row. */
  method GetSizeLegacy(rows: seq<Row>) returns (width: real, height: real)
    ensures width == (PersonWidth + LegacyXSpacing) * Widest(rows) as real
    ensures height == (PersonHeight + YSpacing) * |rows| as real
  {
    var widest := 0;
    for i := 0 to |rows|
      invariant widest == Widest(rows[..i])
    {
      assert rows[..i + 1][..i] == rows[..i];
      if |rows[i].members| > widest {
        widest := |rows[i].members|;
      }
    }
    assert rows[..|rows|] == rows;
    width := (PersonWidth + LegacyXSpacing) * widest as real;
    height := (PersonHeight + YSpacing) * |rows| as real;
  }

  /** Every generation fits the width; every member's column is below it. */
  lemma {:induction false} WidestBounds(rows: seq<Row>, i: nat)
    requires i < |rows|
    ensures |rows[i].members| <= Widest(rows)
  {
    var n := |rows| - 1;
    if i < n {
      WidestBounds(rows[..n], i);
    }
  }

  /**
   * The focal person heading a family without being anybody's child gives
   * generations 0 and 1 only: two rows of height, while generation 1 is
   * drawn in the third row.
   */
  lemma LegacyHeightMissesChildren()
    ensures var p := Person("C", "C", "", Date(0, Exactly), Date(0, Exactly), Unknown, [], [], []);
            var rows := [Row(0, ["B"]), Row(1, ["C"])];
            var bottom := RowShapes(["C"], 1, map["C" := p])[0];
            && bottom.Rect? && bottom.y == (PersonHeight + YSpacing) * |rows| as real
  {
  }

  /** The lowest row a generation is drawn in, plus one: generation `gen` takes row `gen + 1`. */
  function RowsNeeded(rows: seq<Row>): nat {
    if |rows| == 0 then 0
    else
      var n := |rows| - 1;
      var r := RowsNeeded(rows[..n]);
      var own := rows[n].gen + MinGenerations + 1;
      if r < own then own else r
  }

  lemma {:induction false} RowsNeededBounds(rows: seq<Row>, i: nat)
    requires i < |rows|
    ensures rows[i].gen + MinGenerations + 1 <= RowsNeeded(rows)
  {
    var n := |rows| - 1;
    if i < n {
      RowsNeededBounds(rows[..n], i);
    }
  }

  /** The canvas height that holds every row drawn. */
  method GetHeightFitting(rows: seq<Row>) returns (height: real)
    ensures height == (PersonHeight + YSpacing) * RowsNeeded(rows) as real
  {
    var needed := 0;
    for i := 0 to |rows|
      invariant needed == RowsNeeded(rows[..i])
    {
      assert rows[..i + 1][..i] == rows[..i];
      if needed < rows[i].gen + MinGenerations + 1 {
        needed := rows[i].gen + MinGenerations + 1;
      }
    }
    assert rows[..|rows|] == rows;
    height := (PersonHeight + YSpacing) * needed as real;
  }

  /** The rectangles of one generation lie in its row and left of the width of its members. */
  lemma {:induction false} RowRects(members: seq<Id>, gen: int, persons: map<Id, Person>)
    requires forall j :: 0 <= j < |members| ==> members[j] in persons
    ensures forall s :: s in RowShapes(members, gen, persons) && s.Rect? ==>
              0.0 <= s.x && s.x + s.width <= (PersonWidth + LegacyXSpacing) * |members| as real
              && s.y == (gen + MinGenerations) as real * (PersonHeight + YSpacing) && s.height == PersonHeight
  {
    if |members| > 0 {
      var n := |members| - 1;
      RowRects(members[..n], gen, persons);
      assert n as real * (PersonWidth * 1.3) + PersonWidth <= (PersonWidth + LegacyXSpacing) * (n + 1) as real;
    }
  }

  /**
   * With the generations of the focal person (keys -1, 0, 1) every
   * rectangle lies inside the width of the largest generation and the
   * fitting height.
   */
  lemma {:induction false} LegacyRectsInside(rows: seq<Row>, persons: map<Id, Person>)
    requires RowsKnown(rows, persons)
    requires forall i :: 0 <= i < |rows| ==> -1 <= rows[i].gen
    ensures forall s :: s in GenerationShapes(rows, persons) && s.Rect? ==>
              0.0 <= s.x && s.x + s.width <= (PersonWidth + LegacyXSpacing) * Widest(rows) as real
              && 0.0 <= s.y && s.y + s.height <= (PersonHeight + YSpacing) * RowsNeeded(rows) as real
  {
    if |rows| > 0 {
      var n := |rows| - 1;
      assert RowsKnown(rows[..n], persons) by {
        forall i, j | 0 <= i < n && 0 <= j < |rows[..n][i].members|
          ensures rows[..n][i].members[j] in persons
        {
          assert rows[..n][i] == rows[i];
        }
      }
      LegacyRectsInside(rows[..n], persons);
      RowRects(rows[n].members, rows[n].gen, persons);
      WidestBounds(rows, n);
      RowsNeededBounds(rows, n);
      assert (rows[n].gen + MinGenerations) as real * (PersonHeight + YSpacing) + PersonHeight
             <= (PersonHeight + YSpacing) * (rows[n].gen + MinGenerations + 1) as real;
    }
  }

  // ---------------------------------------------------------------------
  // create_svg

  /** Every member of the focal person's generations is a loaded person of some family. */
  lemma GenerationsKnown(base: Id, t: GrampsTree)
    requires TreeShaped(t)
    ensures var g := LegacyGenerations(base, t.familyOrder, t.families);
            forall k, x :: k in g && x in g[k] ==> x in t.persons
  {
    var g := LegacyGenerations(base, t.familyOrder, t.families);
    GenerationZero(map[], base, t.familyOrder, t.families);
    GenerationOne(map[], base, t.familyOrder, t.families);
    GenerationAbove(map[], base, t.familyOrder, t.families);
    LegacyKeys(base, t.familyOrder, t.families);
    forall k, x | k in g && x in g[k]
      ensures x in t.persons
    {
      assert x in At(g, k);
    }
  }

  /** The generations' rows name loaded persons and lie at keys -1 to 1. */
  lemma RowsOfTree(base: Id, t: GrampsTree, rows: seq<Row>)
    requires TreeShaped(t)
    requires Enumerates(rows, LegacyGenerations(base, t.familyOrder, t.families))
    ensures RowsKnown(rows, t.persons)
    ensures forall i :: 0 <= i < |rows| ==> -1 <= rows[i].gen
  {
    var g := LegacyGenerations(base, t.familyOrder, t.families);
    GenerationsKnown(base, t);
    LegacyKeys(base, t.familyOrder, t.families);
    forall i, j | 0 <= i < |rows| && 0 <= j < |rows[i].members|
      ensures rows[i].members[j] in t.persons
    {
      assert rows[i].members[j] in g[rows[i].gen];
    }
  }

  /**
   * `create_svg` of this copy, with the generations in the order `rows`
   * lists them: a missing focal person raises KeyError; otherwise every
   * generation is drawn, on a canvas as wide as the largest generation and
   * with one row of height per generation.
   */
  function LegacyTree(baseId: Id, t: GrampsTree, rows: seq<Row>): (r: Result<Canvas>)
    requires TreeShaped(t)
    requires Enumerates(rows, LegacyGenerations(baseId, t.familyOrder, t.families))
  {
    if baseId !in t.persons then Err(KeyError)
    else
      RowsOfTree(baseId, t, rows);
      Ok(Canvas((PersonWidth + LegacyXSpacing) * Widest(rows) as real,
                (PersonHeight + YSpacing) * |rows| as real,
                GenerationShapes(rows, t.persons)))
  }

  method CreateSvgLegacy(baseId: Id, t: GrampsTree, rows: seq<Row>) returns (r: Result<Canvas>)
    requires TreeShaped(t)
    requires Enumerates(rows, LegacyGenerations(baseId, t.familyOrder, t.families))
    ensures r == LegacyTree(baseId, t, rows)
  {
    if baseId !in t.persons {
      return Err(KeyError);
    }
    RowsOfTree(baseId, t, rows);
    var shapes := DrawFromGenerations(rows, t.persons);
    var width, height := GetSizeLegacy(rows);
    r := Ok(Canvas(width, height, shapes));
  }

  /**
   * `create_svg` of this copy with the height it evidently meant: the same
   * result, the canvas as high as the lowest row drawn.
   */
  function LegacyTreeFitting(baseId: Id, t: GrampsTree, rows: seq<Row>): (r: Result<Canvas>)
    requires TreeShaped(t)
    requires Enumerates(rows, LegacyGenerations(baseId, t.familyOrder, t.families))
    ensures r.Ok? <==> LegacyTree(baseId, t, rows).Ok?
    ensures r.Err? ==> r == LegacyTree(baseId, t, rows)
    ensures r.Ok? ==> r.value.shapes == LegacyTree(baseId, t, rows).value.shapes
                      && r.value.width == LegacyTree(baseId, t, rows).value.width
  {
    var drawn := LegacyTree(baseId, t, rows);
    if drawn.Err? then drawn
    else Ok(drawn.value.(height := (PersonHeight + YSpacing) * RowsNeeded(rows) as real))
  }

  /** The drawing on the fitting canvas, its height given by the loop over the rows drawn. */
  method CreateSvgLegacyFitting(baseId: Id, t: GrampsTree, rows: seq<Row>) returns (r: Result<Canvas>)
    requires TreeShaped(t)
    requires Enumerates(rows, LegacyGenerations(baseId, t.familyOrder, t.families))
    ensures r == LegacyTreeFitting(baseId, t, rows)
  {
    r := CreateSvgLegacy(baseId, t, rows);
    if r.Ok? {
      var height := GetHeightFitting(rows);
      r := Ok(r.value.(height := height));
    }
  }

  /** Every rectangle of the older copy's drawing lies inside the fitting canvas. */
  lemma LegacyCellsInside(baseId: Id, t: GrampsTree, rows: seq<Row>)
    requires TreeShaped(t)
    requires Enumerates(rows, LegacyGenerations(baseId, t.familyOrder, t.families))
    requires LegacyTreeFitting(baseId, t, rows).Ok?
    ensures var canvas := LegacyTreeFitting(baseId, t, rows).value;
            forall s :: s in canvas.shapes && s.Rect? ==>
              0.0 <= s.x && s.x + s.width <= canvas.width && 0.0 <= s.y && s.y + s.height <= canvas.height
  {
    RowsOfTree(baseId, t, rows);
    LegacyRectsInside(rows, t.persons);
  }

  /** Without families there is no generation: the canvas is 0 by 0 and empty. */
  lemma NoFamiliesEmptyCanvas(baseId: Id, t: GrampsTree, rows: seq<Row>)
    requires TreeShaped(t) && baseId in t.persons && t.familyOrder == []
    requires Enumerates(rows, LegacyGenerations(baseId, t.familyOrder, t.families))
    ensures LegacyTree(baseId, t, rows) == Ok(Canvas(0.0, 0.0, []))
  {
    LegacyKeys(baseId, t.familyOrder, t.families);
  }
}
