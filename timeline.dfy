/**
 * The full-timeline drawing of the tree (`TreeRender`): every person is a
 * bar on a shared time axis, one row per person. Rows are handed out by a
 * greedy depth-first walk over the pool of unplaced persons: a round starts
 * at the earliest-born man (else woman) still unplaced and follows children
 * first, partners second, until the branch runs dry. Families are then
 * joined by vertical lines at their wedding day.
 *
 * Coordinates are exact reals; the wedding days are the values the families
 * memoised (taken as input, see `WeddingMemo`), and today's date is a
 * parameter.
 */
module Timeline {
  import opened Wrappers
  import opened Dates
  import opened Entities
  import opened Svg
  import opened TreeWalk

  const YSpacing: real := 6.0
  const XScale: real := 0.01
  const FontSize: int := 12
  /** The bar height, `_FONT_SIZE * 1.2`. */
  const Height: real := 14.4
  const XOffset: real := Height
  const TriangleWidth: real := 4.0
  const TriangleHeight: real := 4.0
  /** An estimated birth is drawn as a five-year fade before the bar. */
  const BirthErrorDays := 5 * 365
  /** An estimated death is drawn as a ten-year fade after the bar. */
  const DeathErrorDays := 10 * 365

  function Color(g: Gender): string {
    match g
    case Male => "lightblue"
    case Female => "pink"
    case Unknown => "LightYellow"
  }

  /** The top edge of the bar in row `row`. */
  function RowY(row: int): real {
    (Height + YSpacing) * row as real
  }

  /** `_compute_x_pos`: the days since the earliest birth of the tree, scaled, after a margin. */
  function XPos(older: int, day: int): real {
    (day - older) as real * XScale + XOffset
  }

  /** The time axis is linear and strictly increasing, and the earliest birth sits at the margin. */
  lemma XPosLinear(older: int, d1: int, d2: int)
    ensures XPos(older, d2) - XPos(older, d1) == (d2 - d1) as real * XScale
    ensures d1 < d2 <==> XPos(older, d1) < XPos(older, d2)
    ensures XPos(older, older) == XOffset
  {
  }

  /** A person's bar, `days_of_life * _X_SCALE` wide, ends exactly at the death day on the axis. */
  lemma BarSpansLife(older: int, p: Person)
    ensures XPos(older, p.birth.ordinal) + DaysOfLife(p) as real * XScale == XPos(older, p.death.ordinal)
  {
  }

  /** The triangle outline of `__get_triangular`: base at `y` centred on `x`, apex above (`down`) or below. */
  function Outline(y: real, x: real, down: bool): Shape {
    var apex := if down then y - TriangleHeight else y + TriangleHeight;
    Lines([Point(x - TriangleWidth / 2.0, y), Point(x + TriangleWidth / 2.0, y),
           Point(x, apex), Point(x - TriangleWidth / 2.0, y)], "black")
  }

  /** `__get_triangular`: only the directions "down" and "up" exist. */
  function Triangle(y: real, x: real, direction: string): (r: Result<Shape>)
    ensures r.Ok? <==> direction == "down" || direction == "up"
    ensures r.Err? ==> r.error == UnknownDirectionError
    ensures r.Ok? ==> r.value.Lines? && |r.value.points| == 4
                      && r.value.points[0] == r.value.points[3]
                      && r.value.points[0].y == y && r.value.points[1].y == y
                      && r.value.points[1].x - r.value.points[0].x == TriangleWidth
                      && r.value.points[0].x + r.value.points[1].x == 2.0 * x
                      && r.value.points[2].x == x
                      && (direction == "down" ==> r.value.points[2].y == y - TriangleHeight)
                      && (direction == "up" ==> r.value.points[2].y == y + TriangleHeight)
  {
    if direction == "down" then Ok(Outline(y, x, true))
    else if direction == "up" then Ok(Outline(y, x, false))
    else Err(UnknownDirectionError)
  }

  /**
   * The shapes `__add_person` draws for `p` with its bar at (x, y): the bar,
   * a fade before it for an estimated birth, a fade after it for an
   * estimated death, then the visible caption and the hidden id at the same
   * anchor.
   */
  function PersonShapes(p: Person, x: real, y: real): (r: seq<Shape>)
    ensures |r| == 3 + (if p.birth.quality == Estimated then 1 else 0) + (if p.death.quality == Estimated then 1 else 0)
    ensures r[0] == Rect(x, y, DaysOfLife(p) as real * XScale, Height, Solid(Color(p.gender)))
    ensures p.birth.quality == Estimated ==>
              && r[1].Rect? && r[1].y == y && r[1].x + r[1].width == x
              && r[1].width == BirthErrorDays as real * XScale
              && r[1].fill.Gradient? && r[1].fill.x1 == r[1].x && r[1].fill.x2 == x
              && r[1].fill.stops == [Stop(0.0, "white", 0.0), Stop(1.0, Color(p.gender), 1.0)]
    ensures p.death.quality == Estimated ==>
              && r[|r| - 3].Rect? && r[|r| - 3].y == y && r[|r| - 3].x == x + r[0].width
              && r[|r| - 3].width == DeathErrorDays as real * XScale
              && r[|r| - 3].fill.Gradient? && r[|r| - 3].fill.x1 == r[|r| - 3].x
              && r[|r| - 3].fill.stops == [Stop(0.0, Color(p.gender), 1.0), Stop(1.0, "white", 0.0)]
    ensures r[|r| - 2] == Text(p.caption, FontSize, x, y + FontSize as real, false)
    ensures r[|r| - 1] == Text(p.id, FontSize, x, y + FontSize as real, true)
  {
    var color := Color(p.gender);
    var width := DaysOfLife(p) as real * XScale;
    var bar := [Rect(x, y, width, Height, Solid(color))];
    var before :=
      if p.birth.quality == Estimated then
        var offset := BirthErrorDays as real * XScale;
        [Rect(x - offset, y, offset, Height,
              Gradient(x - offset, y, x, y + Height, [Stop(0.0, "white", 0.0), Stop(1.0, color, 1.0)]))]
      else [];
    var after :=
      if p.death.quality == Estimated then
        var span := DeathErrorDays as real * XScale;
        [Rect(x + width, y, span, Height,
              Gradient(x + width, y, x + width + span, y + Height, [Stop(0.0, color, 1.0), Stop(1.0, "white", 0.0)]))]
      else [];
    bar + before + after
    + [Text(p.caption, FontSize, x, y + FontSize as real, false), Text(p.id, FontSize, x, y + FontSize as real, true)]
  }

  /** Who the family line joins, in drawing order: the children, then the parents. */
  function Members(f: Family): seq<Id> {
    f.children + Parents(f)
  }

  /** `__create_family_lines` draws a family that has children or both parents. */
  predicate HasLine(f: Family) {
    |f.children| != 0 || IsFull(f)
  }

  /** The member `max(nodes, key=y_pos)` picks: the largest y, the first among equals. */
  function FirstHighest(ms: seq<Id>, ys: map<Id, real>): (i: nat)
    requires |ms| > 0 && forall m :: m in ms ==> m in ys
    ensures i < |ms|
    ensures forall j :: 0 <= j < |ms| ==> ys[ms[j]] <= ys[ms[i]]
    ensures forall j :: 0 <= j < i ==> ys[ms[j]] < ys[ms[i]]
  {
    if |ms| == 1 then 0
    else
      var k := FirstHighest(ms[1..], ys) + 1;
      assert ms[1..][k - 1] == ms[k];
      if ys[ms[0]] >= ys[ms[k]] then 0 else k
  }

  /** The member `min(nodes, key=y_pos)` picks: the smallest y, the first among equals. */
  function FirstLowest(ms: seq<Id>, ys: map<Id, real>): (i: nat)
    requires |ms| > 0 && forall m :: m in ms ==> m in ys
    ensures i < |ms|
    ensures forall j :: 0 <= j < |ms| ==> ys[ms[i]] <= ys[ms[j]]
    ensures forall j :: 0 <= j < i ==> ys[ms[j]] > ys[ms[i]]
  {
    if |ms| == 1 then 0
    else
      var k := FirstLowest(ms[1..], ys) + 1;
      assert ms[1..][k - 1] == ms[k];
      if ys[ms[0]] <= ys[ms[k]] then 0 else k
  }

  /**
   * The triangles one member of `f` contributes: none for a child; one for a
   * parent at either end of the line, pointing into it; two for a parent in
   * between, at the top and the bottom of its bar.
   */
  function Marks(m: Id, f: Family, top: Id, low: Id, y: real, x: real): (r: seq<Shape>)
    ensures |r| == (if m !in Parents(f) then 0 else if m == top || m == low then 1 else 2)
  {
    if m !in Parents(f) then []
    else if m == top then [Outline(y, x, true)]
    else if m == low then [Outline(y + Height, x, false)]
    else [Outline(y, x, true), Outline(y + Height, x, false)]
  }

  /** The triangles of all of `ms`, in order. */
  function AllMarks(ms: seq<Id>, f: Family, top: Id, low: Id, ys: map<Id, real>, x: real): seq<Shape>
    requires forall m :: m in ms ==> m in ys
  {
    if |ms| == 0 then []
    else
      var last := ms[|ms| - 1];
      AllMarks(ms[..|ms| - 1], f, top, low, ys, x) + Marks(last, f, top, low, ys[last], x)
  }

  /** The end of the family line at the largest-y member: its top edge for a parent, its middle for a child. */
  function TopEnd(top: Id, f: Family, ys: map<Id, real>): real
    requires top in ys
  {
    if top in Parents(f) then ys[top] else ys[top] + Height / 2.0
  }

  /** The end at the smallest-y member: its bottom edge for a parent, its middle for a child. */
  function LowEnd(low: Id, f: Family, ys: map<Id, real>): real
    requires low in ys
  {
    if low in Parents(f) then ys[low] + Height else ys[low] + Height / 2.0
  }

  /**
   * What `__create_family_lines` draws for one family at `x`: the triangles,
   * then the vertical line. A member without a node raises KeyError. When
   * the largest-y and the smallest-y member are the same person the lower
   * end is never set.
   */
  function FamilyShapes(f: Family, ys: map<Id, real>, x: real): Result<seq<Shape>>
    requires HasLine(f)
  {
    var ms := Members(f);
    if exists m :: m in ms && m !in ys then Err(KeyError)
    else
      var top := ms[FirstHighest(ms, ys)];
      var low := ms[FirstLowest(ms, ys)];
      Ok(AllMarks(ms, f, top, low, ys, x) + [FamilyLine(f, ys, x)])
  }

  /**
   * The vertical line of a family at `x`: its upper end at or past every
   * member's row, its lower end, when set, at or before the bottom of every
   * member's bar; both ends are set as soon as two members sit on
   * different rows.
   */
  function FamilyLine(f: Family, ys: map<Id, real>, x: real): (v: Shape)
    requires HasLine(f)
    requires forall m :: m in Members(f) ==> m in ys
    ensures v.Vertical? && v.x == x && v.to.Some?
    ensures forall m :: m in Members(f) ==> ys[m] <= v.to.value
    ensures v.from.Some? ==> forall m :: m in Members(f) ==> v.from.value <= ys[m] + Height
    ensures (exists m, n :: m in Members(f) && n in Members(f) && ys[m] != ys[n]) ==> v.from.Some?
  {
    var ms := Members(f);
    var top := ms[FirstHighest(ms, ys)];
    var low := ms[FirstLowest(ms, ys)];
    assert forall m :: m in ms ==> ys[low] <= ys[m] <= ys[top];
    Vertical(x, if low == top then None else Some(LowEnd(low, f, ys)), Some(TopEnd(top, f, ys)))
  }

  function TriangleCount(ms: seq<Id>, f: Family, top: Id, low: Id): nat {
    if |ms| == 0 then 0
    else
      var m := ms[|ms| - 1];
      TriangleCount(ms[..|ms| - 1], f, top, low) + (if m !in Parents(f) then 0 else if m == top || m == low then 1 else 2)
  }

  lemma {:induction false} AllMarksCount(ms: seq<Id>, f: Family, top: Id, low: Id, ys: map<Id, real>, x: real)
    requires forall m :: m in ms ==> m in ys
    ensures |AllMarks(ms, f, top, low, ys, x)| == TriangleCount(ms, f, top, low)
  {
    if |ms| > 0 {
      AllMarksCount(ms[..|ms| - 1], f, top, low, ys, x);
    }
  }

  /** Each parent adds one triangle at an end of the line and two in between; children add none. */
  lemma FamilyTriangles(f: Family, ys: map<Id, real>, x: real)
    requires HasLine(f)
    requires forall m :: m in Members(f) ==> m in ys
    ensures FamilyShapes(f, ys, x).Ok?
    ensures var ms := Members(f);
            |FamilyShapes(f, ys, x).value| == 1 + TriangleCount(ms, f, ms[FirstHighest(ms, ys)], ms[FirstLowest(ms, ys)])
  {
    var ms := Members(f);
    AllMarksCount(ms, f, ms[FirstHighest(ms, ys)], ms[FirstLowest(ms, ys)], ys, x);
  }

  /** The node lookups of `__create_family_lines`: the first member without a node, if any. */
  method FirstMissing(ms: seq<Id>, ys: map<Id, real>) returns (r: Option<nat>)
    ensures r.None? <==> forall m :: m in ms ==> m in ys
    ensures r.Some? ==> r.value < |ms| && ms[r.value] !in ys && forall j :: 0 <= j < r.value ==> ms[j] in ys
  {
    var k := 0;
    while k < |ms|
      invariant 0 <= k <= |ms|
      invariant forall j :: 0 <= j < k ==> ms[j] in ys
    {
      if ms[k] !in ys {
        return Some(k);
      }
      k := k + 1;
    }
    return None;
  }

  /** `acc` placed before a successful result; an error stays as it is. */
  function Prefixed(acc: seq<Shape>, r: Result<seq<Shape>>): Result<seq<Shape>> {
    match r
    case Ok(s) => Ok(acc + s)
    case Err(e) => Err(e)
  }

  lemma InPrefixStep(s: seq<Id>, i: int, x: Id)
    requires 0 <= i < |s|
    ensures (x in s[..i + 1]) == (x in s[..i] || x == s[i])
  {
    assert s[..i + 1] == s[..i] + [s[i]];
  }

  /**
   * The inner loop of `__create_family_lines` over the members `ms` of `f`:
   * the triangles, and the two ends of the line as far as they get set.
   */
  method TraceFamily(f: Family, ms: seq<Id>, top: Id, low: Id, ys: map<Id, real>, x: real)
    returns (marks: seq<Shape>, topY: Option<real>, lowY: Option<real>)
    requires forall m :: m in ms ==> m in ys
    requires top in ys && low in ys
    ensures marks == AllMarks(ms, f, top, low, ys, x)
    ensures topY == if top in ms then Some(TopEnd(top, f, ys)) else None
    ensures lowY == if low in ms && low != top then Some(LowEnd(low, f, ys)) else None
  {
    marks, topY, lowY := [], None, None;
    var i := 0;
    while i < |ms|
      invariant 0 <= i <= |ms|
      invariant marks == AllMarks(ms[..i], f, top, low, ys, x)
      invariant topY == if top in ms[..i] then Some(TopEnd(top, f, ys)) else None
      invariant lowY == if low in ms[..i] && low != top then Some(LowEnd(low, f, ys)) else None
    {
      var m := ms[i];
      marks := marks + Marks(m, f, top, low, ys[m], x);
      if m == top {
        topY := Some(TopEnd(top, f, ys));
      } else if m == low {
        lowY := Some(LowEnd(low, f, ys));
      }
      InPrefixStep(ms, i, top);
      InPrefixStep(ms, i, low);
      assert ms[..i + 1][..i] == ms[..i];
      i := i + 1;
    }
    assert ms[..|ms|] == ms;
  }

  lemma PrefixTransitive(a: seq<Id>, b: seq<Id>, c: seq<Id>)
    requires a <= b && b <= c
    ensures a <= c
  {
    assert c[..|a|] == b[..|a|];
  }

  lemma PrefixKeepsMembers(a: seq<Id>, b: seq<Id>)
    requires a <= b
    ensures forall x :: x in a ==> x in b
  {
    forall x | x in a
      ensures x in b
    {
      var i :| 0 <= i < |a| && a[i] == x;
      assert b[i] == x;
    }
  }

  /** Every person is either still in the pool or placed, never both, and placed once. */
  ghost predicate Partitioned(persons: map<Id, Person>, pool: set<Id>, placed: seq<Id>) {
    && pool <= persons.Keys
    && (forall i :: 0 <= i < |placed| ==> placed[i] in persons && placed[i] !in pool)
  }

  /** The person placed `i`-th sits strictly below the one placed just before. */
  ghost predicate Below(nodes: map<Id, real>, placed: seq<Id>, i: int) {
    0 < i < |placed| && placed[i - 1] in nodes && placed[i] in nodes && nodes[placed[i - 1]] < nodes[placed[i]]
  }

  /** The placed persons have nodes whose y grows in placement order and stays within the rows handed out. */
  ghost predicate Stacked(nodes: map<Id, real>, placed: seq<Id>, row: int) {
    && (forall id :: id in nodes <==> id in placed)
    && (forall i :: 0 < i < |placed| ==> Below(nodes, placed, i))
    && (forall id :: id in nodes ==> nodes[id] <= RowY(row))
  }

  lemma PlaceKeepsPartition(persons: map<Id, Person>, pool: set<Id>, placed: seq<Id>, id: Id)
    requires Partitioned(persons, pool, placed)
    requires id in pool
    ensures Partitioned(persons, pool - {id}, placed + [id])
  {
  }

  lemma PlaceKeepsStacked(nodes: map<Id, real>, placed: seq<Id>, row: int, id: Id)
    requires Stacked(nodes, placed, row)
    requires id !in placed
    ensures Stacked(nodes[id := RowY(row + 1)], placed + [id], row + 1)
  {
    var placed' := placed + [id];
    var nodes' := nodes[id := RowY(row + 1)];
    forall i | 0 < i < |placed'|
      ensures Below(nodes', placed', i)
    {
      assert placed'[i - 1] in nodes;
      if i < |placed'| - 1 {
        assert Below(nodes, placed, i);
        assert placed'[i - 1] == placed[i - 1] && placed'[i] == placed[i];
      }
    }
  }

  /** The drawing handed to the SVG library: its size and every shape, family lines first. */
  datatype Layout = Layout(width: real, height: real, shapes: seq<Shape>)

  /**
   * The extra weeks drawn for each family's wedding day, one draw per
   * family as its cached property keeps it, within the bounds of
   * `random.randint(0, 500)`; every family lists loaded persons only.
   */
  ghost predicate WeeksFit(tree: GrampsTree, weeks: map<Id, int>) {
    forall fid :: fid in tree.families ==>
      && fid in weeks && 0 <= weeks[fid] <= MaxExtraWeeks
      && MembersKnown(tree.families[fid], tree.persons)
  }

  /**
   * `family.wedding_day` of every family: its day, or the error computing
   * it raises. The property is cached and deterministic once the weeks are
   * drawn, so computing every family's day up front changes nothing.
   */
  function Weddings(tree: GrampsTree, weeks: map<Id, int>): (m: map<Id, Result<int>>)
    requires WeeksFit(tree, weeks)
    ensures WeddingsKnown(tree, m)
  {
    map fid | fid in tree.families :: WeddingDay(tree.families[fid], tree.persons, weeks[fid])
  }

  /** A wedding day, or its error, for every family. */
  ghost predicate WeddingsKnown(tree: GrampsTree, wedding: map<Id, Result<int>>) {
    forall fid :: fid in tree.families ==> fid in wedding
  }

  /** A wedding day that cannot be computed fails with ValueError or OverflowError. */
  lemma WeddingErrors(tree: GrampsTree, weeks: map<Id, int>, fid: Id)
    requires WeeksFit(tree, weeks) && fid in tree.families
    ensures Weddings(tree, weeks)[fid].Err? ==> Weddings(tree, weeks)[fid].error in {ValueError, OverflowError}
  {
  }

  /**
   * The connector `__add_person` draws from the bar of `p` at `y` to the
   * wedding day of the family it was born into: nothing without such a
   * family, the wedding day's error when that day cannot be computed.
   */
  function Connector(tree: GrampsTree, wedding: map<Id, Result<int>>, older: int, p: Person, y: real): (r: Result<seq<Shape>>)
    requires WeddingsKnown(tree, wedding)
    ensures r.Err? ==> exists fid :: fid in tree.families && wedding[fid] == Err(r.error)
  {
    match ParentalFamily(tree.familyOrder, tree.families, p.id)
    case None => Ok([])
    case Some(fid) =>
      var w :- wedding[fid];
      var x := XPos(older, p.birth.ordinal);
      Ok([Lines([Point(x, y + Height / 2.0), Point(XPos(older, w), y + Height / 2.0)], "black")])
  }

  /**
   * What `__add_person` draws for the persons `ids`, placed in that order
   * at the rows `ys`: each bar with its fades and captions, then its
   * connector. The first connector whose wedding day fails ends the
   * drawing with that error.
   */
  function Bars(tree: GrampsTree, wedding: map<Id, Result<int>>, older: int, ids: seq<Id>, ys: map<Id, real>): Result<seq<Shape>>
    requires WeddingsKnown(tree, wedding)
    requires forall i :: 0 <= i < |ids| ==> ids[i] in tree.persons && ids[i] in ys
    decreases |ids|
  {
    if |ids| == 0 then Ok([])
    else
      var id := ids[|ids| - 1];
      var front :- Bars(tree, wedding, older, ids[..|ids| - 1], ys);
      var p := tree.persons[id];
      var link :- Connector(tree, wedding, older, p, ys[id]);
      Ok(front + PersonShapes(p, XPos(older, p.birth.ordinal), ys[id]) + link)
  }

  /** The bars depend only on the rows of the persons drawn. */
  lemma {:induction false} BarsFrame(tree: GrampsTree, wedding: map<Id, Result<int>>, older: int, ids: seq<Id>, ys: map<Id, real>, ys': map<Id, real>)
    requires WeddingsKnown(tree, wedding)
    requires forall i :: 0 <= i < |ids| ==> ids[i] in tree.persons && ids[i] in ys && ids[i] in ys' && ys[ids[i]] == ys'[ids[i]]
    ensures Bars(tree, wedding, older, ids, ys) == Bars(tree, wedding, older, ids, ys')
    decreases |ids|
  {
    if |ids| > 0 {
      BarsFrame(tree, wedding, older, ids[..|ids| - 1], ys, ys');
    }
  }

  /** One more person drawn: its bar and connector after the others, unless the others or its connector failed. */
  lemma BarsStep(tree: GrampsTree, wedding: map<Id, Result<int>>, older: int, ids: seq<Id>, id: Id, ys: map<Id, real>)
    requires WeddingsKnown(tree, wedding)
    requires forall i :: 0 <= i < |ids| ==> ids[i] in tree.persons && ids[i] in ys
    requires id in tree.persons && id in ys
    ensures var p := tree.persons[id];
            var front := Bars(tree, wedding, older, ids, ys);
            var link := Connector(tree, wedding, older, p, ys[id]);
            var whole := Bars(tree, wedding, older, ids + [id], ys);
            && (front.Err? ==> whole == front)
            && (front.Ok? && link.Err? ==> whole == Err(link.error))
            && (front.Ok? && link.Ok? ==>
                  whole == Ok(front.value + PersonShapes(p, XPos(older, p.birth.ordinal), ys[id]) + link.value))
  {
    assert (ids + [id])[..|ids|] == ids;
  }

  /**
   * The bars fail exactly when some person drawn has a connector whose
   * wedding day fails, and then with the error of the first such person.
   */
  lemma {:induction false} BarsFailIff(tree: GrampsTree, wedding: map<Id, Result<int>>, older: int, ids: seq<Id>, ys: map<Id, real>)
    requires WeddingsKnown(tree, wedding)
    requires forall i :: 0 <= i < |ids| ==> ids[i] in tree.persons && ids[i] in ys
    ensures Bars(tree, wedding, older, ids, ys).Err? <==>
              exists i :: 0 <= i < |ids| && Connector(tree, wedding, older, tree.persons[ids[i]], ys[ids[i]]).Err?
    ensures Bars(tree, wedding, older, ids, ys).Err? ==>
              exists i :: 0 <= i < |ids|
                          && Connector(tree, wedding, older, tree.persons[ids[i]], ys[ids[i]]).Err?
                          && Bars(tree, wedding, older, ids, ys).error == Connector(tree, wedding, older, tree.persons[ids[i]], ys[ids[i]]).error
                          && forall j :: 0 <= j < i ==> Connector(tree, wedding, older, tree.persons[ids[j]], ys[ids[j]]).Ok?
    decreases |ids|
  {
    if |ids| > 0 {
      var front := ids[..|ids| - 1];
      BarsFailIff(tree, wedding, older, front, ys);
      assert forall i :: 0 <= i < |front| ==> front[i] == ids[i];
    }
  }

  /**
   * One family's lines, as the loop body of `__create_family_lines` draws
   * them: KeyError at a member without a node, looked up first; then the
   * wedding day, whose error ends the drawing; then the triangles and the
   * vertical line at that day.
   */
  function FamilyLineOf(tree: GrampsTree, wedding: map<Id, Result<int>>, older: int, ys: map<Id, real>, fid: Id): Result<seq<Shape>>
    requires WeddingsKnown(tree, wedding) && fid in tree.families && HasLine(tree.families[fid])
  {
    var f := tree.families[fid];
    if exists m :: m in Members(f) && m !in ys then Err(KeyError)
    else
      var w :- wedding[fid];
      FamilyShapes(f, ys, XPos(older, w))
  }

  /** The vertical lines and triangles of every family in `fids` that has a line, in that order. */
  function FamilyLinesOf(tree: GrampsTree, wedding: map<Id, Result<int>>, older: int, ys: map<Id, real>, fids: seq<Id>): Result<seq<Shape>>
    requires WeddingsKnown(tree, wedding)
  {
    if |fids| == 0 then Ok([])
    else
      var fid := fids[0];
      var head :- if fid in tree.families && HasLine(tree.families[fid])
                  then FamilyLineOf(tree, wedding, older, ys, fid)
                  else Ok([]);
      var rest :- FamilyLinesOf(tree, wedding, older, ys, fids[1..]);
      Ok(head + rest)
  }

  /** A family with a line that cannot be drawn: a member never placed, or a wedding day that cannot be computed. */
  ghost predicate FamilyFails(tree: GrampsTree, wedding: map<Id, Result<int>>, ys: map<Id, real>, fid: Id)
    requires WeddingsKnown(tree, wedding)
  {
    && fid in tree.families && HasLine(tree.families[fid])
    && ((exists m :: m in Members(tree.families[fid]) && m !in ys) || wedding[fid].Err?)
  }

  /** One family's lines fail exactly when the family cannot be drawn, with KeyError or the wedding day's error. */
  lemma FamilyLineFailIff(tree: GrampsTree, wedding: map<Id, Result<int>>, older: int, ys: map<Id, real>, fid: Id)
    requires WeddingsKnown(tree, wedding) && fid in tree.families && HasLine(tree.families[fid])
    ensures FamilyLineOf(tree, wedding, older, ys, fid).Err? <==> FamilyFails(tree, wedding, ys, fid)
    ensures FamilyLineOf(tree, wedding, older, ys, fid).Err? ==>
              FamilyLineOf(tree, wedding, older, ys, fid).error == KeyError
              || wedding[fid] == Err(FamilyLineOf(tree, wedding, older, ys, fid).error)
  {
    var f := tree.families[fid];
    if forall m :: m in Members(f) ==> m in ys {
      if wedding[fid].Ok? {
        FamilyTriangles(f, ys, XPos(older, wedding[fid].value));
      }
    }
  }

  /**
   * The family lines fail exactly when a family to be drawn has a member
   * that was never placed (KeyError) or a wedding day that cannot be
   * computed (that day's error).
   */
  lemma {:induction false} FamilyLinesFailIff(tree: GrampsTree, wedding: map<Id, Result<int>>, older: int, ys: map<Id, real>, fids: seq<Id>)
    requires WeddingsKnown(tree, wedding)
    ensures FamilyLinesOf(tree, wedding, older, ys, fids).Err? <==>
              exists fid :: fid in fids && FamilyFails(tree, wedding, ys, fid)
    ensures FamilyLinesOf(tree, wedding, older, ys, fids).Err? ==>
              FamilyLinesOf(tree, wedding, older, ys, fids).error == KeyError
              || exists fid :: fid in tree.families && wedding[fid] == Err(FamilyLinesOf(tree, wedding, older, ys, fids).error)
  {
    if |fids| > 0 {
      var fid := fids[0];
      FamilyLinesFailIff(tree, wedding, older, ys, fids[1..]);
      if fid in tree.families && HasLine(tree.families[fid]) {
        FamilyLineFailIff(tree, wedding, older, ys, fid);
      }
      assert forall g :: g in fids <==> g == fid || g in fids[1..];
    }
  }

  /**
   * The constructor's drawing once the rows are handed out: the first
   * failing connector, else the first failing family line, ends it;
   * otherwise the family lines go under the bars, the canvas is as wide
   * as the days from the earliest birth to `today` plus ten margins and
   * as tall as the rows handed out plus two.
   */
  function Drawing(tree: GrampsTree, wedding: map<Id, Result<int>>, older: int, placed: seq<Id>, rounds: nat,
                   ys: map<Id, real>, today: int): Result<Layout>
    requires WeddingsKnown(tree, wedding)
    requires forall i :: 0 <= i < |placed| ==> placed[i] in tree.persons && placed[i] in ys
  {
    var bars :- Bars(tree, wedding, older, placed, ys);
    var lines :- FamilyLinesOf(tree, wedding, older, ys, tree.familyOrder);
    Ok(Layout((today - older) as real * XScale + XOffset * 10.0,
              (Height + YSpacing) * (|placed| + rounds + 2) as real,
              lines + bars))
  }

  /** The drawing fails only with a wedding day's error or a KeyError at a family member never placed. */
  lemma DrawingErrors(tree: GrampsTree, weeks: map<Id, int>, older: int, placed: seq<Id>, rounds: nat,
                      ys: map<Id, real>, today: int)
    requires WeeksFit(tree, weeks)
    requires forall i :: 0 <= i < |placed| ==> placed[i] in tree.persons && placed[i] in ys
    ensures var d := Drawing(tree, Weddings(tree, weeks), older, placed, rounds, ys, today);
            d.Err? ==> d.error in {KeyError, ValueError, OverflowError}
  {
    var wedding := Weddings(tree, weeks);
    var bars := Bars(tree, wedding, older, placed, ys);
    if bars.Err? {
      BarsFailIff(tree, wedding, older, placed, ys);
      var i :| 0 <= i < |placed| && Connector(tree, wedding, older, tree.persons[placed[i]], ys[placed[i]]).Err?
               && bars.error == Connector(tree, wedding, older, tree.persons[placed[i]], ys[placed[i]]).error;
      var fid :| fid in tree.families && wedding[fid] == Err(bars.error);
      WeddingErrors(tree, weeks, fid);
    } else {
      var lines := FamilyLinesOf(tree, wedding, older, ys, tree.familyOrder);
      if lines.Err? && lines.error != KeyError {
        FamilyLinesFailIff(tree, wedding, older, ys, tree.familyOrder);
        var fid :| fid in tree.families && wedding[fid] == Err(lines.error);
        WeddingErrors(tree, weeks, fid);
      }
    }
  }

  /** Regrouping the ids of a walk step, kept apart from the walk the solver would unfold. */
  lemma RegroupWalk(done: seq<Id>, n: seq<Id>, inner: seq<Id>, outer: seq<Id>)
    ensures done + (n + inner + outer) == (done + n + inner) + outer
  {
  }

  /** A walk that finds `n` next places `n`, walks from it, then resumes in what is left. */
  lemma WalkUnfolds(t: GrampsTree, person: Person, pool: set<Id>, n: Person)
    requires Keyed(t.persons)
    requires NextPerson(t, person, pool) == Some(n)
    ensures var inner := Walk(t, n, pool - {n.id});
            Walk(t, person, pool) == ([n.id] + inner.0 + Walk(t, person, inner.1).0, Walk(t, person, inner.1).1)
  {
  }

  lemma AppendNothing(s: seq<Id>)
    ensures s + [] == s
  {
  }

  /** The rounds of a pool: none when nobody can seed one, else the patriarch's round, then the rounds of what its walk leaves. */
  lemma RoundsUnfold(t: GrampsTree, pool: set<Id>)
    requires Keyed(t.persons)
    ensures Patriarch(PoolPersons(t, pool)).None? ==> Rounds(t, pool) == []
    ensures Patriarch(PoolPersons(t, pool)).Some? ==>
              var seed := Patriarch(PoolPersons(t, pool)).value;
              var w := Walk(t, seed, pool - {seed.id});
              Rounds(t, pool) == [[seed.id] + w.0] + Rounds(t, w.1)
  {
  }

  /** Regrouping a round's seed and walk. */
  lemma RegroupRound(before: seq<Id>, seed: seq<Id>, walk: seq<Id>)
    ensures before + seed + walk == before + (seed + walk)
  {
  }

  /** Regrouping the rounds, kept apart from the rounds the solver would unfold. */
  lemma RegroupRounds(done: seq<seq<Id>>, r: seq<Id>, rest: seq<seq<Id>>)
    ensures done + ([r] + rest) == (done + [r]) + rest
  {
  }

  class TreeRender {
    const tree: GrampsTree
    /** The wedding day of every family, or the error computing it raises. */
    const wedding: map<Id, Result<int>>
    /** The earliest birth of the whole tree: day zero of the time axis. */
    const older: int
    /** The ids of the persons not placed yet. */
    var pool: set<Id>
    /** `__vertical_index`: the last row handed out. */
    var row: int
    /** The y of each placed person's bar. */
    var nodes: map<Id, real>
    /** The shapes drawn so far, in drawing order. */
    var drawn: seq<Shape>
    /**
     * The error of the first connector whose wedding day failed: the
     * exception that ends the constructor. Nothing more is drawn after it.
     */
    var failure: Option<Error>
    /** The placed persons, in placement order. */
    ghost var placed: seq<Id>
    /** The ids each completed round placed, its seed first. */
    ghost var rounds: seq<seq<Id>>

    /** What the loaded tree and the wedding days' draws guarantee. */
    ghost predicate Setup() {
      && Keyed(tree.persons)
      && (forall id :: id in tree.persons <==> id in tree.order)
      && WeddingsKnown(tree, wedding)
    }

    /** Every person is either still in the pool or placed, never both, and placed once. */
    ghost predicate Partition()
      reads this`pool, this`placed
    {
      Partitioned(tree.persons, pool, placed)
    }

    /** The placed persons have nodes whose y grows in placement order and stays within the rows handed out. */
    ghost predicate Rows()
      reads this`nodes, this`placed, this`row
    {
      Stacked(nodes, placed, row)
    }

    /** Whoever was placed later sits strictly lower: y grows with placement order. */
    lemma {:induction false} PlacementDescends(i: int, j: int)
      requires Valid()
      requires 0 <= i < j < |placed|
      ensures nodes[placed[i]] < nodes[placed[j]]
      decreases j - i
    {
      assert Below(nodes, placed, i + 1);
      if i + 1 < j {
        PlacementDescends(i + 1, j);
      }
    }

    ghost predicate Valid()
      reads this`pool, this`placed, this`nodes, this`row
    {
      Setup() && Partition() && Rows()
    }

    /** The shapes drawn are the bars of the placed persons at their rows, or the first failure is kept. */
    ghost predicate Drew()
      requires Setup()
      reads this`placed, this`nodes, this`drawn, this`failure
    {
      && (forall i :: 0 <= i < |placed| ==> placed[i] in tree.persons && placed[i] in nodes)
      && Bars(tree, wedding, older, placed, nodes) == (if failure.None? then Ok(drawn) else Err(failure.value))
    }

    /** The setup of the constructor: the whole tree unplaced, no row handed out yet. */
    constructor (tree: GrampsTree, wedding: map<Id, Result<int>>)
      requires Keyed(tree.persons)
      requires forall id :: id in tree.persons <==> id in tree.order
      requires |tree.order| > 0
      requires WeddingsKnown(tree, wedding)
      ensures Valid() && Drew()
      ensures this.tree == tree && this.wedding == wedding
      ensures older == EarliestBirth(tree.order, tree.persons)
      ensures pool == tree.persons.Keys && row == -1 && nodes == map[] && drawn == [] && failure == None
      ensures placed == [] && rounds == []
    {
      this.tree := tree;
      this.wedding := wedding;
      older := EarliestBirth(tree.order, tree.persons);
      pool := tree.persons.Keys;
      row := -1;
      nodes := map[];
      drawn := [];
      failure := None;
      placed := [];
      rounds := [];
    }

    /**
     * `__add_person`: the next row, below every bar drawn so far, goes to
     * `p`, which leaves the pool; its bar and connector are drawn unless
     * an earlier connector already failed.
     */
    method AddPerson(p: Person)
      requires Valid() && Drew()
      requires p.id in pool && p.id in tree.persons && tree.persons[p.id] == p
      modifies this
      ensures Valid() && Drew()
      ensures row == old(row) + 1
      ensures nodes == old(nodes)[p.id := RowY(row)]
      ensures pool == old(pool) - {p.id}
      ensures placed == old(placed) + [p.id] && rounds == old(rounds)
    {
      Place(p);
      BarsFrame(tree, wedding, older, old(placed), old(nodes), nodes);
      BarsStep(tree, wedding, older, old(placed), p.id, nodes);
      if failure.None? {
        var y := nodes[p.id];
        var link := Connector(tree, wedding, older, p, y);
        if link.Err? {
          failure := Some(link.error);
        } else {
          drawn := drawn + PersonShapes(p, XPos(older, p.birth.ordinal), y) + link.value;
        }
      }
    }

    /** The bookkeeping half of `__add_person`: a new row, a node, and one person fewer in the pool. */
    method Place(p: Person)
      requires Valid()
      requires p.id in pool && p.id in tree.persons && tree.persons[p.id] == p
      modifies this`row, this`pool, this`nodes, this`placed
      ensures Valid()
      ensures row == old(row) + 1
      ensures nodes == old(nodes)[p.id := RowY(row)]
      ensures forall id :: id in old(nodes) ==> old(nodes)[id] < RowY(row)
      ensures pool == old(pool) - {p.id}
      ensures placed == old(placed) + [p.id]
    {
      row := row + 1;
      var y := RowY(row);
      pool := pool - {p.id};
      nodes := nodes[p.id := y];
      placed := placed + [p.id];
      PlaceKeepsPartition(tree.persons, old(pool), old(placed), p.id);
      PlaceKeepsStacked(old(nodes), old(placed), old(row), p.id);
    }

    /**
     * `__recursively_adding_person_to_the_right`: place the next person after
     * `person` and continue from there, until `person` has no unplaced child
     * or partner left. The persons placed are exactly those of the walk from
     * `person`, in its order, one row each.
     */
    method ExtendRight(person: Person)
      requires Valid() && Drew()
      modifies this
      ensures Valid() && Drew()
      ensures placed == old(placed) + Walk(tree, person, old(pool)).0
      ensures pool == Walk(tree, person, old(pool)).1
      ensures row - old(row) == |placed| - |old(placed)|
      ensures rounds == old(rounds)
      decreases |pool|
    {
      while true
        invariant Valid() && Drew()
        invariant pool <= old(pool)
        invariant old(placed) + Walk(tree, person, old(pool)).0 == placed + Walk(tree, person, pool).0
        invariant Walk(tree, person, old(pool)).1 == Walk(tree, person, pool).1
        invariant row - old(row) == |placed| - |old(placed)|
        invariant rounds == old(rounds)
        decreases |pool|
      {
        var next := NextPerson(tree, person, pool);
        if next.None? {
          AppendNothing(placed);
          break;
        }
        var n := next.value;
        ghost var unplaced := pool;
        ghost var before := placed;
        WalkUnfolds(tree, person, unplaced, n);
        AddPerson(n);
        SubsetSmaller(pool, old(pool) - {n.id});
        ExtendRight(n);
        SubsetSmaller(pool, unplaced - {n.id});
        RegroupWalk(before, [n.id], Walk(tree, n, unplaced - {n.id}).0, Walk(tree, person, pool).0);
      }
    }

    /**
     * `__get_patriarch` over the pool: the seed of the next round, a man or a
     * woman still unplaced, or nobody when only persons of unknown gender
     * are left.
     */
    method NextSeed() returns (seed: Option<Person>)
      requires Valid()
      ensures seed == Patriarch(PoolPersons(tree, pool))
      ensures seed.None? <==> forall id :: id in pool ==> tree.persons[id].gender == Unknown
      ensures seed.Some? ==> seed.value.id in pool && tree.persons[seed.value.id] == seed.value
                             && seed.value.gender != Unknown
    {
      var ps := PoolPersons(tree, pool);
      seed := Patriarch(ps);
      if seed.None? {
        forall id | id in pool
          ensures tree.persons[id].gender == Unknown
        {
          assert tree.persons[id] in ps;
        }
      }
    }

    /** The row counter moves on without placing anybody; every bar stays above the new row. */
    method NextRow()
      requires Valid() && Drew()
      modifies this`row
      ensures Valid() && Drew() && row == old(row) + 1
    {
      row := row + 1;
    }

    /**
     * One round after its row is taken: place the seed, the patriarch of
     * the pool, then the walk from it. What it places is the first of the
     * rounds the pool defines, and the pool it leaves defines the rest.
     */
    method Round(seed: Person) returns (ghost r: seq<Id>)
      requires Valid() && Drew()
      requires seed.id in pool && tree.persons[seed.id] == seed
      modifies this
      ensures Valid() && Drew()
      ensures r == [seed.id] + Walk(tree, seed, old(pool) - {seed.id}).0
      ensures placed == old(placed) + r && pool == Walk(tree, seed, old(pool) - {seed.id}).1
      ensures row - old(row) == |r|
      ensures rounds == old(rounds) + [r]
    {
      ghost var w := Walk(tree, seed, pool - {seed.id});
      AddPerson(seed);
      ExtendRight(seed);
      RegroupRound(old(placed), [seed.id], w.0);
      r := [seed.id] + w.0;
      Record(r);
    }

    /** Notes the round just placed. */
    ghost method Record(r: seq<Id>)
      modifies this`rounds
      ensures rounds == old(rounds) + [r]
    {
      rounds := rounds + [r];
    }

    /**
     * One pass of the constructor's loop: take the next row, then either
     * find nobody left to seed a round, or place the round `r` of the
     * patriarch of the pool.
     */
    method Step() returns (seed: Option<Person>, ghost r: seq<Id>)
      requires Valid() && Drew()
      modifies this
      ensures Valid() && Drew()
      ensures seed == Patriarch(PoolPersons(tree, old(pool)))
      ensures seed.None? ==> placed == old(placed) && rounds == old(rounds) && pool == old(pool) && row == old(row) + 1
      ensures seed.Some? ==>
                && r == [seed.value.id] + Walk(tree, seed.value, old(pool) - {seed.value.id}).0
                && pool == Walk(tree, seed.value, old(pool) - {seed.value.id}).1
                && placed == old(placed) + r
                && rounds == old(rounds) + [r]
                && row - old(row) == |r| + 1
    {
      NextRow();
      seed := NextSeed();
      if seed.None? {
        return seed, [];
      }
      r := Round(seed.value);
      return seed, r;
    }

    /**
     * The constructor's `while True` loop: each round takes the next row,
     * then stops when no man or woman is left unplaced, or places the seed
     * and walks on from it. The rounds are those the pool defines, and the
     * last row handed out is the number of placed persons plus the number
     * of rounds.
     */
    method PlaceAll()
      requires Valid() && Drew()
      requires placed == [] && rounds == [] && row == -1
      modifies this
      ensures Valid() && Drew()
      ensures rounds == Rounds(tree, old(pool)) && placed == Flatten(rounds)
      ensures row == |placed| + |rounds|
      ensures forall id :: id in pool ==> tree.persons[id].gender == Unknown
    {
      while true
        invariant Valid() && Drew()
        invariant Rounds(tree, old(pool)) == rounds + Rounds(tree, pool)
        invariant placed == Flatten(rounds)
        invariant row == |placed| + |rounds| - 1
        decreases |pool|
      {
        ghost var done := rounds;
        ghost var unplaced := pool;
        var seed, r := Step();
        RoundsUnfold(tree, unplaced);
        if seed.None? {
          assert rounds + [] == rounds;
          break;
        }
        SubsetSmaller(pool, unplaced - {seed.value.id});
        RegroupRounds(done, r, Rounds(tree, pool));
        FlattenSnoc(done, r);
      }
    }

    /**
     * The rest of the constructor once every round is placed: the first
     * failing connector ends it with its error, then the family lines are
     * drawn under the bars, on a canvas as wide as the days up to `today`
     * and as tall as the rows handed out.
     */
    method Finish(today: int) returns (r: Result<Layout>)
      requires Valid() && Drew()
      requires row == |placed| + |rounds|
      ensures r == Drawing(tree, wedding, older, placed, |rounds|, nodes, today)
    {
      if failure.Some? {
        return Err(failure.value);
      }
      var lines := FamilyLines();
      if lines.Err? {
        return Err(lines.error);
      }
      var width := (today - older) as real * XScale + XOffset * 10.0;
      var height := (Height + YSpacing) * (row + 2) as real;
      r := Ok(Layout(width, height, lines.value + drawn));
    }

    /** One family's shapes, looked up and drawn as the loop body of `__create_family_lines` does. */
    method FamilyShapesOf(fid: Id) returns (r: Result<seq<Shape>>)
      requires Setup() && fid in tree.families && HasLine(tree.families[fid])
      ensures r == FamilyLineOf(tree, wedding, older, nodes, fid)
    {
      var f := tree.families[fid];
      var ms := Members(f);
      var missing := FirstMissing(ms, nodes);
      if missing.Some? {
        assert ms[missing.value] in ms;
        return Err(KeyError);
      }
      var w := wedding[fid];
      if w.Err? {
        return Err(w.error);
      }
      var x := XPos(older, w.value);
      var top := ms[FirstHighest(ms, nodes)];
      var low := ms[FirstLowest(ms, nodes)];
      var marks, topY, lowY := TraceFamily(f, ms, top, low, nodes, x);
      r := Ok(marks + [Vertical(x, lowY, topY)]);
    }

    /** `__create_family_lines`: every family's shapes, or the error of the first family that cannot be drawn. */
    method FamilyLines() returns (r: Result<seq<Shape>>)
      requires Setup()
      ensures r == FamilyLinesOf(tree, wedding, older, nodes, tree.familyOrder)
    {
      var fids := tree.familyOrder;
      var acc: seq<Shape> := [];
      var i := 0;
      assert fids[0..] == fids;
      var whole := FamilyLinesOf(tree, wedding, older, nodes, fids);
      if whole.Ok? {
        assert [] + whole.value == whole.value;
      }
      while i < |fids|
        invariant 0 <= i <= |fids|
        invariant whole == Prefixed(acc, FamilyLinesOf(tree, wedding, older, nodes, fids[i..]))
      {
        var fid := fids[i];
        assert fids[i..][0] == fid && fids[i..][1..] == fids[i + 1..];
        var rest := FamilyLinesOf(tree, wedding, older, nodes, fids[i + 1..]);
        if fid in tree.families && HasLine(tree.families[fid]) {
          var shapes := FamilyShapesOf(fid);
          if shapes.Err? {
            return Err(shapes.error);
          }
          if rest.Ok? {
            assert acc + (shapes.value + rest.value) == (acc + shapes.value) + rest.value;
          }
          acc := acc + shapes.value;
        } else if rest.Ok? {
          assert [] + rest.value == rest.value;
        }
        i := i + 1;
      }
      assert acc + [] == acc;
      r := Ok(acc);
    }
  }

  /**
   * The constructor of `TreeRender` up to the SVG file: an empty tree raises
   * ValueError (`min` of nothing). Otherwise the rounds are those the whole
   * tree defines, every man and woman is placed once, each at a row below
   * everyone placed before, and the result is the drawing of those rows:
   * the first failing wedding day or unplaced family member ends it with
   * its error.
   */
  method Render(tree: GrampsTree, weeks: map<Id, int>, today: int)
    returns (r: Result<Layout>, ghost rounds: seq<seq<Id>>, ghost ys: map<Id, real>)
    requires Keyed(tree.persons)
    requires forall id :: id in tree.persons <==> id in tree.order
    requires WeeksFit(tree, weeks)
    ensures |tree.order| == 0 ==> r == Err(ValueError)
    ensures r.Err? ==> r.error in {ValueError, KeyError, OverflowError}
    ensures |tree.order| > 0 ==>
              var placed := Flatten(rounds);
              && NoDuplicates(placed)
              && (forall id :: id in placed <==> id in ys)
              && (forall id :: id in placed ==> id in tree.persons)
              && (forall id :: id in tree.persons && tree.persons[id].gender != Unknown ==> id in placed)
              && (forall i, j :: 0 <= i < j < |placed| ==> ys[placed[i]] < ys[placed[j]])
              && r == Drawing(tree, Weddings(tree, weeks), EarliestBirth(tree.order, tree.persons), placed, |rounds|, ys, today)
              && rounds == Rounds(tree, tree.persons.Keys)
  {
    rounds, ys := [], map[];
    if |tree.order| == 0 {
      return Err(ValueError), rounds, ys;
    }
    var wedding := Weddings(tree, weeks);
    var render := new TreeRender(tree, wedding);
    render.PlaceAll();
    r := render.Finish(today);
    rounds, ys := render.rounds, render.nodes;
    RoundsPlaceEachOnce(tree, tree.persons.Keys);
    forall i, j | 0 <= i < j < |render.placed|
      ensures ys[render.placed[i]] < ys[render.placed[j]]
    {
      render.PlacementDescends(i, j);
    }
    DrawingErrors(tree, weeks, render.older, render.placed, |rounds|, ys, today);
  }
}
