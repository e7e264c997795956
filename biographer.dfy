/**
 * The person articles of the three biographer copies: `Article.__str__`,
 * `__repr_list`, `__prepare_events`, and the article each copy writes for a
 * person (content_generator/src/presenters/biographer.py,
 * content_generator/biographer.py, gramps_parser/biographer.py).
 *
 * `str(date)` is the date's quality mark followed by the locale's
 * `%d %B %Y` rendering of the day; the latter is the parameter `calendar`.
 * The current day is the parameter `today`, as an ordinal.
 */
module Biographer {
  import opened Wrappers
  import opened Dates
  import opened Entities
  import opened Paths
  import Ego
  import EgoCanvas

  // ---------------------------------------------------------------------
  // __repr_list

  /** The items separated by ", ". */
  function Joined(items: seq<string>): string {
    if |items| == 0 then ""
    else if |items| == 1 then items[0]
    else items[0] + ", " + Joined(items[1..])
  }

  /** Every item followed by ", ": what `__repr_list` accumulates before trimming. */
  function Terminated(items: seq<string>): string {
    if |items| == 0 then ""
    else Terminated(items[..|items| - 1]) + (items[|items| - 1] + ", ")
  }

  lemma {:induction false} JoinedSnoc(items: seq<string>, x: string)
    requires |items| > 0
    ensures Joined(items + [x]) == Joined(items) + ", " + x
    decreases |items|
  {
    if |items| == 1 {
      assert items + [x] == [items[0], x];
      assert [items[0], x][1..] == [x];
    } else {
      assert (items + [x])[1..] == items[1..] + [x];
      JoinedSnoc(items[1..], x);
      ConcatAssoc(items[0] + ", ", Joined(items[1..]), ", " + x);
      ConcatAssoc(items[0] + ", " + Joined(items[1..]), ", ", x);
      ConcatAssoc(items[0] + ", " + Joined(items[1..]) + ", ", x, []);
      ConcatAssoc(Joined(items[1..]), ", ", x);
    }
  }

  /** Accumulating "item, " and dropping the last two characters is joining with ", ". */
  lemma {:induction false} TerminatedIsJoined(items: seq<string>)
    ensures |items| == 0 ==> Terminated(items) == ""
    ensures |items| > 0 ==> Terminated(items) == Joined(items) + ", "
    decreases |items|
  {
    if |items| > 0 {
      var init := items[..|items| - 1];
      var last := items[|items| - 1];
      assert items == init + [last];
      TerminatedIsJoined(init);
      if |init| == 0 {
        assert items == [last];
      } else {
        JoinedSnoc(init, last);
        ConcatAssoc(Joined(init) + ", ", last, ", ");
      }
    }
  }

  /** `Article.__repr_list`. */
  method ReprList(items: seq<string>) returns (r: string)
    ensures r == Joined(items)
  {
    var returned := "";
    for i := 0 to |items|
      invariant returned == Terminated(items[..i])
    {
      assert items[..i + 1][..i] == items[..i];
      returned := returned + (items[i] + ", ");
    }
    TakeAll(items);
    TerminatedIsJoined(items);
    if |returned| >= 2 {
      r := returned[..|returned| - 2];
    } else {
      r := "";
    }
  }

  /** The joined items hold no line break when no item does. */
  lemma {:induction false} JoinedNoBreak(items: seq<string>)
    requires forall i :: 0 <= i < |items| ==> '\n' !in items[i]
    ensures '\n' !in Joined(items)
    decreases |items|
  {
    if |items| > 1 {
      JoinedNoBreak(items[1..]);
    }
  }

  // ---------------------------------------------------------------------
  // Article.__str__ and how its header reads back

  /** An article: the metadata Pelican reads and the Markdown body. */
  datatype Article = Article(title: string, date: string, category: string, tags: seq<string>, slug: string, content: string)

  /** `Article.__str__`: the Title, Date, Category, Tags and Slug lines, then the content. */
  function ArticleText(a: Article): string {
    "Title: " + a.title + "\n"
    + ("Date: " + a.date + "\n"
    + ("Category: " + a.category + "\n"
    + ("Tags: " + Joined(a.tags) + "\n"
    + ("Slug: " + a.slug + "\n"
    + a.content))))
  }

  /** The text before the first line break and the text after it; None without a line break. */
  function SplitLine(s: string): (r: Option<(string, string)>)
    ensures r.Some? ==> '\n' !in r.value.0
    ensures r.None? <==> '\n' !in s
    decreases |s|
  {
    if |s| == 0 then None
    else if s[0] == '\n' then Some(("", s[1..]))
    else
      assert s == [s[0]] + s[1..];
      match SplitLine(s[1..])
      case None => None
      case Some(p) => Some(([s[0]] + p.0, p.1))
  }

  lemma {:induction false} SplitLineOf(line: string, rest: string)
    requires '\n' !in line
    ensures SplitLine(line + "\n" + rest) == Some((line, rest))
    decreases |line|
  {
    var s := line + "\n" + rest;
    if |line| == 0 {
      assert s == "\n" + rest;
    } else {
      assert s[1..] == line[1..] + "\n" + rest;
      SplitLineOf(line[1..], rest);
      assert [line[0]] + line[1..] == line;
    }
  }

  /** A header line `name` + value: the value and the text after the line. */
  function ReadField(name: string, text: string): Option<(string, string)> {
    match SplitLine(text)
    case None => None
    case Some(p) => if name <= p.0 then Some((p.0[|name|..], p.1)) else None
  }

  lemma ReadFieldOf(name: string, value: string, rest: string)
    requires '\n' !in name && '\n' !in value
    ensures ReadField(name, name + value + "\n" + rest) == Some((value, rest))
  {
    SplitLineOf(name + value, rest);
    assert (name + value)[|name|..] == value;
  }

  /** The metadata as a reader of the article finds it. */
  datatype Metadata = Metadata(title: string, date: string, category: string, tags: string, slug: string, content: string)

  /** Reads the five header lines back, in the order `Article.__str__` writes them. */
  function ReadArticle(text: string): Option<Metadata> {
    match ReadField("Title: ", text)
    case None => None
    case Some(f1) =>
      match ReadField("Date: ", f1.1)
      case None => None
      case Some(f2) =>
        match ReadField("Category: ", f2.1)
        case None => None
        case Some(f3) =>
          match ReadField("Tags: ", f3.1)
          case None => None
          case Some(f4) =>
            match ReadField("Slug: ", f4.1)
            case None => None
            case Some(f5) => Some(Metadata(f1.0, f2.0, f3.0, f4.0, f5.0, f5.1))
  }

  /**
   * Reading the article text back gives every field in its place, the tags
   * joined with ", ", as long as no single-line field holds a line break.
   */
  lemma ArticleReadBack(a: Article)
    requires '\n' !in a.title && '\n' !in a.date && '\n' !in a.category && '\n' !in a.slug
    requires forall i :: 0 <= i < |a.tags| ==> '\n' !in a.tags[i]
    ensures ReadArticle(ArticleText(a)) == Some(Metadata(a.title, a.date, a.category, Joined(a.tags), a.slug, a.content))
  {
    JoinedNoBreak(a.tags);
    var r5 := a.content;
    var r4 := "Slug: " + a.slug + "\n" + r5;
    var r3 := "Tags: " + Joined(a.tags) + "\n" + r4;
    var r2 := "Category: " + a.category + "\n" + r3;
    var r1 := "Date: " + a.date + "\n" + r2;
    ReadFieldOf("Title: ", a.title, r1);
    ReadFieldOf("Date: ", a.date, r2);
    ReadFieldOf("Category: ", a.category, r3);
    ReadFieldOf("Tags: ", Joined(a.tags), r4);
    ReadFieldOf("Slug: ", a.slug, r5);
  }

  // ---------------------------------------------------------------------
  // __prepare_events

  /** `str(date)`: the quality mark, then the calendar rendering of the day. */
  function DateText(d: Date, calendar: int -> string): string {
    QualityMark(d.quality) + calendar(d.ordinal)
  }

  /** An event is listed when it has no date, or a date and a description. */
  predicate Listed(e: Event) {
    e.date.None? || e.description != ""
  }

  /** The list entry of one event; an event with a date but no description gives none. */
  function EventEntry(e: Event, calendar: int -> string): (r: string)
    ensures r == "" <==> !Listed(e)
    ensures e.date.None? ==> r == "- " + e.description + "\n\n"
  {
    if e.date.Some? && e.description != "" then "- " + DateText(e.date.value, calendar) + " " + e.description + "\n\n"
    else if e.date.None? then "- " + e.description + "\n\n"
    else ""
  }

  function EventLines(events: seq<Event>, calendar: int -> string): string {
    if |events| == 0 then ""
    else EventLines(events[..|events| - 1], calendar) + EventEntry(events[|events| - 1], calendar)
  }

  const EventsHeading := "## События жизни\n\n"

  function EventsSection(events: seq<Event>, calendar: int -> string): string {
    var lines := EventLines(events, calendar);
    if lines != "" then EventsHeading + lines else ""
  }

  /** `Biographer.__prepare_events`, the same in both content_generator copies. */
  method PrepareEvents(events: seq<Event>, calendar: int -> string) returns (r: string)
    ensures r == EventsSection(events, calendar)
  {
    var content := "";
    for i := 0 to |events|
      invariant content == EventLines(events[..i], calendar)
    {
      assert events[..i + 1][..i] == events[..i];
      var e := events[i];
      if e.date.Some? && e.description != "" {
        content := content + ("- " + DateText(e.date.value, calendar) + " " + e.description + "\n\n");
      }
      if e.date.None? {
        content := content + ("- " + e.description + "\n\n");
      }
    }
    TakeAll(events);
    if content != "" {
      r := EventsHeading + content;
    } else {
      r := "";
    }
  }

  /** The events that get an entry, in order. */
  function Kept(events: seq<Event>): (r: seq<Event>)
    ensures forall e :: e in r <==> e in events && Listed(e)
  {
    if |events| == 0 then []
    else
      var init := events[..|events| - 1];
      var last := events[|events| - 1];
      assert events == init + [last];
      Kept(init) + (if Listed(last) then [last] else [])
  }

  /** The entries are exactly those of the listed events, in their order. */
  lemma {:induction false} EventLinesKept(events: seq<Event>, calendar: int -> string)
    ensures EventLines(events, calendar) == EventLines(Kept(events), calendar)
    decreases |events|
  {
    if |events| > 0 {
      var init := events[..|events| - 1];
      var last := events[|events| - 1];
      EventLinesKept(init, calendar);
      if Listed(last) {
        var k := Kept(init) + [last];
        assert k[..|k| - 1] == Kept(init);
      } else {
        ConcatEmpty(Kept(init));
        ConcatEmpty(EventLines(init, calendar));
      }
    }
  }

  lemma {:induction false} EventLinesEmpty(events: seq<Event>, calendar: int -> string)
    ensures EventLines(events, calendar) == "" <==> forall e :: e in events ==> !Listed(e)
    decreases |events|
  {
    if |events| > 0 {
      var init := events[..|events| - 1];
      var last := events[|events| - 1];
      assert events == init + [last];
      EventLinesEmpty(init, calendar);
    }
  }

  /**
   * The events section is empty exactly when no event is listed; otherwise it
   * is the heading followed by the entries of the listed events.
   */
  lemma EventsSectionShape(events: seq<Event>, calendar: int -> string)
    ensures EventsSection(events, calendar) == "" <==> forall e :: e in events ==> !Listed(e)
    ensures (exists e :: e in events && Listed(e)) ==>
              EventsSection(events, calendar) == EventsHeading + EventLines(Kept(events), calendar)
  {
    EventLinesEmpty(events, calendar);
    EventLinesKept(events, calendar);
  }

  // ---------------------------------------------------------------------
  // The article body

  /** A picture of the gallery section: its description and its file name. */
  datatype Picture = Picture(description: string, name: string)

  /** The blocks an article body is made of, in the order the copies write them. */
  datatype Section =
    | Born(birth: Date)
    | Died(death: Date)
    | SmallTreeImage(id: Id)
    | LifeEvents(events: seq<Event>)
    | Notes(contents: seq<string>)
    | FirstNote(content: string)
    | Gallery(pictures: seq<Picture>)
    | Lifespan(from: Option<Date>, to: Date)
    | NoteText(text: string)

  /** Where a block stands in the body. */
  function Rank(s: Section): int {
    match s
    case Born(_) => 0
    case Lifespan(_, _) => 0
    case Died(_) => 1
    case SmallTreeImage(_) => 2
    case LifeEvents(_) => 3
    case Notes(_) => 4
    case FirstNote(_) => 4
    case NoteText(_) => 4
    case Gallery(_) => 5
  }

  function PictureOf(m: Media): Picture {
    Picture(m.description, FileName(m.path))
  }

  /** The pictures of the person's media, one per media item, in order. */
  function Pictures(ids: seq<Id>, media: map<Id, Media>): (r: seq<Picture>)
    requires forall m :: m in ids ==> m in media
    ensures |r| == |ids| && forall i :: 0 <= i < |ids| ==> r[i] == PictureOf(media[ids[i]])
  {
    if |ids| == 0 then []
    else
      var last := ids[|ids| - 1];
      assert last in ids;
      var rest := Pictures(ids[..|ids| - 1], media);
      SnocAt(rest, PictureOf(media[last]));
      rest + [PictureOf(media[last])]
  }

  /** Appending keeps the earlier elements in place and puts the new one last. */
  lemma SnocAt<T>(s: seq<T>, x: T)
    ensures |s + [x]| == |s| + 1 && (s + [x])[|s|] == x
    ensures forall i :: 0 <= i < |s| ==> (s + [x])[i] == s[i]
  {
  }

  /** The contents of the notes, in order. */
  function Contents(notes: seq<Note>): (r: seq<string>)
    ensures |r| == |notes| && forall i :: 0 <= i < |notes| ==> r[i] == notes[i].content
  {
    if |notes| == 0 then []
    else Contents(notes[..|notes| - 1]) + [notes[|notes| - 1].content]
  }

  /** Each text followed by a blank line. */
  function Paragraphs(texts: seq<string>): string {
    if |texts| == 0 then ""
    else Paragraphs(texts[..|texts| - 1]) + (texts[|texts| - 1] + "\n\n")
  }

  const GalleryLink := "{static}/images/gallery/"

  function PictureLine(p: Picture): string {
    "![" + p.description + "](" + (GalleryLink + p.name) + ")\n\n"
  }

  function PictureLines(ps: seq<Picture>): string {
    if |ps| == 0 then ""
    else PictureLines(ps[..|ps| - 1]) + PictureLine(ps[|ps| - 1])
  }

  const NotesHeading := "## Заметки\n\n"
  const GalleryHeading := "## Галерея\n\n"

  function NotesBlock(contents: seq<string>): string {
    NotesHeading + Paragraphs(contents) + "\n\n"
  }

  function FirstNoteBlock(content: string): string {
    NotesHeading + content + "\n\n"
  }

  function GalleryBlock(ps: seq<Picture>): string {
    GalleryHeading + PictureLines(ps)
  }

  function BirthLine(d: Date, calendar: int -> string): string {
    "Дата рождения: " + DateText(d, calendar) + "\n\n"
  }

  function DeathLine(d: Date, calendar: int -> string): string {
    "Дата смерти: " + DateText(d, calendar) + "\n\n"
  }

  /** A day that may be missing, formatted by an f-string: "None" when it is. */
  function MaybeDateText(d: Option<Date>, calendar: int -> string): string {
    if d.None? then "None" else DateText(d.value, calendar)
  }

  function SmallTreeLine(id: Id): string {
    "![small_tree](" + ("{static}/images/small_trees/" + id + ".svg") + ")\n\n"
  }

  function Render(s: Section, calendar: int -> string): string {
    match s
    case Born(d) => BirthLine(d, calendar)
    case Died(d) => DeathLine(d, calendar)
    case SmallTreeImage(id) => SmallTreeLine(id)
    case LifeEvents(es) => EventsSection(es, calendar)
    case Notes(cs) => NotesBlock(cs)
    case FirstNote(c) => FirstNoteBlock(c)
    case Gallery(ps) => GalleryBlock(ps)
    case Lifespan(b, d) => MaybeDateText(b, calendar) + " - " + DateText(d, calendar) + "\n\n"
    case NoteText(c) => c
  }

  function RenderAll(sections: seq<Section>, calendar: int -> string): string {
    if |sections| == 0 then ""
    else RenderAll(sections[..|sections| - 1], calendar) + Render(sections[|sections| - 1], calendar)
  }

  lemma RenderSnoc(done: seq<Section>, s: Section, calendar: int -> string)
    ensures RenderAll(done + [s], calendar) == RenderAll(done, calendar) + Render(s, calendar)
  {
    assert (done + [s])[..|done|] == done;
  }

  lemma RenderOne(s: Section, calendar: int -> string)
    ensures RenderAll([s], calendar) == Render(s, calendar)
  {
    assert [s][..0] == [];
    ConcatEmpty(Render(s, calendar));
  }

  /** In a body the blocks stand in their order, each kind at most once. */
  predicate Ordered(s: seq<Section>) {
    forall i, j :: 0 <= i < j < |s| ==> Rank(s[i]) < Rank(s[j])
  }

  /** The blocks written so far, followed by `x` when `b` holds. */
  function Then(s: seq<Section>, b: bool, x: Section): seq<Section> {
    if b then s + [x] else s
  }

  lemma ThenFacts(s: seq<Section>, b: bool, x: Section)
    ensures forall y :: y in Then(s, b, x) <==> y in s || (b && y == x)
    ensures |s| > 0 ==> |Then(s, b, x)| > 0 && Then(s, b, x)[0] == s[0]
  {
  }

  lemma ThenOrdered(s: seq<Section>, b: bool, x: Section)
    requires Ordered(s) && forall i :: 0 <= i < |s| ==> Rank(s[i]) < Rank(x)
    ensures Ordered(Then(s, b, x)) && forall i :: 0 <= i < |Then(s, b, x)| ==> Rank(Then(s, b, x)[i]) <= Rank(x)
  {
  }

  /** The text, followed by `piece` when `b` holds. */
  function Add(text: string, b: bool, piece: string): string {
    if b then text + piece else text
  }

  /** What a body of four optional blocks after the first holds. */
  lemma ChainMembers(x0: Section, b1: bool, x1: Section, b2: bool, x2: Section, b3: bool, x3: Section,
                     b4: bool, x4: Section)
    ensures var s := Then(Then(Then(Then([x0], b1, x1), b2, x2), b3, x3), b4, x4);
            |s| > 0 && s[0] == x0
            && forall y :: y in s <==> y == x0 || (b1 && y == x1) || (b2 && y == x2) || (b3 && y == x3) || (b4 && y == x4)
  {
    ThenFacts([x0], b1, x1);
    ThenFacts(Then([x0], b1, x1), b2, x2);
    ThenFacts(Then(Then([x0], b1, x1), b2, x2), b3, x3);
    ThenFacts(Then(Then(Then([x0], b1, x1), b2, x2), b3, x3), b4, x4);
  }

  /** The same with a fifth optional block. */
  lemma ChainMembersOneMore(x0: Section, b1: bool, x1: Section, b2: bool, x2: Section, b3: bool, x3: Section,
                            b4: bool, x4: Section, b5: bool, x5: Section)
    ensures var s := Then(Then(Then(Then(Then([x0], b1, x1), b2, x2), b3, x3), b4, x4), b5, x5);
            |s| > 0 && s[0] == x0
            && forall y :: y in s <==> y == x0 || (b1 && y == x1) || (b2 && y == x2) || (b3 && y == x3) || (b4 && y == x4)
                                       || (b5 && y == x5)
  {
    ChainMembers(x0, b1, x1, b2, x2, b3, x3, b4, x4);
    ThenFacts(Then(Then(Then(Then([x0], b1, x1), b2, x2), b3, x3), b4, x4), b5, x5);
  }

  /** Blocks of rising rank make an ordered body. */
  lemma ChainOrdered(x0: Section, b1: bool, x1: Section, b2: bool, x2: Section, b3: bool, x3: Section,
                     b4: bool, x4: Section)
    requires Rank(x0) < Rank(x1) < Rank(x2) < Rank(x3) < Rank(x4)
    ensures Ordered(Then(Then(Then(Then([x0], b1, x1), b2, x2), b3, x3), b4, x4))
    ensures forall i :: 0 <= i < |Then(Then(Then(Then([x0], b1, x1), b2, x2), b3, x3), b4, x4)| ==>
              Rank(Then(Then(Then(Then([x0], b1, x1), b2, x2), b3, x3), b4, x4)[i]) <= Rank(x4)
  {
    ThenOrdered([x0], b1, x1);
    ThenOrdered(Then([x0], b1, x1), b2, x2);
    ThenOrdered(Then(Then([x0], b1, x1), b2, x2), b3, x3);
    ThenOrdered(Then(Then(Then([x0], b1, x1), b2, x2), b3, x3), b4, x4);
  }

  /** The same with a fifth optional block. */
  lemma ChainOrderedOneMore(x0: Section, b1: bool, x1: Section, b2: bool, x2: Section, b3: bool, x3: Section,
                            b4: bool, x4: Section, b5: bool, x5: Section)
    requires Rank(x0) < Rank(x1) < Rank(x2) < Rank(x3) < Rank(x4) < Rank(x5)
    ensures Ordered(Then(Then(Then(Then(Then([x0], b1, x1), b2, x2), b3, x3), b4, x4), b5, x5))
  {
    ChainOrdered(x0, b1, x1, b2, x2, b3, x3, b4, x4);
    ThenOrdered(Then(Then(Then(Then([x0], b1, x1), b2, x2), b3, x3), b4, x4), b5, x5);
  }

  /** Rendering one more block, when `b` holds, adds its text, when `b` holds. */
  lemma RenderThen(s: seq<Section>, text: string, b: bool, x: Section, piece: string, calendar: int -> string)
    requires RenderAll(s, calendar) == text && Render(x, calendar) == piece
    ensures RenderAll(Then(s, b, x), calendar) == Add(text, b, piece)
  {
    if b {
      RenderSnoc(s, x, calendar);
    }
  }

  /** A body of four optional blocks after the first renders block by block. */
  lemma RenderChain(x0: Section, b1: bool, x1: Section, b2: bool, x2: Section, b3: bool, x3: Section,
                    b4: bool, x4: Section, t0: string, t1: string, t2: string, t3: string, t4: string,
                    calendar: int -> string)
    requires Render(x0, calendar) == t0 && Render(x1, calendar) == t1 && Render(x2, calendar) == t2
    requires Render(x3, calendar) == t3 && Render(x4, calendar) == t4
    ensures RenderAll(Then(Then(Then(Then([x0], b1, x1), b2, x2), b3, x3), b4, x4), calendar)
            == Add(Add(Add(Add(t0, b1, t1), b2, t2), b3, t3), b4, t4)
  {
    RenderOne(x0, calendar);
    RenderThen([x0], t0, b1, x1, t1, calendar);
    RenderThen(Then([x0], b1, x1), Add(t0, b1, t1), b2, x2, t2, calendar);
    RenderThen(Then(Then([x0], b1, x1), b2, x2), Add(Add(t0, b1, t1), b2, t2), b3, x3, t3, calendar);
    RenderThen(Then(Then(Then([x0], b1, x1), b2, x2), b3, x3), Add(Add(Add(t0, b1, t1), b2, t2), b3, t3), b4, x4, t4, calendar);
  }

  /** The same with a fifth optional block. */
  lemma RenderChainOneMore(x0: Section, b1: bool, x1: Section, b2: bool, x2: Section, b3: bool, x3: Section,
                           b4: bool, x4: Section, b5: bool, x5: Section,
                           t0: string, t1: string, t2: string, t3: string, t4: string, t5: string,
                           calendar: int -> string)
    requires Render(x0, calendar) == t0 && Render(x1, calendar) == t1 && Render(x2, calendar) == t2
    requires Render(x3, calendar) == t3 && Render(x4, calendar) == t4 && Render(x5, calendar) == t5
    ensures RenderAll(Then(Then(Then(Then(Then([x0], b1, x1), b2, x2), b3, x3), b4, x4), b5, x5), calendar)
            == Add(Add(Add(Add(Add(t0, b1, t1), b2, t2), b3, t3), b4, t4), b5, t5)
  {
    RenderChain(x0, b1, x1, b2, x2, b3, x3, b4, x4, t0, t1, t2, t3, t4, calendar);
    RenderThen(Then(Then(Then(Then([x0], b1, x1), b2, x2), b3, x3), b4, x4),
               Add(Add(Add(Add(t0, b1, t1), b2, t2), b3, t3), b4, t4), b5, x5, t5, calendar);
  }

  const ArticleDate := "1100-02-21 13:12"
  const PersonsCategory := "Люди"

  /** The article of a person: titled by the full name, filed under the person's id. */
  function PersonArticle(p: Person, content: string): Article {
    Article(p.name, ArticleDate, PersonsCategory, [PersonsCategory], p.id, content)
  }

  /** What the person loop of a loaded tree hands to the article builder. */
  predicate Listing(t: GrampsTree, p: Person, media: map<Id, Media>) {
    EgoCanvas.TreeShaped(t) && p.id in t.persons && t.persons[p.id] == p
    && forall m :: m in p.media ==> m in media
  }

  // ---------------------------------------------------------------------
  // content_generator/src/presenters/biographer.py

  /** Whether the person has a partner lane or a parent, the condition of the small tree. */
  predicate Related(t: GrampsTree, p: Person)
    requires EgoCanvas.TreeShaped(t)
  {
    Ego.RelationsOf(p, t.familyOrder, t.families) != ([], [])
  }

  /** The body blocks of `__crate_article_from_person`. */
  function PersonSections(p: Person, media: map<Id, Media>, today: int, related: bool): seq<Section>
    requires forall m :: m in p.media ==> m in media
  {
    var s1 := Then([Born(p.birth)], p.death.ordinal < today, Died(p.death));
    var s2 := Then(s1, related, SmallTreeImage(p.id));
    var s3 := Then(s2, true, LifeEvents(p.events));
    var s4 := Then(s3, |p.notes| > 0, Notes(Contents(p.notes)));
    Then(s4, |p.media| > 0, Gallery(Pictures(p.media, media)))
  }

  /** The body `__crate_article_from_person` accumulates, piece by piece. */
  function PersonBody(p: Person, media: map<Id, Media>, today: int, related: bool, calendar: int -> string): string
    requires forall m :: m in p.media ==> m in media
  {
    var c1 := Add(BirthLine(p.birth, calendar), p.death.ordinal < today, DeathLine(p.death, calendar));
    var c2 := Add(c1, related, SmallTreeLine(p.id));
    var c3 := Add(c2, true, EventsSection(p.events, calendar));
    var c4 := Add(c3, |p.notes| > 0, NotesBlock(Contents(p.notes)));
    Add(c4, |p.media| > 0, GalleryBlock(Pictures(p.media, media)))
  }

  lemma PersonBodyRendered(p: Person, media: map<Id, Media>, today: int, related: bool, calendar: int -> string)
    requires forall m :: m in p.media ==> m in media
    ensures PersonBody(p, media, today, related, calendar) == RenderAll(PersonSections(p, media, today, related), calendar)
  {
    RenderChainOneMore(Born(p.birth), p.death.ordinal < today, Died(p.death), related, SmallTreeImage(p.id),
                       true, LifeEvents(p.events), |p.notes| > 0, Notes(Contents(p.notes)),
                       |p.media| > 0, Gallery(Pictures(p.media, media)),
                       BirthLine(p.birth, calendar), DeathLine(p.death, calendar), SmallTreeLine(p.id),
                       EventsSection(p.events, calendar), NotesBlock(Contents(p.notes)),
                       GalleryBlock(Pictures(p.media, media)), calendar);
  }

  function ArticleOf(t: GrampsTree, p: Person, media: map<Id, Media>, today: int, calendar: int -> string): Article
    requires Listing(t, p, media)
  {
    PersonArticle(p, RenderAll(PersonSections(p, media, today, Related(t, p)), calendar))
  }

  /** The small tree of a listed person is drawn exactly when the person is related. */
  lemma SmallTreeDrawn(t: GrampsTree, p: Person, media: map<Id, Media>)
    requires Listing(t, p, media)
    ensures EgoCanvas.SmallTree(EgoCanvas.Presenters, p.id, t).Ok? <==> Related(t, p)
  {
    EgoCanvas.SmallTreeErrors(EgoCanvas.Presenters, p.id, t);
  }

  /**
   * The body opens with the birth; the death follows exactly when it is
   * before today; the small tree image appears exactly when `related` (in
   * an article, `Related`: otherwise `create_svg` raised
   * WithoutRelationsError); the events section is always there.
   */
  lemma PersonSectionsShow(p: Person, media: map<Id, Media>, today: int, related: bool)
    requires forall m :: m in p.media ==> m in media
    ensures var s := PersonSections(p, media, today, related);
            |s| > 0 && s[0] == Born(p.birth)
            && (Died(p.death) in s <==> p.death.ordinal < today)
            && (SmallTreeImage(p.id) in s <==> related)
            && LifeEvents(p.events) in s
  {
    ChainMembersOneMore(Born(p.birth), p.death.ordinal < today, Died(p.death), related, SmallTreeImage(p.id),
                        true, LifeEvents(p.events), |p.notes| > 0, Notes(Contents(p.notes)),
                        |p.media| > 0, Gallery(Pictures(p.media, media)));
  }

  /** Every note's content is given, in one notes block, and one picture per media item. */
  lemma PersonSectionsContent(p: Person, media: map<Id, Media>, today: int, related: bool)
    requires forall m :: m in p.media ==> m in media
    ensures var s := PersonSections(p, media, today, related);
            (forall cs :: Notes(cs) in s <==> |p.notes| > 0 && cs == Contents(p.notes))
            && (forall ps :: Gallery(ps) in s <==> |p.media| > 0 && ps == Pictures(p.media, media))
  {
    ChainMembersOneMore(Born(p.birth), p.death.ordinal < today, Died(p.death), related, SmallTreeImage(p.id),
                        true, LifeEvents(p.events), |p.notes| > 0, Notes(Contents(p.notes)),
                        |p.media| > 0, Gallery(Pictures(p.media, media)));
  }


  /** The blocks of a person's body keep their order. */
  lemma PersonSectionsOrdered(p: Person, media: map<Id, Media>, today: int, related: bool)
    requires forall m :: m in p.media ==> m in media
    ensures Ordered(PersonSections(p, media, today, related))
  {
    ChainOrderedOneMore(Born(p.birth), p.death.ordinal < today, Died(p.death), related, SmallTreeImage(p.id),
                        true, LifeEvents(p.events), |p.notes| > 0, Notes(Contents(p.notes)),
                        |p.media| > 0, Gallery(Pictures(p.media, media)));
  }

  method AppendNotes(content: string, notes: seq<Note>) returns (r: string)
    ensures r == content + NotesBlock(Contents(notes))
  {
    var joined := "";
    for i := 0 to |notes|
      invariant joined == Paragraphs(Contents(notes[..i]))
    {
      assert notes[..i + 1][..i] == notes[..i];
      joined := joined + (notes[i].content + "\n\n");
    }
    TakeAll(notes);
    r := content + NotesHeading;
    r := r + joined;
    r := r + "\n\n";
    ConcatAssoc(content, NotesHeading, joined);
    ConcatAssoc(content, NotesHeading + joined, "\n\n");
  }

  /** One more media item adds its picture line. */
  lemma PictureLinesSnoc(ids: seq<Id>, media: map<Id, Media>, i: int)
    requires forall m :: m in ids ==> m in media
    requires 0 <= i < |ids|
    ensures ids[i] in media
    ensures PictureLines(Pictures(ids[..i + 1], media))
            == PictureLines(Pictures(ids[..i], media)) + PictureLine(PictureOf(media[ids[i]]))
  {
    assert ids[i] in ids;
    assert ids[..i + 1][..i] == ids[..i];
  }

  method AppendGallery(content: string, ids: seq<Id>, media: map<Id, Media>) returns (r: string)
    requires forall m :: m in ids ==> m in media
    ensures r == content + GalleryBlock(Pictures(ids, media))
  {
    r := content + GalleryHeading;
    ghost var head := r;
    for i := 0 to |ids|
      invariant r == head + PictureLines(Pictures(ids[..i], media))
    {
      PictureLinesSnoc(ids, media, i);
      var m := media[ids[i]];
      var link := GalleryLink + FileName(m.path);
      ConcatAssoc(head, PictureLines(Pictures(ids[..i], media)), PictureLine(PictureOf(m)));
      r := r + ("![" + m.description + "](" + link + ")\n\n");
    }
    TakeAll(ids);
    ConcatAssoc(content, GalleryHeading, PictureLines(Pictures(ids, media)));
  }


  /**
   * The `try` around `create_svg` in `__crate_article_from_person`: whether
   * the small tree was drawn rather than refused with an error.
   */
  method DrawSmallTree(t: GrampsTree, p: Person, media: map<Id, Media>) returns (drawn: bool)
    requires Listing(t, p, media)
    ensures drawn <==> Related(t, p)
  {
    var tree := EgoCanvas.CreateSvg(EgoCanvas.Presenters, p.id, t);
    SmallTreeDrawn(t, p, media);
    drawn := tree.Ok?;
  }

  /**
   * The part of `__crate_article_from_person` after the small tree was
   * attempted: its line when it was drawn, the events, the notes, the gallery.
   */
  method CompleteBody(content: string, p: Person, media: map<Id, Media>, drawn: bool, calendar: int -> string)
    returns (r: string)
    requires forall m :: m in p.media ==> m in media
    ensures r == Add(Add(Add(Add(content, drawn, SmallTreeLine(p.id)), true, EventsSection(p.events, calendar)),
                         |p.notes| > 0, NotesBlock(Contents(p.notes))),
                     |p.media| > 0, GalleryBlock(Pictures(p.media, media)))
  {
    r := content;
    if drawn {
      r := r + SmallTreeLine(p.id);
    }
    var events := PrepareEvents(p.events, calendar);
    r := r + events;
    if |p.notes| > 0 {
      r := AppendNotes(r, p.notes);
    }
    if |p.media| > 0 {
      r := AppendGallery(r, p.media, media);
    }
  }

  /** `Biographer.__crate_article_from_person` of content_generator/src/presenters/biographer.py. */
  method CreateArticle(t: GrampsTree, p: Person, media: map<Id, Media>, today: int, calendar: int -> string)
    returns (a: Article)
    requires Listing(t, p, media)
    ensures a == ArticleOf(t, p, media, today, calendar)
  {
    var content := BirthLine(p.birth, calendar);
    if p.death.ordinal < today {
      content := content + DeathLine(p.death, calendar);
    }
    var drawn := DrawSmallTree(t, p, media);
    content := CompleteBody(content, p, media, drawn, calendar);
    PersonBodyRendered(p, media, today, drawn, calendar);
    a := Article(p.name, ArticleDate, PersonsCategory, [PersonsCategory], p.id, content);
  }

  // ---------------------------------------------------------------------
  // content_generator/biographer.py

  /** The content of the first note; none without notes. */
  function FirstContent(notes: seq<Note>): string {
    if |notes| > 0 then notes[0].content else ""
  }

  /** The body blocks of the older copy: no small tree, and one note only. */
  function LegacySections(p: Person, media: map<Id, Media>, today: int): seq<Section>
    requires forall m :: m in p.media ==> m in media
  {
    var s1 := Then([Born(p.birth)], p.death.ordinal < today, Died(p.death));
    var s2 := Then(s1, true, LifeEvents(p.events));
    var s3 := Then(s2, |p.notes| > 0, FirstNote(FirstContent(p.notes)));
    Then(s3, |p.media| > 0, Gallery(Pictures(p.media, media)))
  }

  /** The body the older `__crate_article_from_person` accumulates. */
  function LegacyBody(p: Person, media: map<Id, Media>, today: int, calendar: int -> string): string
    requires forall m :: m in p.media ==> m in media
  {
    var c1 := Add(BirthLine(p.birth, calendar), p.death.ordinal < today, DeathLine(p.death, calendar));
    var c2 := Add(c1, true, EventsSection(p.events, calendar));
    var c3 := Add(c2, |p.notes| > 0, FirstNoteBlock(FirstContent(p.notes)));
    Add(c3, |p.media| > 0, GalleryBlock(Pictures(p.media, media)))
  }

  lemma LegacyBodyRendered(p: Person, media: map<Id, Media>, today: int, calendar: int -> string)
    requires forall m :: m in p.media ==> m in media
    ensures LegacyBody(p, media, today, calendar) == RenderAll(LegacySections(p, media, today), calendar)
  {
    RenderChain(Born(p.birth), p.death.ordinal < today, Died(p.death), true, LifeEvents(p.events),
                |p.notes| > 0, FirstNote(FirstContent(p.notes)), |p.media| > 0, Gallery(Pictures(p.media, media)),
                BirthLine(p.birth, calendar), DeathLine(p.death, calendar), EventsSection(p.events, calendar),
                FirstNoteBlock(FirstContent(p.notes)), GalleryBlock(Pictures(p.media, media)), calendar);
  }

  function LegacyArticleOf(p: Person, media: map<Id, Media>, today: int, calendar: int -> string): Article
    requires forall m :: m in p.media ==> m in media
  {
    PersonArticle(p, RenderAll(LegacySections(p, media, today), calendar))
  }

  /**
   * The older copy writes the birth, the death when it is before today and
   * the events; it has no small tree and no block of all the notes.
   */
  lemma LegacySectionsShow(p: Person, media: map<Id, Media>, today: int)
    requires forall m :: m in p.media ==> m in media
    ensures var s := LegacySections(p, media, today);
            |s| > 0 && s[0] == Born(p.birth)
            && (Died(p.death) in s <==> p.death.ordinal < today)
            && LifeEvents(p.events) in s
            && (forall id :: SmallTreeImage(id) !in s)
            && (forall cs :: Notes(cs) !in s)
  {
    ChainMembers(Born(p.birth), p.death.ordinal < today, Died(p.death), true, LifeEvents(p.events),
                 |p.notes| > 0, FirstNote(FirstContent(p.notes)), |p.media| > 0, Gallery(Pictures(p.media, media)));
  }

  /**
   * The older copy gives the content of a single one of the person's notes
   * when there is any, and one picture per media item.
   */
  lemma LegacySectionsContent(p: Person, media: map<Id, Media>, today: int)
    requires forall m :: m in p.media ==> m in media
    ensures var s := LegacySections(p, media, today);
            ((exists c :: FirstNote(c) in s) <==> |p.notes| > 0)
            && (forall c :: FirstNote(c) in s ==> exists n :: n in p.notes && n.content == c)
            && (forall ps :: Gallery(ps) in s <==> |p.media| > 0 && ps == Pictures(p.media, media))
  {
    ChainMembers(Born(p.birth), p.death.ordinal < today, Died(p.death), true, LifeEvents(p.events),
                 |p.notes| > 0, FirstNote(FirstContent(p.notes)), |p.media| > 0, Gallery(Pictures(p.media, media)));
    if |p.notes| > 0 {
      assert p.notes[0] in p.notes;
    }
  }

  /** The blocks of the older copy's body keep their order. */
  lemma LegacySectionsOrdered(p: Person, media: map<Id, Media>, today: int)
    requires forall m :: m in p.media ==> m in media
    ensures Ordered(LegacySections(p, media, today))
  {
    ChainOrdered(Born(p.birth), p.death.ordinal < today, Died(p.death), true, LifeEvents(p.events),
                 |p.notes| > 0, FirstNote(FirstContent(p.notes)), |p.media| > 0, Gallery(Pictures(p.media, media)));
  }

  /** `Biographer.__crate_article_from_person` of content_generator/biographer.py. */
  method CreateArticleLegacy(p: Person, media: map<Id, Media>, today: int, calendar: int -> string)
    returns (a: Article)
    requires forall m :: m in p.media ==> m in media
    ensures a == LegacyArticleOf(p, media, today, calendar)
  {
    var content := BirthLine(p.birth, calendar);
    if p.death.ordinal < today {
      content := content + DeathLine(p.death, calendar);
    }
    var events := PrepareEvents(p.events, calendar);
    content := content + events;
    if |p.notes| > 0 {
      content := content + FirstNoteBlock(p.notes[0].content);
    }
    if |p.media| > 0 {
      content := AppendGallery(content, p.media, media);
    }
    LegacyBodyRendered(p, media, today, calendar);
    a := Article(p.name, ArticleDate, PersonsCategory, [PersonsCategory], p.id, content);
  }

  /**
   * `Biographer.__crate_article_from_person` of content_generator/biographer.py
   * as written: the body is built, then `slug=person.id` reads an attribute
   * the Person class of content_generator/entities.py does not have (it
   * offers `gramps_id`), so no person ever gets an article.
   */
  method CreateArticleLegacyAsWritten(p: Person, media: map<Id, Media>, today: int, calendar: int -> string)
    returns (r: Result<Article>)
    requires forall m :: m in p.media ==> m in media
    ensures r == Err(AttributeError)
    ensures r != Ok(LegacyArticleOf(p, media, today, calendar))
  {
    var intended := CreateArticleLegacy(p, media, today, calendar);
    r := Err(AttributeError);
  }

  // ---------------------------------------------------------------------
  // gramps_parser/biographer.py

  /** The body blocks of the first biographer: the life span, then one note's content. */
  function DbSections(p: DbPerson): seq<Section> {
    [Lifespan(p.birth, p.death)]
    + (if |p.notes| > 0 then [NoteText(p.notes[0].content)] else [])
  }

  /** `Biographer.__crate_article_from_person` of gramps_parser/biographer.py. */
  function DbArticleOf(p: DbPerson, calendar: int -> string): (a: Article)
    ensures a.slug == p.id && a.title == p.name && a.tags == [PersonsCategory]
  {
    Article(p.name, ArticleDate, PersonsCategory, [PersonsCategory], p.id, RenderAll(DbSections(p), calendar))
  }

  /**
   * The body starts with "{birth} - {death}" and a blank line, the birth
   * printed as "None" when it is missing; the content of one of the notes
   * follows, with nothing after it, exactly when there is a note.
   */
  lemma DbArticleBody(p: DbPerson, calendar: int -> string)
    ensures var span := (if p.birth.None? then "None" else DateText(p.birth.value, calendar))
                        + " - " + DateText(p.death, calendar) + "\n\n";
            var body := DbArticleOf(p, calendar).content;
            span <= body
            && (|p.notes| == 0 ==> body == span)
            && (|p.notes| > 0 ==> exists n :: n in p.notes && body == span + n.content)
  {
    var s := DbSections(p);
    RenderOne(Lifespan(p.birth, p.death), calendar);
    if |p.notes| > 0 {
      RenderSnoc([Lifespan(p.birth, p.death)], NoteText(p.notes[0].content), calendar);
      assert p.notes[0] in p.notes;
    } else {
      ConcatEmpty([Lifespan(p.birth, p.death)]);
    }
  }
}
