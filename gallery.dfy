/**
 * The picture gallery of content_generator/src/presenters/gallery.py: the
 * tree's media regrouped by file path, each picture copied into the
 * gallery directory, and the gallery page text built by appending one block
 * per picture.
 */
module Gallery {
  import opened Wrappers
  import opened Entities
  import Biographer
  import Paths

  // ---------------------------------------------------------------------
  // __regroup_media_by_paths

  /** The dict of media by path, with its insertion order. */
  datatype Regrouped = Regrouped(byPath: map<string, Media>, paths: seq<string>)

  /**
   * The first media seen at a path is kept; the persons of each later media
   * at that path are appended to the kept one's, in order.
   */
  function RegroupOf(ms: seq<Media>): Regrouped {
    if |ms| == 0 then Regrouped(map[], [])
    else
      var r := RegroupOf(ms[..|ms| - 1]);
      var m := ms[|ms| - 1];
      if m.path !in r.byPath then Regrouped(r.byPath[m.path := m], r.paths + [m.path])
      else Regrouped(r.byPath[m.path := r.byPath[m.path].(persons := r.byPath[m.path].persons + m.persons)], r.paths)
  }

  /** `Gallery.__regroup_media_by_paths`, over the media dict's values in order. */
  method Regroup(ms: seq<Media>) returns (r: Regrouped)
    ensures r == RegroupOf(ms)
  {
    var result: map<string, Media> := map[];
    var paths: seq<string> := [];
    for i := 0 to |ms|
      invariant Regrouped(result, paths) == RegroupOf(ms[..i])
    {
      assert ms[..i + 1][..i] == ms[..i];
      var m := ms[i];
      if m.path !in result {
        result := result[m.path := m];
        paths := paths + [m.path];
      } else {
        var kept := result[m.path];
        for k := 0 to |m.persons|
          invariant kept == result[m.path].(persons := result[m.path].persons + m.persons[..k])
        {
          assert m.persons[..k + 1] == m.persons[..k] + [m.persons[k]];
          ConcatAssoc(result[m.path].persons, m.persons[..k], [m.persons[k]]);
          kept := MarkPerson(kept, m.persons[k]);
        }
        TakeAll(m.persons);
        result := result[m.path := kept];
      }
    }
    TakeAll(ms);
    r := Regrouped(result, paths);
  }

  /** The index of the first media at `path`, or -1. */
  function FirstAt(ms: seq<Media>, path: string): (r: int)
    ensures -1 <= r < |ms|
    ensures r >= 0 ==> ms[r].path == path && forall j :: 0 <= j < r ==> ms[j].path != path
    ensures r < 0 ==> forall j :: 0 <= j < |ms| ==> ms[j].path != path
  {
    if |ms| == 0 then -1
    else
      var k := FirstAt(ms[..|ms| - 1], path);
      if k >= 0 then k
      else if ms[|ms| - 1].path == path then |ms| - 1
      else -1
  }

  /** The persons of all media at `path`, in order, repetitions kept. */
  function PersonsAt(ms: seq<Media>, path: string): seq<Id> {
    if |ms| == 0 then []
    else
      var m := ms[|ms| - 1];
      PersonsAt(ms[..|ms| - 1], path) + (if m.path == path then m.persons else [])
  }

  /** Exactly one entry per distinct path. */
  ghost predicate Unique(r: Regrouped) {
    (forall path :: path in r.paths <==> path in r.byPath)
    && forall i, j :: 0 <= i < j < |r.paths| ==> r.paths[i] != r.paths[j]
  }

  /**
   * Regrouping keeps one entry per distinct path, in the order the paths are
   * first seen; the entry is the first media at that path with the persons
   * of every media at that path.
   */
  lemma RegroupMeaning(ms: seq<Media>)
    ensures var r := RegroupOf(ms);
            Unique(r)
            && (forall path :: path in r.byPath <==> FirstAt(ms, path) >= 0)
            && (forall path :: path in r.byPath ==>
                  r.byPath[path] == ms[FirstAt(ms, path)].(persons := PersonsAt(ms, path)))
            && forall i, j :: 0 <= i < j < |r.paths| ==> FirstAt(ms, r.paths[i]) < FirstAt(ms, r.paths[j])
  {
    RegroupKeys(ms);
    RegroupEntries(ms);
  }

  /** The dict's keys are the distinct paths, listed once each in the order first seen. */
  lemma {:induction false} RegroupKeys(ms: seq<Media>)
    ensures var r := RegroupOf(ms);
            Unique(r)
            && (forall path :: path in r.byPath <==> FirstAt(ms, path) >= 0)
            && forall i, j :: 0 <= i < j < |r.paths| ==> FirstAt(ms, r.paths[i]) < FirstAt(ms, r.paths[j])
    decreases |ms|
  {
    if |ms| > 0 {
      var init := ms[..|ms| - 1];
      var m := ms[|ms| - 1];
      var r0 := RegroupOf(init);
      RegroupKeys(init);
      if m.path !in r0.byPath {
        forall i | 0 <= i < |r0.paths|
          ensures FirstAt(ms, r0.paths[i]) < |ms| - 1
        {
          assert r0.paths[i] in r0.byPath;
        }
      }
    }
  }

  /** Each entry is the first media at its path, with the persons of all media there. */
  lemma {:induction false} RegroupEntries(ms: seq<Media>)
    ensures var r := RegroupOf(ms);
            forall path :: path in r.byPath ==>
              FirstAt(ms, path) >= 0 && r.byPath[path] == ms[FirstAt(ms, path)].(persons := PersonsAt(ms, path))
    decreases |ms|
  {
    if |ms| > 0 {
      var init := ms[..|ms| - 1];
      var m := ms[|ms| - 1];
      var r0 := RegroupOf(init);
      RegroupEntries(init);
      var r := RegroupOf(ms);
      forall path | path in r.byPath
        ensures FirstAt(ms, path) >= 0 && r.byPath[path] == ms[FirstAt(ms, path)].(persons := PersonsAt(ms, path))
      {
        if path == m.path && path in r0.byPath {
          ConcatAssoc(PersonsAt(init, path), [], m.persons);
        } else if path != m.path {
          ConcatEmpty(PersonsAt(init, path));
        } else {
          RegroupKeys(init);
          assert FirstAt(init, path) < 0;
          assert PersonsAt(init, path) == [] by {
            PersonsAbsent(init, path);
          }
        }
      }
    }
  }

  /** No media at `path`, no persons there. */
  lemma {:induction false} PersonsAbsent(ms: seq<Media>, path: string)
    requires forall j :: 0 <= j < |ms| ==> ms[j].path != path
    ensures PersonsAt(ms, path) == []
    decreases |ms|
  {
    if |ms| > 0 {
      PersonsAbsent(ms[..|ms| - 1], path);
    }
  }

  /** The persons gathered at a path are persons of the media at that path. */
  lemma {:induction false} PersonsAtFrom(ms: seq<Media>, path: string)
    ensures forall q :: q in PersonsAt(ms, path) ==>
              exists j :: 0 <= j < |ms| && ms[j].path == path && q in ms[j].persons
    decreases |ms|
  {
    if |ms| > 0 {
      var init := ms[..|ms| - 1];
      PersonsAtFrom(init, path);
      forall q | q in PersonsAt(ms, path)
        ensures exists j :: 0 <= j < |ms| && ms[j].path == path && q in ms[j].persons
      {
        if q in PersonsAt(init, path) {
          var j :| 0 <= j < |init| && init[j].path == path && q in init[j].persons;
          assert ms[j] == init[j];
        }
      }
    }
  }

  /** The kept media in the dict's order. */
  function Values(r: Regrouped): (vs: seq<Media>)
    requires forall path :: path in r.paths ==> path in r.byPath
    ensures |vs| == |r.paths| && forall i :: 0 <= i < |vs| ==> vs[i] == r.byPath[r.paths[i]]
    decreases |r.paths|
  {
    if |r.paths| == 0 then []
    else
      var last := r.paths[|r.paths| - 1];
      assert last in r.paths;
      Values(Regrouped(r.byPath, r.paths[..|r.paths| - 1])) + [r.byPath[last]]
  }

  // ---------------------------------------------------------------------
  // _GalleryPage

  const PageHeader := "Title: Галерея\nCategory: Галерея\nDate: 2021-01-29 13:12\n"
  const PeopleLead := "Люди на изображении: "
  const Separator := "\n\n---\n\n"

  /** Every person a media names is loaded. */
  predicate Known(m: Media, persons: map<Id, Person>) {
    forall q :: q in m.persons ==> q in persons
  }

  /** The link to a person's article, followed by a space. */
  function PersonLink(p: Person): string {
    "[" + p.name + "](" + "{filename}../persons/" + p.id + ".md) "
  }

  function PersonLinks(ids: seq<Id>, persons: map<Id, Person>): string
    requires forall q :: q in ids ==> q in persons
  {
    if |ids| == 0 then ""
    else
      assert ids[|ids| - 1] in ids;
      PersonLinks(ids[..|ids| - 1], persons) + PersonLink(persons[ids[|ids| - 1]])
  }

  /** The picture line, the persons line when there are persons, and the separator. */
  function ImageBlock(m: Media, persons: map<Id, Person>): string
    requires Known(m, persons)
  {
    Biographer.Add(Biographer.PictureLine(Biographer.PictureOf(m)), |m.persons| > 0, PeopleLead + PersonLinks(m.persons, persons))
    + Separator
  }

  /**
   * A block opens with the picture line and ends with the separator; the
   * persons line is there exactly when the media names some person.
   */
  lemma ImageBlockShape(m: Media, persons: map<Id, Person>)
    requires Known(m, persons)
    ensures var picture := Biographer.PictureLine(Biographer.PictureOf(m));
            var block := ImageBlock(m, persons);
            picture <= block && block[|block| - |Separator|..] == Separator
            && (|m.persons| == 0 <==> block == picture + Separator)
            && (|m.persons| > 0 ==> block == picture + PeopleLead + PersonLinks(m.persons, persons) + Separator)
  {
    var picture := Biographer.PictureLine(Biographer.PictureOf(m));
    var block := ImageBlock(m, persons);
    if |m.persons| > 0 {
      ConcatAssoc(picture, PeopleLead, PersonLinks(m.persons, persons));
      ConcatAssoc(picture, PeopleLead + PersonLinks(m.persons, persons), Separator);
      assert |block| > |picture + Separator|;
    }
  }

  function ImageBlocks(ms: seq<Media>, persons: map<Id, Person>): string
    requires forall i :: 0 <= i < |ms| ==> Known(ms[i], persons)
  {
    if |ms| == 0 then ""
    else ImageBlocks(ms[..|ms| - 1], persons) + ImageBlock(ms[|ms| - 1], persons)
  }

  /** The gallery page: its text only ever grows, and it starts with the header. */
  class GalleryPage {
    var content: string

    ghost predicate Valid()
      reads this
    {
      PageHeader <= content
    }

    constructor ()
      ensures Valid() && content == PageHeader
    {
      content := PageHeader;
    }

    /** `_GalleryPage.add_image`. */
    method AddImage(m: Media, persons: map<Id, Person>)
      requires Valid() && Known(m, persons)
      modifies this
      ensures Valid() && content == old(content) + ImageBlock(m, persons)
    {
      var link := Biographer.GalleryLink + Paths.FileName(m.path);
      content := content + ("![" + m.description + "](" + link + ")\n\n");
      ghost var picture := content;
      if |m.persons| > 0 {
        content := content + PeopleLead;
        ghost var lead := content;
        for i := 0 to |m.persons|
          invariant content == lead + PersonLinks(m.persons[..i], persons)
        {
          PersonLinksSnoc(lead, m.persons, persons, i);
          var p := persons[m.persons[i]];
          content := content + ("[" + p.name + "](" + "{filename}../persons/" + p.id + ".md) ");
        }
        TakeAll(m.persons);
      }
      content := content + Separator;
      BlockAfter(old(content), m, persons);
      HeaderKept(old(content), ImageBlock(m, persons));
    }
  }

  /** Appending keeps the header at the head of the page. */
  lemma HeaderKept(before: string, block: string)
    requires PageHeader <= before
    ensures PageHeader <= before + block
  {
    assert (before + block)[..|PageHeader|] == before[..|PageHeader|];
  }

  /** One more person adds the link to their article. */
  lemma PersonLinksSnoc(lead: string, ids: seq<Id>, persons: map<Id, Person>, i: int)
    requires (forall q :: q in ids ==> q in persons) && 0 <= i < |ids|
    ensures ids[i] in persons
    ensures (lead + PersonLinks(ids[..i], persons)) + PersonLink(persons[ids[i]])
            == lead + PersonLinks(ids[..i + 1], persons)
  {
    assert ids[i] in ids;
    assert ids[..i + 1][..i] == ids[..i];
    ConcatAssoc(lead, PersonLinks(ids[..i], persons), PersonLink(persons[ids[i]]));
  }

  /** The page text after a block, piece by piece as `add_image` appends them. */
  lemma BlockAfter(before: string, m: Media, persons: map<Id, Person>)
    requires Known(m, persons)
    ensures var picture := before + Biographer.PictureLine(Biographer.PictureOf(m));
            before + ImageBlock(m, persons)
            == (if |m.persons| > 0 then picture + PeopleLead + PersonLinks(m.persons, persons) else picture) + Separator
  {
    var line := Biographer.PictureLine(Biographer.PictureOf(m));
    if |m.persons| > 0 {
      ConcatAssoc(before, line, PeopleLead + PersonLinks(m.persons, persons));
      ConcatAssoc(before + line, PeopleLead, PersonLinks(m.persons, persons));
      ConcatAssoc(before, line + PeopleLead + PersonLinks(m.persons, persons), Separator);
      ConcatAssoc(before, line, PeopleLead);
      ConcatAssoc(line, PeopleLead, PersonLinks(m.persons, persons));
    } else {
      ConcatAssoc(before, line, Separator);
    }
  }

  // ---------------------------------------------------------------------
  // Gallery.generate_gallery

  /** Where `shutil.copy(path, dir)` puts a file: under `dir`, with its own name. */
  function CopiedPath(dir: string, path: string): string {
    dir + "/" + Paths.FileName(path)
  }

  /** The media once its picture is copied into `dir`: `media.path = new_path`. */
  function Moved(dir: string, m: Media): Media {
    m.(path := CopiedPath(dir, m.path))
  }

  /** Every media moved into `dir`, in order. */
  function MovedAll(dir: string, ms: seq<Media>): (r: seq<Media>)
    ensures |r| == |ms|
  {
    if |ms| == 0 then [] else MovedAll(dir, ms[..|ms| - 1]) + [Moved(dir, ms[|ms| - 1])]
  }

  /** Each media is moved where it stands, with its new path only. */
  lemma {:induction false} MovedAllAt(dir: string, ms: seq<Media>, i: int)
    requires 0 <= i < |ms|
    ensures MovedAll(dir, ms)[i] == ms[i].(path := CopiedPath(dir, ms[i].path))
    decreases |ms|
  {
    if i < |ms| - 1 {
      MovedAllAt(dir, ms[..|ms| - 1], i);
    }
  }

  /** Copying a picture into the gallery keeps its file name, so its block is unchanged. */
  lemma CopyKeepsBlock(dir: string, m: Media, persons: map<Id, Person>)
    requires Known(m, persons)
    ensures ImageBlock(Moved(dir, m), persons) == ImageBlock(m, persons)
  {
    Paths.FileNameOfJoin(dir, Paths.FileName(m.path));
  }

  /** The media of the gallery: one per distinct path, in the order the paths are first seen. */
  function GalleryMedia(ms: seq<Media>): (vs: seq<Media>)
    ensures |vs| == |RegroupOf(ms).paths|
  {
    RegroupMeaning(ms);
    Values(RegroupOf(ms))
  }

  /** Every person a media names is loaded. */
  predicate AllKnown(ms: seq<Media>, persons: map<Id, Person>) {
    forall i :: 0 <= i < |ms| ==> Known(ms[i], persons)
  }

  /** The regrouped media name only persons of the media they come from. */
  lemma RegroupedKnown(ms: seq<Media>, persons: map<Id, Person>)
    requires AllKnown(ms, persons)
    ensures AllKnown(GalleryMedia(ms), persons)
  {
    var r := RegroupOf(ms);
    RegroupMeaning(ms);
    var vs := GalleryMedia(ms);
    forall i | 0 <= i < |vs|
      ensures Known(vs[i], persons)
    {
      var path := r.paths[i];
      PersonsAtFrom(ms, path);
    }
  }

  /** One turn of the gallery loop: the picture copied, then its block added to the page. */
  method CopyAndAdd(page: GalleryPage, m: Media, persons: map<Id, Person>, imagesDir: string) returns (moved: Media)
    requires page.Valid() && Known(m, persons)
    modifies page
    ensures page.Valid() && page.content == old(page.content) + ImageBlock(m, persons)
    ensures moved == Moved(imagesDir, m)
  {
    moved := Moved(imagesDir, m);
    CopyKeepsBlock(imagesDir, m, persons);
    page.AddImage(moved, persons);
  }

  /** The text of the gallery page: the header, then one block per kept media. */
  function PageOf(ms: seq<Media>, persons: map<Id, Person>): string
    requires AllKnown(ms, persons)
  {
    RegroupedKnown(ms, persons);
    PageHeader + ImageBlocks(GalleryMedia(ms), persons)
  }

  /** The regrouped media of the gallery, in the dict's order. */
  method GalleryValues(ms: seq<Media>, persons: map<Id, Person>) returns (vs: seq<Media>)
    requires AllKnown(ms, persons)
    ensures vs == GalleryMedia(ms) && AllKnown(vs, persons)
  {
    var r := Regroup(ms);
    RegroupedKnown(ms, persons);
    RegroupMeaning(ms);
    vs := Values(r);
  }

  /** One more kept media adds its block to the page and its moved copy to the list. */
  lemma GalleryStep(vs: seq<Media>, persons: map<Id, Person>, imagesDir: string, i: int)
    requires AllKnown(vs, persons) && 0 <= i < |vs|
    ensures PageHeader + ImageBlocks(vs[..i + 1], persons)
            == (PageHeader + ImageBlocks(vs[..i], persons)) + ImageBlock(vs[i], persons)
    ensures MovedAll(imagesDir, vs[..i + 1]) == MovedAll(imagesDir, vs[..i]) + [Moved(imagesDir, vs[i])]
  {
    assert vs[..i + 1][..i] == vs[..i];
    ConcatAssoc(PageHeader, ImageBlocks(vs[..i], persons), ImageBlock(vs[i], persons));
  }

  /**
   * `Gallery.generate_gallery` without the file system: the media regrouped,
   * each kept one moved into the gallery directory `imagesDir`, and its block
   * added to a new page.
   */
  method GenerateGallery(ms: seq<Media>, persons: map<Id, Person>, imagesDir: string)
    returns (page: GalleryPage, moved: seq<Media>)
    requires AllKnown(ms, persons)
    ensures fresh(page) && page.Valid()
    ensures page.content == PageOf(ms, persons)
    ensures moved == MovedAll(imagesDir, GalleryMedia(ms))
  {
    var vs := GalleryValues(ms, persons);
    page := new GalleryPage();
    moved := [];
    for i := 0 to |vs|
      invariant page.Valid() && page.content == PageHeader + ImageBlocks(vs[..i], persons)
      invariant moved == MovedAll(imagesDir, vs[..i])
    {
      GalleryStep(vs, persons, imagesDir, i);
      var m := CopyAndAdd(page, vs[i], persons, imagesDir);
      moved := moved + [m];
    }
    TakeAll(vs);
  }
}
