/**
 * The hyperlink post-pass shared by every renderer
 * (`__rewrite_svg_with_hyperlink`): the drawing library cannot emit links,
 * so the written SVG is read back line by line. A text line whose text is
 * a person id is the hidden id label drawn under a person's visible label;
 * it is dropped and its anchor remembered. A remaining text line at a
 * remembered anchor is wrapped in a link to that person's page. Every other
 * line passes through unchanged and in order.
 */
module Hyperlink {
  import opened Wrappers
  import opened Entities

  /** The `x` and `y` attributes of a text element, as the strings written in the file. */
  datatype Anchor = Anchor(x: string, y: string)

  /** A parsed `<text>` element: its anchor and its text, which an empty element lacks. */
  datatype Label = Label(at: Anchor, text: Option<string>)

  /** One line of the SVG file; a line holding `<text` comes with its parsed element. */
  datatype SvgLine = SvgLine(raw: string, element: Option<Label>)

  /** A hidden id label: a text element whose text names a person of the tree. */
  predicate IsIdLine(line: SvgLine, persons: map<Id, Person>) {
    line.element.Some? && line.element.value.text.Some? && line.element.value.text.value in persons
  }

  /** The person id a hidden id label points to: the `gramps_id` of the person its text names. */
  function LabelledId(line: SvgLine, persons: map<Id, Person>): Id
    requires IsIdLine(line, persons)
  {
    persons[line.element.value.text.value].id
  }

  /** The first pass's dictionary: a later id label at the same anchor overwrites an earlier one. */
  function AnchorsOf(lines: seq<SvgLine>, persons: map<Id, Person>): map<Anchor, Id>
  {
    if |lines| == 0 then map[]
    else
      var m := AnchorsOf(lines[..|lines| - 1], persons);
      var last := lines[|lines| - 1];
      if IsIdLine(last, persons) then m[last.element.value.at := LabelledId(last, persons)] else m
  }

  /** The first pass's list: every line that is not a hidden id label, in order. */
  function Clean(lines: seq<SvgLine>, persons: map<Id, Person>): seq<SvgLine>
  {
    if |lines| == 0 then []
    else
      var c := Clean(lines[..|lines| - 1], persons);
      var last := lines[|lines| - 1];
      if IsIdLine(last, persons) then c else c + [last]
  }

  /** `os.getenv("SITEURL")` as an f-string writes it: an unset variable reads "None". */
  function SiteText(site: Option<string>): string {
    match site
    case Some(s) => s
    case None => "None"
  }

  /** The opening tag of the link to the page of the person `id`. */
  function LinkHead(site: Option<string>, id: Id): string {
    "<a xlink:href=\"" + SiteText(site) + "/" + id + ".html\" target=\"_parent\">[...]>"
  }

  /** The link the second pass wraps around a label of the person `id`: the label is recovered between the tags. */
  function Wrap(site: Option<string>, id: Id, raw: string): (r: string)
    ensures |r| == |LinkHead(site, id)| + |raw| + 4
    ensures LinkHead(site, id) <= r
    ensures r[|LinkHead(site, id)|..|r| - 4] == raw && r[|r| - 4..] == "</a>"
  {
    var head := LinkHead(site, id);
    var r := head + raw + "</a>";
    assert r[..|head|] == head;
    assert r[|head|..|head| + |raw|] == raw;
    r
  }

  /** What the second pass writes for one kept line. */
  function Relinked(line: SvgLine, anchors: map<Anchor, Id>, site: Option<string>): string {
    if line.element.Some? && line.element.value.at in anchors then Wrap(site, anchors[line.element.value.at], line.raw)
    else line.raw
  }

  /** The second pass over the kept lines. */
  function RelinkAll(lines: seq<SvgLine>, anchors: map<Anchor, Id>, site: Option<string>): (r: seq<string>)
    ensures |r| == |lines|
    ensures forall i :: 0 <= i < |lines| ==> r[i] == Relinked(lines[i], anchors, site)
  {
    if |lines| == 0 then []
    else RelinkAll(lines[..|lines| - 1], anchors, site) + [Relinked(lines[|lines| - 1], anchors, site)]
  }

  lemma RelinkAllSnoc(lines: seq<SvgLine>, j: nat, anchors: map<Anchor, Id>, site: Option<string>)
    requires j < |lines|
    ensures RelinkAll(lines[..j + 1], anchors, site) == RelinkAll(lines[..j], anchors, site) + [Relinked(lines[j], anchors, site)]
  {
    assert lines[..j + 1][..j] == lines[..j];
  }

  /** The whole rewrite: the lines written back to the file. */
  function Rewritten(lines: seq<SvgLine>, persons: map<Id, Person>, site: Option<string>): seq<string> {
    RelinkAll(Clean(lines, persons), AnchorsOf(lines, persons), site)
  }

  /**
   * `__rewrite_svg_with_hyperlink` over the parsed lines of the file:
   * the first loop splits hidden id labels from the lines kept, the second
   * wraps the kept labels sitting at a remembered anchor.
   */
  method Rewrite(lines: seq<SvgLine>, persons: map<Id, Person>, site: Option<string>) returns (out: seq<string>)
    ensures out == Rewritten(lines, persons, site)
  {
    var clean, anchors := SplitIdLabels(lines, persons);
    out := AddLinks(clean, anchors, site);
  }

  /** The first loop: hidden id labels leave the file and leave their anchor behind. */
  method SplitIdLabels(lines: seq<SvgLine>, persons: map<Id, Person>) returns (clean: seq<SvgLine>, anchors: map<Anchor, Id>)
    ensures clean == Clean(lines, persons) && anchors == AnchorsOf(lines, persons)
  {
    clean, anchors := [], map[];
    var i := 0;
    while i < |lines|
      invariant 0 <= i <= |lines|
      invariant clean == Clean(lines[..i], persons)
      invariant anchors == AnchorsOf(lines[..i], persons)
    {
      var line := lines[i];
      assert lines[..i + 1][..i] == lines[..i];
      if line.element.Some? {
        var text := line.element.value.text;
        if text.Some? && text.value in persons {
          anchors := anchors[line.element.value.at := persons[text.value].id];
          i := i + 1;
          continue;
        }
      }
      clean := clean + [line];
      i := i + 1;
    }
    assert lines[..|lines|] == lines;
  }

  /** The second loop: a kept label at a remembered anchor is wrapped in a link. */
  method AddLinks(clean: seq<SvgLine>, anchors: map<Anchor, Id>, site: Option<string>) returns (out: seq<string>)
    ensures out == RelinkAll(clean, anchors, site)
  {
    out := [];
    var j := 0;
    while j < |clean|
      invariant 0 <= j <= |clean|
      invariant out == RelinkAll(clean[..j], anchors, site)
    {
      var line := clean[j];
      RelinkAllSnoc(clean, j, anchors, site);
      if line.element.Some? && line.element.value.at in anchors {
        var wrapped := Wrap(site, anchors[line.element.value.at], line.raw);
        assert wrapped == Relinked(line, anchors, site);
        out := out + [wrapped];
        j := j + 1;
        continue;
      }
      assert line.raw == Relinked(line, anchors, site);
      out := out + [line.raw];
      j := j + 1;
    }
    assert clean[..|clean|] == clean;
  }

  // ---------------------------------------------------------------------
  // What the two passes promise

  /** Dropping id labels distributes over concatenation: the kept lines stay in file order. */
  lemma {:induction false} CleanAppend(a: seq<SvgLine>, b: seq<SvgLine>, persons: map<Id, Person>)
    ensures Clean(a + b, persons) == Clean(a, persons) + Clean(b, persons)
    decreases |b|
  {
    if |b| == 0 {
      assert a + b == a;
    } else {
      var b' := b[..|b| - 1];
      assert (a + b)[..|a + b| - 1] == a + b';
      assert (a + b)[|a + b| - 1] == b[|b| - 1];
      CleanAppend(a, b', persons);
    }
  }

  /** A line is kept exactly when it is in the file and is not a hidden id label. */
  lemma {:induction false} CleanKeepsExactlyOthers(lines: seq<SvgLine>, persons: map<Id, Person>)
    ensures forall l :: l in Clean(lines, persons) <==> l in lines && !IsIdLine(l, persons)
  {
    if |lines| > 0 {
      var init := lines[..|lines| - 1];
      CleanKeepsExactlyOthers(init, persons);
      assert lines == init + [lines[|lines| - 1]];
    }
  }

  /** A file without hidden id labels is kept as it is. */
  lemma {:induction false} CleanWithoutIds(lines: seq<SvgLine>, persons: map<Id, Person>)
    requires forall i :: 0 <= i < |lines| ==> !IsIdLine(lines[i], persons)
    ensures Clean(lines, persons) == lines
  {
    if |lines| > 0 {
      var init := lines[..|lines| - 1];
      CleanWithoutIds(init, persons);
      assert lines == init + [lines[|lines| - 1]];
    }
  }

  /** An anchor is remembered exactly when some hidden id label sits at it. */
  lemma {:induction false} AnchorsRemembered(lines: seq<SvgLine>, persons: map<Id, Person>, a: Anchor)
    ensures a in AnchorsOf(lines, persons) <==>
            exists i :: 0 <= i < |lines| && IsIdLine(lines[i], persons) && lines[i].element.value.at == a
  {
    if |lines| > 0 {
      var n := |lines| - 1;
      var init := lines[..n];
      AnchorsRemembered(init, persons, a);
      assert forall i :: 0 <= i < n ==> lines[i] == init[i];
    }
  }

  /** A remembered anchor maps to the id of the last hidden id label at it in the file. */
  lemma {:induction false} AnchorsLastWins(lines: seq<SvgLine>, persons: map<Id, Person>, a: Anchor)
    requires a in AnchorsOf(lines, persons)
    ensures exists i :: 0 <= i < |lines| && IsIdLine(lines[i], persons) && lines[i].element.value.at == a
              && AnchorsOf(lines, persons)[a] == LabelledId(lines[i], persons)
              && forall k :: i < k < |lines| ==> !(IsIdLine(lines[k], persons) && lines[k].element.value.at == a)
  {
    var n := |lines| - 1;
    var init := lines[..n];
    if IsIdLine(lines[n], persons) && lines[n].element.value.at == a {
      assert AnchorsOf(lines, persons)[a] == LabelledId(lines[n], persons);
    } else {
      AnchorsLastWins(init, persons, a);
      var i :| 0 <= i < n && IsIdLine(init[i], persons) && init[i].element.value.at == a
               && AnchorsOf(init, persons)[a] == LabelledId(init[i], persons)
               && forall k :: i < k < n ==> !(IsIdLine(init[k], persons) && init[k].element.value.at == a);
      assert AnchorsOf(lines, persons)[a] == AnchorsOf(init, persons)[a];
      forall k | i < k < |lines|
        ensures !(IsIdLine(lines[k], persons) && lines[k].element.value.at == a)
      {
        if k < n {
          assert lines[k] == init[k];
        }
      }
      assert lines[i] == init[i];
      assert IsIdLine(lines[i], persons) && lines[i].element.value.at == a
             && AnchorsOf(lines, persons)[a] == LabelledId(lines[i], persons);
    }
  }

  /**
   * Every line written is a kept line, either as it was or, when a hidden
   * id label shared its anchor, wrapped in a link to that label's person;
   * no id label survives.
   */
  lemma RewriteLinksByAnchor(lines: seq<SvgLine>, persons: map<Id, Person>, site: Option<string>)
    ensures var c := Clean(lines, persons);
            var out := Rewritten(lines, persons, site);
            && |out| == |c|
            && (forall i :: 0 <= i < |c| ==> c[i] in lines && !IsIdLine(c[i], persons))
            && (forall i :: 0 <= i < |c| ==>
                  if c[i].element.Some? && c[i].element.value.at in AnchorsOf(lines, persons)
                  then out[i] == Wrap(site, AnchorsOf(lines, persons)[c[i].element.value.at], c[i].raw)
                  else out[i] == c[i].raw)
  {
    CleanKeepsExactlyOthers(lines, persons);
  }

  /** A file without hidden id labels is written back unchanged. */
  lemma {:induction false} RewriteWithoutIds(lines: seq<SvgLine>, persons: map<Id, Person>, site: Option<string>)
    requires forall i :: 0 <= i < |lines| ==> !IsIdLine(lines[i], persons)
    ensures Rewritten(lines, persons, site) == seq(|lines|, i requires 0 <= i < |lines| => lines[i].raw)
  {
    CleanWithoutIds(lines, persons);
    forall a
      ensures a !in AnchorsOf(lines, persons)
    {
      AnchorsRemembered(lines, persons, a);
    }
  }
}
