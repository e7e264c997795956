/**
 * POSIX paths as `pathlib.PurePosixPath` sees them: a path is an absolute
 * flag and its segments, the pieces between separators other than empty
 * ones and ".". Joining with `/` and printing a path work on that form.
 */
module Paths {

  /** The text after the last separator: `Path.name` of a path already in normal form. */
  function FileName(path: string): (r: string)
    ensures '/' !in r
    ensures |r| <= |path|
    ensures |r| < |path| ==> path[|path| - |r| - 1] == '/'
  {
    if |path| == 0 then ""
    else if path[|path| - 1] == '/' then ""
    else FileName(path[..|path| - 1]) + [path[|path| - 1]]
  }

  /** The file name is the tail of the path. */
  lemma {:induction false} FileNameIsTail(path: string)
    ensures FileName(path) == path[|path| - |FileName(path)|..]
    decreases |path|
  {
    if |path| > 0 && path[|path| - 1] != '/' {
      var init := path[..|path| - 1];
      FileNameIsTail(init);
      assert path[|path| - |FileName(path)|..] == init[|init| - |FileName(init)|..] + [path[|path| - 1]];
    }
  }

  /** The file name of `dir/name` is `name`. */
  lemma {:induction false} FileNameOfJoin(dir: string, name: string)
    requires '/' !in name
    ensures FileName(dir + "/" + name) == name
    decreases |name|
  {
    var s := dir + "/" + name;
    if |name| == 0 {
      assert s[|s| - 1] == '/';
    } else {
      var init := name[..|name| - 1];
      assert s[..|s| - 1] == dir + "/" + init;
      FileNameOfJoin(dir, init);
      assert init + [name[|name| - 1]] == name;
    }
  }

  /** A name without a separator is its own file name. */
  lemma {:induction false} FileNameOfName(name: string)
    requires '/' !in name
    ensures FileName(name) == name
    decreases |name|
  {
    if |name| > 0 {
      var init := name[..|name| - 1];
      assert name[..|name| - 1] == init;
      FileNameOfName(init);
      assert init + [name[|name| - 1]] == name;
    }
  }

  predicate IsAbsolute(s: string) {
    |s| > 0 && s[0] == '/'
  }

  /** A segment pathlib keeps: not empty, not ".", without a separator. */
  predicate IsSegment(x: string) {
    x != "" && x != "." && '/' !in x
  }

  /** The segments of a path string, left to right. */
  function Segments(s: string): (r: seq<string>)
    ensures forall i :: 0 <= i < |r| ==> IsSegment(r[i])
    decreases |s|
  {
    var name := FileName(s);
    var keep := if IsSegment(name) then [name] else [];
    if |name| == |s| then keep
    else Segments(s[..|s| - |name| - 1]) + keep
  }

  /** Segments joined by single separators. */
  function Joined(parts: seq<string>): string
  {
    if |parts| == 0 then ""
    else if |parts| == 1 then parts[0]
    else Joined(parts[..|parts| - 1]) + "/" + parts[|parts| - 1]
  }

  /** `str()` of a path with the given flag and segments; "." for the empty relative path. */
  function Render(absolute: bool, parts: seq<string>): string {
    if absolute then "/" + Joined(parts)
    else if parts == [] then "."
    else Joined(parts)
  }

  /** `str(PurePosixPath(s))`: separators collapsed, "." segments and a trailing separator dropped. */
  function Normalized(s: string): string {
    Render(IsAbsolute(s), Segments(s))
  }

  /**
   * `Path(base) / part`: an absolute part replaces the base, a relative one
   * adds its segments after those of the base.
   */
  function JoinPath(base: string, part: string): string {
    if IsAbsolute(part) then Normalized(part)
    else Render(IsAbsolute(base), Segments(base) + Segments(part))
  }

  /** The segments of a path whose file name is a segment: those before it, then it. */
  lemma SegmentsEndingIn(prefix: string, name: string)
    requires IsSegment(name)
    ensures Segments(prefix + "/" + name) == Segments(prefix) + [name]
  {
    var s := prefix + "/" + name;
    FileNameOfJoin(prefix, name);
    assert s[..|s| - |name| - 1] == prefix;
  }

  /** Neither the empty path nor the root has segments. */
  lemma SegmentsOfNothing(pre: string)
    requires pre == "" || pre == "/"
    ensures Segments(pre) == []
  {
    if pre == "/" {
      assert FileName(pre) == "";
      assert pre[..0] == "";
    }
  }

  /** A single segment, relative or under the root, is read back alone. */
  lemma SegmentsOfOne(pre: string, name: string)
    requires pre == "" || pre == "/"
    requires IsSegment(name)
    ensures Segments(pre + name) == [name]
  {
    if pre == "" {
      assert pre + name == name;
      FileNameOfName(name);
    } else {
      assert pre + name == "" + "/" + name;
      SegmentsEndingIn("", name);
      SegmentsOfNothing("");
    }
  }

  /** Regrouping around a separator, kept apart from the path functions the solver would unfold. */
  lemma RegroupSeparator(pre: string, j: string, last: string)
    ensures pre + (j + "/" + last) == (pre + j) + "/" + last
  {
  }

  /** One more segment at the end of a path read back correctly is read back too. */
  lemma SegmentsJoinedStep(pre: string, init: seq<string>, last: string)
    requires |init| > 0 && IsSegment(last)
    requires Segments(pre + Joined(init)) == init
    ensures Segments(pre + Joined(init + [last])) == init + [last]
  {
    var parts := init + [last];
    var front := pre + Joined(init);
    assert parts[..|parts| - 1] == init;
    assert Joined(parts) == Joined(init) + "/" + last;
    RegroupSeparator(pre, Joined(init), last);
    SegmentsEndingIn(front, last);
  }

  /** A lone segment is the only segment of itself. */
  lemma SegmentsOfSegment(name: string)
    requires IsSegment(name)
    ensures Segments(name) == [name]
  {
    SegmentsOfOne("", name);
    assert "" + name == name;
  }

  /** Reading the segments back out of a rendered path gives them unchanged. */
  lemma {:induction false} SegmentsJoined(pre: string, parts: seq<string>)
    requires pre == "" || pre == "/"
    requires forall i :: 0 <= i < |parts| ==> IsSegment(parts[i])
    ensures Segments(pre + Joined(parts)) == parts
    decreases |parts|
  {
    if |parts| == 0 {
      assert pre + Joined(parts) == pre;
      SegmentsOfNothing(pre);
    } else if |parts| == 1 {
      assert pre + Joined(parts) == pre + parts[0];
      SegmentsOfOne(pre, parts[0]);
    } else {
      var init := parts[..|parts| - 1];
      assert init + [parts[|parts| - 1]] == parts;
      SegmentsJoined(pre, init);
      SegmentsJoinedStep(pre, init, parts[|parts| - 1]);
    }
  }

  /** A rendered path keeps its flag and its segments. */
  lemma RenderReads(absolute: bool, parts: seq<string>)
    requires forall i :: 0 <= i < |parts| ==> IsSegment(parts[i])
    ensures IsAbsolute(Render(absolute, parts)) == absolute
    ensures Segments(Render(absolute, parts)) == parts
  {
    if absolute {
      SegmentsJoined("/", parts);
    } else if parts == [] {
      assert FileName(".") == ".";
    } else {
      SegmentsJoined("", parts);
      assert "" + Joined(parts) == Joined(parts);
      JoinedStartsWithFirst(parts);
    }
  }

  /** A joined path starts with its first segment. */
  lemma {:induction false} JoinedStartsWithFirst(parts: seq<string>)
    requires |parts| > 0 && parts[0] != ""
    ensures |Joined(parts)| > 0 && Joined(parts)[0] == parts[0][0]
    decreases |parts|
  {
    if |parts| > 1 {
      JoinedStartsWithFirst(parts[..|parts| - 1]);
      assert Joined(parts) == Joined(parts[..|parts| - 1]) + "/" + parts[|parts| - 1];
    }
  }

  /** Normalising twice changes nothing more. */
  lemma NormalizedIdempotent(s: string)
    ensures Normalized(Normalized(s)) == Normalized(s)
  {
    RenderReads(IsAbsolute(s), Segments(s));
  }

  /**
   * Joining a relative part adds its segments after those of the base and
   * keeps the base's flag; joining an absolute part gives that part alone.
   */
  lemma JoinPathSegments(base: string, part: string)
    ensures IsAbsolute(part) ==> Segments(JoinPath(base, part)) == Segments(part)
                                 && IsAbsolute(JoinPath(base, part))
    ensures !IsAbsolute(part) ==> Segments(JoinPath(base, part)) == Segments(base) + Segments(part)
                                  && IsAbsolute(JoinPath(base, part)) == IsAbsolute(base)
  {
    if IsAbsolute(part) {
      RenderReads(true, Segments(part));
    } else {
      RenderReads(IsAbsolute(base), Segments(base) + Segments(part));
    }
  }

  /** The file name of a rendered path with segments is its last segment. */
  lemma FileNameOfRender(absolute: bool, parts: seq<string>)
    requires |parts| > 0
    requires forall i :: 0 <= i < |parts| ==> IsSegment(parts[i])
    ensures FileName(Render(absolute, parts)) == parts[|parts| - 1]
  {
    var last := parts[|parts| - 1];
    if |parts| == 1 {
      if absolute {
        assert Render(absolute, parts) == "" + "/" + last;
        FileNameOfJoin("", last);
      } else {
        FileNameOfName(last);
      }
    } else {
      var pre := if absolute then "/" else "";
      assert Render(absolute, parts) == (pre + Joined(parts[..|parts| - 1])) + "/" + last;
      FileNameOfJoin(pre + Joined(parts[..|parts| - 1]), last);
    }
  }

  /** A path whose file name is a real segment ends with that segment. */
  lemma LastSegmentIsFileName(s: string)
    requires IsSegment(FileName(s))
    ensures |Segments(s)| > 0 && Segments(s)[|Segments(s)| - 1] == FileName(s)
  {
  }

  /**
   * A relative path ending in a file name keeps that file name once joined
   * under any directory.
   */
  lemma FileNameOfJoinPath(base: string, part: string)
    requires !IsAbsolute(part) && IsSegment(FileName(part))
    ensures FileName(JoinPath(base, part)) == FileName(part)
  {
    LastSegmentIsFileName(part);
    FileNameOfRender(IsAbsolute(base), Segments(base) + Segments(part));
  }

  /** Joining a sub-directory and then a relative part lists the base's segments, the sub-directory, then the part's. */
  lemma NestedJoin(base: string, sub: string, part: string)
    requires IsSegment(sub) && !IsAbsolute(part)
    ensures Segments(JoinPath(JoinPath(base, sub), part)) == Segments(base) + [sub] + Segments(part)
  {
    SegmentsOfSegment(sub);
    JoinPathSegments(base, sub);
    JoinPathSegments(JoinPath(base, sub), part);
  }
}
