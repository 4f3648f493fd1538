// A project's detail page: the project id is read from the page's path,
// the project is looked up in the loaded project data, and the page shows
// either one of three error messages or the project.

module ProjectDetail {
  import opened Wrappers
  import Strings
  import Seqs
  import Content

  const Prefix := "/projects/"
  const Suffix := ".html"

  /** The path matches `/\/projects\/(\d+)\.html$/` with `d` as the captured
      group: it ends with the prefix, a non-empty run of decimal digits and
      the suffix (nothing anchors the start). */
  ghost predicate PathMatches(path: string, d: string)
  {
    d != [] && Strings.AllDigitsIn(d, 10) && Strings.EndsWith(path, Prefix + d + Suffix)
  }

  /** The number of decimal digits at the end of `s`. */
  function TrailingDigits(s: string): (n: nat)
    ensures n <= |s| && forall k :: |s| - n <= k < |s| ==> Strings.IsDigitIn(s[k], 10)
    ensures n < |s| ==> !Strings.IsDigitIn(s[|s| - n - 1], 10)
  {
    if s == [] || !Strings.IsDigitIn(s[|s| - 1], 10) then 0
    else 1 + TrailingDigits(s[..|s| - 1])
  }

  /** A run of digits preceded by a non-digit is exactly the trailing run. */
  lemma {:induction false} TrailingDigitsOf(x: string, d: string)
    requires Strings.AllDigitsIn(d, 10)
    requires x != [] && !Strings.IsDigitIn(x[|x| - 1], 10)
    ensures TrailingDigits(x + d) == |d|
    decreases |d|
  {
    if d == [] {
      assert x + d == x;
    } else {
      var front := d[..|d| - 1];
      assert (x + d)[..|x + d| - 1] == x + front;
      TrailingDigitsOf(x, front);
    }
  }

  /** The captured group of the match, if the path matches. */
  function CaptureId(path: string): (r: Option<string>)
    ensures r.Some? ==> PathMatches(path, r.value)
    ensures r.Some? ==> forall d :: PathMatches(path, d) ==> d == r.value
    ensures r.None? ==> forall d :: !PathMatches(path, d)
  {
    if !Strings.EndsWith(path, Suffix) then None
    else
      var body := path[..|path| - |Suffix|];
      var n := TrailingDigits(body);
      CaptureCandidate(path);
      if n == 0 || !Strings.EndsWith(body[..|body| - n], Prefix) then None
      else
        CaptureFound(path);
        Some(body[|body| - n..])
  }

  /** Any group a match captures is the trailing digits before the suffix,
      and those follow the prefix. */
  lemma CaptureCandidate(path: string)
    requires Strings.EndsWith(path, Suffix)
    ensures var body := path[..|path| - |Suffix|];
      var n := TrailingDigits(body);
      forall d :: PathMatches(path, d) ==>
        d == body[|body| - n..] && n > 0 && Strings.EndsWith(body[..|body| - n], Prefix)
  {
    forall d | PathMatches(path, d)
      ensures var body := path[..|path| - |Suffix|];
        var n := TrailingDigits(body);
        d == body[|body| - n..] && n > 0 && Strings.EndsWith(body[..|body| - n], Prefix)
    {
      CaptureUnique(path, d);
    }
  }

  /** Trailing digits after the prefix, then the suffix, make a match. */
  lemma CaptureFound(path: string)
    requires Strings.EndsWith(path, Suffix)
    requires var body := path[..|path| - |Suffix|];
      var n := TrailingDigits(body);
      n > 0 && Strings.EndsWith(body[..|body| - n], Prefix)
    ensures var body := path[..|path| - |Suffix|];
      PathMatches(path, body[|body| - TrailingDigits(body)..])
  {
    var body := path[..|path| - |Suffix|];
    var n := TrailingDigits(body);
    var d := body[|body| - n..];
    assert Strings.AllDigitsIn(d, 10) by {
      forall k | 0 <= k < |d|
        ensures Strings.IsDigitIn(d[k], 10)
      {
        assert d[k] == body[|body| - n + k];
      }
    }
    assert path == body[..|body| - n] + d + Suffix;
    assert path[|path| - |Prefix + d + Suffix|..] == Prefix + d + Suffix;
  }

  /** Whatever the path holds before the prefix, the group a match captures
      is the path's trailing digits before the suffix. */
  lemma CaptureUnique(path: string, d: string)
    requires PathMatches(path, d)
    ensures var body := path[..|path| - |Suffix|];
      && Strings.EndsWith(path, Suffix)
      && TrailingDigits(body) == |d|
      && d == body[|body| - |d|..]
      && Strings.EndsWith(body[..|body| - |d|], Prefix)
  {
    var body := path[..|path| - |Suffix|];
    var start := |path| - |Prefix + d + Suffix|;
    var x := path[..start] + Prefix;
    assert path == x + d + Suffix;
    assert body == x + d;
    assert x[|x| - 1] == '/';
    TrailingDigitsOf(x, d);
    assert body[..|body| - |d|] == x;
  }

  /** `match ? parseInt(match[1], 10) : null`, kept only when truthy:
      the project id, or `None` when the page is invalid. */
  function ProjectId(path: string): (r: Option<int>)
    ensures r.Some? ==> r.value > 0
    ensures r.Some? <==> exists d :: PathMatches(path, d) && Strings.DigitsValue(d, 10) > 0
    ensures r.Some? ==> exists d :: PathMatches(path, d) && r.value == Strings.DigitsValue(d, 10)
  {
    match CaptureId(path)
    case None => None
    case Some(d) =>
      ParseDigits(d);
      var id := Strings.ParseInt(d, false);
      if id.None? || id.value == 0 then None else id
  }

  /** `parseInt(d, 10)` of a run of decimal digits is its value. */
  lemma ParseDigits(d: string)
    requires d != [] && Strings.AllDigitsIn(d, 10)
    ensures Strings.ParseInt(d, false) == Some(Strings.DigitsValue(d, 10) as int)
  {
    assert '0' <= d[0] <= '9';
    assert !Strings.IsWhitespace(d[0]);
    assert Strings.TrimOffset(d) == 0;
    assert Strings.TrimStart(d) == d;
    Strings.DigitPrefixOfDigits(d, 10);
  }

  /** The page of project `n`, under any directory, reads back as `n`;
      project 0 is refused as invalid. */
  lemma ProjectIdOfPage(dir: string, n: nat)
    ensures ProjectId(dir + Prefix + Strings.NatToString(n) + Suffix) == if n == 0 then None else Some(n)
  {
    var d := Strings.NatToString(n);
    var path := dir + Prefix + d + Suffix;
    assert path[|path| - |Prefix + d + Suffix|..] == Prefix + d + Suffix;
    assert PathMatches(path, d);
    CaptureUnique(path, d);
    ParseDigits(d);
    Strings.NatToStringValue(n);
  }

  /** Leading zeros do not make an id: `/projects/00.html` is invalid. */
  lemma ZerosInvalid(dir: string, zeros: string)
    requires zeros != [] && forall k :: 0 <= k < |zeros| ==> zeros[k] == '0'
    ensures ProjectId(dir + Prefix + zeros + Suffix) == None
  {
    var path := dir + Prefix + zeros + Suffix;
    assert path[|path| - |Prefix + zeros + Suffix|..] == Prefix + zeros + Suffix;
    assert PathMatches(path, zeros);
    CaptureUnique(path, zeros);
    ZerosValue(zeros);
  }

  lemma {:induction false} ZerosValue(zeros: string)
    requires forall k :: 0 <= k < |zeros| ==> zeros[k] == '0'
    ensures Strings.AllDigitsIn(zeros, 10) && Strings.DigitsValue(zeros, 10) == 0
  {
    if zeros != [] {
      ZerosValue(zeros[..|zeros| - 1]);
    }
  }

  // ---------------------------------------------------------------------
  // The page
  // ---------------------------------------------------------------------

  /** What the detail element shows. */
  datatype Detail =
    | Invalid
    | LoadFailed
    | NotFound
    | Shown(image: string, alt: string, category: string, title: string, description: string,
            technologies: string, liveUrl: string, sourceLink: Option<string>)

  /** The error text shown, if any. */
  function ErrorMessage(d: Detail): (r: Option<string>)
    ensures r.None? <==> d.Shown?
    ensures d.Invalid? ==> r == Some("Invalid project page.")
    ensures d.LoadFailed? ==> r == Some("Failed to load project data.")
    ensures d.NotFound? ==> r == Some("Project not found.")
    ensures r.Some? ==> r.value != ""
  {
    match d
    case Invalid => Some("Invalid project page.")
    case LoadFailed => Some("Failed to load project data.")
    case NotFound => Some("Project not found.")
    case Shown(_, _, _, _, _, _, _, _) => None
  }

  /** The Source Code link shows when the GitHub address is set and is not
      the `#` placeholder. */
  function SourceLink(githubUrl: string): (r: Option<string>)
    ensures r.Some? <==> githubUrl != "" && githubUrl != "#"
    ensures r.Some? ==> r.value == githubUrl
  {
    if githubUrl != "" && githubUrl != "#" then Some(githubUrl) else None
  }

  /** The `DOMContentLoaded` handler: `load` is the parsed project data,
      or `None` when the request or the parse fails. */
  function Render(path: string, load: Option<seq<Content.Project>>): (r: Detail)
    ensures r.Invalid? <==> ProjectId(path).None?
    ensures r.LoadFailed? <==> ProjectId(path).Some? && load.None?
    ensures r.NotFound? <==>
      (ProjectId(path).Some? && load.Some?
       && forall i :: 0 <= i < |load.value| ==> load.value[i].id != ProjectId(path).value)
    ensures r.Shown? ==>
      (exists i :: 0 <= i < |load.value|
        && load.value[i].id == ProjectId(path).value
        && (forall j :: 0 <= j < i ==> load.value[j].id != ProjectId(path).value)
        && r.image == "/" + load.value[i].image
        && r.alt == load.value[i].title && r.title == load.value[i].title
        && r.category == load.value[i].category
        && r.description == load.value[i].description
        && r.technologies == Strings.Join(load.value[i].technologies, " ")
        && r.liveUrl == load.value[i].liveUrl
        && r.sourceLink == SourceLink(load.value[i].githubUrl))
  {
    match ProjectId(path)
    case None => Invalid
    case Some(id) =>
      match load
      case None => LoadFailed
      case Some(projects) =>
        match Seqs.FindFirst(projects, (p: Content.Project) => p.id == id)
        case None => NotFound
        case Some(i) =>
          var p := projects[i];
          Shown("/" + p.image, p.title, p.category, p.title, p.description,
                Strings.Join(p.technologies, " "), p.liveUrl, SourceLink(p.githubUrl))
  }

  /** The technologies line: each name at its offset, a single space after
      every name but the last, and nothing else. */
  lemma {:induction false} JoinLayout(parts: seq<string>)
    requires parts != []
    ensures |Strings.Join(parts, " ")| == TotalLength(parts) + |parts| - 1
    ensures forall i :: 0 <= i < |parts| ==>
      && Offset(parts, i) + |parts[i]| <= |Strings.Join(parts, " ")|
      && Strings.Join(parts, " ")[Offset(parts, i)..Offset(parts, i) + |parts[i]|] == parts[i]
    ensures forall i :: 0 <= i < |parts| - 1 ==>
      Offset(parts, i) + |parts[i]| < |Strings.Join(parts, " ")|
      && Strings.Join(parts, " ")[Offset(parts, i) + |parts[i]|] == ' '
  {
    var line := Strings.Join(parts, " ");
    if |parts| > 1 {
      var rest := parts[1..];
      var tail := Strings.Join(rest, " ");
      JoinLayout(rest);
      assert line == parts[0] + " " + tail;
      var skip := |parts[0]| + 1;
      forall i | 1 <= i < |parts|
        ensures Offset(parts, i) + |parts[i]| <= |line|
        ensures line[Offset(parts, i)..Offset(parts, i) + |parts[i]|] == parts[i]
        ensures i < |parts| - 1 ==>
          Offset(parts, i) + |parts[i]| < |line| && line[Offset(parts, i) + |parts[i]|] == ' '
      {
        assert rest[i - 1] == parts[i];
        assert Offset(parts, i) == skip + Offset(rest, i - 1);
        assert line[skip..] == tail;
      }
      assert line[..|parts[0]|] == parts[0];
      assert line[|parts[0]|] == ' ';
    }
  }

  /** Where the `i`th name starts in the joined line. */
  function Offset(parts: seq<string>, i: nat): nat
    requires i <= |parts|
  {
    if i == 0 then 0 else |parts[0]| + 1 + Offset(parts[1..], i - 1)
  }

  function TotalLength(parts: seq<string>): nat
  {
    if parts == [] then 0 else |parts[0]| + TotalLength(parts[1..])
  }
}
