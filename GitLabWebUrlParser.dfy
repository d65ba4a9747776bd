/**
 * GitLabWebUrlParser<TResult, TId>: the path grammar of GitLab web links,
 * `<namespace>/<project>/-/<linktype>/<id>`, where the namespace is one or
 * more groups joined by '/'. A concrete parser supplies the expected link
 * type, the parser of the id and the construction of its result.
 */
module GitLabWebUrlParser {
  import opened Wrappers
  import opened Text
  import opened Errors
  import opened Segments
  import opened UrlParser
  import opened GitLabProjectInfo
  import opened GitLabUrlParser

  const SupportedSchemes: seq<string> := ["http", "https"]

  /**
   * The shape of a GitLab web path split at '/': at least five segments,
   * and the first "-" among them is the third from the end, so at least two
   * segments come before it and exactly two after it.
   */
  predicate IsWebPath(s: seq<string>) {
    |s| >= 5 && IndexOf(s, "-") == |s| - 3
  }

  /**
   * TryParsePath: at least five segments; then the first "-" must have at
   * least two segments before it and exactly two after it; the segments
   * before the project name, joined by '/', are the namespace; then the
   * project, the link type ignoring case and the id, in that order.
   */
  function TryParsePath<TResult, TId>(
    expectedLinkType: string,
    tryParseId: string -> Result<TId, ParseError>,
    createResult: (ProjectInfo, TId) -> TResult,
    uri: Uri,
    path: string
  ): (r: Result<TResult, ParseError>)
    ensures var s := Split(path, '/');
      && (!IsWebPath(s) ==> r == Failure(NotWebUrl))
      && (IsWebPath(s) ==>
            var project := TryCreateProjectInfo(uri.host, Join(s[..|s| - 4], '/'), s[|s| - 4]);
            && (project.Failure? ==> r == Failure(project.error))
            && (project.Success? && !EqualsIgnoreCase(expectedLinkType, s[|s| - 2]) ==>
                  r == Failure(WrongLinkType(expectedLinkType, s[|s| - 2])))
            && (project.Success? && EqualsIgnoreCase(expectedLinkType, s[|s| - 2]) && tryParseId(s[|s| - 1]).Failure? ==>
                  r == Failure(tryParseId(s[|s| - 1]).error))
            && (project.Success? && EqualsIgnoreCase(expectedLinkType, s[|s| - 2]) && tryParseId(s[|s| - 1]).Success? ==>
                  r == Success(createResult(project.value, tryParseId(s[|s| - 1]).value))))
  {
    var pathSegments := Split(path, '/');
    if |pathSegments| < 5 then
      Failure(NotWebUrl)
    else
      var dashIndex := IndexOf(pathSegments, "-");
      if dashIndex < 2 then
        Failure(NotWebUrl)
      else if dashIndex != |pathSegments| - 3 then
        Failure(NotWebUrl)
      else
        var namespace := Join(pathSegments[..dashIndex - 1], '/');
        var projectName := pathSegments[dashIndex - 1];
        match TryCreateProjectInfo(uri.host, namespace, projectName)
        case Failure(e) => Failure(e)
        case Success(projectInfo) =>
          var linkType := pathSegments[dashIndex + 1];
          var idString := pathSegments[dashIndex + 2];
          if !EqualsIgnoreCase(expectedLinkType, linkType) then
            Failure(WrongLinkType(expectedLinkType, linkType))
          else
            match tryParseId(idString)
            case Failure(e) => Failure(e)
            case Success(parsedId) => Success(createResult(projectInfo, parsedId))
  }

  /**
   * Every path that parses is a namespace, a project name, "-", a link type
   * and an id joined by '/', and "-" is none of the namespace's groups and
   * not the project name.
   */
  lemma ParsedWebPath<TResult, TId>(
    expectedLinkType: string,
    tryParseId: string -> Result<TId, ParseError>,
    createResult: (ProjectInfo, TId) -> TResult,
    uri: Uri,
    path: string
  )
    requires TryParsePath(expectedLinkType, tryParseId, createResult, uri, path).Success?
    ensures var s := Split(path, '/');
      && |s| >= 5
      && path == Join(s[..|s| - 4], '/') + "/" + s[|s| - 4] + "/-/" + s[|s| - 2] + "/" + s[|s| - 1]
      && (forall j | 0 <= j < |s| - 3 :: s[j] != "-")
  {
    assert IsWebPath(Split(path, '/'));
    WebPathOfSegments(path);
  }

  /** The segments of a path with "-" third from last, joined back in their roles. */
  lemma WebPathOfSegments(path: string)
    requires IsWebPath(Split(path, '/'))
    ensures var s := Split(path, '/');
      && |s| >= 5
      && path == Join(s[..|s| - 4], '/') + "/" + s[|s| - 4] + "/-/" + s[|s| - 2] + "/" + s[|s| - 1]
      && (forall j | 0 <= j < |s| - 3 :: s[j] != "-")
  {
    var s := Split(path, '/');
    var n := |s|;
    assert s[n - 3] == "-";
    JoinSplit(path, '/');
    JoinOfLastFour(s, '/');
    WebPathShape(Join(s[..n - 4], '/'), s[n - 4], s[n - 3], s[n - 2], s[n - 1]);
  }

  /** Joining pieces puts the join of the last four after the join of the others. */
  lemma JoinOfLastFour(s: seq<string>, c: char)
    requires |s| >= 5
    ensures Join(s, c) == Join(s[..|s| - 4], c) + [c] + (s[|s| - 4] + [c] + s[|s| - 3] + [c] + s[|s| - 2] + [c] + s[|s| - 1])
  {
    var n := |s|;
    var front, t := s[..n - 4], s[n - 4..];
    assert s == front + t;
    JoinAppend(front, t, c);
    JoinOfFourPieces(t, c);
    assert t[0] == s[n - 4] && t[1] == s[n - 3] && t[2] == s[n - 2] && t[3] == s[n - 1];
  }

  lemma JoinOfFourPieces(t: seq<string>, c: char)
    requires |t| == 4
    ensures Join(t, c) == t[0] + [c] + t[1] + [c] + t[2] + [c] + t[3]
  {
    assert t == [t[0], t[1], t[2], t[3]];
    JoinOfFour(t[0], t[1], t[2], t[3], c);
  }

  lemma WebPathShape(ns: string, a: string, b: string, x: string, d: string)
    requires b == "-"
    ensures ns + "/" + (a + "/" + b + "/" + x + "/" + d) == ns + "/" + a + "/-/" + x + "/" + d
  {
  }

  /**
   * The inverse of TryParsePath: a path assembled from a namespace of one or
   * more groups, a project name, "-", the expected link type in any case and
   * an id the id parser accepts parses back to the result built from those
   * parts.
   */
  lemma ParseOfAssembledPath<TResult, TId>(
    expectedLinkType: string,
    tryParseId: string -> Result<TId, ParseError>,
    createResult: (ProjectInfo, TId) -> TResult,
    uri: Uri,
    groups: seq<string>, project: string, linkType: string, id: string
  )
    requires |groups| >= 1 && NoneContains(groups, '/') && (forall j | 0 <= j < |groups| :: groups[j] != "-")
    requires '/' !in project && '/' !in linkType && '/' !in id && project != "-"
    requires !IsNullOrWhiteSpace(uri.host) && !IsNullOrWhiteSpace(Join(groups, '/')) && !IsNullOrWhiteSpace(project)
    requires EqualsIgnoreCase(expectedLinkType, linkType) && tryParseId(id).Success?
    ensures TryParsePath(expectedLinkType, tryParseId, createResult, uri,
        Join(groups, '/') + "/" + project + "/-/" + linkType + "/" + id)
      == Success(createResult(ProjectInfo(uri.host, Join(groups, '/'), project), tryParseId(id).value))
  {
    var path := Join(groups, '/') + "/" + project + "/-/" + linkType + "/" + id;
    var s := WebPathSegments(groups, project, linkType, id);
    assert s[..|s| - 4] == groups;
  }

  /** An assembled path of the expected link type whose id the id parser refuses fails with the id parser's error. */
  lemma AssembledPathIdRejected<TResult, TId>(
    expectedLinkType: string,
    tryParseId: string -> Result<TId, ParseError>,
    createResult: (ProjectInfo, TId) -> TResult,
    uri: Uri,
    groups: seq<string>, project: string, linkType: string, id: string
  )
    requires |groups| >= 1 && NoneContains(groups, '/') && (forall j | 0 <= j < |groups| :: groups[j] != "-")
    requires '/' !in project && '/' !in linkType && '/' !in id && project != "-"
    requires !IsNullOrWhiteSpace(uri.host) && !IsNullOrWhiteSpace(Join(groups, '/')) && !IsNullOrWhiteSpace(project)
    requires EqualsIgnoreCase(expectedLinkType, linkType) && tryParseId(id).Failure?
    ensures TryParsePath(expectedLinkType, tryParseId, createResult, uri,
        Join(groups, '/') + "/" + project + "/-/" + linkType + "/" + id)
      == Failure(tryParseId(id).error)
  {
    var s := WebPathSegments(groups, project, linkType, id);
    assert s[..|s| - 4] == groups;
  }

  /** The segments of an assembled path, and where its first "-" is. */
  lemma WebPathSegments(groups: seq<string>, project: string, linkType: string, id: string) returns (s: seq<string>)
    requires |groups| >= 1 && NoneContains(groups, '/') && (forall j | 0 <= j < |groups| :: groups[j] != "-")
    requires '/' !in project && '/' !in linkType && '/' !in id && project != "-"
    ensures s == Split(Join(groups, '/') + "/" + project + "/-/" + linkType + "/" + id, '/')
    ensures s == groups + [project, "-", linkType, id]
    ensures IsWebPath(s)
  {
    var rest := project + "/" + "-" + "/" + linkType + "/" + id;
    assert Join(groups, '/') + "/" + project + "/-/" + linkType + "/" + id == Join(groups, '/') + ['/'] + rest;
    SplitAtSeparator(Join(groups, '/'), rest, '/');
    SplitJoin(groups, '/');
    SplitOfFour(project, "-", linkType, id, '/');
    s := groups + [project, "-", linkType, id];
    IndexOfAppend(groups + [project], ["-", linkType, id], "-");
    assert s == groups + [project] + ["-", linkType, id];
  }

  /** The absolute path of a web link reaches TryParsePath without its leading '/'. */
  lemma WebPathTrimmed(uri: Uri, groups: seq<string>, project: string, linkType: string, id: string)
    requires |groups| >= 1 && groups[0] != [] && NoneContains(groups, '/') && id != [] && '/' !in id
    requires uri.path == "/" + Join(groups, '/') + "/" + project + "/-/" + linkType + "/" + id
    ensures TrimmedPath(uri) == Join(groups, '/') + "/" + project + "/-/" + linkType + "/" + id
  {
    var ns := Join(groups, '/');
    var p := ns + "/" + project + "/-/" + linkType + "/" + id;
    assert ns[0] == groups[0][0] by {
      if |groups| > 1 {
        assert ns == groups[0] + ['/'] + Join(groups[1..], '/');
      }
    }
    assert groups[0][0] in groups[0];
    assert p[0] == ns[0];
    assert p[|p| - 1] == id[|id| - 1];
    assert id[|id| - 1] in id;
    assert uri.path == "/" + p;
    TrimmedPathOfAbsolute(uri, p);
  }
}
