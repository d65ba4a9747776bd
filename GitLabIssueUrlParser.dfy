/** GitLabIssueUrlParser: parses `<scheme>://<host>/<namespace>/<project>/-/issues/<number>`. */
module GitLabIssueUrlParser {
  import opened Wrappers
  import opened Text
  import opened Errors
  import opened Numbers
  import opened Segments
  import opened UrlParser
  import opened GitLabProjectInfo
  import opened GitLabIssueInfo
  import GitLabWebUrlParser

  const ExpectedLinkType: string := "issues"

  /**
   * CreateResult: the issue of the project with the parsed number. The
   * parsed number is always positive, so the constructor never throws here.
   */
  function CreateResult(project: ProjectInfo, id: int32): (r: IssueInfo)
    ensures r.project == project && r.number == id
    ensures id >= 1 ==> GitLabIssueInfo.New(Some(project), id) == Success(r)
  {
    IssueInfo(project, id)
  }

  /** TryParsePath: the GitLab web-link grammar with link type "issues" and a positive issue number. */
  function TryParsePath(uri: Uri, path: string): (r: Result<IssueInfo, ParseError>)
    ensures r.Success? ==> r.value.number >= 1 && GitLabIssueInfo.New(Some(r.value.project), r.value.number) == Success(r.value)
  {
    GitLabWebUrlParser.TryParsePath(ExpectedLinkType, TryParsePositiveNumber, CreateResult, uri, path)
  }

  /**
   * The whole parser: the shared skeleton over http and https with this path
   * grammar. A non-blank url with an http or https uri (in any letter case)
   * gets exactly what its trimmed path parses to; every other url fails.
   */
  function TryParseUrl(url: string, absUri: UriOracle): (r: Result<IssueInfo, ParseError>)
    ensures IsNullOrWhiteSpace(url) ==> r == Failure(BlankUrl)
    ensures !IsNullOrWhiteSpace(url) && absUri(url).None? ==> r == Failure(InvalidUri)
    ensures !IsNullOrWhiteSpace(url) && absUri(url).Some? && !IsWebScheme(absUri(url).value.scheme) ==>
      r == Failure(UnsupportedScheme(absUri(url).value.scheme))
    ensures !IsNullOrWhiteSpace(url) && absUri(url).Some? && IsWebScheme(absUri(url).value.scheme) ==>
      r == TryParsePath(absUri(url).value, TrimmedPath(absUri(url).value))
  {
    var r := TryParseUrlWithError(url, absUri, GitLabWebUrlParser.SupportedSchemes, TryParsePath);
    if absUri(url).Some? then (WebSchemeAgrees(absUri(url).value); r) else r
  }

  /** The path of an issue link, with a namespace of any depth, parses back to the issue it names. */
  lemma ParseOfIssuePath(uri: Uri, groups: seq<string>, project: string, linkType: string, n: int32)
    requires |groups| >= 1 && NoneContains(groups, '/') && (forall j | 0 <= j < |groups| :: groups[j] != "-")
    requires '/' !in project && '/' !in linkType && project != "-"
    requires !IsNullOrWhiteSpace(uri.host) && !IsNullOrWhiteSpace(Join(groups, '/')) && !IsNullOrWhiteSpace(project)
    requires EqualsIgnoreCase("issues", linkType) && n >= 1
    ensures TryParsePath(uri, Join(groups, '/') + "/" + project + "/-/" + linkType + "/" + ToDecimal(n as nat))
      == Success(IssueInfo(ProjectInfo(uri.host, Join(groups, '/'), project), n))
  {
    PositiveNumberOfDecimal(n);
    GitLabWebUrlParser.ParseOfAssembledPath(ExpectedLinkType, TryParsePositiveNumber, CreateResult, uri,
      groups, project, linkType, ToDecimal(n as nat));
  }

  /**
   * An id that Int32.TryParse reads as zero or a negative number, such as
   * "0" or "-23", is rejected once the project and the link type are accepted.
   */
  lemma NonPositiveNumberRejected(uri: Uri, groups: seq<string>, project: string, id: string, n: int32)
    requires |groups| >= 1 && NoneContains(groups, '/') && (forall j | 0 <= j < |groups| :: groups[j] != "-")
    requires '/' !in project && '/' !in id && project != "-"
    requires !IsNullOrWhiteSpace(uri.host) && !IsNullOrWhiteSpace(Join(groups, '/')) && !IsNullOrWhiteSpace(project)
    requires TryParseInt32(id) == Some(n) && n <= 0
    ensures TryParsePath(uri, Join(groups, '/') + "/" + project + "/-/" + "issues" + "/" + id) == Failure(NonPositiveNumber(n as int))
  {
    GitLabWebUrlParser.AssembledPathIdRejected(ExpectedLinkType, TryParsePositiveNumber, CreateResult, uri,
      groups, project, "issues", id);
  }

  /**
   * An http or https link (in any letter case) to an issue, with a namespace
   * of any depth, parses to that issue whatever else the uri parser makes of it.
   */
  lemma ParsesIssueUrl(url: string, absUri: UriOracle, uri: Uri, groups: seq<string>, project: string, n: int32)
    requires !IsNullOrWhiteSpace(url) && absUri(url) == Some(uri)
    requires EqualsIgnoreCase(uri.scheme, "http") || EqualsIgnoreCase(uri.scheme, "https")
    requires |groups| >= 1 && groups[0] != [] && NoneContains(groups, '/') && (forall j | 0 <= j < |groups| :: groups[j] != "-")
    requires '/' !in project && project != "-" && n >= 1
    requires uri.path == "/" + Join(groups, '/') + "/" + project + "/-/" + "issues" + "/" + ToDecimal(n as nat)
    requires !IsNullOrWhiteSpace(uri.host) && !IsNullOrWhiteSpace(Join(groups, '/')) && !IsNullOrWhiteSpace(project)
    ensures TryParseUrl(url, absUri) == Success(IssueInfo(ProjectInfo(uri.host, Join(groups, '/'), project), n))
  {
    IssueUrlTrimmed(uri, groups, project, n);
    IssueUrlPathParses(uri, groups, project, n);
    ParseOfWebUrl(url, absUri, uri, Join(groups, '/') + "/" + project + "/-/" + "issues" + "/" + ToDecimal(n as nat),
      IssueInfo(ProjectInfo(uri.host, Join(groups, '/'), project), n));
  }

  lemma ParseOfWebUrl(url: string, absUri: UriOracle, uri: Uri, p: string, x: IssueInfo)
    requires !IsNullOrWhiteSpace(url) && absUri(url) == Some(uri)
    requires EqualsIgnoreCase(uri.scheme, "http") || EqualsIgnoreCase(uri.scheme, "https")
    requires TrimmedPath(uri) == p && TryParsePath(uri, p) == Success(x)
    ensures TryParseUrl(url, absUri) == Success(x)
  {
    WebSchemeSupported(uri, GitLabWebUrlParser.SupportedSchemes);
    ParseOfSupportedUrl(url, absUri, GitLabWebUrlParser.SupportedSchemes, TryParsePath, uri, p, x);
  }

  lemma IssueUrlPathParses(uri: Uri, groups: seq<string>, project: string, n: int32)
    requires |groups| >= 1 && NoneContains(groups, '/') && (forall j | 0 <= j < |groups| :: groups[j] != "-")
    requires '/' !in project && project != "-" && n >= 1
    requires !IsNullOrWhiteSpace(uri.host) && !IsNullOrWhiteSpace(Join(groups, '/')) && !IsNullOrWhiteSpace(project)
    ensures TryParsePath(uri, Join(groups, '/') + "/" + project + "/-/" + "issues" + "/" + ToDecimal(n as nat))
      == Success(IssueInfo(ProjectInfo(uri.host, Join(groups, '/'), project), n))
  {
    ParseOfIssuePath(uri, groups, project, "issues", n);
  }

  lemma IssueUrlTrimmed(uri: Uri, groups: seq<string>, project: string, n: int32)
    requires |groups| >= 1 && groups[0] != [] && NoneContains(groups, '/') && n >= 1
    requires uri.path == "/" + Join(groups, '/') + "/" + project + "/-/" + "issues" + "/" + ToDecimal(n as nat)
    ensures TrimmedPath(uri) == Join(groups, '/') + "/" + project + "/-/" + "issues" + "/" + ToDecimal(n as nat)
  {
    GitLabWebUrlParser.WebPathTrimmed(uri, groups, project, "issues", ToDecimal(n as nat));
  }
}
