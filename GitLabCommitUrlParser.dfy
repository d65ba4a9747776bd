/** GitLabCommitUrlParser: parses `<scheme>://<host>/<namespace>/<project>/-/commit/<commitid>`. */
module GitLabCommitUrlParser {
  import opened Wrappers
  import opened Text
  import opened Errors
  import opened Segments
  import opened UrlParser
  import opened GitLabProjectInfo
  import opened GitLabCommitInfo
  import GitLabWebUrlParser

  const ExpectedLinkType: string := "commit"

  /**
   * CreateResult: the commit of the project with the parsed id. The parsed
   * id is never blank, so the constructor never throws here.
   */
  function CreateResult(project: ProjectInfo, id: string): (r: CommitInfo)
    ensures r.project == project && r.commitId == id
    ensures !IsNullOrWhiteSpace(id) ==> GitLabCommitInfo.New(Some(project), id) == Success(r)
  {
    CommitInfo(project, id)
  }

  /** TryParseId: a blank commit id is an error; any other is kept exactly as written. */
  function TryParseId(input: string): (r: Result<string, ParseError>)
    ensures r.Success? <==> !IsNullOrWhiteSpace(input)
    ensures r.Success? ==> r.value == input
    ensures r.Failure? ==> r.error == BlankCommitId
  {
    if IsNullOrWhiteSpace(input) then Failure(BlankCommitId) else Success(input)
  }

  /** TryParsePath: the GitLab web-link grammar with link type "commit" and a commit id that is not blank. */
  function TryParsePath(uri: Uri, path: string): (r: Result<CommitInfo, ParseError>)
    ensures r.Success? ==> GitLabCommitInfo.New(Some(r.value.project), r.value.commitId) == Success(r.value)
  {
    GitLabWebUrlParser.TryParsePath(ExpectedLinkType, TryParseId, CreateResult, uri, path)
  }

  /**
   * The whole parser: the shared skeleton over http and https with this path
   * grammar. A non-blank url with an http or https uri (in any letter case)
   * gets exactly what its trimmed path parses to; every other url fails.
   */
  function TryParseUrl(url: string, absUri: UriOracle): (r: Result<CommitInfo, ParseError>)
    ensures IsNullOrWhiteSpace(url) ==> r == Failure(BlankUrl)
    ensures !IsNullOrWhiteSpace(url) && absUri(url).None? ==> r == Failure(InvalidUri)
    ensures !IsNullOrWhiteSpace(url) && absUri(url).Some? && !IsWebScheme(absUri(url).value.scheme) ==>
      r == Failure(UnsupportedScheme(absUri(url).value.scheme))
    ensures !IsNullOrWhiteSpace(url) && absUri(url).Some? && IsWebScheme(absUri(url).value.scheme) ==>
      r == TryParsePath(absUri(url).value, TrimmedPath(absUri(url).value))
  {
    var r := TryParseUrlWithError(url, absUri, GitLabWebUrlParser.SupportedSchemes, TryParsePath);
    if absUri(url).Some? then (WebSchemeAgrees(absUri(url).value); r) else r
  }

  /** The path of a commit link, with a namespace of any depth, parses back to the commit it names. */
  lemma ParseOfCommitPath(uri: Uri, groups: seq<string>, project: string, linkType: string, commitId: string)
    requires |groups| >= 1 && NoneContains(groups, '/') && (forall j | 0 <= j < |groups| :: groups[j] != "-")
    requires '/' !in project && '/' !in linkType && '/' !in commitId && project != "-"
    requires !IsNullOrWhiteSpace(uri.host) && !IsNullOrWhiteSpace(Join(groups, '/')) && !IsNullOrWhiteSpace(project)
    requires EqualsIgnoreCase("commit", linkType) && !IsNullOrWhiteSpace(commitId)
    ensures TryParsePath(uri, Join(groups, '/') + "/" + project + "/-/" + linkType + "/" + commitId)
      == Success(CommitInfo(ProjectInfo(uri.host, Join(groups, '/'), project), commitId))
  {
    GitLabWebUrlParser.ParseOfAssembledPath(ExpectedLinkType, TryParseId, CreateResult, uri,
      groups, project, linkType, commitId);
  }

  /** A commit link whose id is blank, such as one ending in "/-/commit/", is rejected. */
  lemma BlankCommitIdRejected(uri: Uri, groups: seq<string>, project: string, commitId: string)
    requires |groups| >= 1 && NoneContains(groups, '/') && (forall j | 0 <= j < |groups| :: groups[j] != "-")
    requires '/' !in project && '/' !in commitId && project != "-"
    requires !IsNullOrWhiteSpace(uri.host) && !IsNullOrWhiteSpace(Join(groups, '/')) && !IsNullOrWhiteSpace(project)
    requires IsNullOrWhiteSpace(commitId)
    ensures TryParsePath(uri, Join(groups, '/') + "/" + project + "/-/" + "commit" + "/" + commitId) == Failure(BlankCommitId)
  {
    GitLabWebUrlParser.AssembledPathIdRejected(ExpectedLinkType, TryParseId, CreateResult, uri,
      groups, project, "commit", commitId);
  }

  /**
   * An http or https link (in any letter case) to a commit, with a namespace
   * of any depth, parses to that commit whatever else the uri parser makes of it.
   */
  lemma ParsesCommitUrl(url: string, absUri: UriOracle, uri: Uri, groups: seq<string>, project: string, commitId: string)
    requires !IsNullOrWhiteSpace(url) && absUri(url) == Some(uri)
    requires EqualsIgnoreCase(uri.scheme, "http") || EqualsIgnoreCase(uri.scheme, "https")
    requires |groups| >= 1 && groups[0] != [] && NoneContains(groups, '/') && (forall j | 0 <= j < |groups| :: groups[j] != "-")
    requires '/' !in project && project != "-" && '/' !in commitId && !IsNullOrWhiteSpace(commitId)
    requires uri.path == "/" + Join(groups, '/') + "/" + project + "/-/" + "commit" + "/" + commitId
    requires !IsNullOrWhiteSpace(uri.host) && !IsNullOrWhiteSpace(Join(groups, '/')) && !IsNullOrWhiteSpace(project)
    ensures TryParseUrl(url, absUri) == Success(CommitInfo(ProjectInfo(uri.host, Join(groups, '/'), project), commitId))
  {
    CommitUrlTrimmed(uri, groups, project, commitId);
    CommitUrlPathParses(uri, groups, project, commitId);
    ParseOfWebUrl(url, absUri, uri, Join(groups, '/') + "/" + project + "/-/" + "commit" + "/" + commitId,
      CommitInfo(ProjectInfo(uri.host, Join(groups, '/'), project), commitId));
  }

  lemma ParseOfWebUrl(url: string, absUri: UriOracle, uri: Uri, p: string, x: CommitInfo)
    requires !IsNullOrWhiteSpace(url) && absUri(url) == Some(uri)
    requires EqualsIgnoreCase(uri.scheme, "http") || EqualsIgnoreCase(uri.scheme, "https")
    requires TrimmedPath(uri) == p && TryParsePath(uri, p) == Success(x)
    ensures TryParseUrl(url, absUri) == Success(x)
  {
    WebSchemeSupported(uri, GitLabWebUrlParser.SupportedSchemes);
    ParseOfSupportedUrl(url, absUri, GitLabWebUrlParser.SupportedSchemes, TryParsePath, uri, p, x);
  }

  lemma CommitUrlPathParses(uri: Uri, groups: seq<string>, project: string, commitId: string)
    requires |groups| >= 1 && NoneContains(groups, '/') && (forall j | 0 <= j < |groups| :: groups[j] != "-")
    requires '/' !in project && project != "-" && '/' !in commitId && !IsNullOrWhiteSpace(commitId)
    requires !IsNullOrWhiteSpace(uri.host) && !IsNullOrWhiteSpace(Join(groups, '/')) && !IsNullOrWhiteSpace(project)
    ensures TryParsePath(uri, Join(groups, '/') + "/" + project + "/-/" + "commit" + "/" + commitId)
      == Success(CommitInfo(ProjectInfo(uri.host, Join(groups, '/'), project), commitId))
  {
    ParseOfCommitPath(uri, groups, project, "commit", commitId);
  }

  lemma CommitUrlTrimmed(uri: Uri, groups: seq<string>, project: string, commitId: string)
    requires |groups| >= 1 && groups[0] != [] && NoneContains(groups, '/') && '/' !in commitId && commitId != []
    requires uri.path == "/" + Join(groups, '/') + "/" + project + "/-/" + "commit" + "/" + commitId
    ensures TrimmedPath(uri) == Join(groups, '/') + "/" + project + "/-/" + "commit" + "/" + commitId
  {
    GitLabWebUrlParser.WebPathTrimmed(uri, groups, project, "commit", commitId);
  }
}
