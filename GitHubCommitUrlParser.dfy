/** GitHubCommitUrlParser: parses `<scheme>://<host>/<owner>/<repo>/commit/<commitid>`. */
module GitHubCommitUrlParser {
  import opened Wrappers
  import opened Text
  import opened Errors
  import opened Segments
  import opened ArrayExtensions
  import opened UrlParser
  import opened GitHubProjectInfo
  import opened GitHubCommitInfo
  import opened GitHubUrlParser
  import GitHubWebUrlParser

  const SupportedSchemes: seq<string> := ["http", "https"]

  /**
   * TryParsePath: four segments, then the project, then the link type
   * "commit" ignoring case, then a commit id that is not blank, kept as it is.
   */
  function TryParsePath(uri: Uri, path: string): (r: Result<CommitInfo, ParseError>)
    ensures var s := Split(path, '/');
      && (|s| != 4 ==> r == Failure(NotWebUrl))
      && (|s| == 4 && TryCreateProjectInfo(uri.host, s[0], s[1]).Failure? ==>
            r == Failure(TryCreateProjectInfo(uri.host, s[0], s[1]).error))
      && (|s| == 4 && TryCreateProjectInfo(uri.host, s[0], s[1]).Success? && !EqualsIgnoreCase("commit", s[2]) ==>
            r == Failure(WrongLinkType("commit", s[2])))
      && (|s| == 4 && TryCreateProjectInfo(uri.host, s[0], s[1]).Success? && EqualsIgnoreCase("commit", s[2]) ==>
            IsNullOrWhiteSpace(s[3]) ==> r == Failure(BlankCommitId))
      && (r.Success? <==>
            && |s| == 4
            && TryCreateProjectInfo(uri.host, s[0], s[1]).Success?
            && EqualsIgnoreCase("commit", s[2])
            && !IsNullOrWhiteSpace(s[3]))
      && (r.Success? ==>
            && r.value == CommitInfo(ProjectInfo(uri.host, s[0], s[1]), s[3])
            && GitHubCommitInfo.New(Some(r.value.project), r.value.commitId) == Success(r.value))
  {
    var segments := Split(path, '/');
    if |segments| != 4 then
      Failure(NotWebUrl)
    else
      var (owner, repo, linkType, commitId) := Deconstruct4(segments).value;
      match TryCreateProjectInfo(uri.host, owner, repo)
      case Failure(e) => Failure(e)
      case Success(project) =>
        if !EqualsIgnoreCase("commit", linkType) then
          Failure(WrongLinkType("commit", linkType))
        else if IsNullOrWhiteSpace(commitId) then
          Failure(BlankCommitId)
        else
          Success(CommitInfo(project, commitId))
  }

  /**
   * The whole parser: the shared skeleton over http and https with this path
   * grammar. A non-blank url with an http or https uri (in any letter case)
   * gets exactly what its trimmed path parses to; every other url fails.
   */
  function TryParseUrl(url: string, absUri: UriOracle): (r: Result<CommitInfo, ParseError>)
    ensures IsNullOrWhiteSpace(url) ==> r == Failure(BlankUrl)
    ensures !IsNullOrWhiteSpace(url) && absUri(url).None? ==> r == Failure(InvalidUri)
    ensures !IsNullOrWhiteSpace(url) && absUri(url).Some? && !IsWebScheme(absUri(url).value.scheme) ==>
      r == Failure(UnsupportedScheme(absUri(url).value.scheme))
    ensures !IsNullOrWhiteSpace(url) && absUri(url).Some? && IsWebScheme(absUri(url).value.scheme) ==>
      r == TryParsePath(absUri(url).value, TrimmedPath(absUri(url).value))
  {
    var r := TryParseUrlWithError(url, absUri, SupportedSchemes, TryParsePath);
    if absUri(url).Some? then (WebSchemeAgrees(absUri(url).value); r) else r
  }

  /** The path of a commit link parses back to the commit it names, with the id exactly as written. */
  lemma ParseOfCommitPath(uri: Uri, owner: string, repo: string, linkType: string, commitId: string)
    requires !IsNullOrWhiteSpace(uri.host) && !IsNullOrWhiteSpace(owner) && !IsNullOrWhiteSpace(repo)
    requires '/' !in owner && '/' !in repo && '/' !in linkType && '/' !in commitId
    requires EqualsIgnoreCase("commit", linkType) && !IsNullOrWhiteSpace(commitId)
    ensures TryParsePath(uri, owner + "/" + repo + "/" + linkType + "/" + commitId)
      == Success(CommitInfo(ProjectInfo(uri.host, owner, repo), commitId))
  {
    SplitOfFour(owner, repo, linkType, commitId, '/');
  }

  /** A commit link whose id is blank, such as one ending in "/commit/", is rejected. */
  lemma BlankCommitIdRejected(uri: Uri, owner: string, repo: string, linkType: string, commitId: string)
    requires !IsNullOrWhiteSpace(uri.host) && !IsNullOrWhiteSpace(owner) && !IsNullOrWhiteSpace(repo)
    requires '/' !in owner && '/' !in repo && '/' !in linkType && '/' !in commitId
    requires EqualsIgnoreCase("commit", linkType) && IsNullOrWhiteSpace(commitId)
    ensures TryParsePath(uri, owner + "/" + repo + "/" + linkType + "/" + commitId) == Failure(BlankCommitId)
  {
    SplitOfFour(owner, repo, linkType, commitId, '/');
  }

  /**
   * This parser is the generic GitHub web-link parser for link type "commit"
   * with an id parser that rejects a blank id and keeps any other.
   */
  lemma AgreesWithWebUrlParser(uri: Uri, path: string)
    ensures TryParsePath(uri, path)
      == GitHubWebUrlParser.TryParsePath("commit",
           (id: string) => if IsNullOrWhiteSpace(id) then Failure(BlankCommitId) else Success(id),
           (p, id) => CommitInfo(p, id), uri, path)
  {
  }

  /**
   * An http or https link (in any letter case) to a commit, whatever else the
   * uri parser makes of it, parses to that commit.
   */
  lemma ParsesCommitUrl(url: string, absUri: UriOracle, uri: Uri, owner: string, repo: string, commitId: string)
    requires !IsNullOrWhiteSpace(url) && absUri(url) == Some(uri)
    requires EqualsIgnoreCase(uri.scheme, "http") || EqualsIgnoreCase(uri.scheme, "https")
    requires uri.path == "/" + owner + "/" + repo + "/" + "commit" + "/" + commitId
    requires !IsNullOrWhiteSpace(uri.host) && !IsNullOrWhiteSpace(owner) && !IsNullOrWhiteSpace(repo)
    requires !IsNullOrWhiteSpace(commitId)
    requires '/' !in owner && '/' !in repo && '/' !in commitId
    ensures TryParseUrl(url, absUri) == Success(CommitInfo(ProjectInfo(uri.host, owner, repo), commitId))
  {
    CommitUrlTrimmed(uri, owner, repo, commitId);
    CommitUrlPathParses(uri, owner, repo, commitId);
    ParseOfWebUrl(url, absUri, uri, owner + "/" + repo + "/" + "commit" + "/" + commitId,
      CommitInfo(ProjectInfo(uri.host, owner, repo), commitId));
  }

  lemma ParseOfWebUrl(url: string, absUri: UriOracle, uri: Uri, p: string, x: CommitInfo)
    requires !IsNullOrWhiteSpace(url) && absUri(url) == Some(uri)
    requires EqualsIgnoreCase(uri.scheme, "http") || EqualsIgnoreCase(uri.scheme, "https")
    requires TrimmedPath(uri) == p && TryParsePath(uri, p) == Success(x)
    ensures TryParseUrl(url, absUri) == Success(x)
  {
    WebSchemeSupported(uri, SupportedSchemes);
    ParseOfSupportedUrl(url, absUri, SupportedSchemes, TryParsePath, uri, p, x);
  }

  lemma CommitUrlPathParses(uri: Uri, owner: string, repo: string, commitId: string)
    requires !IsNullOrWhiteSpace(uri.host) && !IsNullOrWhiteSpace(owner) && !IsNullOrWhiteSpace(repo)
    requires !IsNullOrWhiteSpace(commitId) && '/' !in owner && '/' !in repo && '/' !in commitId
    ensures TryParsePath(uri, owner + "/" + repo + "/" + "commit" + "/" + commitId)
      == Success(CommitInfo(ProjectInfo(uri.host, owner, repo), commitId))
  {
    ParseOfCommitPath(uri, owner, repo, "commit", commitId);
  }

  lemma CommitUrlTrimmed(uri: Uri, owner: string, repo: string, commitId: string)
    requires uri.path == "/" + owner + "/" + repo + "/" + "commit" + "/" + commitId
    requires !IsNullOrWhiteSpace(owner) && '/' !in owner && !IsNullOrWhiteSpace(commitId) && '/' !in commitId
    ensures TrimmedPath(uri) == owner + "/" + repo + "/" + "commit" + "/" + commitId
  {
    assert commitId[|commitId| - 1] in commitId;
    GitHubWebUrlParser.WebPathTrimmed(uri, owner, repo, "commit", commitId);
  }
}
