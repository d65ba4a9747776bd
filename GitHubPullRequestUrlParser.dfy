/** GitHubPullRequestUrlParser: parses `<scheme>://<host>/<owner>/<repo>/pull/<number>`. */
module GitHubPullRequestUrlParser {
  import opened Wrappers
  import opened Text
  import opened Errors
  import opened Numbers
  import opened Segments
  import opened ArrayExtensions
  import opened UrlParser
  import opened GitHubProjectInfo
  import opened GitHubPullRequestInfo
  import opened GitHubUrlParser
  import GitHubWebUrlParser

  const SupportedSchemes: seq<string> := ["http", "https"]

  /**
   * TryParsePath: four segments, then the project, then the link type
   * "pull" ignoring case, then a positive pull request number.
   */
  function TryParsePath(uri: Uri, path: string): (r: Result<PullRequestInfo, ParseError>)
    ensures var s := Split(path, '/');
      && (|s| != 4 ==> r == Failure(NotWebUrl))
      && (|s| == 4 && TryCreateProjectInfo(uri.host, s[0], s[1]).Failure? ==>
            r == Failure(TryCreateProjectInfo(uri.host, s[0], s[1]).error))
      && (|s| == 4 && TryCreateProjectInfo(uri.host, s[0], s[1]).Success? && !EqualsIgnoreCase("pull", s[2]) ==>
            r == Failure(WrongLinkType("pull", s[2])))
      && (|s| == 4 && TryCreateProjectInfo(uri.host, s[0], s[1]).Success? && EqualsIgnoreCase("pull", s[2]) ==>
            TryParsePositiveNumber(s[3]).Failure? ==> r == Failure(TryParsePositiveNumber(s[3]).error))
      && (r.Success? <==>
            && |s| == 4
            && TryCreateProjectInfo(uri.host, s[0], s[1]).Success?
            && EqualsIgnoreCase("pull", s[2])
            && TryParsePositiveNumber(s[3]).Success?)
      && (r.Success? ==>
            && r.value == PullRequestInfo(ProjectInfo(uri.host, s[0], s[1]), TryParsePositiveNumber(s[3]).value)
            && GitHubPullRequestInfo.New(Some(r.value.project), r.value.number) == Success(r.value))
  {
    var segments := Split(path, '/');
    if |segments| != 4 then
      Failure(NotWebUrl)
    else
      var (owner, repo, linkType, numberString) := Deconstruct4(segments).value;
      match TryCreateProjectInfo(uri.host, owner, repo)
      case Failure(e) => Failure(e)
      case Success(project) =>
        if !EqualsIgnoreCase("pull", linkType) then
          Failure(WrongLinkType("pull", linkType))
        else
          match TryParsePositiveNumber(numberString)
          case Failure(e) => Failure(e)
          case Success(number) => Success(PullRequestInfo(project, number))
  }

  /**
   * The whole parser: the shared skeleton over http and https with this path
   * grammar. A non-blank url with an http or https uri (in any letter case)
   * gets exactly what its trimmed path parses to; every other url fails.
   */
  function TryParseUrl(url: string, absUri: UriOracle): (r: Result<PullRequestInfo, ParseError>)
    ensures IsNullOrWhiteSpace(url) ==> r == Failure(BlankUrl)
    ensures !IsNullOrWhiteSpace(url) && absUri(url).None? ==> r == Failure(InvalidUri)
    ensures !IsNullOrWhiteSpace(url) && absUri(url).Some? && !IsWebScheme(absUri(url).value.scheme) ==>
      r == Failure(UnsupportedScheme(absUri(url).value.scheme))
    ensures !IsNullOrWhiteSpace(url) && absUri(url).Some? && IsWebScheme(absUri(url).value.scheme) ==>
      r == TryParsePath(absUri(url).value, TrimmedPath(absUri(url).value))
  {
    var r := TryParseUrlWithError(url, absUri, SupportedSchemes, TryParsePath);
    if absUri(url).Some? then (WebSchemeAgrees(absUri(url).value); r) else r
  }

  /** The path of a pull request link parses back to the pull request it names. */
  lemma ParseOfPullRequestPath(uri: Uri, owner: string, repo: string, linkType: string, n: int32)
    requires !IsNullOrWhiteSpace(uri.host) && !IsNullOrWhiteSpace(owner) && !IsNullOrWhiteSpace(repo)
    requires '/' !in owner && '/' !in repo && '/' !in linkType
    requires EqualsIgnoreCase("pull", linkType) && n >= 1
    ensures TryParsePath(uri, owner + "/" + repo + "/" + linkType + "/" + ToDecimal(n as nat))
      == Success(PullRequestInfo(ProjectInfo(uri.host, owner, repo), n))
  {
    PositiveNumberOfDecimal(n);
    SplitOfFour(owner, repo, linkType, ToDecimal(n as nat), '/');
  }

  /** A link of another type, such as a pull request's, is rejected, naming the type found. */
  lemma OtherLinkTypeRejected(uri: Uri, owner: string, repo: string, linkType: string, id: string)
    requires !IsNullOrWhiteSpace(uri.host) && !IsNullOrWhiteSpace(owner) && !IsNullOrWhiteSpace(repo)
    requires '/' !in owner && '/' !in repo && '/' !in linkType && '/' !in id
    requires !EqualsIgnoreCase("pull", linkType)
    ensures TryParsePath(uri, owner + "/" + repo + "/" + linkType + "/" + id) == Failure(WrongLinkType("pull", linkType))
  {
    SplitOfFour(owner, repo, linkType, id, '/');
  }

  /** This parser is the generic GitHub web-link parser for link type "pull" and the positive-number parser. */
  lemma AgreesWithWebUrlParser(uri: Uri, path: string)
    ensures TryParsePath(uri, path)
      == GitHubWebUrlParser.TryParsePath("pull", TryParsePositiveNumber, (p, n) => PullRequestInfo(p, n), uri, path)
  {
  }

  /**
   * An http or https link (in any letter case) to a pull request, whatever
   * else the uri parser makes of it, parses to that pull request.
   */
  lemma ParsesPullRequestUrl(url: string, absUri: UriOracle, uri: Uri, owner: string, repo: string, n: int32)
    requires !IsNullOrWhiteSpace(url) && absUri(url) == Some(uri)
    requires EqualsIgnoreCase(uri.scheme, "http") || EqualsIgnoreCase(uri.scheme, "https")
    requires n >= 1 && uri.path == "/" + owner + "/" + repo + "/" + "pull" + "/" + ToDecimal(n as nat)
    requires !IsNullOrWhiteSpace(uri.host) && !IsNullOrWhiteSpace(owner) && !IsNullOrWhiteSpace(repo)
    requires '/' !in owner && '/' !in repo
    ensures TryParseUrl(url, absUri) == Success(PullRequestInfo(ProjectInfo(uri.host, owner, repo), n))
  {
    PullRequestUrlTrimmed(uri, owner, repo, n);
    PullRequestUrlPathParses(uri, owner, repo, n);
    ParseOfWebUrl(url, absUri, uri, owner + "/" + repo + "/" + "pull" + "/" + ToDecimal(n as nat),
      PullRequestInfo(ProjectInfo(uri.host, owner, repo), n));
  }

  lemma ParseOfWebUrl(url: string, absUri: UriOracle, uri: Uri, p: string, x: PullRequestInfo)
    requires !IsNullOrWhiteSpace(url) && absUri(url) == Some(uri)
    requires EqualsIgnoreCase(uri.scheme, "http") || EqualsIgnoreCase(uri.scheme, "https")
    requires TrimmedPath(uri) == p && TryParsePath(uri, p) == Success(x)
    ensures TryParseUrl(url, absUri) == Success(x)
  {
    WebSchemeSupported(uri, SupportedSchemes);
    ParseOfSupportedUrl(url, absUri, SupportedSchemes, TryParsePath, uri, p, x);
  }

  lemma PullRequestUrlPathParses(uri: Uri, owner: string, repo: string, n: int32)
    requires n >= 1 && !IsNullOrWhiteSpace(uri.host) && !IsNullOrWhiteSpace(owner) && !IsNullOrWhiteSpace(repo)
    requires '/' !in owner && '/' !in repo
    ensures TryParsePath(uri, owner + "/" + repo + "/" + "pull" + "/" + ToDecimal(n as nat))
      == Success(PullRequestInfo(ProjectInfo(uri.host, owner, repo), n))
  {
    ParseOfPullRequestPath(uri, owner, repo, "pull", n);
  }

  lemma PullRequestUrlTrimmed(uri: Uri, owner: string, repo: string, n: int32)
    requires n >= 1 && uri.path == "/" + owner + "/" + repo + "/" + "pull" + "/" + ToDecimal(n as nat)
    requires !IsNullOrWhiteSpace(owner) && '/' !in owner
    ensures TrimmedPath(uri) == owner + "/" + repo + "/" + "pull" + "/" + ToDecimal(n as nat)
  {
    var id := ToDecimal(n as nat);
    assert IsDigit(id[|id| - 1]);
    GitHubWebUrlParser.WebPathTrimmed(uri, owner, repo, "pull", id);
  }
}
