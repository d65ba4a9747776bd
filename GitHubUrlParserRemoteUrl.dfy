/**
 * The remote-url methods of the non-generic GitHubUrlParser:
 * ParseRemoteUrl and TryParseRemoteUrl, the older entry point that does the
 * work of GitHubRemoteUrlParser in one method of its own.
 */
module GitHubUrlParserRemoteUrl {
  import opened Wrappers
  import opened Text
  import opened Errors
  import opened Segments
  import opened StringExtensions
  import opened UrlParser
  import opened GitRemoteUrl
  import opened GitHubProjectInfo
  import GitHubRemoteUrlParser

  /**
   * The private TryParseRemoteUrl(url, out projectInfo, out errorMessage):
   * blank url, then no uri, then an unsupported scheme; then the path must
   * end with ".git", be two segments less that suffix, and have an owner and
   * then a repository that are not blank. The project is constructed from
   * the uri's host.
   */
  function TryParseRemoteUrlWithError(url: string, absUri: UriOracle): (r: Result<ProjectInfo, ParseError>)
    ensures IsNullOrWhiteSpace(url) ==> r == Failure(BlankUrl)
    ensures !IsNullOrWhiteSpace(url) && TryGetUri(url, absUri).None? ==> r == Failure(InvalidUri)
    ensures !IsNullOrWhiteSpace(url) && TryGetUri(url, absUri).Some? && !IsRemoteScheme(TryGetUri(url, absUri).value.scheme) ==>
      r == Failure(UnsupportedScheme(TryGetUri(url, absUri).value.scheme))
    ensures r.Success? ==>
      && !IsNullOrWhiteSpace(url) && TryGetUri(url, absUri).Some?
      && IsRemoteScheme(TryGetUri(url, absUri).value.scheme)
      && r.value.host == TryGetUri(url, absUri).value.host
  {
    if IsNullOrWhiteSpace(url) then
      Failure(BlankUrl)
    else
      match TryGetUri(url, absUri)
      case None => Failure(InvalidUri)
      case Some(uri) =>
        if !IsRemoteScheme(uri.scheme) then
          Failure(UnsupportedScheme(uri.scheme))
        else
          ParseRemotePath(uri)
  }

  /** The rest of the method, once the uri and its scheme are accepted. */
  function ParseRemotePath(uri: Uri): (r: Result<ProjectInfo, ParseError>)
    ensures r.Success? ==> r.value.host == uri.host
  {
    var path := TrimmedPath(uri);
    if !EndsWithIgnoreCase(path, ".git") then
      Failure(MissingGitSuffix)
    else
      var ownerAndRepo := Split(RemoveSuffixIgnoreCase(path, ".git"), '/');
      if |ownerAndRepo| != 2 then
        Failure(NotRemoteUrl)
      else
        var owner := ownerAndRepo[0];
        var repo := ownerAndRepo[1];
        if IsNullOrWhiteSpace(owner) then
          Failure(BlankOwner)
        else if IsNullOrWhiteSpace(repo) then
          Failure(BlankRepository)
        else
          match New(uri.host, owner, repo)
          case Success(p) => Success(p)
          case Failure(e) => Failure(InvalidArgument(e))
  }

  /** The public TryParseRemoteUrl(url, out projectInfo): the project on success, null otherwise. */
  function TryParseRemoteUrl(url: string, absUri: UriOracle): (r: Option<ProjectInfo>)
    ensures r.Some? <==> TryParseRemoteUrlWithError(url, absUri).Success?
    ensures r.Some? ==> r.value == TryParseRemoteUrlWithError(url, absUri).value
  {
    match TryParseRemoteUrlWithError(url, absUri)
    case Success(p) => Some(p)
    case Failure(_) => None
  }

  /** ParseRemoteUrl: the project, or an ArgumentException carrying the message and naming the url parameter. */
  function ParseRemoteUrl(url: string, absUri: UriOracle): (r: Result<ProjectInfo, UrlException>)
    ensures r.Success? <==> TryParseRemoteUrlWithError(url, absUri).Success?
    ensures r.Success? ==> r.value == TryParseRemoteUrlWithError(url, absUri).value
    ensures r.Failure? ==> r.error == UrlException(TryParseRemoteUrlWithError(url, absUri).error, Url)
  {
    match TryParseRemoteUrlWithError(url, absUri)
    case Success(p) => Success(p)
    case Failure(e) => Failure(UrlException(e, Url))
  }

  /**
   * The method returns what GitHubRemoteUrlParser returns for every url and
   * every uri parser: the same project on success and the same kind of error
   * on failure.
   */
  lemma AgreesWithRemoteUrlParser(url: string, absUri: UriOracle)
    ensures TryParseRemoteUrlWithError(url, absUri) == GitHubRemoteUrlParser.TryParseUrl(url, absUri)
  {
    if !IsNullOrWhiteSpace(url) && TryGetUri(url, absUri).Some? {
      var uri := TryGetUri(url, absUri).value;
      if IsRemoteScheme(uri.scheme) {
        RemotePathAgrees(uri);
      }
    }
  }

  /** Past the scheme check, the method and GitHubRemoteUrlParser.TryParsePath agree. */
  lemma RemotePathAgrees(uri: Uri)
    ensures ParseRemotePath(uri) == GitHubRemoteUrlParser.TryParsePath(uri, TrimmedPath(uri))
  {
  }
}
