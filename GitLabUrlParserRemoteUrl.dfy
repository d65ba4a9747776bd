/**
 * The remote-url methods of the non-generic GitLabUrlParser:
 * ParseRemoteUrl and TryParseRemoteUrl, the older entry point that does the
 * work of GitLabRemoteUrlParser in one method of its own.
 */
module GitLabUrlParserRemoteUrl {
  import opened Wrappers
  import opened Text
  import opened Errors
  import opened StringExtensions
  import opened UrlParser
  import opened GitRemoteUrl
  import opened GitLabProjectInfo
  import GitLabRemoteUrlParser

  /**
   * The private TryParseRemoteUrl(url, out projectInfo, out errorMessage):
   * blank url, then no uri, then an unsupported scheme; then the project
   * path must end with ".git", not be blank less that suffix and contain a
   * '/'; it is split at its last '/', and the namespace and then the project
   * name must not be blank. The project is constructed from the uri's host.
   */
  function TryParseRemoteUrlWithError(url: string, absUri: UriOracle): (r: Result<ProjectInfo, ParseError>)
    ensures IsNullOrWhiteSpace(url) ==> r == Failure(BlankUrl)
    ensures !IsNullOrWhiteSpace(url) && TryGetUri(url, absUri).None? ==> r == Failure(InvalidUri)
    ensures !IsNullOrWhiteSpace(url) && TryGetUri(url, absUri).Some? && !IsRemoteScheme(TryGetUri(url, absUri).value.scheme) ==>
      r == Failure(UnsupportedScheme(TryGetUri(url, absUri).value.scheme))
    ensures r.Success? ==>
      && !IsNullOrWhiteSpace(url) && TryGetUri(url, absUri).Some?
      && IsRemoteScheme(TryGetUri(url, absUri).value.scheme)
      && r.value.host == TryGetUri(url, absUri).value.host
  {
    if IsNullOrWhiteSpace(url) then
      Failure(BlankUrl)
    else
      match TryGetUri(url, absUri)
      case None => Failure(InvalidUri)
      case Some(uri) =>
        if !IsRemoteScheme(uri.scheme) then
          Failure(UnsupportedScheme(uri.scheme))
        else
          ParseRemotePath(uri)
  }

  /** The rest of the method, once the uri and its scheme are accepted. */
  function ParseRemotePath(uri: Uri): (r: Result<ProjectInfo, ParseError>)
    ensures r.Success? ==> r.value.host == uri.host
  {
    var projectPath := TrimmedPath(uri);
    if !EndsWithIgnoreCase(projectPath, ".git") then
      Failure(MissingGitSuffix)
    else
      var stripped := RemoveSuffixIgnoreCase(projectPath, ".git");
      if IsNullOrWhiteSpace(stripped) then
        Failure(EmptyProjectPath)
      else if '/' !in stripped then
        Failure(InvalidProjectPath(stripped))
      else
        var (namespace, projectName) := GitLabRemoteUrlParser.SplitProjectPath(stripped);
        if IsNullOrWhiteSpace(namespace) then
          Failure(BlankNamespace)
        else if IsNullOrWhiteSpace(projectName) then
          Failure(BlankProjectName)
        else
          match New(uri.host, namespace, projectName)
          case Success(p) => Success(p)
          case Failure(e) => Failure(InvalidArgument(e))
  }

  /** The public TryParseRemoteUrl(url, out projectInfo): the project on success, null otherwise. */
  function TryParseRemoteUrl(url: string, absUri: UriOracle): (r: Option<ProjectInfo>)
    ensures r.Some? <==> TryParseRemoteUrlWithError(url, absUri).Success?
    ensures r.Some? ==> r.value == TryParseRemoteUrlWithError(url, absUri).value
  {
    match TryParseRemoteUrlWithError(url, absUri)
    case Success(p) => Some(p)
    case Failure(_) => None
  }

  /** ParseRemoteUrl: the project, or an ArgumentException carrying the message and naming the url parameter. */
  function ParseRemoteUrl(url: string, absUri: UriOracle): (r: Result<ProjectInfo, UrlException>)
    ensures r.Success? <==> TryParseRemoteUrlWithError(url, absUri).Success?
    ensures r.Success? ==> r.value == TryParseRemoteUrlWithError(url, absUri).value
    ensures r.Failure? ==> r.error == UrlException(TryParseRemoteUrlWithError(url, absUri).error, Url)
  {
    match TryParseRemoteUrlWithError(url, absUri)
    case Success(p) => Success(p)
    case Failure(e) => Failure(UrlException(e, Url))
  }

  /**
   * The method returns what GitLabRemoteUrlParser returns for every url and
   * every uri parser: the same project on success and the same kind of error
   * on failure.
   */
  lemma AgreesWithRemoteUrlParser(url: string, absUri: UriOracle)
    ensures TryParseRemoteUrlWithError(url, absUri) == GitLabRemoteUrlParser.TryParseUrl(url, absUri)
  {
    if !IsNullOrWhiteSpace(url) && TryGetUri(url, absUri).Some? {
      var uri := TryGetUri(url, absUri).value;
      if IsRemoteScheme(uri.scheme) {
        RemotePathAgrees(uri);
      }
    }
  }

  /** Past the scheme check, the method and GitLabRemoteUrlParser.TryParsePath agree. */
  lemma RemotePathAgrees(uri: Uri)
    ensures ParseRemotePath(uri) == GitLabRemoteUrlParser.TryParsePath(uri, TrimmedPath(uri))
  {
  }
}
