/**
 * GitHubWebUrlParser<TResult, TId>: the path grammar of GitHub web links,
 * `<owner>/<repo>/<linktype>/<id>`. A concrete parser supplies the expected
 * link type, the parser of the id and the construction of its result.
 */
module GitHubWebUrlParser {
  import opened Wrappers
  import opened Text
  import opened Errors
  import opened Segments
  import opened ArrayExtensions
  import opened UrlParser
  import opened GitHubProjectInfo
  import opened GitHubUrlParser

  const SupportedSchemes: seq<string> := ["http", "https"]

  /**
   * TryParsePath: exactly four segments; then the project; then the link
   * type, ignoring case; then the id. The first check that fails decides the
   * error, and the host is taken from the uri, never from the path.
   */
  function TryParsePath<TResult, TId>(
    expectedLinkType: string,
    tryParseId: string -> Result<TId, ParseError>,
    createResult: (ProjectInfo, TId) -> TResult,
    uri: Uri,
    path: string
  ): (r: Result<TResult, ParseError>)
    ensures var s := Split(path, '/');
      && (|s| != 4 ==> r == Failure(NotWebUrl))
      && (|s| == 4 && TryCreateProjectInfo(uri.host, s[0], s[1]).Failure? ==>
            r == Failure(TryCreateProjectInfo(uri.host, s[0], s[1]).error))
      && (|s| == 4 && TryCreateProjectInfo(uri.host, s[0], s[1]).Success? && !EqualsIgnoreCase(expectedLinkType, s[2]) ==>
            r == Failure(WrongLinkType(expectedLinkType, s[2])))
      && (|s| == 4 && TryCreateProjectInfo(uri.host, s[0], s[1]).Success? && EqualsIgnoreCase(expectedLinkType, s[2]) ==>
            tryParseId(s[3]).Failure? ==> r == Failure(tryParseId(s[3]).error))
      && (r.Success? ==>
            && |s| == 4
            && tryParseId(s[3]).Success?
            && r.value == createResult(ProjectInfo(uri.host, s[0], s[1]), tryParseId(s[3]).value))
  {
    var segments := Split(path, '/');
    if |segments| != 4 then
      Failure(NotWebUrl)
    else
      var (owner, repo, linkType, idString) := Deconstruct4(segments).value;
      match TryCreateProjectInfo(uri.host, owner, repo)
      case Failure(e) => Failure(e)
      case Success(project) =>
        if !EqualsIgnoreCase(expectedLinkType, linkType) then
          Failure(WrongLinkType(expectedLinkType, linkType))
        else
          match tryParseId(idString)
          case Failure(e) => Failure(e)
          case Success(id) => Success(createResult(project, id))
  }

  /**
   * The inverse of TryParsePath: a path assembled from a valid owner and
   * repository, the expected link type in any case and an id the id parser
   * accepts parses back to the result built from those parts.
   */
  lemma ParseOfAssembledPath<TResult, TId>(
    expectedLinkType: string,
    tryParseId: string -> Result<TId, ParseError>,
    createResult: (ProjectInfo, TId) -> TResult,
    uri: Uri,
    owner: string, repo: string, linkType: string, id: string
  )
    requires !IsNullOrWhiteSpace(uri.host) && !IsNullOrWhiteSpace(owner) && !IsNullOrWhiteSpace(repo)
    requires '/' !in owner && '/' !in repo && '/' !in linkType && '/' !in id
    requires EqualsIgnoreCase(expectedLinkType, linkType) && tryParseId(id).Success?
    ensures TryParsePath(expectedLinkType, tryParseId, createResult, uri, owner + "/" + repo + "/" + linkType + "/" + id)
      == Success(createResult(ProjectInfo(uri.host, owner, repo), tryParseId(id).value))
  {
    SplitOfFour(owner, repo, linkType, id, '/');
  }

  /** The absolute path of a web link reaches TryParsePath without its leading '/'. */
  lemma WebPathTrimmed(uri: Uri, owner: string, repo: string, linkType: string, id: string)
    requires uri.path == "/" + owner + "/" + repo + "/" + linkType + "/" + id
    requires owner != [] && owner[0] != '/' && id != [] && id[|id| - 1] != '/'
    ensures TrimmedPath(uri) == owner + "/" + repo + "/" + linkType + "/" + id
  {
    var p := owner + "/" + repo + "/" + linkType + "/" + id;
    assert p[0] == owner[0];
    assert p[|p| - 1] == id[|id| - 1];
    assert uri.path == "/" + p;
    TrimmedPathOfAbsolute(uri, p);
  }
}
