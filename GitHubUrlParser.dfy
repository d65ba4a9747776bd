/**
 * GitHubUrlParser: what the GitHub parsers share. CheckScheme is the
 * non-generic class's scheme test; TryCreateProjectInfo belongs to the
 * generic GitHubUrlParser<T>, whose file is not part of this model: it is
 * taken to reject a blank owner, then a blank repository name, before it
 * constructs the GitHubProjectInfo, as GitLabUrlParser does for GitLab.
 */
module GitHubUrlParser {
  import opened Wrappers
  import opened Text
  import opened Errors
  import opened UrlParser
  import opened GitHubProjectInfo

  /** CheckScheme(uri, params supportedSchemes): is the scheme one of those given, ignoring case? */
  function CheckScheme(uri: Uri, supportedSchemes: seq<string>): (r: bool)
    ensures r <==> exists i | 0 <= i < |supportedSchemes| :: EqualsIgnoreCase(supportedSchemes[i], uri.scheme)
  {
    UrlParser.CheckScheme(uri, supportedSchemes)
  }

  /**
   * TryCreateProjectInfo(host, owner, repo): a blank owner, then a blank
   * repository, is reported as a parse error; otherwise the project is
   * constructed, and a constructor exception (a blank host) is passed on.
   */
  function TryCreateProjectInfo(host: string, owner: string, repository: string): (r: Result<ProjectInfo, ParseError>)
    ensures IsNullOrWhiteSpace(owner) ==> r == Failure(BlankOwner)
    ensures !IsNullOrWhiteSpace(owner) && IsNullOrWhiteSpace(repository) ==> r == Failure(BlankRepository)
    ensures !IsNullOrWhiteSpace(owner) && !IsNullOrWhiteSpace(repository) && IsNullOrWhiteSpace(host) ==>
      r == Failure(InvalidArgument(NullOrWhiteSpace(Host)))
    ensures r.Success? <==> !IsNullOrWhiteSpace(host) && !IsNullOrWhiteSpace(owner) && !IsNullOrWhiteSpace(repository)
    ensures r.Success? ==> r.value == ProjectInfo(host, owner, repository) && New(host, owner, repository) == Success(r.value)
  {
    if IsNullOrWhiteSpace(owner) then Failure(BlankOwner)
    else if IsNullOrWhiteSpace(repository) then Failure(BlankRepository)
    else
      match New(host, owner, repository)
      case Success(p) => Success(p)
      case Failure(e) => Failure(InvalidArgument(e))
  }
}
