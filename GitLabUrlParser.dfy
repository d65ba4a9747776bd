/** GitLabUrlParser<T>: what the GitLab parsers share, the construction of the project. */
module GitLabUrlParser {
  import opened Wrappers
  import opened Text
  import opened Errors
  import opened GitLabProjectInfo

  /**
   * TryCreateProjectInfo(host, namespace, projectName): a blank namespace,
   * then a blank project name, is reported as a parse error; otherwise the
   * project is constructed, and a constructor exception (a blank host) is
   * passed on.
   */
  function TryCreateProjectInfo(host: string, namespace: string, projectName: string): (r: Result<ProjectInfo, ParseError>)
    ensures IsNullOrWhiteSpace(namespace) ==> r == Failure(BlankNamespace)
    ensures !IsNullOrWhiteSpace(namespace) && IsNullOrWhiteSpace(projectName) ==> r == Failure(BlankProjectName)
    ensures !IsNullOrWhiteSpace(namespace) && !IsNullOrWhiteSpace(projectName) && IsNullOrWhiteSpace(host) ==>
      r == Failure(InvalidArgument(NullOrWhiteSpace(Host)))
    ensures r.Success? <==> !IsNullOrWhiteSpace(host) && !IsNullOrWhiteSpace(namespace) && !IsNullOrWhiteSpace(projectName)
    ensures r.Success? ==> r.value == ProjectInfo(host, namespace, projectName) && New(host, namespace, projectName) == Success(r.value)
  {
    if IsNullOrWhiteSpace(namespace) then Failure(BlankNamespace)
    else if IsNullOrWhiteSpace(projectName) then Failure(BlankProjectName)
    else
      match New(host, namespace, projectName)
      case Success(p) => Success(p)
      case Failure(e) => Failure(InvalidArgument(e))
  }
}
