/**
 * GitHubRemoteUrlParser: parses git remote urls of GitHub projects,
 * `<scheme>://<host>/<owner>/<repo>.git` over http, https and ssh, and the
 * SCP form `<user>@<host>:<owner>/<repo>.git`.
 */
module GitHubRemoteUrlParser {
  import opened Wrappers
  import opened Text
  import opened Errors
  import opened Segments
  import opened ArrayExtensions
  import opened StringExtensions
  import opened UrlParser
  import opened GitRemoteUrl
  import opened GitHubProjectInfo
  import opened GitHubUrlParser

  const SupportedSchemes: seq<string> := ["http", "https", "ssh"]

  /** TryCreateUri: remote urls are turned into uris by GitRemoteUrl.TryGetUri. */
  function TryCreateUri(absUri: UriOracle): (createUri: UriOracle)
    ensures forall url :: createUri(url) == TryGetUri(url, absUri)
  {
    url => TryGetUri(url, absUri)
  }

  /**
   * TryParsePath: the path must end with ".git" in any letter case; less
   * that suffix it must be exactly two segments, the owner and the
   * repository, which must make a project.
   */
  function TryParsePath(uri: Uri, path: string): (r: Result<ProjectInfo, ParseError>)
    ensures !EndsWithIgnoreCase(path, ".git") ==> r == Failure(MissingGitSuffix)
    ensures EndsWithIgnoreCase(path, ".git") ==>
      var s := Split(RemoveSuffixIgnoreCase(path, ".git"), '/');
      && (|s| != 2 ==> r == Failure(NotRemoteUrl))
      && (|s| == 2 ==> r == TryCreateProjectInfo(uri.host, s[0], s[1]))
    ensures r.Success? ==> r.value.host == uri.host
  {
    if !EndsWithIgnoreCase(path, ".git") then
      Failure(MissingGitSuffix)
    else
      var projectPath := RemoveSuffixIgnoreCase(path, ".git");
      var segments := Split(projectPath, '/');
      if |segments| != 2 then
        Failure(NotRemoteUrl)
      else
        var (owner, repo) := Deconstruct2(segments).value;
        TryCreateProjectInfo(uri.host, owner, repo)
  }

  /**
   * The whole parser: the shared skeleton over http, https and ssh, with
   * remote-url uris. A non-blank url whose uri (absolute or rewritten from
   * the SCP form) has a remote scheme gets exactly what its trimmed path
   * parses to; every other url fails.
   */
  function TryParseUrl(url: string, absUri: UriOracle): (r: Result<ProjectInfo, ParseError>)
    ensures IsNullOrWhiteSpace(url) ==> r == Failure(BlankUrl)
    ensures !IsNullOrWhiteSpace(url) && TryGetUri(url, absUri).None? ==> r == Failure(InvalidUri)
    ensures !IsNullOrWhiteSpace(url) && TryGetUri(url, absUri).Some? && !IsRemoteScheme(TryGetUri(url, absUri).value.scheme) ==>
      r == Failure(UnsupportedScheme(TryGetUri(url, absUri).value.scheme))
    ensures !IsNullOrWhiteSpace(url) && TryGetUri(url, absUri).Some? && IsRemoteScheme(TryGetUri(url, absUri).value.scheme) ==>
      r == TryParsePath(TryGetUri(url, absUri).value, TrimmedPath(TryGetUri(url, absUri).value))
  {
    var r := TryParseUrlWithError(url, TryCreateUri(absUri), SupportedSchemes, TryParsePath);
    if TryGetUri(url, absUri).Some? then (RemoteSchemeAgrees(TryGetUri(url, absUri).value, SupportedSchemes); r) else r
  }

  /**
   * The path of a remote url, owner/repo followed by ".git" in any letter
   * case, parses back to that owner and repository. Only the one suffix is
   * removed: a repository named "repo.git" comes from "repo.git.git".
   */
  lemma ParseOfRemotePath(uri: Uri, owner: string, repo: string, suffix: string)
    requires !IsNullOrWhiteSpace(uri.host) && !IsNullOrWhiteSpace(owner) && !IsNullOrWhiteSpace(repo)
    requires '/' !in owner && '/' !in repo && EqualsIgnoreCase(suffix, ".git")
    ensures TryParsePath(uri, owner + "/" + repo + suffix) == Success(ProjectInfo(uri.host, owner, repo))
  {
    var path := owner + "/" + repo + suffix;
    assert path[|path| - 4..] == suffix;
    assert RemoveSuffixIgnoreCase(path, ".git") == owner + "/" + repo;
    SplitOfTwo(owner, repo, '/');
  }

  /**
   * Every path that parses is such a path: owner/repo followed by a
   * four-character suffix equal to ".git" ignoring case, with an owner and a
   * repository that are not blank and contain no '/'.
   */
  lemma ParsedRemotePath(uri: Uri, path: string)
    requires TryParsePath(uri, path).Success?
    ensures var p := TryParsePath(uri, path).value;
      && |path| >= 4 && EqualsIgnoreCase(path[|path| - 4..], ".git")
      && path == p.owner + "/" + p.repository + path[|path| - 4..]
      && !IsNullOrWhiteSpace(p.owner) && !IsNullOrWhiteSpace(p.repository)
      && '/' !in p.owner && '/' !in p.repository
  {
    var projectPath := RemoveSuffixIgnoreCase(path, ".git");
    var s := Split(projectPath, '/');
    JoinSplit(projectPath, '/');
    assert Join(s, '/') == s[0] + ['/'] + s[1] by {
      assert s[1..] == [s[1]];
    }
    assert projectPath + path[|path| - 4..] == path;
  }

  /** A path of three segments before ".git", such as owner/another-name/repo.git, is not a remote url. */
  lemma ThreeSegmentsRejected(uri: Uri, a: string, b: string, c: string, suffix: string)
    requires '/' !in a && '/' !in b && '/' !in c && EqualsIgnoreCase(suffix, ".git")
    ensures TryParsePath(uri, a + "/" + b + "/" + c + suffix) == Failure(NotRemoteUrl)
  {
    var path := a + "/" + b + "/" + c + suffix;
    assert path[|path| - 4..] == suffix;
    assert RemoveSuffixIgnoreCase(path, ".git") == a + "/" + b + "/" + c;
    SplitOfThree(a, b, c, '/');
  }

  /** A blank owner is reported before a blank repository name, as in "/.git" or " / .git". */
  lemma BlankOwnerRejected(uri: Uri, owner: string, repo: string, suffix: string)
    requires IsNullOrWhiteSpace(owner) && '/' !in owner && '/' !in repo && EqualsIgnoreCase(suffix, ".git")
    ensures TryParsePath(uri, owner + "/" + repo + suffix) == Failure(BlankOwner)
  {
    var path := owner + "/" + repo + suffix;
    assert path[|path| - 4..] == suffix;
    assert RemoveSuffixIgnoreCase(path, ".git") == owner + "/" + repo;
    SplitOfTwo(owner, repo, '/');
  }

  /** A blank repository name, as in "owner/.git" or "owner/ .git", is rejected. */
  lemma BlankRepositoryRejected(uri: Uri, owner: string, repo: string, suffix: string)
    requires !IsNullOrWhiteSpace(owner) && IsNullOrWhiteSpace(repo)
    requires '/' !in owner && '/' !in repo && EqualsIgnoreCase(suffix, ".git")
    ensures TryParsePath(uri, owner + "/" + repo + suffix) == Failure(BlankRepository)
  {
    var path := owner + "/" + repo + suffix;
    assert path[|path| - 4..] == suffix;
    assert RemoveSuffixIgnoreCase(path, ".git") == owner + "/" + repo;
    SplitOfTwo(owner, repo, '/');
  }

  /**
   * A remote url, absolute or in SCP form, whose uri has a remote scheme and
   * the path /owner/repo.git parses to that project.
   */
  lemma ParsesRemoteUrl(url: string, absUri: UriOracle, uri: Uri, owner: string, repo: string, suffix: string)
    requires !IsNullOrWhiteSpace(url) && TryGetUri(url, absUri) == Some(uri)
    requires IsRemoteScheme(uri.scheme)
    requires uri.path == "/" + owner + "/" + repo + suffix
    requires !IsNullOrWhiteSpace(uri.host) && !IsNullOrWhiteSpace(owner) && !IsNullOrWhiteSpace(repo)
    requires '/' !in owner && '/' !in repo && EqualsIgnoreCase(suffix, ".git")
    ensures TryParseUrl(url, absUri) == Success(ProjectInfo(uri.host, owner, repo))
  {
    RemotePathTrimmed(uri, owner, repo, suffix);
    RemotePathParses(uri, owner, repo, suffix);
    ParseOfRemoteUri(url, absUri, uri, owner + "/" + repo + suffix, ProjectInfo(uri.host, owner, repo));
  }

  /**
   * The SCP form userAndHost:owner/repo.git, which the uri parser does not
   * take as absolute, parses to the project of the ssh uri it is rewritten
   * into.
   */
  lemma ParsesScpRemoteUrl(userAndHost: string, owner: string, repo: string, suffix: string, absUri: UriOracle, uri: Uri)
    requires !IsNullOrWhiteSpace(userAndHost) && ':' !in userAndHost
    requires ':' !in owner && ':' !in repo && ':' !in suffix
    requires absUri(userAndHost + ":" + (owner + "/" + repo + suffix)).None?
    requires absUri("ssh://" + userAndHost + "/" + (owner + "/" + repo + suffix)) == Some(uri)
    requires FoldCase(uri.scheme) == "ssh" && uri.path == "/" + owner + "/" + repo + suffix
    requires !IsNullOrWhiteSpace(uri.host) && !IsNullOrWhiteSpace(owner) && !IsNullOrWhiteSpace(repo)
    requires '/' !in owner && '/' !in repo && EqualsIgnoreCase(suffix, ".git")
    ensures TryParseUrl(userAndHost + ":" + (owner + "/" + repo + suffix), absUri) == Success(ProjectInfo(uri.host, owner, repo))
  {
    var path := owner + "/" + repo + suffix;
    assert path[0] == owner[0];
    ScpUri(userAndHost, path, absUri);
    var url := userAndHost + ":" + path;
    assert !IsNullOrWhiteSpace(url) by {
      var i :| 0 <= i < |userAndHost| && !IsWhiteSpace(userAndHost[i]);
      assert url[i] == userAndHost[i];
    }
    ParsesRemoteUrl(url, absUri, uri, owner, repo, suffix);
  }

  lemma ParseOfRemoteUri(url: string, absUri: UriOracle, uri: Uri, p: string, x: ProjectInfo)
    requires !IsNullOrWhiteSpace(url) && TryGetUri(url, absUri) == Some(uri)
    requires IsRemoteScheme(uri.scheme)
    requires TrimmedPath(uri) == p && TryParsePath(uri, p) == Success(x)
    ensures TryParseUrl(url, absUri) == Success(x)
  {
    RemoteSchemeAgrees(uri, SupportedSchemes);
    ParseOfSupportedUrl(url, TryCreateUri(absUri), SupportedSchemes, TryParsePath, uri, p, x);
  }

  lemma RemotePathParses(uri: Uri, owner: string, repo: string, suffix: string)
    requires !IsNullOrWhiteSpace(uri.host) && !IsNullOrWhiteSpace(owner) && !IsNullOrWhiteSpace(repo)
    requires '/' !in owner && '/' !in repo && EqualsIgnoreCase(suffix, ".git")
    ensures TryParsePath(uri, owner + "/" + repo + suffix) == Success(ProjectInfo(uri.host, owner, repo))
  {
    ParseOfRemotePath(uri, owner, repo, suffix);
  }

  lemma RemotePathTrimmed(uri: Uri, owner: string, repo: string, suffix: string)
    requires uri.path == "/" + owner + "/" + repo + suffix
    requires !IsNullOrWhiteSpace(owner) && '/' !in owner && EqualsIgnoreCase(suffix, ".git")
    ensures TrimmedPath(uri) == owner + "/" + repo + suffix
  {
    var p := owner + "/" + repo + suffix;
    assert |suffix| == 4 && FoldCase(suffix)[3] == 't';
    assert p[0] == owner[0];
    assert p[|p| - 1] == suffix[3];
    assert uri.path == "/" + p;
    TrimmedPathOfAbsolute(uri, p);
  }
}
