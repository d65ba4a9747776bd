/**
 * GitLabRemoteUrlParser: parses git remote urls of GitLab projects,
 * `<scheme>://<host>/<namespace>/<project>.git` over http, https and ssh,
 * and the SCP form `<user>@<host>:<namespace>/<project>.git`. The namespace
 * is everything before the last '/'.
 */
module GitLabRemoteUrlParser {
  import opened Wrappers
  import opened Text
  import opened Errors
  import opened Segments
  import opened StringExtensions
  import opened UrlParser
  import opened GitRemoteUrl
  import opened GitLabProjectInfo
  import opened GitLabUrlParser

  const SupportedSchemes: seq<string> := ["http", "https", "ssh"]

  /** TryCreateUri: remote urls are turned into uris by GitRemoteUrl.TryGetUri. */
  function TryCreateUri(absUri: UriOracle): (createUri: UriOracle)
    ensures forall url :: createUri(url) == TryGetUri(url, absUri)
  {
    url => TryGetUri(url, absUri)
  }

  /**
   * The project path less its ".git" suffix is split at its last '/': what
   * comes before is the namespace and what comes after is the project name,
   * each with '/' trimmed from both ends.
   */
  function SplitProjectPath(projectPath: string): (r: (string, string))
    requires '/' in projectPath
    ensures HasNoEdge(r.0, '/') && HasNoEdge(r.1, '/') && '/' !in r.1
    ensures exists k :: PaddedBy(projectPath[..LastIndexOf(projectPath, '/')], r.0, '/', k)
    ensures exists k :: PaddedBy(projectPath[LastIndexOf(projectPath, '/')..], r.1, '/', k)
  {
    var splitIndex := LastIndexOf(projectPath, '/');
    var r1 := Trim(projectPath[splitIndex..], '/');
    ProjectNameHasNoSlash(projectPath[splitIndex..], r1);
    (Trim(projectPath[..splitIndex], '/'), r1)
  }

  /** What follows the last '/' holds no '/', and trimming keeps it that way. */
  lemma ProjectNameHasNoSlash(tail: string, r: string)
    requires tail != [] && tail[0] == '/' && '/' !in tail[1..] && r == Trim(tail, '/')
    ensures '/' !in r
  {
    var k :| PaddedBy(tail, r, '/', k);
    if r != [] {
      assert k >= 1;
      forall i | 0 <= i < |r|
        ensures r[i] != '/'
      {
        assert r[i] == tail[1..][k - 1 + i];
      }
    }
  }

  /**
   * TryParsePath: the path argument is not used; the project path is taken
   * from the uri again, with '/' trimmed from both ends. It must end with
   * ".git" in any letter case; less that suffix it must not be blank and
   * must contain a '/'; then it is split at its last '/' into namespace and
   * project name, which must make a project.
   */
  function TryParsePath(uri: Uri, path: string): (r: Result<ProjectInfo, ParseError>)
    ensures var projectPath := TrimmedPath(uri);
      && (!EndsWithIgnoreCase(projectPath, ".git") ==> r == Failure(MissingGitSuffix))
      && (EndsWithIgnoreCase(projectPath, ".git") ==>
            var stripped := RemoveSuffixIgnoreCase(projectPath, ".git");
            && (IsNullOrWhiteSpace(stripped) ==> r == Failure(EmptyProjectPath))
            && (!IsNullOrWhiteSpace(stripped) && '/' !in stripped ==> r == Failure(InvalidProjectPath(stripped)))
            && (!IsNullOrWhiteSpace(stripped) && '/' in stripped ==>
                  r == TryCreateProjectInfo(uri.host, SplitProjectPath(stripped).0, SplitProjectPath(stripped).1)))
    ensures r.Success? ==> r.value.host == uri.host && '/' !in r.value.project && HasNoEdge(r.value.namespace, '/')
  {
    var projectPath := TrimmedPath(uri);
    if !EndsWithIgnoreCase(projectPath, ".git") then
      Failure(MissingGitSuffix)
    else
      var stripped := RemoveSuffixIgnoreCase(projectPath, ".git");
      if IsNullOrWhiteSpace(stripped) then
        Failure(EmptyProjectPath)
      else if '/' !in stripped then
        Failure(InvalidProjectPath(stripped))
      else
        var (namespace, projectName) := SplitProjectPath(stripped);
        TryCreateProjectInfo(uri.host, namespace, projectName)
  }

  /**
   * The whole parser: the shared skeleton over http, https and ssh, with
   * remote-url uris. A non-blank url whose uri (absolute or rewritten from
   * the SCP form) has a remote scheme gets exactly what its trimmed path
   * parses to; every other url fails.
   */
  function TryParseUrl(url: string, absUri: UriOracle): (r: Result<ProjectInfo, ParseError>)
    ensures IsNullOrWhiteSpace(url) ==> r == Failure(BlankUrl)
    ensures !IsNullOrWhiteSpace(url) && TryGetUri(url, absUri).None? ==> r == Failure(InvalidUri)
    ensures !IsNullOrWhiteSpace(url) && TryGetUri(url, absUri).Some? && !IsRemoteScheme(TryGetUri(url, absUri).value.scheme) ==>
      r == Failure(UnsupportedScheme(TryGetUri(url, absUri).value.scheme))
    ensures !IsNullOrWhiteSpace(url) && TryGetUri(url, absUri).Some? && IsRemoteScheme(TryGetUri(url, absUri).value.scheme) ==>
      r == TryParsePath(TryGetUri(url, absUri).value, TrimmedPath(TryGetUri(url, absUri).value))
  {
    var r := TryParseUrlWithError(url, TryCreateUri(absUri), SupportedSchemes, TryParsePath);
    if TryGetUri(url, absUri).Some? then (RemoteSchemeAgrees(TryGetUri(url, absUri).value, SupportedSchemes); r) else r
  }

  /** Since the path is re-derived from the uri, the path handed in makes no difference. */
  lemma PathArgumentIgnored(uri: Uri, path: string, other: string)
    ensures TryParsePath(uri, path) == TryParsePath(uri, other)
  {
  }

  /** Splitting namespace/project at the last '/' gives back both parts when neither has '/' at an end. */
  lemma SplitOfProjectPath(namespace: string, project: string)
    requires HasNoEdge(namespace, '/') && '/' !in project
    ensures SplitProjectPath(namespace + "/" + project) == (namespace, project)
  {
    var tail := "/" + project;
    var pp := namespace + tail;
    assert pp == namespace + "/" + project;
    assert LastIndexOf(pp, '/') == |namespace| by {
      LastIndexOfAppend(namespace, project, '/');
    }
    assert pp[|namespace|] == '/';
    SplitProjectPathAt(pp, namespace, tail);
    TrimOfUntrimmed(namespace, '/');
    assert HasNoEdge(project, '/') by {
      if project != [] {
        assert project[0] in project && project[|project| - 1] in project;
      }
    }
    TrimOfLeadingSlash(project);
  }

  /**
   * The inverse of TryParsePath: a uri whose path is
   * /namespace/project followed by ".git" in any letter case, with a
   * namespace of one or more groups, parses to that namespace and project.
   */
  lemma ParseOfRemotePath(uri: Uri, path: string, namespace: string, project: string, suffix: string)
    requires uri.path == "/" + namespace + "/" + project + suffix
    requires !IsNullOrWhiteSpace(uri.host) && !IsNullOrWhiteSpace(namespace) && !IsNullOrWhiteSpace(project)
    requires HasNoEdge(namespace, '/') && '/' !in project && EqualsIgnoreCase(suffix, ".git")
    ensures TryParsePath(uri, path) == Success(ProjectInfo(uri.host, namespace, project))
  {
    RemotePathTrimmed(uri, namespace, project, suffix);
    StrippedProjectPath(namespace, project, suffix);
    SplitOfProjectPath(namespace, project);
  }

  /**
   * Unlike the GitHub remote parser, a doubled '/' before the project name is
   * accepted: "/a//b.git" is the project "b" in the namespace "a", because
   * both halves of the split at the last '/' are trimmed of '/'.
   */
  lemma DoubledSlashAccepted(uri: Uri, path: string, namespace: string, project: string, suffix: string)
    requires uri.path == "/" + namespace + "//" + project + suffix
    requires !IsNullOrWhiteSpace(uri.host) && !IsNullOrWhiteSpace(namespace) && !IsNullOrWhiteSpace(project)
    requires HasNoEdge(namespace, '/') && '/' !in project && EqualsIgnoreCase(suffix, ".git")
    ensures TryParsePath(uri, path) == Success(ProjectInfo(uri.host, namespace, project))
  {
    var ns := namespace + "/";
    var p := ns + "/" + project + suffix;
    assert |suffix| == 4 && FoldCase(suffix)[3] == 't';
    assert p[0] == namespace[0];
    assert p[|p| - 1] == suffix[3];
    assert uri.path == "/" + p;
    TrimmedPathOfAbsolute(uri, p);
    StrippedProjectPath(ns, project, suffix);
    SplitOfDoubledSlash(namespace, project);
  }

  lemma SplitOfDoubledSlash(namespace: string, project: string)
    requires HasNoEdge(namespace, '/') && '/' !in project
    ensures SplitProjectPath(namespace + "/" + "/" + project) == (namespace, project)
  {
    var ns := namespace + "/";
    var tail := "/" + project;
    LastIndexOfAppend(ns, project, '/');
    assert ns + "/" + project == ns + tail;
    SplitProjectPathAt(ns + tail, ns, tail);
    TrimOfTrailingSlash(namespace);
    TrimOfLeadingSlash(project);
  }

  lemma TrimOfTrailingSlash(s: string)
    requires HasNoEdge(s, '/')
    ensures Trim(s + "/", '/') == s
  {
    var t := s + "/";
    assert PaddedBy(t, s, '/', 0) by {
      assert t[0..|s|] == s;
      assert t[|s|..] == "/";
    }
    TrimOfPadded(t, s, '/', 0);
  }

  lemma TrimOfLeadingSlash(s: string)
    requires HasNoEdge(s, '/')
    ensures Trim("/" + s, '/') == s
  {
    var t := "/" + s;
    assert PaddedBy(t, s, '/', 1) by {
      assert t[1..1 + |s|] == s;
      assert t[1 + |s|..] == [];
    }
    TrimOfPadded(t, s, '/', 1);
  }

  /** Where the last '/' falls decides the two halves that are trimmed. */
  lemma SplitProjectPathAt(projectPath: string, front: string, tail: string)
    requires projectPath == front + tail && '/' in projectPath
    requires LastIndexOf(projectPath, '/') == |front|
    ensures SplitProjectPath(projectPath) == (Trim(front, '/'), Trim(tail, '/'))
  {
    assert projectPath[..|front|] == front;
    assert projectPath[|front|..] == tail;
  }

  /** namespace/project followed by the suffix ends with ".git" and loses exactly the suffix. */
  lemma StrippedProjectPath(namespace: string, project: string, suffix: string)
    requires EqualsIgnoreCase(suffix, ".git")
    ensures var projectPath := namespace + "/" + project + suffix;
      && EndsWithIgnoreCase(projectPath, ".git")
      && RemoveSuffixIgnoreCase(projectPath, ".git") == namespace + "/" + project
      && '/' in namespace + "/" + project
  {
    var projectPath := namespace + "/" + project + suffix;
    assert projectPath[|projectPath| - 4..] == suffix;
    assert (namespace + "/" + project)[|namespace|] == '/';
  }

  lemma RemotePathTrimmed(uri: Uri, namespace: string, project: string, suffix: string)
    requires uri.path == "/" + namespace + "/" + project + suffix
    requires !IsNullOrWhiteSpace(namespace) && HasNoEdge(namespace, '/') && EqualsIgnoreCase(suffix, ".git")
    ensures TrimmedPath(uri) == namespace + "/" + project + suffix
  {
    var p := namespace + "/" + project + suffix;
    assert |suffix| == 4 && FoldCase(suffix)[3] == 't';
    assert p[0] == namespace[0];
    assert p[|p| - 1] == suffix[3];
    assert uri.path == "/" + p;
    TrimmedPathOfAbsolute(uri, p);
  }

  /**
   * A blank project name after the last '/', as in "user/.git" or
   * "user/ .git", is rejected as a blank project name.
   */
  lemma BlankProjectNameRejected(uri: Uri, path: string, namespace: string, project: string, suffix: string)
    requires uri.path == "/" + namespace + "/" + project + suffix
    requires !IsNullOrWhiteSpace(namespace) && HasNoEdge(namespace, '/')
    requires IsNullOrWhiteSpace(project) && '/' !in project && EqualsIgnoreCase(suffix, ".git")
    ensures TryParsePath(uri, path) == Failure(BlankProjectName)
  {
    RemotePathTrimmed(uri, namespace, project, suffix);
    StrippedProjectPath(namespace, project, suffix);
    SplitOfProjectPath(namespace, project);
  }

  /**
   * A project path with no '/' before ".git", as in "//repo.git", has no
   * namespace and is rejected as an invalid project path.
   */
  lemma NoNamespaceRejected(uri: Uri, path: string, project: string, suffix: string)
    requires uri.path == "/" + project + suffix
    requires !IsNullOrWhiteSpace(project) && '/' !in project && EqualsIgnoreCase(suffix, ".git")
    ensures TryParsePath(uri, path) == Failure(InvalidProjectPath(project))
  {
    var p := project + suffix;
    assert |suffix| == 4 && FoldCase(suffix)[3] == 't';
    assert p[0] == project[0];
    assert p[|p| - 1] == suffix[3];
    assert uri.path == "/" + p;
    TrimmedPathOfAbsolute(uri, p);
    assert p[|p| - 4..] == suffix;
    assert RemoveSuffixIgnoreCase(p, ".git") == project;
  }

  /**
   * A remote url, absolute or in SCP form, whose uri has a remote scheme and
   * the path /namespace/project.git parses to that project.
   */
  lemma ParsesRemoteUrl(url: string, absUri: UriOracle, uri: Uri, namespace: string, project: string, suffix: string)
    requires !IsNullOrWhiteSpace(url) && TryGetUri(url, absUri) == Some(uri) && IsRemoteScheme(uri.scheme)
    requires uri.path == "/" + namespace + "/" + project + suffix
    requires !IsNullOrWhiteSpace(uri.host) && !IsNullOrWhiteSpace(namespace) && !IsNullOrWhiteSpace(project)
    requires HasNoEdge(namespace, '/') && '/' !in project && EqualsIgnoreCase(suffix, ".git")
    ensures TryParseUrl(url, absUri) == Success(ProjectInfo(uri.host, namespace, project))
  {
    ParseOfRemotePath(uri, TrimmedPath(uri), namespace, project, suffix);
    ParseOfRemoteUri(url, absUri, uri, ProjectInfo(uri.host, namespace, project));
  }

  lemma ParseOfRemoteUri(url: string, absUri: UriOracle, uri: Uri, x: ProjectInfo)
    requires !IsNullOrWhiteSpace(url) && TryGetUri(url, absUri) == Some(uri) && IsRemoteScheme(uri.scheme)
    requires TryParsePath(uri, TrimmedPath(uri)) == Success(x)
    ensures TryParseUrl(url, absUri) == Success(x)
  {
    RemoteSchemeAgrees(uri, SupportedSchemes);
    ParseOfSupportedUrl(url, TryCreateUri(absUri), SupportedSchemes, TryParsePath, uri, TrimmedPath(uri), x);
  }

  /**
   * The SCP form userAndHost:namespace/project.git, which the uri parser
   * does not take as absolute, parses to the project of the ssh uri it is
   * rewritten into; the namespace may hold several groups.
   */
  lemma ParsesScpRemoteUrl(userAndHost: string, namespace: string, project: string, suffix: string, absUri: UriOracle, uri: Uri)
    requires !IsNullOrWhiteSpace(userAndHost) && ':' !in userAndHost
    requires ':' !in namespace && ':' !in project && ':' !in suffix
    requires absUri(userAndHost + ":" + (namespace + "/" + project + suffix)).None?
    requires absUri("ssh://" + userAndHost + "/" + (namespace + "/" + project + suffix)) == Some(uri)
    requires FoldCase(uri.scheme) == "ssh" && uri.path == "/" + namespace + "/" + project + suffix
    requires !IsNullOrWhiteSpace(uri.host) && !IsNullOrWhiteSpace(namespace) && !IsNullOrWhiteSpace(project)
    requires HasNoEdge(namespace, '/') && '/' !in project && EqualsIgnoreCase(suffix, ".git")
    ensures TryParseUrl(userAndHost + ":" + (namespace + "/" + project + suffix), absUri)
      == Success(ProjectInfo(uri.host, namespace, project))
  {
    var path := namespace + "/" + project + suffix;
    assert path[0] == namespace[0];
    ScpUri(userAndHost, path, absUri);
    var url := userAndHost + ":" + path;
    assert !IsNullOrWhiteSpace(url) by {
      var i :| 0 <= i < |userAndHost| && !IsWhiteSpace(userAndHost[i]);
      assert url[i] == userAndHost[i];
    }
    ParsesRemoteUrl(url, absUri, uri, namespace, project, suffix);
  }
}
