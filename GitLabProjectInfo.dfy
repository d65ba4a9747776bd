/**
 * GitLabProjectInfo: a GitLab project, identified by host, namespace (one or
 * more groups joined by '/') and project name. The class's own file is not
 * part of this model; it is taken to check and compare its fields as
 * GitHubProjectInfo does, which is what the tests of the GitLab parsers rely on.
 */
module GitLabProjectInfo {
  import opened Wrappers
  import opened Text
  import opened Errors
  import opened Hashing

  datatype ProjectInfo = ProjectInfo(host: string, namespace: string, project: string)

  predicate Valid(p: ProjectInfo) {
    !IsNullOrWhiteSpace(p.host) && !IsNullOrWhiteSpace(p.namespace) && !IsNullOrWhiteSpace(p.project)
  }

  /** The constructor: host, namespace and project name must not be blank, checked in that order. */
  function New(host: string, namespace: string, project: string): (r: Result<ProjectInfo, ArgumentError>)
    ensures IsNullOrWhiteSpace(host) ==> r == Failure(NullOrWhiteSpace(Host))
    ensures !IsNullOrWhiteSpace(host) && IsNullOrWhiteSpace(namespace) ==> r == Failure(NullOrWhiteSpace(Namespace))
    ensures !IsNullOrWhiteSpace(host) && !IsNullOrWhiteSpace(namespace) && IsNullOrWhiteSpace(project) ==>
      r == Failure(NullOrWhiteSpace(ProjectName))
    ensures r.Success? ==> Valid(r.value) && r.value.host == host && r.value.namespace == namespace && r.value.project == project
  {
    if IsNullOrWhiteSpace(host) then Failure(NullOrWhiteSpace(Host))
    else if IsNullOrWhiteSpace(namespace) then Failure(NullOrWhiteSpace(Namespace))
    else if IsNullOrWhiteSpace(project) then Failure(NullOrWhiteSpace(ProjectName))
    else Success(ProjectInfo(host, namespace, project))
  }

  /** The case-insensitive key of a project: the fields Equals compares and GetHashCode reads, case-folded. */
  function Key(p: ProjectInfo): seq<string> {
    [FoldCase(p.host), FoldCase(p.namespace), FoldCase(p.project)]
  }

  /** Equals(other): other is not null and every field is equal ignoring case. */
  function Equals(p: ProjectInfo, other: Option<ProjectInfo>): (r: bool)
    ensures r <==> other.Some? && Key(p) == Key(other.value)
    ensures other == Some(p) ==> r
    ensures other.None? ==> !r
  {
    && other.Some?
    && EqualsIgnoreCase(p.host, other.value.host)
    && EqualsIgnoreCase(p.namespace, other.value.namespace)
    && EqualsIgnoreCase(p.project, other.value.project)
  }

  /** The hash of a key: the field hashes combined as GetHashCode does. */
  function KeyHash(k: seq<string>): bv32
    requires |k| == 3
  {
    Combine(Polynomial(k[0]), Polynomial(k[1])) ^ Polynomial(k[2])
  }

  /** GetHashCode: the case-insensitive hashes of the fields, combined; it reads only the key. */
  function GetHashCode(p: ProjectInfo): (r: bv32)
    ensures r == KeyHash(Key(p))
  {
    var k := Key(p);
    assert HashIgnoreCase(p.host) == Polynomial(k[0]);
    assert HashIgnoreCase(p.namespace) == Polynomial(k[1]);
    assert HashIgnoreCase(p.project) == Polynomial(k[2]);
    Combine(HashIgnoreCase(p.host), HashIgnoreCase(p.namespace)) ^ HashIgnoreCase(p.project)
  }

  /** Equals is an equivalence relation and nothing equals null. */
  lemma EqualsIsEquivalence(x: ProjectInfo, y: ProjectInfo, z: ProjectInfo)
    ensures Equals(x, Some(x))
    ensures Equals(x, Some(y)) ==> Equals(y, Some(x))
    ensures Equals(x, Some(y)) && Equals(y, Some(z)) ==> Equals(x, Some(z))
    ensures !Equals(x, None)
  {
  }

  /** Equal values have equal hash codes. */
  lemma EqualsImpliesEqualHash(x: ProjectInfo, y: ProjectInfo)
    requires Equals(x, Some(y))
    ensures GetHashCode(x) == GetHashCode(y)
  {
  }

  /** A project named repoName equals the one named reponame. */
  lemma EqualsIgnoresCaseExample()
    ensures Equals(ProjectInfo("gitlab.com", "user", "repoName"), Some(ProjectInfo("gitlab.com", "user", "reponame")))
  {
    assert FoldCase("repoName") == FoldCase("reponame");
  }
}
