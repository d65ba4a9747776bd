/** GitHubProjectInfo: a GitHub repository, identified by host, owner and repository name. */
module GitHubProjectInfo {
  import opened Wrappers
  import opened Text
  import opened Errors
  import opened Hashing

  datatype ProjectInfo = ProjectInfo(host: string, owner: string, repository: string)

  /** What the constructor guarantees of every instance. */
  predicate Valid(p: ProjectInfo) {
    !IsNullOrWhiteSpace(p.host) && !IsNullOrWhiteSpace(p.owner) && !IsNullOrWhiteSpace(p.repository)
  }

  /**
   * The constructor: host, owner and repository are checked for blankness in
   * that order, and stored as given.
   */
  function New(host: string, owner: string, repository: string): (r: Result<ProjectInfo, ArgumentError>)
    ensures IsNullOrWhiteSpace(host) ==> r == Failure(NullOrWhiteSpace(Host))
    ensures !IsNullOrWhiteSpace(host) && IsNullOrWhiteSpace(owner) ==> r == Failure(NullOrWhiteSpace(Owner))
    ensures !IsNullOrWhiteSpace(host) && !IsNullOrWhiteSpace(owner) && IsNullOrWhiteSpace(repository) ==>
      r == Failure(NullOrWhiteSpace(Repository))
    ensures r.Success? ==> Valid(r.value) && r.value.host == host && r.value.owner == owner && r.value.repository == repository
  {
    if IsNullOrWhiteSpace(host) then Failure(NullOrWhiteSpace(Host))
    else if IsNullOrWhiteSpace(owner) then Failure(NullOrWhiteSpace(Owner))
    else if IsNullOrWhiteSpace(repository) then Failure(NullOrWhiteSpace(Repository))
    else Success(ProjectInfo(host, owner, repository))
  }

  /** The case-insensitive key of a project: the fields Equals compares and GetHashCode reads, case-folded. */
  function Key(p: ProjectInfo): seq<string> {
    [FoldCase(p.host), FoldCase(p.owner), FoldCase(p.repository)]
  }

  /** Equals(other): other is not null and every field is equal ignoring case. */
  function Equals(p: ProjectInfo, other: Option<ProjectInfo>): (r: bool)
    ensures r <==> other.Some? && Key(p) == Key(other.value)
    ensures other == Some(p) ==> r
    ensures other.None? ==> !r
  {
    && other.Some?
    && EqualsIgnoreCase(p.host, other.value.host)
    && EqualsIgnoreCase(p.owner, other.value.owner)
    && EqualsIgnoreCase(p.repository, other.value.repository)
  }

  /** The hash of a key: the field hashes combined as GetHashCode does. */
  function KeyHash(k: seq<string>): bv32
    requires |k| == 3
  {
    Combine(Polynomial(k[0]), Polynomial(k[1])) ^ Polynomial(k[2])
  }

  /** GetHashCode: the case-insensitive hashes of the fields, combined; it reads only the key. */
  function GetHashCode(p: ProjectInfo): (r: bv32)
    ensures r == KeyHash(Key(p))
  {
    var k := Key(p);
    assert HashIgnoreCase(p.host) == Polynomial(k[0]);
    assert HashIgnoreCase(p.owner) == Polynomial(k[1]);
    assert HashIgnoreCase(p.repository) == Polynomial(k[2]);
    Combine(HashIgnoreCase(p.host), HashIgnoreCase(p.owner)) ^ HashIgnoreCase(p.repository)
  }

  /** Equals is an equivalence relation and nothing equals null. */
  lemma EqualsIsEquivalence(x: ProjectInfo, y: ProjectInfo, z: ProjectInfo)
    ensures Equals(x, Some(x))
    ensures Equals(x, Some(y)) ==> Equals(y, Some(x))
    ensures Equals(x, Some(y)) && Equals(y, Some(z)) ==> Equals(x, Some(z))
    ensures !Equals(x, None)
  {
  }

  /** Equal values have equal hash codes. */
  lemma EqualsImpliesEqualHash(x: ProjectInfo, y: ProjectInfo)
    requires Equals(x, Some(y))
    ensures GetHashCode(x) == GetHashCode(y)
  {
  }

  /** Construction fails for a blank owner or repository, whatever the other arguments. */
  lemma NewRejectsBlank(host: string, name: string)
    requires !IsNullOrWhiteSpace(host) && !IsNullOrWhiteSpace(name)
    ensures New(host, "", name) == Failure(NullOrWhiteSpace(Owner))
    ensures New(host, " ", name) == Failure(NullOrWhiteSpace(Owner))
    ensures New(host, name, "") == Failure(NullOrWhiteSpace(Repository))
    ensures New(host, name, "\t") == Failure(NullOrWhiteSpace(Repository))
  {
  }
}
