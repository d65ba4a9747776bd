/** GitHubPullRequestInfo: a pull request of a GitHub project, identified by its project and its number. */
module GitHubPullRequestInfo {
  import opened Wrappers
  import opened Errors
  import opened Numbers
  import opened Hashing
  import Proj = GitHubProjectInfo

  datatype PullRequestInfo = PullRequestInfo(project: Proj.ProjectInfo, number: int32)

  /** The constructor: the number must be positive, then the project must not be null. */
  function New(project: Option<Proj.ProjectInfo>, number: int32): (r: Result<PullRequestInfo, ArgumentError>)
    ensures number <= 0 ==> r == Failure(OutOfRange(Number))
    ensures number > 0 && project.None? ==> r == Failure(NullArgument(Project))
    ensures r.Success? <==> number > 0 && project.Some?
    ensures r.Success? ==> r.value.number >= 1 && Some(r.value.project) == project && r.value.number == number
  {
    if number <= 0 then Failure(OutOfRange(Number))
    else if project.None? then Failure(NullArgument(Project))
    else Success(PullRequestInfo(project.value, number))
  }

  /** The key Equals compares and GetHashCode reads: the project's key and the number. */
  function Key(x: PullRequestInfo): (seq<string>, int32) {
    (Proj.Key(x.project), x.number)
  }

  /** Equals(other): other is not null, the projects are equal and the numbers are equal. */
  function Equals(x: PullRequestInfo, other: Option<PullRequestInfo>): (r: bool)
    ensures r <==> other.Some? && Key(x) == Key(other.value)
    ensures other == Some(x) ==> r
    ensures other.None? ==> !r
  {
    other.Some? && Proj.Equals(x.project, Some(other.value.project)) && x.number == other.value.number
  }

  /** The hash of a key: the project's hash combined with the hash of the second part. */
  function KeyHash(k: (seq<string>, int32)): bv32
    requires |k.0| == 3
  {
    Combine(Proj.KeyHash(k.0), Int32Hash(k.1))
  }

  /** GetHashCode: the project's hash combined with the number's. */
  function GetHashCode(x: PullRequestInfo): (r: bv32)
    ensures r == KeyHash(Key(x))
  {
    Combine(Proj.GetHashCode(x.project), Int32Hash(x.number))
  }

  /** Equals is an equivalence relation and nothing equals null. */
  lemma EqualsIsEquivalence(x: PullRequestInfo, y: PullRequestInfo, z: PullRequestInfo)
    ensures Equals(x, Some(x))
    ensures Equals(x, Some(y)) ==> Equals(y, Some(x))
    ensures Equals(x, Some(y)) && Equals(y, Some(z)) ==> Equals(x, Some(z))
    ensures !Equals(x, None)
  {
    Proj.EqualsIsEquivalence(x.project, y.project, z.project);
  }

  /** Equal values have equal hash codes. */
  lemma EqualsImpliesEqualHash(x: PullRequestInfo, y: PullRequestInfo)
    requires Equals(x, Some(y))
    ensures GetHashCode(x) == GetHashCode(y)
  {
    Proj.EqualsImpliesEqualHash(x.project, y.project);
  }


  /** Two equal projects with the same number are equal; another repository or another number is not. */
  lemma EqualityExamples()
    ensures Equals(PullRequestInfo(Proj.ProjectInfo("example.com", "owner", "repo"), 1), Some(PullRequestInfo(Proj.ProjectInfo("example.com", "owner", "repo"), 1)))
    ensures !Equals(PullRequestInfo(Proj.ProjectInfo("example.com", "owner", "repo1"), 1), Some(PullRequestInfo(Proj.ProjectInfo("example.com", "owner", "repo2"), 1)))
    ensures !Equals(PullRequestInfo(Proj.ProjectInfo("example.com", "owner", "repo1"), 1), Some(PullRequestInfo(Proj.ProjectInfo("example.com", "owner", "repo1"), 23)))
  {
    assert Text.FoldCase("repo1")[4] != Text.FoldCase("repo2")[4];
  }
}
