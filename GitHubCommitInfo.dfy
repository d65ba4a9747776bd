/** GitHubCommitInfo: a commit of a GitHub project, identified by its project and its commit id. */
module GitHubCommitInfo {
  import opened Wrappers
  import opened Text
  import opened Errors
  import opened Hashing
  import Proj = GitHubProjectInfo

  datatype CommitInfo = CommitInfo(project: Proj.ProjectInfo, commitId: string)

  /** The constructor: the commit id must not be blank, then the project must not be null; the id is stored as given. */
  function New(project: Option<Proj.ProjectInfo>, commitId: string): (r: Result<CommitInfo, ArgumentError>)
    ensures IsNullOrWhiteSpace(commitId) ==> r == Failure(NullOrWhiteSpace(CommitId))
    ensures !IsNullOrWhiteSpace(commitId) && project.None? ==> r == Failure(NullArgument(Project))
    ensures r.Success? <==> !IsNullOrWhiteSpace(commitId) && project.Some?
    ensures r.Success? ==> Some(r.value.project) == project && r.value.commitId == commitId
  {
    if IsNullOrWhiteSpace(commitId) then Failure(NullOrWhiteSpace(CommitId))
    else if project.None? then Failure(NullArgument(Project))
    else Success(CommitInfo(project.value, commitId))
  }

  /** The key Equals compares and GetHashCode reads: the project's key and the commit id, case-folded. */
  function Key(x: CommitInfo): (seq<string>, string) {
    (Proj.Key(x.project), FoldCase(x.commitId))
  }

  /** Equals(other): other is not null, the projects are equal and the ids are equal ignoring case. */
  function Equals(x: CommitInfo, other: Option<CommitInfo>): (r: bool)
    ensures r <==> other.Some? && Key(x) == Key(other.value)
    ensures other == Some(x) ==> r
    ensures other.None? ==> !r
  {
    other.Some? && Proj.Equals(x.project, Some(other.value.project)) && EqualsIgnoreCase(x.commitId, other.value.commitId)
  }

  /** The hash of a key: the project's hash combined with the hash of the second part. */
  function KeyHash(k: (seq<string>, string)): bv32
    requires |k.0| == 3
  {
    Combine(Proj.KeyHash(k.0), Polynomial(k.1))
  }

  /** GetHashCode: the project's hash combined with the id's case-insensitive hash. */
  function GetHashCode(x: CommitInfo): (r: bv32)
    ensures r == KeyHash(Key(x))
  {
    Combine(Proj.GetHashCode(x.project), HashIgnoreCase(x.commitId))
  }

  /** Equals is an equivalence relation and nothing equals null. */
  lemma EqualsIsEquivalence(x: CommitInfo, y: CommitInfo, z: CommitInfo)
    ensures Equals(x, Some(x))
    ensures Equals(x, Some(y)) ==> Equals(y, Some(x))
    ensures Equals(x, Some(y)) && Equals(y, Some(z)) ==> Equals(x, Some(z))
    ensures !Equals(x, None)
  {
    Proj.EqualsIsEquivalence(x.project, y.project, z.project);
  }

  /** Equal values have equal hash codes. */
  lemma EqualsImpliesEqualHash(x: CommitInfo, y: CommitInfo)
    requires Equals(x, Some(y))
    ensures GetHashCode(x) == GetHashCode(y)
  {
    Proj.EqualsImpliesEqualHash(x.project, y.project);
  }


  /** "abc123" equals "ABC123"; another id or another project is not equal. */
  lemma EqualityExamples()
    ensures Equals(CommitInfo(Proj.ProjectInfo("example.com", "owner", "repo"), "abc123"), Some(CommitInfo(Proj.ProjectInfo("example.com", "owner", "repo"), "ABC123")))
    ensures !Equals(CommitInfo(Proj.ProjectInfo("example.com", "owner", "repo1"), "abc123"), Some(CommitInfo(Proj.ProjectInfo("example.com", "owner", "repo1"), "def467")))
    ensures !Equals(CommitInfo(Proj.ProjectInfo("example.com", "owner", "repo1"), "abc123"), Some(CommitInfo(Proj.ProjectInfo("example.com", "owner", "repo2"), "abc123")))
  {
    assert FoldCase("abc123") == FoldCase("ABC123");
    assert FoldCase("abc123")[0] != FoldCase("def467")[0];
    assert FoldCase("repo1")[4] != FoldCase("repo2")[4];
  }
}
