# Semantic URL parser: a Dafny model

This project models Grynwald.SemanticUrlParser. The library turns GitHub and GitLab urls into typed values:

- `https://github.com/<owner>/<repo>/issues/<n>` becomes a GitHub issue, with `pull/<n>` for pull requests and `commit/<id>` for commits.
- `https://gitlab.com/<group>/<subgroup>/<project>/-/issues/<n>` and `.../-/commit/<id>` become GitLab issues and commits.
- Git remote urls, both `https://github.com/owner/repo.git` and the SCP form `git@gitlab.com:group/project.git`, become a GitHub or GitLab project.

Every url parser runs the same chain of checks, in this order:

1. The url is blank.
2. No uri can be made of the url.
3. The uri's scheme is not supported.
4. The path, with '/' trimmed from both ends, does not fit the parser's grammar.

The model follows that chain. Each check is a separate `Result` error kind, so the order in which the checks run is part of every contract.

The value classes are immutable and their equality ignores case. They become datatypes with a constructor function that returns either the value or the argument exception. Their `Equals` is a predicate over an optional value (null is `None`), and `GetHashCode` is a 32-bit function.

All of the library's code is pure: each method is a chain of early returns, and each loop only searches a list. The model is therefore made of functions and lemmas throughout.

Module layout, one module per source class:

| Area | Modules |
|---|---|
| .NET primitives | `Text`, `Segments`, `Numbers`, `Hashing` |
| Library utilities | `StringExtensions`, `ArrayExtensions`, `GitRemoteUrl` |
| Shared parser skeleton | `UrlParser` |
| GitHub | `GitHubProjectInfo`, `GitHubIssueInfo`, `GitHubPullRequestInfo`, `GitHubCommitInfo`, `GitHubUrlParser`, `GitHubWebUrlParser`, `GitHubIssueUrlParser`, `GitHubPullRequestUrlParser`, `GitHubCommitUrlParser`, `GitHubRemoteUrlParser`, `GitHubUrlParserRemoteUrl` |
| GitLab | `GitLabProjectInfo`, `GitLabIssueInfo`, `GitLabCommitInfo`, `GitLabUrlParser`, `GitLabWebUrlParser`, `GitLabIssueUrlParser`, `GitLabCommitUrlParser`, `GitLabRemoteUrlParser`, `GitLabUrlParserRemoteUrl` |

`GitHubUrlParserRemoteUrl` and `GitLabUrlParserRemoteUrl` are the older `ParseRemoteUrl` entry points, which are self-contained.

`System.Uri` is not modelled. It is a parameter `absUri: string -> Option<Uri>`, where a `Uri` holds the scheme, the host and the percent-decoded path. Every lemma holds for every such uri parser.

## Model

| member | source | states |
|---|---|---|
| StringExtensions.RemoveSuffix | src/SemanticUrlParser/Utilities/StringExtensions.cs:5-14 | If value ends with suffix, result + suffix == value. Otherwise the result is value unchanged. The result is always a prefix of value, with length \|value\| or \|value\| - \|suffix\|. |
| StringExtensions.RemoveSuffixIgnoreCase | src/SemanticUrlParser/GitHub/GitHubRemoteUrlParser.cs:44 | The overload with OrdinalIgnoreCase. When value ends with suffix ignoring case, exactly \|suffix\| characters are removed, and they equal suffix ignoring case. Otherwise value is unchanged. The result is a prefix of value. |
| StringExtensions.RemoveSuffixOfAppend | src/SemanticUrlParser/Utilities/StringExtensions.cs:7-11 | Appending a suffix and then removing it gives back the string. |
| StringExtensions.RemoveSuffixOnce | src/SemanticUrlParser/Utilities/StringExtensions.cs:7-11 | Only one occurrence is removed: "a.git.git" minus ".git" is "a.git". |
| StringExtensions.RemoveSuffixIgnoreCaseOnce | src/SemanticUrlParser/GitHub/GitHubRemoteUrlParser.cs:44 | The case-insensitive overload also removes one occurrence only: "a.git.GIT" minus ".git" is "a.git". |
| StringExtensions.RemoveSuffixExamples | src/SemanticUrlParser.Test/Utilities/StringExtensionsTest.cs:12-28 | An empty suffix is the identity. "some-string" minus "-string" is "some". A suffix that does not match leaves the input alone. "-STRING" is removed only by the case-insensitive overload. |
| ArrayExtensions.Deconstruct2 | src/SemanticUrlParser/Utilities/ArrayExtensions.cs:7-16 | Fails, reporting the length, exactly when the length is not 2. On success the array is exactly [t1, t2]. The array is only read. |
| ArrayExtensions.Deconstruct4 | src/SemanticUrlParser/Utilities/ArrayExtensions.cs:18-29 | Fails, reporting the length, exactly when the length is not 4. On success the array is exactly [t1, t2, t3, t4]. |
| ArrayExtensions.DeconstructOfDisplay | src/SemanticUrlParser.Test/Utilities/ArrayExtensionsTest.cs:19-31 | Deconstructing a 2- or 4-element array gives back its elements in order. |
| GitRemoteUrl.ScpCandidate | src/SemanticUrlParser/Utilities/GitRemoteUrl.cs:43-53 | An SCP candidate exists exactly when the url, split at ':' with empty pieces removed, leaves 2 fragments. The candidate is "ssh://" + fragment 0 + "/" + fragment 1 less its leading '/'. |
| GitRemoteUrl.TryParseScpUrl | src/SemanticUrlParser/Utilities/GitRemoteUrl.cs:39-54 | No candidate means no uri. Otherwise the uri parser alone decides on the candidate. |
| GitRemoteUrl.TryGetUri | src/SemanticUrlParser/Utilities/GitRemoteUrl.cs:26-36 | An absolute uri is returned as is, and the SCP fallback is tried only when there is none. |
| GitRemoteUrl.ConsecutiveColonsCollapse | src/SemanticUrlParser/Utilities/GitRemoteUrl.cs:43 | "x::y" yields the same candidate as "x:y". |
| GitRemoteUrl.ScpRewrite | src/SemanticUrlParser/Utilities/GitRemoteUrl.cs:50-53 | userAndHost:path, with both parts non-empty and free of ':', becomes ssh://userAndHost/path, less the leading '/' of the path. |
| GitRemoteUrl.ScpLeadingSlashesDropped | src/SemanticUrlParser/Utilities/GitRemoteUrl.cs:51 | "host:/path" and "host:path" give the same candidate. |
| GitRemoteUrl.ScpUri | src/SemanticUrlParser/Utilities/GitRemoteUrl.cs:26-54 | An SCP url that is not an absolute uri is looked up as ssh://userAndHost/path. |
| GitRemoteUrl.ScpExample | src/SemanticUrlParser.Test/GitHub/GitHubRemoteUrlParserTest.cs:53 | git@github.com:owner/repo-name.git yields the uri with host github.com and path /owner/repo-name.git. |
| UrlParser.CheckScheme | src/SemanticUrlParser/_Common/UrlParser.cs:72-83 | True exactly when some supported scheme equals uri.Scheme under ordinal ignore-case comparison. |
| UrlParser.CheckSchemeIgnoresCase | src/SemanticUrlParser/_Common/UrlParser.cs:76 | Changing the letter case of the scheme never changes the result. |
| UrlParser.CheckSchemeOfEmpty | src/SemanticUrlParser/_Common/UrlParser.cs:74-82 | An empty scheme list supports nothing. |
| UrlParser.CheckSchemeOfSameSet | src/SemanticUrlParser/_Common/UrlParser.cs:74-82 | Only the set of schemes matters, not their order or duplicates. |
| UrlParser.TrimmedPath | src/SemanticUrlParser/_Common/UrlParser.cs:65 | The path handed to TryParsePath has no '/' at either end. It is the decoded path with only '/' removed from its two ends. |
| UrlParser.TrimmedPathOfAbsolute | src/SemanticUrlParser/_Common/UrlParser.cs:65 | "/" + p, where p has no '/' at either end, is handed on as p. |
| UrlParser.TrailingSlashIgnored | src/SemanticUrlParser.Test/GitLab/GitLabIssueUrlParserTest.cs:79-80 | A trailing '/' on the path changes nothing that reaches TryParsePath. |
| UrlParser.TryParseUrlWithError | src/SemanticUrlParser/_Common/UrlParser.cs:43-68 | The checks run in this order: a blank url, then InvalidUri when no uri can be made, then UnsupportedScheme(scheme). Otherwise the result is exactly TryParsePath(uri, trimmed path). A success implies that all three checks passed. |
| UrlParser.TryParseUrl | src/SemanticUrlParser/_Common/UrlParser.cs:39-40 | Succeeds exactly when the three-output version does, with the same result. On failure the result is null. |
| UrlParser.ParseUrl | src/SemanticUrlParser/_Common/UrlParser.cs:21-31 | Returns r exactly when TryParseUrl succeeds with r. Otherwise it is an ArgumentException carrying the message and naming url. |
| UrlParser.BlankUrlRejected | src/SemanticUrlParser/_Common/UrlParser.cs:47-51 | A blank url fails for every uri parser, scheme list and path grammar, and ParseUrl reports BlankUrl. |
| UrlParser.WebSchemeSupported | src/SemanticUrlParser/GitHub/GitHubWebUrlParser.cs:14 | http and https in any letter case are supported by ["http", "https"]. |
| UrlParser.RemoteSchemeAgrees | src/SemanticUrlParser/GitHub/GitHubUrlParser.RemoteUrl.cs:55-59 | The lower-cased switch on http/https/ssh accepts exactly the schemes that CheckScheme accepts over ["http", "https", "ssh"]. |
| UrlParser.IsRemoteScheme | src/SemanticUrlParser/GitHub/GitHubUrlParser.RemoteUrl.cs:55-59 | The `switch (uri.Scheme.ToLower())` accepts exactly http, https and ssh, ignoring case. |
| UrlParser.WebSchemeAgrees | src/SemanticUrlParser/GitHub/GitHubWebUrlParser.cs:14 | Checking a uri against {"http", "https"} is the same as asking whether its scheme is http or https, ignoring case. |
| UrlParser.ParseOfSupportedUrl | src/SemanticUrlParser/_Common/UrlParser.cs:59-67 | A url with a supported scheme whose trimmed path parses to x is parsed to x. |
| GitHubUrlParser.CheckScheme | src/SemanticUrlParser/GitHub/GitHubUrlParser.cs:10-21 | True exactly when some listed scheme equals uri.Scheme ignoring case. |
| GitHubUrlParser.TryCreateProjectInfo | src/SemanticUrlParser/GitHub/GitHubWebUrlParser.cs:42-45 | Checks a blank owner, then a blank repository. Succeeds exactly when host, owner and repository are all non-blank, and the result is the verbatim project. |
| GitHubProjectInfo.New | src/SemanticUrlParser/GitHub/GitHubProjectInfo.cs:34-48 | Checks host, then owner, then repository for blankness, in that order. Every success is valid and stores the arguments verbatim. |
| GitHubProjectInfo.Equals | src/SemanticUrlParser/GitHub/GitHubProjectInfo.cs:67-73 | Host, owner and repository are each compared ignoring case, and null is never equal. |
| GitHubProjectInfo.GetHashCode | src/SemanticUrlParser/GitHub/GitHubProjectInfo.cs:52-61 | Computed from the case-folded host, owner and repository only, as `H(host) * 397 ^ H(owner) ^ H(repository)`. |
| GitHubProjectInfo.EqualsIsEquivalence | src/SemanticUrlParser/GitHub/GitHubProjectInfo.cs:67-73 | Equals is reflexive, symmetric and transitive, and Equals(null) is false. |
| GitHubProjectInfo.EqualsImpliesEqualHash | src/SemanticUrlParser/GitHub/GitHubProjectInfo.cs:52-61 | Values that are equal ignoring case have equal hash codes. |
| GitHubProjectInfo.NewRejectsBlank | src/SemanticUrlParser.Test/GitHub/GitHubRemoteUrlParserTest.cs:30-35 | An empty or whitespace owner or repository is rejected, naming the parameter. |
| GitHubIssueInfo.New | src/SemanticUrlParser/GitHub/GitHubIssueInfo.cs:29-36 | number <= 0 gives OutOfRange. Otherwise a null project gives NullArgument. Succeeds exactly when number >= 1 and the project is given, storing both. |
| GitHubIssueInfo.Equals | src/SemanticUrlParser/GitHub/GitHubIssueInfo.cs:54-57 | The projects are equal and the numbers are the same, and null is never equal. |
| GitHubIssueInfo.GetHashCode | src/SemanticUrlParser/GitHub/GitHubIssueInfo.cs:43-51 | `project hash * 397 ^ number hash`, computed from the case-folded project and the number only. |
| GitHubIssueInfo.EqualsIsEquivalence | src/SemanticUrlParser/GitHub/GitHubIssueInfo.cs:54-57 | Equal projects and equal numbers form an equivalence relation, and Equals(null) is false. |
| GitHubIssueInfo.EqualsImpliesEqualHash | src/SemanticUrlParser/GitHub/GitHubIssueInfo.cs:43-51 | Equal values have equal hash codes. |
| GitHubIssueInfo.EqualityExamples | src/SemanticUrlParser.Test/GitHub/GitHubIssueInfoTest.cs:18-27 | Equal and unequal pairs from the tests: another repository or another number is unequal. |
| GitHubPullRequestInfo.New | src/SemanticUrlParser/GitHub/GitHubPullRequestInfo.cs:27-34 | number <= 0 gives OutOfRange. Otherwise a null project gives NullArgument. Succeeds exactly when number >= 1 and the project is given. |
| GitHubPullRequestInfo.Equals | src/SemanticUrlParser/GitHub/GitHubPullRequestInfo.cs:52-55 | The projects are equal and the numbers are the same, and null is never equal. |
| GitHubPullRequestInfo.GetHashCode | src/SemanticUrlParser/GitHub/GitHubPullRequestInfo.cs:41-49 | `project hash * 397 ^ number hash`, computed from the case-folded project and the number only. |
| GitHubPullRequestInfo.EqualsIsEquivalence | src/SemanticUrlParser/GitHub/GitHubPullRequestInfo.cs:52-55 | Equals is an equivalence relation, and Equals(null) is false. |
| GitHubPullRequestInfo.EqualsImpliesEqualHash | src/SemanticUrlParser/GitHub/GitHubPullRequestInfo.cs:41-49 | Equal values have equal hash codes. |
| GitHubPullRequestInfo.EqualityExamples | src/SemanticUrlParser.Test/GitHub/GitHubPullRequestInfoTest.cs:18-27 | Equal and unequal pairs from the tests. |
| GitHubCommitInfo.New | src/SemanticUrlParser/GitHub/GitHubCommitInfo.cs:29-36 | A blank commit id is rejected, naming commitId. Otherwise a null project gives NullArgument. On success the id is stored verbatim. |
| GitHubCommitInfo.Equals | src/SemanticUrlParser/GitHub/GitHubCommitInfo.cs:54-57 | The projects are equal and the ids are equal ignoring case, and null is never equal. |
| GitHubCommitInfo.GetHashCode | src/SemanticUrlParser/GitHub/GitHubCommitInfo.cs:43-51 | `project hash * 397 ^ id hash`, computed from the case-folded project and id only. |
| GitHubCommitInfo.EqualsIsEquivalence | src/SemanticUrlParser/GitHub/GitHubCommitInfo.cs:54-57 | Equal projects with ids equal ignoring case form an equivalence relation, and Equals(null) is false. |
| GitHubCommitInfo.EqualsImpliesEqualHash | src/SemanticUrlParser/GitHub/GitHubCommitInfo.cs:43-51 | Equal values have equal hash codes. |
| GitHubCommitInfo.EqualityExamples | src/SemanticUrlParser.Test/GitHub/GitHubCommitInfoTest.cs:18-28 | "abc123" equals "ABC123". Another id or another project is unequal. |
| GitHubWebUrlParser.TryParsePath | src/SemanticUrlParser/GitHub/GitHubWebUrlParser.cs:27-62 | Checks run in this order, and the first failure wins: exactly 4 segments, then the project, then the link type ignoring case (naming both values), then the id parser's own error. A success is CreateResult(Project(uri.Host, s0, s1), id). |
| GitHubWebUrlParser.ParseOfAssembledPath | src/SemanticUrlParser/GitHub/GitHubWebUrlParser.cs:33-61 | The inverse: owner/repo/linktype/id, with valid parts, parses back to the result built from them. |
| GitHubWebUrlParser.WebPathTrimmed | src/SemanticUrlParser/_Common/UrlParser.cs:65 | The absolute path of a web link reaches TryParsePath without its leading '/'. |
| GitHubIssueUrlParser.TryParsePath | src/SemanticUrlParser/GitHub/GitHubIssueUrlParser.cs:28-63 | Checks 4 segments, then the project, then "issues" ignoring case (the message quotes 'issue'), then the number. It succeeds exactly when all four checks pass, giving IssueInfo(Project(host, owner, repo), n) with n >= 1. |
| GitHubIssueUrlParser.TryParseUrl | src/SemanticUrlParser/GitHub/GitHubIssueUrlParser.cs:25 | The whole parser: a non-blank url whose uri has an http or https scheme (in any case) gets exactly what its trimmed path parses to; otherwise blank url, invalid uri or unsupported scheme, in that order. |
| GitHubIssueUrlParser.AsIssueParserError | src/SemanticUrlParser/GitHub/GitHubIssueUrlParser.cs:48-52 | Only a wrong-link-type error changes: it quotes 'issue' and keeps the link type found. Every other error passes through. |
| GitHubIssueUrlParser.ParseOfIssuePath | src/SemanticUrlParser/GitHub/GitHubIssueUrlParser.cs:34-62 | owner/repo/issues/<decimal n>, with the link type in any case, parses back to issue n. |
| GitHubIssueUrlParser.OtherLinkTypeRejected | src/SemanticUrlParser/GitHub/GitHubIssueUrlParser.cs:48-52 | Any other link type, such as "pull", is rejected, naming the type found. |
| GitHubIssueUrlParser.AgreesWithWebUrlParser | src/SemanticUrlParser/GitHub/GitHubWebUrlParser.cs:27-62 | The parser equals the generic web parser for "issues" with the positive-number parser, except for the quoted link type in the message. |
| GitHubIssueUrlParser.ParsesIssueUrl | src/SemanticUrlParser.Test/GitHub/GitHubIssueUrlParserTest.cs:52-55 | An http or https url (any case) whose path is /owner/repo/issues/n parses to that issue. |
| GitHubPullRequestUrlParser.TryParsePath | src/SemanticUrlParser/GitHub/GitHubPullRequestUrlParser.cs:28-62 | Checks 4 segments, then the project, then "pull" ignoring case, then the number. It succeeds exactly when all four checks pass, giving PullRequestInfo(Project(host, owner, repo), n) with n >= 1. |
| GitHubPullRequestUrlParser.TryParseUrl | src/SemanticUrlParser/GitHub/GitHubPullRequestUrlParser.cs:25 | The whole parser: a non-blank url whose uri has an http or https scheme (in any case) gets exactly what its trimmed path parses to; otherwise blank url, invalid uri or unsupported scheme, in that order. |
| GitHubPullRequestUrlParser.ParseOfPullRequestPath | src/SemanticUrlParser/GitHub/GitHubPullRequestUrlParser.cs:34-61 | owner/repo/pull/<decimal n> parses back to pull request n. |
| GitHubPullRequestUrlParser.OtherLinkTypeRejected | src/SemanticUrlParser/GitHub/GitHubPullRequestUrlParser.cs:48-52 | Any other link type, such as "issues", is rejected, naming the type found. |
| GitHubPullRequestUrlParser.AgreesWithWebUrlParser | src/SemanticUrlParser/GitHub/GitHubWebUrlParser.cs:27-62 | The parser is exactly the generic web parser for "pull" with the positive-number parser. |
| GitHubPullRequestUrlParser.ParsesPullRequestUrl | src/SemanticUrlParser.Test/GitHub/GitHubPullRequestUrlParserTest.cs:58-61 | An http or https url whose path is /owner/repo/pull/n parses to that pull request. |
| GitHubCommitUrlParser.TryParsePath | src/SemanticUrlParser/GitHub/GitHubCommitUrlParser.cs:28-63 | Checks 4 segments, then the project, then "commit" ignoring case, then a non-blank id. It succeeds exactly when all four checks pass, and the id is kept verbatim. |
| GitHubCommitUrlParser.TryParseUrl | src/SemanticUrlParser/GitHub/GitHubCommitUrlParser.cs:26 | The whole parser: a non-blank url whose uri has an http or https scheme (in any case) gets exactly what its trimmed path parses to; otherwise blank url, invalid uri or unsupported scheme, in that order. |
| GitHubCommitUrlParser.ParseOfCommitPath | src/SemanticUrlParser/GitHub/GitHubCommitUrlParser.cs:34-61 | owner/repo/commit/id parses back to that commit with the id as written, with no hex or length check. |
| GitHubCommitUrlParser.BlankCommitIdRejected | src/SemanticUrlParser/GitHub/GitHubCommitUrlParser.cs:54-58 | A blank commit id is rejected. |
| GitHubCommitUrlParser.AgreesWithWebUrlParser | src/SemanticUrlParser/GitHub/GitHubWebUrlParser.cs:27-62 | The parser is exactly the generic web parser for "commit" with a blank-rejecting id parser. |
| GitHubCommitUrlParser.ParsesCommitUrl | src/SemanticUrlParser.Test/GitHub/GitHubCommitUrlParserTest.cs:60-62 | An http or https url whose path is /owner/repo/commit/id parses to that commit. |
| GitHubRemoteUrlParser.TryCreateUri | src/SemanticUrlParser/GitHub/GitHubRemoteUrlParser.cs:29 | Remote urls are turned into uris by GitRemoteUrl.TryGetUri. |
| GitHubRemoteUrlParser.TryParsePath | src/SemanticUrlParser/GitHub/GitHubRemoteUrlParser.cs:31-56 | A path not ending in ".git" (ignoring case) fails. Otherwise the path less one suffix must split into 2 segments, or NotRemoteUrl. Then the result is exactly TryCreateProjectInfo(uri.Host, owner, repo). |
| GitHubRemoteUrlParser.TryParseUrl | src/SemanticUrlParser/GitHub/GitHubRemoteUrlParser.cs:26-29 | The whole parser: a non-blank url whose uri (absolute, or rewritten from the SCP form) has an http, https or ssh scheme gets exactly what its trimmed path parses to; otherwise blank url, invalid uri or unsupported scheme, in that order. |
| GitHubRemoteUrlParser.ParseOfRemotePath | src/SemanticUrlParser/GitHub/GitHubRemoteUrlParser.cs:38-55 | owner/repo + ".git" in any case parses back to (host, owner, repo). |
| GitHubRemoteUrlParser.ParsedRemotePath | src/SemanticUrlParser/GitHub/GitHubRemoteUrlParser.cs:38-55 | Every path that parses is owner + "/" + repo + a suffix equal to ".git" ignoring case, with non-blank, '/'-free parts. |
| GitHubRemoteUrlParser.ThreeSegmentsRejected | src/SemanticUrlParser.Test/GitHub/GitHubRemoteUrlParserTest.cs:21 | a/b/c.git is not a remote url. |
| GitHubRemoteUrlParser.BlankOwnerRejected | src/SemanticUrlParser.Test/GitHub/GitHubRemoteUrlParserTest.cs:30-31 | A blank owner is rejected before the repository is looked at. |
| GitHubRemoteUrlParser.BlankRepositoryRejected | src/SemanticUrlParser.Test/GitHub/GitHubRemoteUrlParserTest.cs:34-35 | A blank repository name is rejected. |
| GitHubRemoteUrlParser.ParsesRemoteUrl | src/SemanticUrlParser.Test/GitHub/GitHubRemoteUrlParserTest.cs:49-56 | An http, https or ssh url (any case) with the path /owner/repo.git parses to (host, owner, repo). |
| GitHubRemoteUrlParser.ParsesScpRemoteUrl | src/SemanticUrlParser.Test/GitHub/GitHubRemoteUrlParserTest.cs:53-54 | userAndHost:owner/repo.git parses to the project of the ssh uri it is rewritten into. |
| GitHubUrlParserRemoteUrl.TryParseRemoteUrlWithError | src/SemanticUrlParser/GitHub/GitHubUrlParser.RemoteUrl.cs:38-99 | Checks a blank url, then InvalidUri, then an unsupported scheme, before anything else. A success comes from a uri with a remote scheme and takes that uri's host. |
| GitHubUrlParserRemoteUrl.TryParseRemoteUrl | src/SemanticUrlParser/GitHub/GitHubUrlParser.RemoteUrl.cs:35 | Returns the project exactly when the private method succeeds, and null otherwise. |
| GitHubUrlParserRemoteUrl.ParseRemoteUrl | src/SemanticUrlParser/GitHub/GitHubUrlParser.RemoteUrl.cs:16-26 | Throws exactly when TryParseRemoteUrl fails, carrying the message and naming url. |
| GitHubUrlParserRemoteUrl.AgreesWithRemoteUrlParser | src/SemanticUrlParser/GitHub/GitHubUrlParser.RemoteUrl.cs:43-97 | For every url and uri parser, the legacy method gives the same result and error kind as GitHubRemoteUrlParser. |
| GitLabProjectInfo.New | src/SemanticUrlParser/GitLab/GitLabUrlParser.cs:30 | Checks host, then namespace, then project for blankness, in that order, and stores the arguments verbatim. |
| GitLabProjectInfo.Equals | src/SemanticUrlParser.Test/GitLab/GitLabRemoteUrlParserTest.cs:63 | Host, namespace and project are each compared ignoring case, and null is never equal. |
| GitLabProjectInfo.GetHashCode | src/SemanticUrlParser.Test/GitLab/GitLabRemoteUrlParserTest.cs:63 | Computed from the case-folded host, namespace and project only. |
| GitLabProjectInfo.EqualsIsEquivalence | src/SemanticUrlParser.Test/GitLab/GitLabRemoteUrlParserTest.cs:63 | Equality ignoring case is an equivalence relation, and Equals(null) is false. |
| GitLabProjectInfo.EqualsImpliesEqualHash | src/SemanticUrlParser.Test/GitLab/GitLabRemoteUrlParserTest.cs:63 | Equal values have equal hash codes. |
| GitLabProjectInfo.EqualsIgnoresCaseExample | src/SemanticUrlParser.Test/GitLab/GitLabRemoteUrlParserTest.cs:63 | "repoName" equals "reponame". |
| GitLabUrlParser.TryCreateProjectInfo | src/SemanticUrlParser/GitLab/GitLabUrlParser.cs:11-32 | Checks a blank namespace, then a blank project name. Succeeds exactly when host, namespace and name are non-blank, giving Project(host, namespace, name) verbatim. |
| GitLabIssueInfo.New | src/SemanticUrlParser/GitLab/GitLabIssueInfo.cs:27-34 | number <= 0 gives OutOfRange. Otherwise a null project gives NullArgument. Succeeds exactly when number >= 1 and the project is given. |
| GitLabIssueInfo.Equals | src/SemanticUrlParser/GitLab/GitLabIssueInfo.cs:52-55 | The projects are equal and the numbers are the same, and null is never equal. |
| GitLabIssueInfo.GetHashCode | src/SemanticUrlParser/GitLab/GitLabIssueInfo.cs:41-49 | `project hash * 397 ^ number hash`, computed from the case-folded project and the number only. |
| GitLabIssueInfo.EqualsIsEquivalence | src/SemanticUrlParser/GitLab/GitLabIssueInfo.cs:52-55 | Equals is an equivalence relation, and Equals(null) is false. |
| GitLabIssueInfo.EqualsImpliesEqualHash | src/SemanticUrlParser/GitLab/GitLabIssueInfo.cs:41-49 | Equal values have equal hash codes. |
| GitLabIssueInfo.EqualityExamples | src/SemanticUrlParser.Test/GitLab/GitLabIssueInfoTest.cs:18-27 | Equal and unequal pairs from the tests. |
| GitLabCommitInfo.New | src/SemanticUrlParser/GitLab/GitLabCommitInfo.cs:23-30 | A blank id gives NullOrWhiteSpace(commitId). Otherwise a null project gives NullArgument. The id is stored verbatim. |
| GitLabCommitInfo.Equals | src/SemanticUrlParser/GitLab/GitLabCommitInfo.cs:47-50 | The projects are equal and the ids are equal ignoring case, and null is never equal. |
| GitLabCommitInfo.GetHashCode | src/SemanticUrlParser/GitLab/GitLabCommitInfo.cs:37-45 | `project hash * 397 ^ id hash`, computed from the case-folded project and id only. |
| GitLabCommitInfo.EqualsIsEquivalence | src/SemanticUrlParser/GitLab/GitLabCommitInfo.cs:48-51 | Equality ignoring the id's case is an equivalence relation, and Equals(null) is false. |
| GitLabCommitInfo.EqualsImpliesEqualHash | src/SemanticUrlParser/GitLab/GitLabCommitInfo.cs:37-45 | Equal values have equal hash codes. |
| GitLabCommitInfo.EqualityExamples | src/SemanticUrlParser.Test/GitLab/GitLabCommitInfoTest.cs:18-28 | "abc123" equals "ABC123". Another id or another project is unequal. |
| GitLabWebUrlParser.TryParsePath | src/SemanticUrlParser/GitLab/GitLabWebUrlParser.cs:28-83 | Needs at least 5 segments, with the first "-" third from the end (otherwise NotWebUrl). The namespace is the earlier segments joined by '/', followed by the project. Then come the link type ignoring case and the id, and the first failure wins. |
| GitLabWebUrlParser.ParsedWebPath | src/SemanticUrlParser/GitLab/GitLabWebUrlParser.cs:41-66 | On success, namespace/project/-/linktype/id reconstructs the path exactly, and no namespace group or project is "-". |
| GitLabWebUrlParser.ParseOfAssembledPath | src/SemanticUrlParser/GitLab/GitLabWebUrlParser.cs:34-81 | The inverse: groups/project/-/linktype/id, with groups of any depth, parses back to Project(host, groups joined by '/', project) and the id. |
| GitLabWebUrlParser.AssembledPathIdRejected | src/SemanticUrlParser/GitLab/GitLabWebUrlParser.cs:74-77 | An otherwise valid path whose id the id parser refuses fails with that parser's error. |
| GitLabWebUrlParser.WebPathSegments | src/SemanticUrlParser/GitLab/GitLabWebUrlParser.cs:34-55 | Such a path splits into groups + [project, "-", linktype, id], and its first "-" is third from the end. |
| GitLabWebUrlParser.WebPathTrimmed | src/SemanticUrlParser/_Common/UrlParser.cs:65 | The absolute path of a GitLab web link reaches TryParsePath without its leading '/'. |
| GitLabIssueUrlParser.CreateResult | src/SemanticUrlParser/GitLab/GitLabIssueUrlParser.cs:13 | Builds GitLabIssueInfo(project, id), which the constructor accepts for every id >= 1. |
| GitLabIssueUrlParser.TryParsePath | src/SemanticUrlParser/GitLab/GitLabIssueUrlParser.cs:11-31 | Every success has a number >= 1 and is a value the GitLabIssueInfo constructor accepts. |
| GitLabIssueUrlParser.TryParseUrl | src/SemanticUrlParser/GitLab/GitLabWebUrlParser.cs:15 | The whole parser: a non-blank url whose uri has an http or https scheme (in any case) gets exactly what its trimmed path parses to; otherwise blank url, invalid uri or unsupported scheme, in that order. |
| GitLabIssueUrlParser.ParseOfIssuePath | src/SemanticUrlParser.Test/GitLab/GitLabIssueUrlParserTest.cs:76-77 | groups/project/-/issues/n parses back to issue n of that namespace and project. |
| GitLabIssueUrlParser.NonPositiveNumberRejected | src/SemanticUrlParser/GitLab/GitLabIssueUrlParser.cs:23-27 | An id read as 0 or a negative number, such as "-1", is rejected. |
| GitLabIssueUrlParser.ParsesIssueUrl | src/SemanticUrlParser.Test/GitLab/GitLabIssueUrlParserTest.cs:76-77 | An http or https url whose path is /group/.../project/-/issues/n parses to that issue. |
| GitLabCommitUrlParser.CreateResult | src/SemanticUrlParser/GitLab/GitLabCommitUrlParser.cs:13 | Builds GitLabCommitInfo(project, id), which the constructor accepts for every non-blank id. |
| GitLabCommitUrlParser.TryParseId | src/SemanticUrlParser/GitLab/GitLabCommitUrlParser.cs:15-27 | Succeeds exactly for a non-blank input, returning it verbatim. Otherwise it gives BlankCommitId. |
| GitLabCommitUrlParser.TryParsePath | src/SemanticUrlParser/GitLab/GitLabCommitUrlParser.cs:11-27 | Every success is a value the GitLabCommitInfo constructor accepts. |
| GitLabCommitUrlParser.TryParseUrl | src/SemanticUrlParser/GitLab/GitLabWebUrlParser.cs:15 | The whole parser: a non-blank url whose uri has an http or https scheme (in any case) gets exactly what its trimmed path parses to; otherwise blank url, invalid uri or unsupported scheme, in that order. |
| GitLabCommitUrlParser.ParseOfCommitPath | src/SemanticUrlParser.Test/GitLab/GitLabCommitUrlParserTest.cs:73-77 | groups/project/-/commit/id parses back to that commit. |
| GitLabCommitUrlParser.BlankCommitIdRejected | src/SemanticUrlParser/GitLab/GitLabCommitUrlParser.cs:17-22 | A blank commit id is rejected. |
| GitLabCommitUrlParser.ParsesCommitUrl | src/SemanticUrlParser.Test/GitLab/GitLabCommitUrlParserTest.cs:73-77 | An http or https url whose path is /group/.../project/-/commit/id parses to that commit. |
| GitLabRemoteUrlParser.TryCreateUri | src/SemanticUrlParser/GitLab/GitLabRemoteUrlParser.cs:29 | Remote urls are turned into uris by GitRemoteUrl.TryGetUri. |
| GitLabRemoteUrlParser.SplitProjectPath | src/SemanticUrlParser/GitLab/GitLabRemoteUrlParser.cs:58-60 | Splits at the last '/' and trims '/' from both parts. The project name never holds '/'. |
| GitLabRemoteUrlParser.ProjectNameHasNoSlash | src/SemanticUrlParser/GitLab/GitLabRemoteUrlParser.cs:60 | What follows the last '/' holds no '/' once trimmed. |
| GitLabRemoteUrlParser.TryParsePath | src/SemanticUrlParser/GitLab/GitLabRemoteUrlParser.cs:31-63 | The project path is re-derived from the uri. The checks are: a missing ".git", then a blank remainder, then a remainder with no '/'. Then the result is TryCreateProjectInfo of the split at the last '/'. A success has a '/'-free project name. |
| GitLabRemoteUrlParser.TryParseUrl | src/SemanticUrlParser/GitLab/GitLabRemoteUrlParser.cs:26-29 | The whole parser: a non-blank url whose uri (absolute, or rewritten from the SCP form) has an http, https or ssh scheme gets exactly what its trimmed path parses to; otherwise blank url, invalid uri or unsupported scheme, in that order. |
| GitLabRemoteUrlParser.PathArgumentIgnored | src/SemanticUrlParser/GitLab/GitLabRemoteUrlParser.cs:33 | The path argument makes no difference. |
| GitLabRemoteUrlParser.SplitOfProjectPath | src/SemanticUrlParser/GitLab/GitLabRemoteUrlParser.cs:58-60 | namespace/project splits back into namespace and project, however many groups the namespace holds. |
| GitLabRemoteUrlParser.ParseOfRemotePath | src/SemanticUrlParser/GitLab/GitLabRemoteUrlParser.cs:33-62 | /namespace/project + ".git" in any case parses back to (host, namespace, project). |
| GitLabRemoteUrlParser.DoubledSlashAccepted | src/SemanticUrlParser/GitLab/GitLabRemoteUrlParser.cs:58-60 | A doubled '/' before the project name is accepted: "/a//b.git" is project b in namespace a, because both halves of the split are trimmed of '/'. |
| GitLabRemoteUrlParser.StrippedProjectPath | src/SemanticUrlParser/GitLab/GitLabRemoteUrlParser.cs:35-51 | namespace/project + suffix passes the suffix check and loses exactly the suffix. |
| GitLabRemoteUrlParser.BlankProjectNameRejected | src/SemanticUrlParser.Test/GitLab/GitLabRemoteUrlParserTest.cs:52-53 | "user/.git" and "user/ .git" fail with a blank project name. |
| GitLabRemoteUrlParser.NoNamespaceRejected | src/SemanticUrlParser/GitLab/GitLabRemoteUrlParser.cs:51-56 | A project path with no '/' is rejected as an invalid project path. |
| GitLabRemoteUrlParser.ParsesRemoteUrl | src/SemanticUrlParser.Test/GitLab/GitLabRemoteUrlParserTest.cs:63-68 | An http, https or ssh url with the path /namespace/project.git parses to that project, nested groups included. |
| GitLabRemoteUrlParser.ParsesScpRemoteUrl | src/SemanticUrlParser.Test/GitLab/GitLabRemoteUrlParserTest.cs:69-76 | userAndHost:namespace/project.git parses to the project of the ssh uri it is rewritten into. |
| GitLabUrlParserRemoteUrl.TryParseRemoteUrlWithError | src/SemanticUrlParser/GitLab/GitLabUrlParser.RemoteUrl.cs:39-106 | Checks a blank url, then InvalidUri, then an unsupported scheme, before anything else. A success comes from a uri with a remote scheme and takes that uri's host. |
| GitLabUrlParserRemoteUrl.TryParseRemoteUrl | src/SemanticUrlParser/GitLab/GitLabUrlParser.RemoteUrl.cs:35-36 | Returns the project exactly when the private method succeeds, and null otherwise. |
| GitLabUrlParserRemoteUrl.ParseRemoteUrl | src/SemanticUrlParser/GitLab/GitLabUrlParser.RemoteUrl.cs:16-26 | Throws exactly when TryParseRemoteUrl fails, carrying the message and naming url. |
| GitLabUrlParserRemoteUrl.AgreesWithRemoteUrlParser | src/SemanticUrlParser/GitLab/GitLabUrlParser.RemoteUrl.cs:44-104 | For every url and uri parser, the legacy method gives the same result and error kind as GitLabRemoteUrlParser. |
| Numbers.TryParseInt32 | src/SemanticUrlParser/GitHub/GitHubIssueUrlParser.cs:68 | Int32.TryParse accepts an optional sign followed by decimal digits. The value is that of the digits, negated after '-', and every decimal in the Int32 range is accepted. |
| Numbers.ParseOfDecimal | src/SemanticUrlParser/GitHub/GitHubIssueUrlParser.cs:68 | Every non-negative Int32, written in decimal, is read back as itself. |
| Numbers.ParseOfNegativeDecimal | src/SemanticUrlParser/GitHub/GitHubIssueUrlParser.cs:68 | "-" followed by the decimal form of a negative Int32 is read back as that number. |
| Numbers.TryParsePositiveNumber | src/SemanticUrlParser/GitHub/GitHubIssueUrlParser.cs:66-82 | TryParseIssueNumber (and TryParsePullRequestNumber, and GitLabIssueUrlParser.TryParseId) succeeds exactly when the input is an Int32 > 0. Otherwise it reports InvalidNumber(input) or NonPositiveNumber(n). |
| Numbers.PositiveNumberOfDecimal | src/SemanticUrlParser/GitHub/GitHubPullRequestUrlParser.cs:65-81 | Every positive Int32 in decimal is accepted as itself. |
| Numbers.PositiveNumberRejections | src/SemanticUrlParser.Test/GitHub/GitHubIssueUrlParserTest.cs:26-27 | "0" and "-23" are rejected as non-positive, and "" and "1a" as not numbers. |
| Segments.Split | src/SemanticUrlParser/GitHub/GitHubWebUrlParser.cs:33 | String.Split('/') always yields at least one piece, and no piece contains the separator. |
| Segments.JoinSplit | src/SemanticUrlParser/GitLab/GitLabWebUrlParser.cs:57 | Joining the pieces of a split gives back the string. |
| Segments.SplitJoin | src/SemanticUrlParser/GitLab/GitLabWebUrlParser.cs:57 | Splitting a join of separator-free pieces gives back the pieces. |
| Segments.IndexOf | src/SemanticUrlParser/GitLab/GitLabWebUrlParser.cs:41 | Array.IndexOf gives the first position of the item, or -1 when it does not occur. |
| Segments.LastIndexOf | src/SemanticUrlParser/GitLab/GitLabRemoteUrlParser.cs:58 | String.LastIndexOf gives the last position of the character, or -1 when it does not occur. |
| Segments.RemoveEmpty | src/SemanticUrlParser/Utilities/GitRemoteUrl.cs:43 | RemoveEmptyEntries yields only non-empty pieces, each taken from the split. |
| Segments.RemoveEmptyKeepsNonEmpty | src/SemanticUrlParser/Utilities/GitRemoteUrl.cs:43 | A string is among the kept pieces exactly when it is a non-empty piece of the split. When no piece is empty, all pieces are kept, in order. |
| Segments.SplitRemoveEmpty | src/SemanticUrlParser/Utilities/GitRemoteUrl.cs:43 | String.Split(':', RemoveEmptyEntries) yields non-empty pieces free of the separator. |
| Text.Trim | src/SemanticUrlParser/_Common/UrlParser.cs:65 | String.Trim('/') leaves no '/' at either end and removes only '/' from the two ends. |
| Text.IsNullOrWhiteSpace | src/SemanticUrlParser/_Common/UrlParser.cs:47 | The empty string is blank, and a blank string holds no '/'. |
| Text.EqualsIgnoreCase | src/SemanticUrlParser/GitHub/GitHubWebUrlParser.cs:47 | OrdinalIgnoreCase equality holds for equal strings and only for strings of equal length. |
| Text.EndsWithIgnoreCase | src/SemanticUrlParser/GitHub/GitHubRemoteUrlParser.cs:38 | An ordinal suffix is also a case-insensitive one, and a case-insensitive suffix is never longer than the string. |
| Text.TrimOfPadded | src/SemanticUrlParser/GitLab/GitLabRemoteUrlParser.cs:59-60 | A string padded with '/' trims back to its trimmed core. |
| Text.TrimStart | src/SemanticUrlParser/Utilities/GitRemoteUrl.cs:51 | String.TrimStart('/') removes exactly the leading run of '/'. |
| Text.TrimEnd | src/SemanticUrlParser/_Common/UrlParser.cs:65 | Removes exactly the trailing run of the character. |
| Hashing.HashIgnoreCaseAgrees | src/SemanticUrlParser/GitHub/GitHubProjectInfo.cs:56-58 | Strings that are equal ignoring case have equal case-insensitive hashes. |
| Hashing.Combine | src/SemanticUrlParser/GitHub/GitHubIssueInfo.cs:43-51 | The unchecked `hash * 397 ^ next`: xor-ing the result with either input gives back the other, so neither input is lost. |
| Hashing.Int32Hash | src/SemanticUrlParser/GitHub/GitHubIssueInfo.cs:48 | Int32.GetHashCode is the value's two's-complement bit pattern: the value modulo 2^32. |

## Left out

- `System.Uri` is a parameter (`absUri`), not a model. The parameter yields the scheme, the host and the decoded path, which is what `GetComponents(UriComponents.Path, UriFormat.Unescaped)` and `Uri.UnescapeDataString(uri.AbsolutePath)` return. Absolute-uri validation and percent-decoding belong to the runtime.
- Numbers.TryParseInt32: takes an optional sign and decimal digits in the Int32 range. The culture, `NumberStyles`, and the leading and trailing whitespace that `Int32.TryParse` also accepts are not modelled.
- Case folding is ASCII only: `EqualsIgnoreCase`, `EndsWithIgnoreCase` and the `ToLower()` scheme switch fold A-Z. The culture-sensitive `EndsWith(suffix)` in StringExtensions.RemoveSuffix is taken as ordinal.
- `Char.IsWhiteSpace` is modelled by its published list of Unicode space characters, with no further Unicode tables.
- Hashing.HashIgnoreCase: the runtime's string hash is replaced by a polynomial over the case-folded string. Only "equal implies equal hash" is claimed, and not the runtime's actual hash values. The `* 397` and `^` combination and the Int32 hash are written out in 32-bit arithmetic.
- Error messages are modelled by their kind and the values they quote (`Errors.ParseError`), not by their text. One example is the GitHub issue parser quoting 'issue' where the link type is "issues".
- GitLabProjectInfo: its class file is not part of this model. Its constructor and case-insensitive equality are taken from what the GitLab parsers and their tests rely on, mirroring GitHubProjectInfo.
- GitHubUrlParser.TryCreateProjectInfo: the generic GitHubUrlParser<T> that declares it is not part of this model. It is taken to reject a blank owner, then a blank repository, before constructing the project, as GitLabUrlParser.TryCreateProjectInfo does.
- GitLabUrlParser.TryCreateProjectInfo: in the source, an exception from the GitLabProjectInfo constructor (a blank host) escapes the parser. The model reports it as `InvalidArgument(...)` instead. The same applies to the `new ...ProjectInfo(uri.Host, ...)` calls of the two legacy remote-url methods.
- C# class structure is flattened into function arguments. This covers inheritance, virtual dispatch, generics and `NotNullWhen` annotations. Each concrete parser's public `TryParseUrl` is `UrlParser.TryParseUrlWithError` applied to its `SupportedSchemes`, `TryCreateUri` and `TryParsePath`. Their `ParseUrl` is `UrlParser.ParseUrl` over the same arguments and is not repeated per parser.
- Null strings are modelled by the empty string, which every blank check treats the same way. A null project argument is `None`.
- GitLabWebUrlParser.TryParsePath: the separate `dashIndex < 2` test is kept in the body. Its contract folds it into `IsWebPath`, since a first "-" exactly third from the end of five or more segments is always at index 2 or later.
- The xUnit tests themselves, the equality-test base classes and the reflection-based public-API test are not modelled. Individual test vectors appear as lemmas where listed above.
