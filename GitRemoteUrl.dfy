/**
 * GitRemoteUrl: turns a git remote url into a uri. Absolute urls are taken
 * as they are; SCP-style urls such as `git@github.com:owner/repo.git` are
 * rewritten into the equivalent `ssh://git@github.com/owner/repo.git`.
 */
module GitRemoteUrl {
  import opened Wrappers
  import opened Text
  import opened Segments
  import opened UrlParser

  /**
   * The ssh url an SCP-style url is rewritten into: the url split at ':'
   * with empty pieces dropped must leave exactly two fragments, the user and
   * host and the path, and the path loses its leading '/' characters.
   */
  function ScpCandidate(url: string): (r: Option<string>)
    ensures r.Some? <==> |SplitRemoveEmpty(url, ':')| == 2
    ensures r.Some? ==>
      var fragments := SplitRemoveEmpty(url, ':');
      r.value == "ssh://" + fragments[0] + "/" + TrimStart(fragments[1], '/')
  {
    var fragments := SplitRemoveEmpty(url, ':');
    if |fragments| != 2 then None
    else Some("ssh://" + fragments[0] + "/" + TrimStart(fragments[1], '/'))
  }

  /** TryParseScpUrl: the uri parser decides whether the rewritten url is a uri. */
  function TryParseScpUrl(url: string, absUri: UriOracle): (r: Option<Uri>)
    ensures ScpCandidate(url).None? ==> r.None?
    ensures ScpCandidate(url).Some? ==> r == absUri(ScpCandidate(url).value)
  {
    match ScpCandidate(url)
    case None => None
    case Some(candidate) => absUri(candidate)
  }

  /** TryGetUri: an absolute uri if the url is one, otherwise the SCP rewrite. */
  function TryGetUri(url: string, absUri: UriOracle): (r: Option<Uri>)
    ensures absUri(url).Some? ==> r == absUri(url)
    ensures absUri(url).None? ==> r == TryParseScpUrl(url, absUri)
  {
    if absUri(url).Some? then absUri(url) else TryParseScpUrl(url, absUri)
  }

  /** Two colons in a row split an SCP url the same way one does. */
  lemma {:induction false} ConsecutiveColonsCollapse(x: string, y: string)
    ensures ScpCandidate(x + "::" + y) == ScpCandidate(x + ":" + y)
  {
    assert x + "::" + y == x + [':'] + ([':'] + y);
    assert x + ":" + y == x + [':'] + y;
    DoubledSeparatorDropped(x, y, ':');
  }

  /**
   * A url `userAndHost:path` whose two parts are non-empty and free of ':'
   * is rewritten into ssh://userAndHost/path, less the path's leading '/'.
   */
  lemma ScpRewrite(userAndHost: string, path: string)
    requires userAndHost != [] && ':' !in userAndHost
    requires path != [] && ':' !in path
    ensures ScpCandidate(userAndHost + ":" + path) == Some("ssh://" + userAndHost + "/" + TrimStart(path, '/'))
  {
    assert userAndHost + ":" + path == userAndHost + [':'] + path;
    SplitAtSeparator(userAndHost, path, ':');
    SplitWithoutSeparator(userAndHost, ':');
    SplitWithoutSeparator(path, ':');
    assert RemoveEmpty([userAndHost] + [path]) == [userAndHost, path] by {
      assert ([userAndHost] + [path])[1..] == [path];
      assert RemoveEmpty([path]) == [path] by {
        assert [path][1..] == [];
      }
    }
  }

  /** Every leading '/' of the SCP path is dropped, so `host:/path` and `host:path` give the same uri. */
  lemma ScpLeadingSlashesDropped(userAndHost: string, path: string)
    requires userAndHost != [] && ':' !in userAndHost
    requires path != [] && ':' !in path
    ensures ScpCandidate(userAndHost + ":/" + path) == ScpCandidate(userAndHost + ":" + path)
  {
    assert userAndHost + ":/" + path == userAndHost + ":" + ("/" + path);
    ScpRewrite(userAndHost, "/" + path);
    ScpRewrite(userAndHost, path);
    assert ("/" + path)[1..] == path;
  }

  /** An SCP url whose path does not start with '/' is looked up as ssh://userAndHost/path. */
  lemma ScpUri(userAndHost: string, path: string, absUri: UriOracle)
    requires userAndHost != [] && ':' !in userAndHost
    requires path != [] && ':' !in path && path[0] != '/'
    requires absUri(userAndHost + ":" + path).None?
    ensures TryGetUri(userAndHost + ":" + path, absUri) == absUri("ssh://" + userAndHost + "/" + path)
  {
    ScpRewrite(userAndHost, path);
  }

  /**
   * The SCP form git@github.com:owner/repo-name.git of a GitHub remote is
   * looked up as ssh://git@github.com/owner/repo-name.git (the urls are
   * written in their parts).
   */
  lemma ScpExample(absUri: UriOracle)
    requires absUri("git@github.com" + ":" + "owner/repo-name.git").None?
    requires absUri("ssh://" + "git@github.com" + "/" + "owner/repo-name.git")
      == Some(Uri("ssh", "github.com", "/owner/repo-name.git"))
    ensures TryGetUri("git@github.com" + ":" + "owner/repo-name.git", absUri)
      == Some(Uri("ssh", "github.com", "/owner/repo-name.git"))
  {
    ScpUri("git@github.com", "owner/repo-name.git", absUri);
  }
}
