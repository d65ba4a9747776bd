/**
 * UrlParser<T>: the skeleton every url parser shares. A url is rejected when
 * it is blank, when no uri can be made of it, or when its scheme is not
 * supported; otherwise its path, with '/' trimmed from both ends, is handed
 * to the parser's own path grammar.
 */
module UrlParser {
  import opened Wrappers
  import opened Text
  import opened Errors

  /**
   * What the parsers read of a System.Uri: the scheme, the host and the
   * percent-decoded path (Uri.AbsolutePath after Uri.UnescapeDataString, or
   * GetComponents(UriComponents.Path, UriFormat.Unescaped)).
   */
  datatype Uri = Uri(scheme: string, host: string, path: string)

  /** Uri.TryCreate(url, UriKind.Absolute, out uri): the runtime's uri parser, taken as given. */
  type UriOracle = string -> Option<Uri>

  /** CheckScheme: is the uri's scheme one of the supported schemes, ignoring case? */
  function CheckScheme(uri: Uri, schemes: seq<string>): (r: bool)
    ensures r <==> exists i | 0 <= i < |schemes| :: EqualsIgnoreCase(schemes[i], uri.scheme)
    decreases |schemes|
  {
    if |schemes| == 0 then false
    else if EqualsIgnoreCase(schemes[0], uri.scheme) then true
    else CheckScheme(uri, schemes[1..])
  }

  /** The path handed to TryParsePath: the decoded path with every leading and trailing '/' removed. */
  function TrimmedPath(uri: Uri): (p: string)
    ensures HasNoEdge(p, '/')
    ensures exists k :: PaddedBy(uri.path, p, '/', k)
  {
    Trim(uri.path, '/')
  }

  /** An absolute path "/" + p, with p free of '/' at both ends, is handed on as p. */
  lemma TrimmedPathOfAbsolute(uri: Uri, p: string)
    requires uri.path == "/" + p && HasNoEdge(p, '/')
    ensures TrimmedPath(uri) == p
  {
    assert PaddedBy(uri.path, p, '/', 1) by {
      assert uri.path[1..1 + |p|] == p;
      assert uri.path[1 + |p|..] == [];
    }
    TrimOfPadded(uri.path, p, '/', 1);
  }

  /** A trailing '/' makes no difference to the path handed on, as in ".../-/issues/42/". */
  lemma TrailingSlashIgnored(uri: Uri)
    ensures TrimmedPath(uri.(path := uri.path + "/")) == TrimmedPath(uri)
  {
    var r := TrimmedPath(uri);
    var k :| PaddedBy(uri.path, r, '/', k);
    PaddedByAppend(uri.path, r, '/', k);
    TrimOfPadded(uri.path + "/", r, '/', k);
  }

  /**
   * The protected TryParseUrl(url, out result, out errorMessage): a failure
   * carries the kind of its message and a success the parsed value.
   * createUri is the parser's TryCreateUri and parsePath its TryParsePath.
   */
  function TryParseUrlWithError<T>(
    url: string,
    createUri: UriOracle,
    supportedSchemes: seq<string>,
    parsePath: (Uri, string) -> Result<T, ParseError>
  ): (r: Result<T, ParseError>)
    ensures IsNullOrWhiteSpace(url) ==> r == Failure(BlankUrl)
    ensures !IsNullOrWhiteSpace(url) && createUri(url).None? ==> r == Failure(InvalidUri)
    ensures !IsNullOrWhiteSpace(url) && createUri(url).Some? && !CheckScheme(createUri(url).value, supportedSchemes) ==>
      r == Failure(UnsupportedScheme(createUri(url).value.scheme))
    ensures !IsNullOrWhiteSpace(url) && createUri(url).Some? && CheckScheme(createUri(url).value, supportedSchemes) ==>
      r == parsePath(createUri(url).value, TrimmedPath(createUri(url).value))
    ensures r.Success? ==>
      !IsNullOrWhiteSpace(url) && createUri(url).Some? && CheckScheme(createUri(url).value, supportedSchemes)
  {
    if IsNullOrWhiteSpace(url) then
      Failure(BlankUrl)
    else
      match createUri(url)
      case None => Failure(InvalidUri)
      case Some(uri) =>
        if !CheckScheme(uri, supportedSchemes) then
          Failure(UnsupportedScheme(uri.scheme))
        else
          parsePath(uri, TrimmedPath(uri))
  }

  /** The web schemes http and https are supported in any letter case. */
  lemma WebSchemeSupported(uri: Uri, schemes: seq<string>)
    requires schemes == ["http", "https"]
    requires EqualsIgnoreCase(uri.scheme, "http") || EqualsIgnoreCase(uri.scheme, "https")
    ensures CheckScheme(uri, schemes)
  {
    if EqualsIgnoreCase(uri.scheme, "http") {
      assert EqualsIgnoreCase(schemes[0], uri.scheme);
    } else {
      assert EqualsIgnoreCase(schemes[1], uri.scheme);
    }
  }

  /**
   * The switch on uri.Scheme.ToLower() of the remote-url methods: the schemes
   * they accept. Since the cases are lower case, matching the lowered scheme
   * is the same as comparing ignoring case.
   */
  function IsRemoteScheme(scheme: string): (r: bool)
    ensures r <==> EqualsIgnoreCase(scheme, "http") || EqualsIgnoreCase(scheme, "https") || EqualsIgnoreCase(scheme, "ssh")
  {
    assert FoldCase("http") == "http" && FoldCase("https") == "https" && FoldCase("ssh") == "ssh";
    FoldCase(scheme) == "http" || FoldCase(scheme) == "https" || FoldCase(scheme) == "ssh"
  }

  /** The schemes of the web-link parsers: http or https in any letter case. */
  predicate IsWebScheme(scheme: string) {
    EqualsIgnoreCase(scheme, "http") || EqualsIgnoreCase(scheme, "https")
  }

  /** The web-link parsers' scheme list ["http", "https"] accepts exactly the web schemes. */
  lemma WebSchemeAgrees(uri: Uri)
    ensures CheckScheme(uri, ["http", "https"]) <==> IsWebScheme(uri.scheme)
  {
    var schemes := ["http", "https"];
    if CheckScheme(uri, schemes) {
      var i :| 0 <= i < |schemes| && EqualsIgnoreCase(schemes[i], uri.scheme);
    }
    if IsWebScheme(uri.scheme) {
      WebSchemeSupported(uri, schemes);
    }
  }

  /** The scheme switch of the remote-url methods accepts exactly the schemes http, https and ssh of the remote parsers. */
  lemma RemoteSchemeAgrees(uri: Uri, schemes: seq<string>)
    requires schemes == ["http", "https", "ssh"]
    ensures IsRemoteScheme(uri.scheme) <==> CheckScheme(uri, schemes)
  {
    assert FoldCase(schemes[0]) == "http" && FoldCase(schemes[1]) == "https" && FoldCase(schemes[2]) == "ssh";
    if CheckScheme(uri, schemes) {
      var i :| 0 <= i < |schemes| && EqualsIgnoreCase(schemes[i], uri.scheme);
    }
    if IsRemoteScheme(uri.scheme) {
      if FoldCase(uri.scheme) == "http" {
        assert EqualsIgnoreCase(schemes[0], uri.scheme);
      } else if FoldCase(uri.scheme) == "https" {
        assert EqualsIgnoreCase(schemes[1], uri.scheme);
      } else {
        assert EqualsIgnoreCase(schemes[2], uri.scheme);
      }
    }
  }

  /** A url whose uri has a supported scheme and whose trimmed path parses is parsed to that value. */
  lemma ParseOfSupportedUrl<T>(
    url: string,
    createUri: UriOracle,
    supportedSchemes: seq<string>,
    parsePath: (Uri, string) -> Result<T, ParseError>,
    uri: Uri, p: string, x: T
  )
    requires !IsNullOrWhiteSpace(url) && createUri(url) == Some(uri)
    requires CheckScheme(uri, supportedSchemes) && TrimmedPath(uri) == p && parsePath(uri, p) == Success(x)
    ensures TryParseUrlWithError(url, createUri, supportedSchemes, parsePath) == Success(x)
  {
  }

  /** The public TryParseUrl(url, out result): success and the result, without the message; null on failure. */
  function TryParseUrl<T>(
    url: string,
    createUri: UriOracle,
    supportedSchemes: seq<string>,
    parsePath: (Uri, string) -> Result<T, ParseError>
  ): (r: (bool, Option<T>))
    ensures var inner := TryParseUrlWithError(url, createUri, supportedSchemes, parsePath);
      && (r.0 <==> inner.Success?)
      && (r.0 ==> r.1 == Some(inner.value))
      && (!r.0 ==> r.1 == None)
  {
    match TryParseUrlWithError(url, createUri, supportedSchemes, parsePath)
    case Success(v) => (true, Some(v))
    case Failure(_) => (false, None)
  }

  /** ParseUrl: the parsed value, or an ArgumentException carrying the message and naming the url parameter. */
  function ParseUrl<T>(
    url: string,
    createUri: UriOracle,
    supportedSchemes: seq<string>,
    parsePath: (Uri, string) -> Result<T, ParseError>
  ): (r: Result<T, UrlException>)
    ensures var inner := TryParseUrlWithError(url, createUri, supportedSchemes, parsePath);
      && (r.Success? <==> inner.Success?)
      && (r.Success? ==> r.value == inner.value)
      && (r.Failure? ==> r.error == UrlException(inner.error, Url))
  {
    match TryParseUrlWithError(url, createUri, supportedSchemes, parsePath)
    case Success(v) => Success(v)
    case Failure(e) => Failure(UrlException(e, Url))
  }

  /** A blank url is rejected whatever the uri parser, the schemes or the path grammar. */
  lemma BlankUrlRejected<T>(
    url: string,
    createUri: UriOracle,
    supportedSchemes: seq<string>,
    parsePath: (Uri, string) -> Result<T, ParseError>
  )
    requires IsNullOrWhiteSpace(url)
    ensures TryParseUrl(url, createUri, supportedSchemes, parsePath) == (false, None)
    ensures ParseUrl(url, createUri, supportedSchemes, parsePath) == Failure(UrlException(BlankUrl, Url))
  {
  }

  /** Whether a scheme is supported does not depend on its letter case. */
  lemma CheckSchemeIgnoresCase(uri: Uri, other: string, schemes: seq<string>)
    requires EqualsIgnoreCase(uri.scheme, other)
    ensures CheckScheme(uri, schemes) == CheckScheme(uri.(scheme := other), schemes)
  {
  }

  /** An empty list of schemes supports nothing. */
  lemma CheckSchemeOfEmpty(uri: Uri)
    ensures !CheckScheme(uri, [])
  {
  }

  /** Only the set of supported schemes matters, not their order or repetitions. */
  lemma CheckSchemeOfSameSet(uri: Uri, a: seq<string>, b: seq<string>)
    requires forall s :: s in a <==> s in b
    ensures CheckScheme(uri, a) == CheckScheme(uri, b)
  {
    if CheckScheme(uri, a) {
      var i :| 0 <= i < |a| && EqualsIgnoreCase(a[i], uri.scheme);
      assert a[i] in b;
      var j :| 0 <= j < |b| && b[j] == a[i];
    }
    if CheckScheme(uri, b) {
      var i :| 0 <= i < |b| && EqualsIgnoreCase(b[i], uri.scheme);
      assert b[i] in a;
      var j :| 0 <= j < |a| && a[j] == b[i];
    }
  }
}
