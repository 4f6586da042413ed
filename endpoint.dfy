/**
 * The command-line client's reading of an endpoint argument: a full URL,
 * a host without a scheme, or a relative `content/<id>` or
 * `channel/<identifier>` path.
 */
module Endpoint {
  import opened Wrappers
  import opened Text

  const I64Min := -0x8000_0000_0000_0000
  const I64Max := 0x7fff_ffff_ffff_ffff

  datatype EndpointType = Content(id: int) | Channel(identifier: string)

  /** Why an endpoint argument is refused; each carries the text the message quotes. */
  datatype EndpointError =
    | InvalidUrl(endpoint: string)
    | InvalidUrlPath(path: string)
    | InvalidFormat(endpoint: string)
    | InvalidContentId(id: string)
    | UnknownEndpointType(kind: string)

  function Message(e: EndpointError): string
  {
    match e
    case InvalidUrl(x) => "Invalid URL format: " + x
    case InvalidUrlPath(p) => "Invalid endpoint path in URL: " + p + ". Expected content/<id> or channel/<identifier>"
    case InvalidFormat(x) => "Invalid endpoint format: " + x + ". Expected /content/<id> or /channel/<identifier>"
    case InvalidContentId(x) => "Invalid content ID: " + x
    case UnknownEndpointType(k) => "Unknown endpoint type: " + k + ". Expected 'content' or 'channel'"
  }

  predicate HasScheme(s: string)
  {
    StartsWith(s, "http://") || StartsWith(s, "https://")
  }

  predicate IsRelativePath(s: string)
  {
    StartsWith(s, "/") || StartsWith(s, "content/") || StartsWith(s, "channel/")
  }

  /** The text before the first `/`, or all of it when there is none. */
  function Host(s: string): (h: string)
    ensures StartsWith(s, h) && '/' !in h
  {
    if '/' in s then s[..IndexOf(s, '/')] else s
  }

  /** add_protocol_if_missing: the scheme that a host without one is given. */
  function AddProtocolIfMissing(e: string): string
  {
    if HasScheme(e) || IsRelativePath(e) then e
    else (if StartsWith(Host(e), "localhost") then "http://" else "https://") + e
  }

  /**
   * A URL or a relative path is kept; anything else gets `http://` when its
   * host starts with "localhost" and `https://` otherwise. The result always
   * has a scheme or is a relative path, and ends with the input.
   */
  lemma AddProtocolShape(e: string)
    ensures var r := AddProtocolIfMissing(e);
      && (HasScheme(r) || IsRelativePath(r))
      && EndsWith(r, e)
      && (HasScheme(e) || IsRelativePath(e) ==> r == e)
      && (!HasScheme(e) && !IsRelativePath(e) ==>
        (StartsWith(r, "http://") <==> StartsWith(Host(e), "localhost")) &&
        (StartsWith(r, "https://") <==> !StartsWith(Host(e), "localhost")))
  {
    if !HasScheme(e) && !IsRelativePath(e) {
      var scheme := if StartsWith(Host(e), "localhost") then "http://" else "https://";
      var r := scheme + e;
      assert r[..|scheme|] == scheme;
      assert r[|r| - |e|..] == e;
      assert r[4] == scheme[4];
    }
  }

  /** Completing an endpoint a second time changes nothing. */
  lemma AddProtocolIdempotent(e: string)
    ensures AddProtocolIfMissing(AddProtocolIfMissing(e)) == AddProtocolIfMissing(e)
  {
    AddProtocolShape(e);
  }

  /** The endpoint named by the two path segments `kind/id`. */
  function TypeOf(kind: string, id: string): (r: Result<EndpointType, EndpointError>)
    ensures r.Success? <==>
      (kind == "content" && ParseSigned(id, I64Min, I64Max).Some?) || kind == "channel"
    ensures r.Success? && kind == "content" ==> r.value == Content(ParseSigned(id, I64Min, I64Max).value)
    ensures kind == "channel" ==> r == Success(Channel(id))
    ensures kind != "content" && kind != "channel" ==> r == Failure(UnknownEndpointType(kind))
  {
    if kind == "content" then
      match ParseSigned(id, I64Min, I64Max)
      case None => Failure(InvalidContentId(id))
      case Some(n) => Success(Content(n))
    else if kind == "channel" then Success(Channel(id))
    else Failure(UnknownEndpointType(kind))
  }

  /**
   * parse_endpoint: a full URL splits into `scheme//host` and a two-segment
   * path; anything else is a relative path whose leading slashes are dropped,
   * which must have two segments, and which names no server.
   */
  function ParseEndpoint(e: string): (r: Result<(Option<string>, EndpointType), EndpointError>)
    ensures r.Success? && r.value.0.Some? ==> HasScheme(AddProtocolIfMissing(e))
    ensures r.Success? && r.value.0.None? ==> !HasScheme(AddProtocolIfMissing(e))
  {
    var w := AddProtocolIfMissing(e);
    if HasScheme(w) then
      var urlParts := SplitN(w, '/', 4);
      if |urlParts| < 4 then Failure(InvalidUrl(e))
      else
        var path := urlParts[3];
        var parts := Split(path, '/');
        if |parts| != 2 then Failure(InvalidUrlPath(path))
        else
          match TypeOf(parts[0], parts[1])
          case Failure(err) => Failure(err)
          case Success(t) => Success((Some(urlParts[0] + "//" + urlParts[2]), t))
    else
      var parts := Split(TrimStartMatches(w, "/"), '/');
      if |parts| != 2 then Failure(InvalidFormat(e))
      else
        match TypeOf(parts[0], parts[1])
        case Failure(err) => Failure(err)
        case Success(t) => Success((None, t))
  }

  /**
   * The path a completed endpoint carries: what follows the host of a full
   * URL, or a relative path without its leading slashes; none for a URL
   * with fewer than three slashes.
   */
  function PathText(e: string): Option<string>
  {
    var w := AddProtocolIfMissing(e);
    if HasScheme(w) then
      var urlParts := SplitN(w, '/', 4);
      if |urlParts| < 4 then None else Some(urlParts[3])
    else Some(TrimStartMatches(w, "/"))
  }

  /**
   * Both directions of the two-segment rule: an endpoint parses exactly when
   * its path has two segments that name an endpoint, and then that is the
   * endpoint returned; a URL without a path is an invalid URL, and a path
   * of any other length is refused.
   */
  lemma ParsedSegments(e: string)
    ensures ParseEndpoint(e).Success? <==>
      && PathText(e).Some?
      && |Split(PathText(e).value, '/')| == 2
      && TypeOf(Split(PathText(e).value, '/')[0], Split(PathText(e).value, '/')[1]).Success?
    ensures ParseEndpoint(e).Success? ==>
      ParseEndpoint(e).value.1 == TypeOf(Split(PathText(e).value, '/')[0], Split(PathText(e).value, '/')[1]).value
    ensures PathText(e).None? ==> ParseEndpoint(e) == Failure(InvalidUrl(e))
    ensures PathText(e).Some? && |Split(PathText(e).value, '/')| != 2 ==>
      ParseEndpoint(e) == (if HasScheme(AddProtocolIfMissing(e)) then Failure(InvalidUrlPath(PathText(e).value)) else Failure(InvalidFormat(e)))
  {
  }

  /** The path segments that name an endpoint. */
  function PathOf(t: EndpointType): string
  {
    match t
    case Content(id) => "content/" + IntToString(id)
    case Channel(identifier) => "channel/" + identifier
  }

  /** An endpoint whose identifier has no slash and whose content id fits in 64 bits. */
  predicate Addressable(t: EndpointType)
  {
    match t
    case Content(id) => I64Min <= id <= I64Max
    case Channel(identifier) => '/' !in identifier
  }

  /** The two segments of an endpoint's path split back into its kind and identifier. */
  lemma PathSegments(t: EndpointType)
    requires Addressable(t)
    ensures Split(PathOf(t), '/') == [if t.Content? then "content" else "channel", PathOf(t)[8..]]
    ensures TypeOf(Split(PathOf(t), '/')[0], Split(PathOf(t), '/')[1]) == Success(t)
  {
    match t
    case Content(id) =>
      var s := IntToString(id);
      assert '/' !in s by {
        if id < 0 { assert s[1..] == NatToString(-id); }
        else { assert AllDigits(s); }
        forall k | 0 <= k < |s| ensures s[k] != '/' { if id < 0 && k > 0 { assert s[k] == s[1..][k - 1]; } }
      }
      assert PathOf(t) == "content" + ['/'] + s;
      SplitAt("content", s, '/');
      SplitNone(s, '/');
      IntToStringParses(id, I64Min, I64Max);
    case Channel(identifier) =>
      assert PathOf(t) == "channel" + ['/'] + identifier;
      SplitAt("channel", identifier, '/');
      SplitNone(identifier, '/');
  }

  /** A relative path `/kind/id` reads back as its endpoint, with no server. */
  lemma RelativeRoundTrip(t: EndpointType)
    requires Addressable(t)
    ensures ParseEndpoint("/" + PathOf(t)) == Success((None, t))
  {
    var e := "/" + PathOf(t);
    assert StartsWith(e, "/");
    assert !HasScheme(e) by {
      assert e[0] == '/';
    }
    assert e[1..] == PathOf(t);
    assert TrimStartMatches(e, "/") == PathOf(t) by {
      assert StartsWith(e, "/");
      assert e[|"/"|..] == PathOf(t);
      assert PathOf(t)[0] != '/';
    }
    PathSegments(t);
  }

  /** `scheme//host/rest` is a full URL. */
  lemma UrlHasScheme(scheme: string, host: string, rest: string)
    requires scheme == "http:" || scheme == "https:"
    ensures HasScheme(scheme + "//" + host + "/" + rest)
  {
    var e := scheme + "//" + host + "/" + rest;
    if scheme == "http:" { assert e[..7] == "http://"; } else { assert e[..8] == "https://"; }
  }

  /** Three first-separator splits chained together. */
  lemma SplitNChain(x: string, second: string, tail: string, scheme: string, host: string, rest: string)
    requires SplitN(x, '/', 4) == [scheme] + SplitN(second, '/', 3)
    requires SplitN(second, '/', 3) == [[]] + SplitN(tail, '/', 2)
    requires SplitN(tail, '/', 2) == [host, rest]
    ensures SplitN(x, '/', 4) == [scheme, "", host, rest]
  {
  }

  /** `scheme//host/rest` splits at its first three slashes. */
  lemma UrlParts(scheme: string, host: string, rest: string)
    requires '/' !in scheme && '/' !in host
    ensures SplitN(scheme + ['/'] + (['/'] + (host + ['/'] + rest)), '/', 4) == [scheme, "", host, rest]
  {
    var tail := host + ['/'] + rest;
    SplitNAt(host, rest, '/', 2);
    assert ['/'] + tail == [] + ['/'] + tail;
    SplitNAt([], tail, '/', 3);
    SplitNAt(scheme, ['/'] + tail, '/', 4);
    SplitNChain(scheme + ['/'] + (['/'] + tail), ['/'] + tail, tail, scheme, host, rest);
  }

  /** A URL with a scheme whose first three slashes leave a two-segment path. */
  lemma ParseFullUrl(e: string, scheme: string, host: string, path: string, t: EndpointType)
    requires HasScheme(e) && SplitN(e, '/', 4) == [scheme, "", host, path]
    requires |Split(path, '/')| == 2 && TypeOf(Split(path, '/')[0], Split(path, '/')[1]) == Success(t)
    ensures ParseEndpoint(e) == Success((Some(scheme + "//" + host), t))
  {
    assert AddProtocolIfMissing(e) == e;
  }

  /** A full URL `scheme//host/kind/id` reads back as its server and endpoint. */
  lemma UrlRoundTrip(scheme: string, host: string, t: EndpointType)
    requires scheme == "http:" || scheme == "https:"
    requires '/' !in host && Addressable(t)
    ensures ParseEndpoint(scheme + "//" + host + "/" + PathOf(t)) == Success((Some(scheme + "//" + host), t))
  {
    var e := scheme + "//" + host + "/" + PathOf(t);
    assert e == scheme + ['/'] + (['/'] + (host + ['/'] + PathOf(t)));
    UrlHasScheme(scheme, host, PathOf(t));
    UrlParts(scheme, host, PathOf(t));
    PathSegments(t);
    ParseFullUrl(e, scheme, host, PathOf(t), t);
  }
}
