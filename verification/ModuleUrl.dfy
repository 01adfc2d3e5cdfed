/** The launch URL of a module endpoint as a printer, with a parser that inverts it on every accepted endpoint. */
module ModuleUrl {
  import opened Common

  datatype Protocol = HTTP | HTTPS

  /** A ModuleEndpoint row; host and port are null until an Integration Admin sets them. */
  datatype Endpoint = Endpoint(protocol: Protocol, host: Option<string>, port: Option<nat>, path: string)

  function Digit(d: nat): char
    requires d < 10
  {
    "0123456789"[d]
  }

  function Decimal(n: nat): string {
    if n < 10 then [Digit(n)] else Decimal(n / 10) + [Digit(n % 10)]
  }

  function Scheme(p: Protocol): string {
    if p.HTTP? then "http" else "https"
  }

  predicate Configured(e: Endpoint) {
    e.host.Some? && e.host.value != "" && e.port.Some? && e.port.value != 0
  }

  function Authority(host: string): string {
    if ':' in host then "[" + host + "]" else host
  }

  /** buildModuleUrl: null while host or port is missing, empty or zero. */
  function BuildModuleUrl(e: Endpoint): (url: Option<string>)
    ensures url.None? <==> e.host == None || e.host == Some("") || e.port == None || e.port == Some(0)
  {
    if !Configured(e) then None
    else Some(Scheme(e.protocol) + "://" + Authority(e.host.value) + ":" + Decimal(e.port.value) + e.path)
  }

  /** What the round trip needs of an endpoint. */
  predicate Printable(e: Endpoint) {
    && e.host.Some? && e.host.value != "" && '[' !in e.host.value && ']' !in e.host.value
    && e.port.Some? && 1 <= e.port.value <= 65535
    && e.path != "" && e.path[0] == '/'
  }

  /** The first position of `c`, or the length. */
  function IndexOf(s: string, c: char): (i: nat)
    ensures i <= |s| && (i < |s| ==> s[i] == c) && forall k | 0 <= k < i :: s[k] != c
  {
    if s == "" || s[0] == c then 0 else 1 + IndexOf(s[1..], c)
  }

  // ---- What UpdateModuleEndpointDto lets through, by the characters of the host ----

  predicate IsAlphanumeric(c: char) {
    'a' <= c <= 'z' || 'A' <= c <= 'Z' || '0' <= c <= '9'
  }

  predicate IsHexDigit(c: char) {
    'a' <= c <= 'f' || 'A' <= c <= 'F' || '0' <= c <= '9'
  }

  /** A host name or an IPv4 address; letters outside ASCII start at U+00A1. */
  predicate HostName(h: string) {
    h != "" && forall i | 0 <= i < |h| :: IsAlphanumeric(h[i]) || h[i] == '-' || h[i] == '.' || h[i] as int >= 0xa1
  }

  /** An IPv6 address: hexadecimal groups, at least two colons, possibly a zone after a percent sign. */
  predicate IPv6Literal(h: string) {
    var zone := IndexOf(h, '%');
    && (forall i | 0 <= i < zone :: IsHexDigit(h[i]) || h[i] == ':' || h[i] == '.')
    && (exists i, j :: 0 <= i < j < zone && h[i] == ':' && h[j] == ':')
    && forall i | zone < i < |h| :: IsAlphanumeric(h[i]) || h[i] == '-' || h[i] == '.' || h[i] == ':'
  }

  predicate DtoAccepts(e: Endpoint) {
    && e.host.Some? && (HostName(e.host.value) || IPv6Literal(e.host.value))
    && e.port.Some? && 1 <= e.port.value <= 65535
    && e.path != "" && e.path[0] == '/'
  }

  /** IPv6 literals are the accepted hosts with a colon; no accepted host has a bracket. */
  lemma AcceptedHosts(e: Endpoint)
    requires DtoAccepts(e)
    ensures Printable(e)
    ensures IPv6Literal(e.host.value) <==> ':' in e.host.value
    ensures IPv6Literal(e.host.value) <==> !HostName(e.host.value)
  {}

  // ---- A parser for such URLs ----

  function DigitValue(c: char): Option<nat> {
    if '0' <= c <= '9' then Some((c as int) - ('0' as int)) else None
  }

  function ParseDecimal(s: string): Option<nat> {
    if s == "" then None
    else if |s| == 1 then DigitValue(s[0])
    else
      match (ParseDecimal(s[..|s| - 1]), DigitValue(s[|s| - 1]))
      case (Some(high), Some(low)) => Some(10 * high + low)
      case _ => None
  }

  /** After the host: a colon, the port, and the path from the first slash on. */
  function ParseTail(protocol: Protocol, host: string, s: string): Option<Endpoint> {
    if s == "" || s[0] != ':' then None
    else
      var i := IndexOf(s[1..], '/');
      match ParseDecimal(s[1..][..i])
      case Some(port) => Some(Endpoint(protocol, Some(host), Some(port), s[1..][i..]))
      case None => None
  }

  function ParseAuthority(protocol: Protocol, s: string): Option<Endpoint> {
    if s != "" && s[0] == '[' then
      var i := IndexOf(s[1..], ']');
      if i == |s[1..]| then None else ParseTail(protocol, s[1..][..i], s[1..][i + 1..])
    else
      var i := IndexOf(s, ':');
      ParseTail(protocol, s[..i], s[i..])
  }

  function ParseModuleUrl(url: string): Option<Endpoint> {
    if "https://" <= url then ParseAuthority(HTTPS, url[8..])
    else if "http://" <= url then ParseAuthority(HTTP, url[7..])
    else None
  }

  // ---- The parser inverts the printer ----

  lemma {:induction false} DecimalRoundTrip(n: nat)
    ensures ParseDecimal(Decimal(n)) == Some(n)
    ensures '/' !in Decimal(n) && Decimal(n) != ""
  {
    if n >= 10 {
      DecimalRoundTrip(n / 10);
      var d := Decimal(n);
      assert d[..|d| - 1] == Decimal(n / 10);
    }
  }

  /** A character that is absent from the left part is found where the right part starts. */
  lemma {:induction false} IndexAfter(a: string, b: string, c: char)
    requires c !in a && b != "" && b[0] == c
    ensures IndexOf(a + b, c) == |a|
  {
    forall k | 0 <= k < |a| ensures (a + b)[k] != c {
      assert (a + b)[k] == a[k];
    }
    assert (a + b)[|a|] == c;
  }

  lemma TailRoundTrip(protocol: Protocol, host: string, digits: string, port: nat, path: string)
    requires ParseDecimal(digits) == Some(port) && '/' !in digits
    requires path != "" && path[0] == '/'
    ensures ParseTail(protocol, host, ":" + digits + path) == Some(Endpoint(protocol, Some(host), Some(port), path))
  {
    IndexAfter(digits, path, '/');
    var s, i := ":" + digits + path, |digits|;
    assert s[1..] == digits + path;
    assert s[1..][..i] == digits && s[1..][i..] == path;
  }

  lemma BracketedHost(protocol: Protocol, host: string, tail: string)
    requires ']' !in host
    ensures ParseAuthority(protocol, "[" + host + "]" + tail) == ParseTail(protocol, host, tail)
  {
    var s, rest := "[" + host + "]" + tail, "]" + tail;
    assert s[1..] == host + rest;
    IndexAfter(host, rest, ']');
    assert s[1..][..|host|] == host;
    assert s[1..][|host| + 1..] == tail;
  }

  lemma PlainHost(protocol: Protocol, host: string, tail: string)
    requires host != "" && host[0] != '[' && ':' !in host && tail != "" && tail[0] == ':'
    ensures ParseAuthority(protocol, host + tail) == ParseTail(protocol, host, tail)
  {
    var s := host + tail;
    assert s[0] == host[0];
    IndexAfter(host, tail, ':');
    assert s[..|host|] == host && s[|host|..] == tail;
  }

  lemma SchemeIsRecognised(protocol: Protocol, rest: string)
    ensures ParseModuleUrl(Scheme(protocol) + "://" + rest) == ParseAuthority(protocol, rest)
  {
    var url := Scheme(protocol) + "://" + rest;
    if protocol.HTTP? {
      assert url[4] == ':';
      assert url[..7] == "http://" && url[7..] == rest;
    } else {
      assert url[..8] == "https://" && url[8..] == rest;
    }
  }

  /** Round trip: parsing the printed URL gives back protocol, host, port and path. */
  lemma BuildModuleUrlRoundTrip(e: Endpoint)
    requires Printable(e)
    ensures BuildModuleUrl(e).Some? && ParseModuleUrl(BuildModuleUrl(e).value) == Some(e)
  {
    var host, digits := e.host.value, Decimal(e.port.value);
    var tail := ":" + digits + e.path;
    RegroupUrl(Scheme(e.protocol) + "://", Authority(host), ":", digits, e.path);
    SchemeIsRecognised(e.protocol, Authority(host) + tail);
    DecimalRoundTrip(e.port.value);
    TailRoundTrip(e.protocol, host, digits, e.port.value, e.path);
    AuthorityRoundTrip(e.protocol, host, tail);
  }

  lemma AuthorityRoundTrip(protocol: Protocol, host: string, tail: string)
    requires host != "" && '[' !in host && ']' !in host && tail != "" && tail[0] == ':'
    ensures ParseAuthority(protocol, Authority(host) + tail) == ParseTail(protocol, host, tail)
  {
    if ':' in host {
      BracketedHost(protocol, host, tail);
    } else {
      PlainHost(protocol, host, tail);
    }
  }

  lemma RegroupUrl(a: string, b: string, c: string, d: string, e: string)
    ensures a + b + c + d + e == a + (b + (c + d + e))
  {}

  /** Hence two printable endpoints never share a URL. */
  lemma BuildModuleUrlInjective(e: Endpoint, f: Endpoint)
    requires Printable(e) && Printable(f) && BuildModuleUrl(e) == BuildModuleUrl(f)
    ensures e == f
  {
    BuildModuleUrlRoundTrip(e);
    BuildModuleUrlRoundTrip(f);
  }

  /**
   In the URL of an accepted endpoint the host stands between brackets, as section 3.2.2 of RFC 3986 asks for IPv6
   literals, exactly when it is one, and stands bare exactly when it is a name or an IPv4 address.
   */
  lemma BracketedIffIPv6(e: Endpoint)
    requires DtoAccepts(e)
    ensures BuildModuleUrl(e).Some?
    ensures var url, h := BuildModuleUrl(e).value, e.host.value;
            var start := |Scheme(e.protocol)| + 3;
            && (IPv6Literal(h) <==> start + |h| + 2 <= |url| && url[start..start + |h| + 2] == "[" + h + "]")
            && (HostName(h) <==> start + |h| <= |url| && url[start..start + |h|] == h)
  {
    AcceptedHosts(e);
    UrlParts(e);
    HostStands(Scheme(e.protocol) + "://", e.host.value, ":" + Decimal(e.port.value) + e.path);
  }

  lemma UrlParts(e: Endpoint)
    requires Printable(e)
    ensures var before, after := Scheme(e.protocol) + "://", ":" + Decimal(e.port.value) + e.path;
            |before| == |Scheme(e.protocol)| + 3
            && BuildModuleUrl(e) == Some(before + (Authority(e.host.value) + after))
  {
    RegroupUrl(Scheme(e.protocol) + "://", Authority(e.host.value), ":", Decimal(e.port.value), e.path);
  }

  lemma HostStands(before: string, h: string, after: string)
    requires h != "" && '[' !in h
    ensures var url, start := before + (Authority(h) + after), |before|;
            && (':' in h <==> start + |h| + 2 <= |url| && url[start..start + |h| + 2] == "[" + h + "]")
            && (':' !in h <==> start + |h| <= |url| && url[start..start + |h|] == h)
  {
    var url, start := before + (Authority(h) + after), |before|;
    assert url[start..start + |Authority(h)|] == Authority(h);
    assert url[start] == Authority(h)[0] && h[0] != '[';
    if start + |h| + 2 <= |url| {
      assert url[start..start + |h| + 2][0] == url[start];
    }
    assert url[start..start + |h|][0] == url[start];
  }
}
