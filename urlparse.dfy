/** The `new URL(urlString)` call of `analyzeUrl`, for the strings that reach
    it: strings the pattern accepts, with a lower-case `http://` or `https://`
    in front. The URL parser of the WHATWG URL Standard is followed for what
    such strings can exercise: the host is lower-cased, a dotted-quad host
    goes through the IPv4 parser (a group with a leading `0` is octal, a
    number above 255 is a failure), a port above 65535 is a failure, the
    scheme's default port is dropped, and `/` is put before a tail that starts
    with `?` or `#`. A failure is the `TypeError` the constructor throws. */
module UrlParse {
  import opened Text
  import opened Pattern

  /** The properties of the URL object that the analyzer reads. */
  datatype UrlParts = UrlParts(href: string, protocol: string, hostname: string, pathname: string, search: string)

  /** An accepted, schemed string cut into its parts: scheme, host, port digits and tail. */
  datatype Authority = Authority(secure: bool, host: string, port: string, tail: string)

  function SchemeText(secure: bool): string { if secure then "https://" else "http://" }

  function PortText(port: string): string { if port == [] then [] else [':'] + port }

  /** Cuts an accepted string into scheme, host, port and tail; gluing them back gives the string. */
  function SplitUrl(u: string): (a: Authority)
    requires SchemeLength(u) > 0 && MatchesAuthority(u[SchemeLength(u)..])
    ensures u == SchemeText(a.secure) + a.host + PortText(a.port) + a.tail
    ensures a.secure <==> StartsWith(u, "https://")
    ensures IsHost(a.host) && IsTail(a.tail)
    ensures AllDigits(a.port) && |a.port| <= 5
  {
    var k := SchemeLength(u);
    var rest := u[k..];
    var n := HostSpan(rest);
    var after := rest[n..];
    var hasPort := after != [] && after[0] == ':';
    var d := if hasPort then DigitSpan(after[1..]) else 0;
    var port := if hasPort then after[1..][..d] else [];
    var tail := if hasPort then after[1 + d..] else after;
    var a := Authority(k == 8, rest[..n], port, tail);
    assert hasPort ==> 1 <= d;
    SchemeTextOf(u);
    Reassemble(u, k, n, hasPort, d);
    a
  }

  lemma SchemeTextOf(u: string)
    requires SchemeLength(u) > 0
    ensures u[..SchemeLength(u)] == SchemeText(SchemeLength(u) == 8)
    ensures SchemeLength(u) == 8 <==> StartsWith(u, "https://")
  {
  }

  lemma Reassemble(u: string, k: nat, n: nat, hasPort: bool, d: nat)
    requires k <= |u| && n <= |u| - k
    requires hasPort ==> n < |u| - k && u[k + n] == ':' && 1 <= d <= |u| - k - n - 1
    requires !hasPort ==> d == 0
    ensures var after := u[k..][n..];
            u == u[..k] + u[k..][..n]
                 + PortText(if hasPort then after[1..][..d] else [])
                 + (if hasPort then after[1 + d..] else after)
  {
    var rest := u[k..];
    var after := rest[n..];
    assert u == u[..k] + rest;
    assert rest == rest[..n] + after;
    if hasPort {
      assert after[0] == ':';
      assert after == [':'] + after[1..][..d] + after[1 + d..];
    }
  }

  /** One number of a dotted quad, as the IPv4 number parser reads it: a
      leading `0` makes it octal, and an octal numeral with an 8 or 9 fails. */
  function Ipv4Number(g: string): Option<nat>
    requires AllDigits(g)
  {
    if |g| >= 2 && g[0] == '0' then OctalValue(g[1..]) else Some(DecimalValue(g))
  }

  function Ipv4Text(a: nat, b: nat, c: nat, d: nat): string {
    NatToDecimal(a) + ['.'] + (NatToDecimal(b) + ['.'] + (NatToDecimal(c) + ['.'] + NatToDecimal(d)))
  }

  /** The IPv4 parser and serializer on a dotted-quad host; None is a failure. */
  function ParseIpv4(h: string): (r: Option<string>)
    requires IsDottedQuad(h)
  {
    var parts := Split(h, '.');
    match (Ipv4Number(parts[0]), Ipv4Number(parts[1]), Ipv4Number(parts[2]), Ipv4Number(parts[3]))
    case (Some(a), Some(b), Some(c), Some(d)) =>
      if a <= 255 && b <= 255 && c <= 255 && d <= 255 then Some(Ipv4Text(a, b, c, d)) else None
    case _ => None
  }

  lemma NoDotInNumeral(n: nat)
    ensures '.' !in NatToDecimal(n)
  {
    var s := NatToDecimal(n);
    assert forall i :: 0 <= i < |s| ==> IsDigit(s[i]);
  }

  /** Splitting a numeral, a dot and a rest gives the numeral and the pieces of the rest. */
  lemma SplitAfterNumeral(n: nat, rest: string)
    ensures Split(NatToDecimal(n) + ['.'] + rest, '.') == [NatToDecimal(n)] + Split(rest, '.')
  {
    SplitAround(NatToDecimal(n), rest, '.');
    NoDotInNumeral(n);
    SplitFree(NatToDecimal(n), '.');
  }

  /** The pieces of a serialized IPv4 address between its dots are its four numerals. */
  lemma SplitIpv4Text(a: nat, b: nat, c: nat, d: nat)
    ensures Split(Ipv4Text(a, b, c, d), '.')
            == [NatToDecimal(a), NatToDecimal(b), NatToDecimal(c), NatToDecimal(d)]
  {
    var nd := NatToDecimal(d);
    var t2 := NatToDecimal(c) + ['.'] + nd;
    var t1 := NatToDecimal(b) + ['.'] + t2;
    SplitAfterNumeral(a, t1);
    SplitAfterNumeral(b, t2);
    SplitAfterNumeral(c, nd);
    NoDotInNumeral(d);
    SplitFree(nd, '.');
  }

  /** Four numbers below 1000 written with dots form a dotted quad; in
      particular a serialized IPv4 address does, so the raw-IP test sees it. */
  lemma Ipv4TextIsDottedQuad(a: nat, b: nat, c: nat, d: nat)
    requires a < 1000 && b < 1000 && c < 1000 && d < 1000
    ensures IsDottedQuad(Ipv4Text(a, b, c, d))
  {
    SplitIpv4Text(a, b, c, d);
    DecimalLength(a); DecimalLength(b); DecimalLength(c); DecimalLength(d);
    var parts := Split(Ipv4Text(a, b, c, d), '.');
    assert IsDigitGroup(parts[0]) && IsDigitGroup(parts[1]) && IsDigitGroup(parts[2]) && IsDigitGroup(parts[3]);
  }

  function DefaultPort(secure: bool): nat { if secure then 443 else 80 }

  /** The serialized port: empty for none or for the scheme's default, None above 65535. */
  function PortPart(port: string, secure: bool): (r: Option<string>)
    requires AllDigits(port)
    ensures r.None? <==> port != [] && DecimalValue(port) > 65535
    ensures r == Some([]) <==> port == [] || DecimalValue(port) == DefaultPort(secure)
    ensures r.Some? && r.value != [] ==> r.value == [':'] + NatToDecimal(DecimalValue(port))
  {
    if port == [] then Some([])
    else
      var v := DecimalValue(port);
      if v > 65535 then None
      else if v == DefaultPort(secure) then Some([])
      else Some([':'] + NatToDecimal(v))
  }

  /** Length of the path: everything before the first `?` or `#`. */
  function PathLength(t: string): (n: nat)
    ensures n <= |t|
    ensures forall i :: 0 <= i < n ==> t[i] != '?' && t[i] != '#'
    ensures n < |t| ==> t[n] == '?' || t[n] == '#'
  {
    if t == [] || t[0] == '?' || t[0] == '#' then 0 else 1 + PathLength(t[1..])
  }

  /** Length of the query: everything before the first `#`. */
  function QueryLength(t: string): (n: nat)
    ensures n <= |t|
    ensures forall i :: 0 <= i < n ==> t[i] != '#'
    ensures n < |t| ==> t[n] == '#'
  {
    if t == [] || t[0] == '#' then 0 else 1 + QueryLength(t[1..])
  }

  /** `search`: `?` and the query, or empty when there is no query or it is empty. */
  function SearchOf(path: string): (s: string)
    ensures s == [] || (s[0] == '?' && |s| >= 2)
  {
    var n := PathLength(path);
    if n < |path| && path[n] == '?' then
      var q := path[n + 1..][..QueryLength(path[n + 1..])];
      if q == [] then [] else ['?'] + q
    else []
  }

  function ProtocolOf(secure: bool): string { if secure then "https:" else "http:" }

  /** `new URL(u)` on a validated, schemed string; None is the `TypeError` it throws. */
  function ParseUrl(u: string): (r: Option<UrlParts>)
    requires SchemeLength(u) > 0 && MatchesAuthority(u[SchemeLength(u)..])
    ensures r.None? <==> (IsDottedQuad(SplitUrl(u).host) && ParseIpv4(SplitUrl(u).host).None?)
                         || (SplitUrl(u).port != [] && DecimalValue(SplitUrl(u).port) > 65535)
    ensures r.Some? ==> r.value.protocol == (if StartsWith(u, "https://") then "https:" else "http:")
    ensures r.Some? ==> HostnameOf(SplitUrl(u).host) == Some(r.value.hostname)
  {
    var a := SplitUrl(u);
    var hostname := HostnameOf(a.host);
    var port := PortPart(a.port, a.secure);
    if hostname.None? || port.None? then None
    else Some(Assemble(a, hostname.value, port.value))
  }

  /** The record `new URL` returns: `href` starts with the protocol, `//` and the
      hostname, the path starts with `/`, and `href` holds an `@` exactly when the input does. */
  lemma ParsedShape(u: string)
    requires SchemeLength(u) > 0 && MatchesAuthority(u[SchemeLength(u)..])
    requires ParseUrl(u).Some?
    ensures var p := ParseUrl(u).value;
            StartsWith(p.href, p.protocol + "//" + p.hostname) && StartsWith(p.pathname, "/")
            && ('@' in p.href <==> '@' in u)
  {
    var a := SplitUrl(u);
    var hostname := HostnameOf(a.host).value;
    var port := PortPart(a.port, a.secure).value;
    AtOnlyInTail(u, a, hostname, port, PathOf(a.tail), Assemble(a, hostname, port).href);
  }
  /** A port that is kept keeps its value; only leading zeros are dropped. */
  lemma PortValueKept(port: string, secure: bool)
    requires AllDigits(port) && PortPart(port, secure).Some? && PortPart(port, secure).value != []
    ensures var digits := PortPart(port, secure).value[1..];
            AllDigits(digits) && DecimalValue(digits) == DecimalValue(port)
            && (|digits| > 1 ==> digits[0] != '0')
  {
    DecimalRoundTrip(DecimalValue(port));
    assert PortPart(port, secure).value[1..] == NatToDecimal(DecimalValue(port));
  }

  /** The host as the URL parser serializes it. */
  function HostnameOf(host: string): (r: Option<string>)
    requires IsHost(host)
    ensures r.None? <==> IsDottedQuad(host) && ParseIpv4(host).None?
  {
    if IsDottedQuad(host) then ParseIpv4(host) else Some(Lower(host))
  }

  /** The path with the `/` a special URL always has. */
  function PathOf(tail: string): (path: string)
    ensures StartsWith(path, "/")
    ensures path == tail || path == "/" + tail
  {
    if tail != [] && tail[0] == '/' then tail else "/" + tail
  }

  /** The URL record serialized from its parts. */
  function Assemble(a: Authority, hostname: string, port: string): (r: UrlParts)
    ensures r.protocol == ProtocolOf(a.secure)
    ensures r.href == ProtocolOf(a.secure) + "//" + hostname + port + PathOf(a.tail)
    ensures StartsWith(r.href, r.protocol + "//" + r.hostname)
    ensures r.hostname == hostname
    ensures StartsWith(r.pathname, "/")
  {
    var path := PathOf(a.tail);
    var protocol := ProtocolOf(a.secure);
    var href := protocol + "//" + hostname + port + path;
    assert href == (protocol + "//" + hostname) + (port + path);
    assert path[..PathLength(path)][..1] == path[..1];
    UrlParts(href, protocol, hostname, path[..PathLength(path)], SearchOf(path))
  }

  lemma HostHasNoAt(h: string)
    requires IsHost(h)
    ensures '@' !in h
  {
    HostShape(h);
    forall i | 0 <= i < |h| ensures h[i] != '@' {
      assert IsHostChar(h[i]);
    }
  }

  lemma LowerHasNoAt(h: string)
    requires '@' !in h
    ensures '@' !in Lower(h)
  {
    var l := Lower(h);
    forall i | 0 <= i < |l| ensures l[i] != '@' {
      assert l[i] == LowerChar(h[i]);
    }
  }

  /** Neither a host nor the hostname `new URL` reports for it holds an `@`. */
  lemma HostnameHasNoAt(host: string, hostname: string)
    requires IsHost(host)
    requires hostname == Lower(host) || (IsDottedQuad(host) && Some(hostname) == ParseIpv4(host))
    ensures '@' !in host && '@' !in hostname
  {
    HostHasNoAt(host);
    if hostname == Lower(host) {
      LowerHasNoAt(host);
    } else {
      var parts := Split(host, '.');
      var ns := [Ipv4Number(parts[0]), Ipv4Number(parts[1]), Ipv4Number(parts[2]), Ipv4Number(parts[3])];
      assert hostname == Ipv4Text(ns[0].value, ns[1].value, ns[2].value, ns[3].value);
      NumeralsHaveNoAt(ns[0].value, ns[1].value, ns[2].value, ns[3].value);
    }
  }

  /** An `@` can only come from the tail, in the input as in `href`. */
  lemma AtOnlyInTail(u: string, a: Authority, hostname: string, port: string, path: string, href: string)
    requires u == SchemeText(a.secure) + a.host + PortText(a.port) + a.tail
    requires IsHost(a.host) && AllDigits(a.port)
    requires hostname == Lower(a.host) || (IsDottedQuad(a.host) && Some(hostname) == ParseIpv4(a.host))
    requires port == [] || (port[0] == ':' && AllDigits(port[1..]))
    requires path == a.tail || path == "/" + a.tail
    requires href == ProtocolOf(a.secure) + "//" + hostname + port + path
    ensures '@' in href <==> '@' in u
  {
    HostnameHasNoAt(a.host, hostname);
    assert '@' !in PortText(a.port);
    assert '@' !in SchemeText(a.secure);
    assert '@' !in ProtocolOf(a.secure) + "//";
    assert '@' !in port;
    assert '@' in u <==> '@' in a.tail;
    assert '@' in href <==> '@' in path;
  }

  lemma NumeralsHaveNoAt(a: nat, b: nat, c: nat, d: nat)
    ensures '@' !in Ipv4Text(a, b, c, d)
  {
    var s := Ipv4Text(a, b, c, d);
    var na, nb, nc, nd := NatToDecimal(a), NatToDecimal(b), NatToDecimal(c), NatToDecimal(d);
    assert forall i :: 0 <= i < |na| ==> IsDigit(na[i]);
    assert forall i :: 0 <= i < |nb| ==> IsDigit(nb[i]);
    assert forall i :: 0 <= i < |nc| ==> IsDigit(nc[i]);
    assert forall i :: 0 <= i < |nd| ==> IsDigit(nd[i]);
  }

  /** A serialized IPv4 address holds only digits and dots, so lower-casing leaves it alone. */
  lemma NumeralsAreLowerCase(a: nat, b: nat, c: nat, d: nat)
    ensures Lower(Ipv4Text(a, b, c, d)) == Ipv4Text(a, b, c, d)
  {
    var s := Ipv4Text(a, b, c, d);
    var na, nb, nc, nd := NatToDecimal(a), NatToDecimal(b), NatToDecimal(c), NatToDecimal(d);
    assert forall i :: 0 <= i < |na| ==> IsDigit(na[i]);
    assert forall i :: 0 <= i < |nb| ==> IsDigit(nb[i]);
    assert forall i :: 0 <= i < |nc| ==> IsDigit(nc[i]);
    assert forall i :: 0 <= i < |nd| ==> IsDigit(nd[i]);
    assert forall ch :: ch in s ==> IsDigit(ch) || ch == '.';
    LowerKeeps(s);
  }

  /** The hostname `new URL` reports is already lower case. */
  lemma HostnameIsLowerCase(host: string)
    requires IsHost(host) && HostnameOf(host).Some?
    ensures Lower(HostnameOf(host).value) == HostnameOf(host).value
  {
    if IsDottedQuad(host) {
      var parts := Split(host, '.');
      var ns := [Ipv4Number(parts[0]), Ipv4Number(parts[1]), Ipv4Number(parts[2]), Ipv4Number(parts[3])];
      NumeralsAreLowerCase(ns[0].value, ns[1].value, ns[2].value, ns[3].value);
    } else {
      LowerIdempotent(host);
    }
  }

  /** The second `toLowerCase` of `analyzeUrl`, applied to the parsed hostname, changes nothing. */
  lemma ParsedHostnameIsLowerCase(u: string)
    requires SchemeLength(u) > 0 && MatchesAuthority(u[SchemeLength(u)..])
    requires ParseUrl(u).Some?
    ensures Lower(ParseUrl(u).value.hostname) == ParseUrl(u).value.hostname
  {
    HostnameIsLowerCase(SplitUrl(u).host);
  }

  /** A dotted-quad host keeps its shape through the IPv4 parser. */
  lemma QuadHostnameIsQuad(host: string)
    requires IsHost(host) && IsDottedQuad(host) && HostnameOf(host).Some?
    ensures IsDottedQuad(HostnameOf(host).value)
  {
    var parts := Split(host, '.');
    var ns := [Ipv4Number(parts[0]), Ipv4Number(parts[1]), Ipv4Number(parts[2]), Ipv4Number(parts[3])];
    Ipv4TextIsDottedQuad(ns[0].value, ns[1].value, ns[2].value, ns[3].value);
  }

  /** A dotted-quad host keeps its shape through parsing: the hostname is a dotted quad. */
  lemma ParsedQuadIsQuad(u: string)
    requires SchemeLength(u) > 0 && MatchesAuthority(u[SchemeLength(u)..])
    requires IsDottedQuad(SplitUrl(u).host) && ParseUrl(u).Some?
    ensures IsDottedQuad(ParseUrl(u).value.hostname)
  {
    QuadHostnameIsQuad(SplitUrl(u).host);
  }

}
