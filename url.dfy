/** The part of Go's net/url that the container manager uses: Parse, the
    Host/Path/Scheme fields and Hostname(). Parsing follows Go's algorithm
    for the scheme and authority components (sections 3.1 and 3.2 of
    RFC 3986): the fragment is cut at the first '#', a control character is
    refused, the scheme runs up to the first ':' when it is a well-formed
    scheme, the query is cut at the first '?', an authority follows "//" and
    runs up to the next '/', user information ends at the last '@', and a
    port must be all digits. Percent-escapes are not decoded. */
module Url {
  import opened Base

  /** A parsed URL. `host` keeps the port, as Go's URL.Host does; `opaque`
      (Go's URL.Opaque) is set for URLs such as "mailto:x" whose scheme is not followed by '/'. */
  datatype Url = Url(scheme: string, opaqueText: string, host: string, path: string)

  datatype UrlError =
    | InvalidControlCharacter
    | MissingProtocolScheme
    | ColonInFirstSegment
    | MissingBracketInHost
    | InvalidPort

  predicate IsControl(c: char) { c as int < 0x20 || c as int == 0x7f }

  predicate IsLetter(c: char) { 'a' <= c <= 'z' || 'A' <= c <= 'Z' }

  predicate IsDigit(c: char) { '0' <= c <= '9' }

  function LowerChar(c: char): char
  {
    if 'A' <= c <= 'Z' then (c as int + 32) as char else c
  }

  /** strings.ToLower on ASCII letters. */
  function ToLower(s: string): (r: string)
    ensures |r| == |s|
  {
    seq(|s|, i requires 0 <= i < |s| => LowerChar(s[i]))
  }

  /** strings.Cut(s, string(c)): the text before the first `c` and after it. */
  function Cut(s: string, c: char): (r: (string, string))
    ensures c !in r.0
    ensures c in s ==> s == r.0 + [c] + r.1
    ensures c !in s ==> r == (s, [])
  {
    if s == [] then ([], [])
    else if s[0] == c then ([], s[1..])
    else
      var (a, b) := Cut(s[1..], c);
      assert s == [s[0]] + s[1..];
      ([s[0]] + a, b)
  }

  /** strings.LastIndexByte. */
  function LastIndexOf(s: string, c: char): (r: Option<nat>)
    ensures r.Some? ==> r.value < |s| && s[r.value] == c && c !in s[r.value + 1..]
    ensures r.None? ==> c !in s
  {
    if s == [] then None
    else if s[|s| - 1] == c then Some(|s| - 1)
    else
      var r := LastIndexOf(s[..|s| - 1], c);
      assert s == s[..|s| - 1] + [s[|s| - 1]];
      r
  }

  /** Go's validOptionalPort: empty, or ':' followed by digits only. */
  predicate ValidOptionalPort(port: string)
  {
    port == [] || (port[0] == ':' && forall i :: 1 <= i < |port| ==> IsDigit(port[i]))
  }

  // ---------------------------------------------------------------------
  // Scheme (section 3.1 of RFC 3986, as Go's getScheme reads it)
  // ---------------------------------------------------------------------

  datatype SchemeSplit = NoScheme | Scheme(name: string, rest: string) | SchemeMissing

  function GetScheme(raw: string): SchemeSplit
  {
    GetSchemeFrom(raw, 0)
  }

  function GetSchemeFrom(raw: string, i: nat): SchemeSplit
    requires i <= |raw|
    decreases |raw| - i
  {
    if i == |raw| then NoScheme
    else
      var c := raw[i];
      if IsLetter(c) then GetSchemeFrom(raw, i + 1)
      else if IsDigit(c) || c == '+' || c == '-' || c == '.' then
        (if i == 0 then NoScheme else GetSchemeFrom(raw, i + 1))
      else if c == ':' then
        (if i == 0 then SchemeMissing else Scheme(raw[..i], raw[i + 1..]))
      else NoScheme
  }

  /** A scheme as RFC 3986 section 3.1 writes it: a letter, then letters,
      digits, '+', '-' or '.'. */
  predicate ValidScheme(s: string)
  {
    |s| > 0 && IsLetter(s[0]) &&
    forall i :: 0 < i < |s| ==> IsLetter(s[i]) || IsDigit(s[i]) || s[i] == '+' || s[i] == '-' || s[i] == '.'
  }

  lemma {:induction false} GetSchemeOfValid(scheme: string, rest: string, i: nat)
    requires ValidScheme(scheme) && i <= |scheme|
    ensures GetSchemeFrom(scheme + ":" + rest, i) == Scheme(scheme, rest)
    decreases |scheme| - i
  {
    var raw := scheme + ":" + rest;
    if i == |scheme| {
      assert raw[i] == ':';
      assert raw[..i] == scheme && raw[i + 1..] == rest;
    } else {
      assert raw[i] == scheme[i];
      GetSchemeOfValid(scheme, rest, i + 1);
    }
  }

  // ---------------------------------------------------------------------
  // Authority (section 3.2 of RFC 3986, as Go's parseAuthority reads it)
  // ---------------------------------------------------------------------

  /** Go's parseHost, without percent-decoding: a bracketed IPv6 literal
      needs its ']' and may carry a port; otherwise whatever follows the last
      ':' must be a port. The host text is kept as it is. */
  function ParseHost(h: string): Result<string, UrlError>
  {
    if |h| > 0 && h[0] == '[' then
      match LastIndexOf(h, ']')
      case None => Err(MissingBracketInHost)
      case Some(i) => if ValidOptionalPort(h[i + 1..]) then Ok(h) else Err(InvalidPort)
    else
      match LastIndexOf(h, ':')
      case None => Ok(h)
      case Some(i) => if ValidOptionalPort(h[i..]) then Ok(h) else Err(InvalidPort)
  }

  /** Go's parseAuthority: user information ends at the last '@'. */
  function ParseAuthority(authority: string): Result<string, UrlError>
  {
    match LastIndexOf(authority, '@')
    case None => ParseHost(authority)
    case Some(i) => ParseHost(authority[i + 1..])
  }

  // ---------------------------------------------------------------------
  // url.Parse
  // ---------------------------------------------------------------------

  function ParseRest(scheme: string, afterScheme: string): Result<Url, UrlError>
  {
    var rest := Cut(afterScheme, '?').0;
    if !HasPrefix(rest, "/") && scheme != [] then Ok(Url(scheme, rest, [], []))
    else if !HasPrefix(rest, "/") && ':' in Cut(rest, '/').0 then Err(ColonInFirstSegment)
    else if HasPrefix(rest, "//") && (scheme != [] || !HasPrefix(rest, "///")) then
      var afterSlashes := rest[2..];
      var authority := Cut(afterSlashes, '/').0;
      var path := afterSlashes[|authority|..];
      match ParseAuthority(authority)
      case Err(e) => Err(e)
      case Ok(host) => Ok(Url(scheme, [], host, path))
    else Ok(Url(scheme, [], [], rest))
  }

  /** url.Parse. */
  function Parse(raw: string): Result<Url, UrlError>
  {
    var u := Cut(raw, '#').0;
    if exists i :: 0 <= i < |u| && IsControl(u[i]) then Err(InvalidControlCharacter)
    else if u == "*" then Ok(Url([], [], [], "*"))
    else
      match GetScheme(u)
      case SchemeMissing => Err(MissingProtocolScheme)
      case NoScheme => ParseRest([], u)
      case Scheme(name, rest) => ParseRest(ToLower(name), rest)
  }

  /** URL.Hostname(): the host without its port and without the brackets
      of an IPv6 literal. */
  function Hostname(u: Url): (h: string)
    ensures |h| <= |u.host|
    ensures Contains(u.host, h)
  {
    var hp := u.host;
    var host :=
      match LastIndexOf(hp, ':')
      case Some(i) => if ValidOptionalPort(hp[i..]) then hp[..i] else hp
      case None => hp;
    assert host == hp[..|host|];
    assert OccursAt(hp, host, 0);
    if |host| >= 2 && host[0] == '[' && host[|host| - 1] == ']' then
      assert host[1..|host| - 1] == hp[1..|host| - 1];
      assert OccursAt(hp, host[1..|host| - 1], 1);
      host[1..|host| - 1]
    else host
  }

  /** A host as the store endpoints write it: no delimiter of another URL
      component, not an IPv6 literal, and any port all digits. */
  predicate PlainHost(host: string)
  {
    && '/' !in host && '?' !in host && '#' !in host && '@' !in host
    && (forall i :: 0 <= i < |host| ==> !IsControl(host[i]))
    && (|host| > 0 ==> host[0] != '[')
    && match LastIndexOf(host, ':')
       case None => true
       case Some(i) => ValidOptionalPort(host[i..])
  }

  /** A path without query, fragment or control characters. */
  predicate PlainPath(path: string)
  {
    (path == [] || path[0] == '/') && '?' !in path && '#' !in path &&
    (forall i :: 0 <= i < |path| ==> !IsControl(path[i]))
  }

  /** Any "scheme://host/path" built from plain parts parses back into
      exactly those parts (the scheme lower-cased, as Go does). */
  lemma ParseAbsolute(scheme: string, host: string, path: string)
    requires ValidScheme(scheme) && PlainHost(host) && PlainPath(path)
    requires forall i :: 0 <= i < |scheme| ==> !IsControl(scheme[i])
    ensures Parse(scheme + "://" + host + path) == Ok(Url(ToLower(scheme), [], host, path))
  {
    var raw := scheme + "://" + host + path;
    var afterScheme := "//" + host + path;
    assert raw == scheme + ":" + afterScheme;
    assert '#' !in raw;
    assert Cut(raw, '#').0 == raw;
    NoControlInConcat(scheme, "://", host, path);
    assert raw != "*" by { assert raw[0] == scheme[0]; }
    GetSchemeOfValid(scheme, afterScheme, 0);
    ParseRestAuthority(ToLower(scheme), host, path);
  }

  lemma NoControlInConcat(a: string, b: string, c: string, d: string)
    requires forall i :: 0 <= i < |a| ==> !IsControl(a[i])
    requires forall i :: 0 <= i < |b| ==> !IsControl(b[i])
    requires forall i :: 0 <= i < |c| ==> !IsControl(c[i])
    requires forall i :: 0 <= i < |d| ==> !IsControl(d[i])
    ensures forall i :: 0 <= i < |a + b + c + d| ==> !IsControl((a + b + c + d)[i])
  {
    var s := a + b + c + d;
    forall i | 0 <= i < |s| ensures !IsControl(s[i]) {
      if i < |a| { assert s[i] == a[i]; }
      else if i < |a| + |b| { assert s[i] == b[i - |a|]; }
      else if i < |a| + |b| + |c| { assert s[i] == c[i - |a| - |b|]; }
      else { assert s[i] == d[i - |a| - |b| - |c|]; }
    }
  }

  lemma ParseRestAuthority(scheme: string, host: string, path: string)
    requires scheme != [] && PlainHost(host) && PlainPath(path)
    ensures ParseRest(scheme, "//" + host + path) == Ok(Url(scheme, [], host, path))
  {
    var rest := "//" + host + path;
    assert '?' !in rest;
    assert HasPrefix(rest, "/") && HasPrefix(rest, "//");
    var afterSlashes := rest[2..];
    assert afterSlashes == host + path;
    AuthorityEnds(host, path);
    PlainHostParses(host);
  }

  /** A plain host is its own authority. */
  lemma PlainHostParses(host: string)
    requires PlainHost(host)
    ensures ParseAuthority(host) == Ok(host)
  {
    assert LastIndexOf(host, '@').None?;
  }

  /** The authority of "host/path..." ends at the path's first '/'. */
  lemma AuthorityEnds(host: string, path: string)
    requires '/' !in host && (path == [] || path[0] == '/')
    ensures Cut(host + path, '/').0 == host && (host + path)[|host|..] == path
  {
    if path == [] {
      assert host + path == host;
    } else {
      assert host + path == host + ['/'] + path[1..];
      CutFirst(host, '/', path[1..]);
    }
  }

  /** Cutting a string at a character it first meets after `a`. */
  lemma {:induction false} CutFirst(a: string, c: char, b: string)
    requires c !in a
    ensures Cut(a + [c] + b, c) == (a, b)
    decreases |a|
  {
    if a == [] {
      assert a + [c] + b == [c] + b;
    } else {
      CutFirst(a[1..], c, b);
      assert (a + [c] + b)[1..] == a[1..] + [c] + b;
      assert [a[0]] + a[1..] == a;
    }
  }

  /** The last `c` of a + [c] + b, when b has none, is the one after a. */
  lemma {:induction false} LastIndexAfter(a: string, c: char, b: string)
    requires c !in b
    ensures LastIndexOf(a + [c] + b, c) == Some(|a|)
    decreases |b|
  {
    var s := a + [c] + b;
    if b != [] {
      var b' := b[..|b| - 1];
      assert s[..|s| - 1] == a + [c] + b';
      assert s[|s| - 1] == b[|b| - 1];
      LastIndexAfter(a, c, b');
    }
  }

  /** The hostname of a plain host is the host without its ":port". */
  lemma HostnameOfPlainHost(name: string, port: string)
    requires ':' !in name && (|name| > 0 ==> name[0] != '[')
    requires forall i :: 0 <= i < |port| ==> IsDigit(port[i])
    ensures Hostname(Url([], [], name + ":" + port, [])) == name
    ensures Hostname(Url([], [], name, [])) == name
  {
    var hp := name + ":" + port;
    assert ':' !in port;
    LastIndexAfter(name, ':', port);
    assert hp[|name|..] == ":" + port;
    assert hp[..|name|] == name;
  }

  /** The hostname of a bracketed IPv6 literal, with or without a port, is
      the address inside the brackets. */
  lemma HostnameOfBracketed(addr: string, port: string)
    requires forall i :: 0 <= i < |port| ==> IsDigit(port[i])
    ensures Hostname(Url([], [], "[" + addr + "]:" + port, [])) == addr
    ensures Hostname(Url([], [], "[" + addr + "]", [])) == addr
  {
    var bracketed := "[" + addr + "]";
    assert |bracketed| >= 2 && bracketed[0] == '[' && bracketed[|bracketed| - 1] == ']';
    assert bracketed[1..|bracketed| - 1] == addr;
    BracketedPortStripped(bracketed, port);
    BracketedNoPort(bracketed);
    assert "[" + addr + "]:" + port == bracketed + ":" + port;
    assert Hostname(Url([], [], bracketed + ":" + port, [])) == addr;
    assert Hostname(Url([], [], bracketed, [])) == addr;
  }

  /** A digit port after the brackets is the part Hostname cuts off. */
  lemma BracketedPortStripped(bracketed: string, port: string)
    requires forall i :: 0 <= i < |port| ==> IsDigit(port[i])
    ensures var hp := bracketed + ":" + port;
      LastIndexOf(hp, ':') == Some(|bracketed|) && ValidOptionalPort(hp[|bracketed|..]) &&
      hp[..|bracketed|] == bracketed
  {
    var hp := bracketed + ":" + port;
    assert ':' !in port;
    LastIndexAfter(bracketed, ':', port);
    assert hp[|bracketed|..] == ":" + port;
  }

  /** Without a port, a host ending in ']' keeps all of its characters
      before the brackets are stripped. */
  lemma BracketedNoPort(bracketed: string)
    requires |bracketed| > 0 && bracketed[|bracketed| - 1] == ']'
    ensures match LastIndexOf(bracketed, ':')
      case None => true
      case Some(i) => !ValidOptionalPort(bracketed[i..])
  {
    match LastIndexOf(bracketed, ':')
    case None =>
    case Some(i) =>
      assert bracketed[i..][|bracketed| - 1 - i] == ']';
  }
}
