/** The callback side of the configuration: the path component (section 3.3 of
    RFC 3986) of the configured callback URL, read the way Go's `net/url`
    parses it, and the query parameters of an inbound callback request. */
module CallbackUrl {
  import opened Wrappers
  import opened Text

  datatype UrlError =
    | CallbackUnset        // no callback URL has been configured
    | ControlCharacter     // a control character before the fragment
    | MissingScheme        // the URL starts with ':'
    | ColonInFirstSegment  // a relative URL whose first segment holds ':'
    | InvalidEscape        // a '%' not followed by two hexadecimal digits, or an ASCII escape in a host
    | InvalidHost          // a character a host may not hold
    | InvalidPort          // a port that is not decimal digits after ':'
    | MissingBracket       // a host opening with '[' that has no ']'
    | InvalidUserinfo      // a character the user information may not hold

  predicate IsLetter(c: char)
  {
    'a' <= c <= 'z' || 'A' <= c <= 'Z'
  }

  /** A character allowed after the first one of a scheme. */
  predicate IsSchemeChar(c: char)
  {
    IsLetter(c) || IsDecimalDigit(c) || c == '+' || c == '-' || c == '.'
  }

  /** A scheme as section 3.1 of RFC 3986 spells it. */
  predicate IsScheme(s: string)
  {
    |s| >= 1 && IsLetter(s[0]) && forall c <- s :: IsSchemeChar(c)
  }

  datatype SchemeSplit = SchemeSplit(scheme: string, rest: string)

  /** Go's `getScheme`, scanning from index `i`: letters, then digits and
      `+-.` after the first character, up to a ':'; any other character means
      there is no scheme. */
  function ScanScheme(s: string, i: nat): (r: Result<SchemeSplit, UrlError>)
    requires i <= |s|
    ensures r.Success? && r.value.scheme != [] ==> s == r.value.scheme + ":" + r.value.rest
    ensures r.Success? && r.value.scheme == [] ==> r.value.rest == s
    ensures r.Failure? ==> r.error == MissingScheme && i == 0 && |s| > 0 && s[0] == ':'
    decreases |s| - i
  {
    if i == |s| then Success(SchemeSplit([], s))
    else if IsLetter(s[i]) then ScanScheme(s, i + 1)
    else if IsSchemeChar(s[i]) then
      if i == 0 then Success(SchemeSplit([], s)) else ScanScheme(s, i + 1)
    else if s[i] == ':' then
      if i == 0 then Failure(MissingScheme)
      else
        assert s == s[..i] + ":" + s[i + 1..];
        Success(SchemeSplit(s[..i], s[i + 1..]))
    else Success(SchemeSplit([], s))
  }

  /** The scanner finds a well-formed scheme and stops at its colon. */
  lemma {:induction false} ScanSchemeFinds(scheme: string, rest: string, i: nat)
    requires IsScheme(scheme) && i <= |scheme|
    ensures ScanScheme(scheme + ":" + rest, i) == Success(SchemeSplit(scheme, rest))
    decreases |scheme| - i
  {
    var s := scheme + ":" + rest;
    if i < |scheme| {
      assert s[i] == scheme[i] && scheme[i] in scheme;
      ScanSchemeFinds(scheme, rest, i + 1);
    } else {
      assert s[i] == ':';
      assert s[..i] == scheme && s[i + 1..] == rest;
    }
  }

  predicate StartsWith(s: string, prefix: string)
  {
    |prefix| <= |s| && s[..|prefix|] == prefix
  }

  /** The path of the URL (scheme, authority, query and fragment stripped,
      percent-escapes decoded), or why Go's `url.Parse` rejects it: the
      fragment is cut off first and checked last. */
  function ParsePath(raw: string): (r: Result<string, UrlError>)
    ensures (exists c <- CutAt(raw, '#').before :: IsControl(c)) ==> r == Failure(ControlCharacter)
    ensures r.Success? ==> WellEscaped(CutAt(raw, '#').after)
  {
    var frag := CutAt(raw, '#');
    match ParseReference(frag.before)
    case Failure(err) => Failure(err)
    case Success(p) => if WellEscaped(frag.after) then Success(p) else Failure(InvalidEscape)
  }

  /** Go's unexported `parse`, keeping only the path it produces. */
  function ParseReference(u: string): Result<string, UrlError>
  {
    if exists c <- u :: IsControl(c) then Failure(ControlCharacter)
    else match ScanScheme(u, 0)
      case Failure(err) => Failure(err)
      case Success(split) => ParseHierarchicalPart(split.scheme != [], CutAt(split.rest, '?').before)
  }

  /** What follows the scheme, with the query cut off. */
  function ParseHierarchicalPart(hasScheme: bool, rest: string): Result<string, UrlError>
  {
    if !StartsWith(rest, "/") && hasScheme then
      Success([])  // an opaque URL such as `mailto:x` has no path
    else if !StartsWith(rest, "/") && ':' in CutAt(rest, '/').before then
      Failure(ColonInFirstSegment)
    else if (hasScheme || !StartsWith(rest, "///")) && StartsWith(rest, "//") then
      ParseAuthorityAndPath(rest[2..])
    else
      DecodePath(rest)
  }

  /** `authority/path` after the `//`: the authority is checked first. */
  function ParseAuthorityAndPath(r: string): Result<string, UrlError>
  {
    var cut := CutAt(r, '/');
    match AuthorityError(cut.before)
    case Some(err) => Failure(err)
    case None => DecodePath(if cut.found then "/" + cut.after else [])
  }

  /** Go's `parseAuthority`, keeping only the first error it reports: the
      host after the last `@`, then the characters of the user information
      before it, then its escapes (a user name and a password split at `:`
      are well escaped exactly when the whole is). */
  function AuthorityError(authority: string): Option<UrlError>
  {
    var at := CutAtLast(authority, '@');
    match HostError(if at.found then at.after else authority)
    case Some(err) => Some(err)
    case None =>
      if !at.found then None
      else if exists c <- at.before :: !IsUserinfoChar(c) then Some(InvalidUserinfo)
      else if !WellEscaped(at.before) then Some(InvalidEscape)
      else None
  }

  /** Go's `validUserinfo`: the characters a user name and password may hold. */
  predicate IsUserinfoChar(c: char)
  {
    || IsLetter(c) || IsDecimalDigit(c)
    || c == '-' || c == '.' || c == '_' || c == ':' || c == '~' || c == '!' || c == '$' || c == '&'
    || c == '\'' || c == '(' || c == ')' || c == '*' || c == '+' || c == ',' || c == ';' || c == '='
    || c == '%' || c == '@'
  }

  /** Go's `validOptionalPort`: nothing, or `:` followed by decimal digits. */
  predicate ValidOptionalPort(p: string)
  {
    p == [] || (p[0] == ':' && forall c <- p[1..] :: IsDecimalDigit(c))
  }

  /** Go's `parseHost`, keeping only the first error it reports: the port
      comes first (after the `]` of a bracketed literal, otherwise after the
      last `:`), then the whole host is unescaped in host mode. */
  function HostError(host: string): Option<UrlError>
  {
    if StartsWith(host, "[") then
      var close := CutAtLast(host, ']');
      if !close.found then Some(MissingBracket)
      else if !ValidOptionalPort(close.after) then Some(InvalidPort)
      else HostUnescapeError(host)
    else
      var colon := CutAtLast(host, ':');
      if colon.found && !ValidOptionalPort([':'] + colon.after) then Some(InvalidPort)
      else HostUnescapeError(host)
  }

  /** An ASCII character Go's `shouldEscape` lets stand in a host: letters,
      digits, the unreserved marks and the sub-delimiters of section 3.2.2 of
      RFC 3986, with `:`, the brackets, `<`, `>` and `"`. */
  predicate IsHostAscii(c: char)
  {
    || IsLetter(c) || IsDecimalDigit(c)
    || c == '-' || c == '_' || c == '.' || c == '~' || c == '!' || c == '$' || c == '&' || c == '\''
    || c == '(' || c == ')' || c == '*' || c == '+' || c == ',' || c == ';' || c == '=' || c == ':'
    || c == '[' || c == ']' || c == '<' || c == '>' || c == '"'
  }

  /** An escape at `i` that a host may hold: two hexadecimal digits for a
      byte from 0x80 up, or `%25` (section 2 of RFC 6874). */
  predicate HostEscapeAt(h: string, i: nat)
    requires i < |h|
  {
    i + 2 < |h| && IsHexDigit(h[i + 1]) && IsHexDigit(h[i + 2])
    && (HexValue(h[i + 1]) >= 8 || (h[i + 1] == '2' && h[i + 2] == '5'))
  }

  /** Go's `unescape` in host mode, keeping only the first error it meets,
      scanning left to right. */
  function HostUnescapeError(h: string): Option<UrlError>
    decreases |h|
  {
    if h == [] then None
    else if h[0] == '%' then
      if !HostEscapeAt(h, 0) then Some(InvalidEscape) else HostUnescapeError(h[3..])
    else if h[0] as int < 0x80 && !IsHostAscii(h[0]) then Some(InvalidHost)
    else HostUnescapeError(h[1..])
  }

  function DecodePath(p: string): Result<string, UrlError>
  {
    match Unescape(p, false)
    case None => Failure(InvalidEscape)
    case Some(decoded) => Success(decoded)
  }

  /** Go's `OAuthCallbackPath`, with the configured callback URL passed in. */
  function CallbackPath(callbackURL: string): Result<string, UrlError>
  {
    if callbackURL == [] then Failure(CallbackUnset) else ParsePath(callbackURL)
  }

  // -------------------------------------------------------------------
  // Properties of the resolver
  // -------------------------------------------------------------------

  /** An unset callback URL is an error. */
  lemma CallbackPathUnset()
    ensures CallbackPath([]) == Failure(CallbackUnset)
  {
  }

  /** `%` splits around a character that is neither `%` nor a hex digit. */
  lemma WellEscapedAround(a: string, c: char, b: string)
    requires c != '%' && !IsHexDigit(c)
    ensures WellEscaped(a + [c] + b) <==> WellEscaped(a) && WellEscaped(b)
  {
    var s := a + [c] + b;
    if WellEscaped(s) {
      forall i | 0 <= i < |a| && a[i] == '%'
        ensures i + 2 < |a| && IsHexDigit(a[i + 1]) && IsHexDigit(a[i + 2])
      {
        assert s[i] == '%';
        assert s[i + 1] == if i + 1 < |a| then a[i + 1] else c;
        if i + 1 < |a| {
          assert s[i + 2] == if i + 2 < |a| then a[i + 2] else c;
        }
      }
      forall j | 0 <= j < |b| && b[j] == '%'
        ensures j + 2 < |b| && IsHexDigit(b[j + 1]) && IsHexDigit(b[j + 2])
      {
        assert s[|a| + 1 + j] == '%';
        assert s[|a| + 1 + j + 1] == b[j + 1] && s[|a| + 1 + j + 2] == b[j + 2];
      }
    }
    if WellEscaped(a) && WellEscaped(b) {
      forall i | 0 <= i < |s| && s[i] == '%'
        ensures i + 2 < |s| && IsHexDigit(s[i + 1]) && IsHexDigit(s[i + 2])
      {
        if i < |a| {
          assert a[i] == '%';
        } else if i > |a| {
          assert b[i - |a| - 1] == '%';
        }
      }
    }
  }

  /** The part of a `scheme://` URL that the parser reads as authority and
      path: no query, fragment or control character in it. */
  predicate PlainHierarchy(r: string)
  {
    '?' !in r && '#' !in r && forall c <- r :: !IsControl(c)
  }

  /** For `scheme://r`, the parser goes straight to the authority and path. */
  lemma ParseHierarchy(scheme: string, r: string)
    requires IsScheme(scheme) && PlainHierarchy(r)
    ensures CallbackPath(scheme + "://" + r) == ParseAuthorityAndPath(r)
  {
    var raw := scheme + "://" + r;
    var rest := "//" + r;
    HierarchyText(scheme, r);
    CutAtAbsent(raw, '#');
    ScanSchemeFinds(scheme, rest, 0);
    assert '?' !in rest;
    CutAtAbsent(rest, '?');
    assert StartsWith(rest, "/") && StartsWith(rest, "//");
    assert rest[2..] == r;
    assert WellEscaped([]);
  }

  /** `scheme://r` holds no fragment marker and no control character. */
  lemma HierarchyText(scheme: string, r: string)
    requires IsScheme(scheme) && PlainHierarchy(r)
    ensures var raw := scheme + "://" + r;
      && raw == scheme + ":" + ("//" + r)
      && '#' !in raw && !exists c <- raw :: IsControl(c)
  {
    var raw := scheme + "://" + r;
    assert forall c <- scheme :: IsSchemeChar(c);
    assert forall c <- raw :: c in scheme || c in "://" || c in r;
  }

  /** A host text Go's host-mode unescaping accepts, stated position by
      position: every `%` starts an escape a host may hold, and every other
      ASCII character is one a host may hold. */
  predicate HostText(h: string)
  {
    && (forall i | 0 <= i < |h| && h[i] == '%' :: HostEscapeAt(h, i))
    && (forall i | 0 <= i < |h| && h[i] != '%' :: h[i] as int >= 0x80 || IsHostAscii(h[i]))
  }

  /** A host `url.Parse` accepts: a bracketed literal is closed and followed
      by an optional port; otherwise only digits follow the last `:`. */
  predicate ValidHost(host: string)
  {
    && (StartsWith(host, "[") ==> ']' in host && ValidOptionalPort(CutAtLast(host, ']').after))
    && (!StartsWith(host, "[") ==> forall c <- CutAtLast(host, ':').after :: IsDecimalDigit(c))
    && HostText(host)
  }

  /** An authority `url.Parse` accepts: a valid host after the last `@` and,
      before it, user information of allowed characters, well escaped. */
  predicate ValidAuthority(a: string)
  {
    var at := CutAtLast(a, '@');
    && ValidHost(if at.found then at.after else a)
    && (at.found ==> (forall c <- at.before :: IsUserinfoChar(c)) && WellEscaped(at.before))
  }

  /** The left-to-right scan accepts exactly the host text described position
      by position. */
  lemma {:induction false} HostUnescapeErrorText(h: string)
    ensures HostUnescapeError(h).None? <==> HostText(h)
    decreases |h|
  {
    if h == [] {
    } else if h[0] == '%' {
      if HostEscapeAt(h, 0) {
        HostUnescapeErrorText(h[3..]);
        HostTextDropEscape(h);
      }
    } else if h[0] as int < 0x80 && !IsHostAscii(h[0]) {
    } else {
      HostUnescapeErrorText(h[1..]);
      HostTextDropChar(h);
    }
  }

  lemma HostTextDropEscape(h: string)
    requires h != [] && h[0] == '%' && HostEscapeAt(h, 0)
    ensures HostText(h) <==> HostText(h[3..])
  {
    var t := h[3..];
    if HostText(t) {
      forall i | 0 <= i < |h| && h[i] == '%'
        ensures HostEscapeAt(h, i)
      {
        if i >= 3 {
          assert t[i - 3] == '%' && HostEscapeAt(t, i - 3);
          assert h[i + 1] == t[i - 3 + 1] && h[i + 2] == t[i - 3 + 2];
        }
      }
      forall i | 0 <= i < |h| && h[i] != '%'
        ensures h[i] as int >= 0x80 || IsHostAscii(h[i])
      {
        if i >= 3 {
          assert t[i - 3] == h[i];
        } else {
          assert IsHexDigit(h[i]);
        }
      }
    }
    if HostText(h) {
      forall j | 0 <= j < |t| && t[j] == '%'
        ensures HostEscapeAt(t, j)
      {
        assert h[j + 3] == '%' && HostEscapeAt(h, j + 3);
        assert t[j + 1] == h[j + 3 + 1] && t[j + 2] == h[j + 3 + 2];
      }
      forall j | 0 <= j < |t| && t[j] != '%'
        ensures t[j] as int >= 0x80 || IsHostAscii(t[j])
      {
        assert h[j + 3] == t[j];
      }
    }
  }

  lemma HostTextDropChar(h: string)
    requires h != [] && h[0] != '%' && (h[0] as int >= 0x80 || IsHostAscii(h[0]))
    ensures HostText(h) <==> HostText(h[1..])
  {
    var t := h[1..];
    if HostText(t) {
      forall i | 0 <= i < |h| && h[i] == '%'
        ensures HostEscapeAt(h, i)
      {
        assert t[i - 1] == '%' && HostEscapeAt(t, i - 1);
        assert h[i + 1] == t[i - 1 + 1] && h[i + 2] == t[i - 1 + 2];
      }
      forall i | 0 <= i < |h| && h[i] != '%'
        ensures h[i] as int >= 0x80 || IsHostAscii(h[i])
      {
        if i >= 1 {
          assert t[i - 1] == h[i];
        }
      }
    }
    if HostText(h) {
      forall j | 0 <= j < |t| && t[j] == '%'
        ensures HostEscapeAt(t, j)
      {
        assert h[j + 1] == '%' && HostEscapeAt(h, j + 1);
        assert t[j + 1] == h[j + 1 + 1] && t[j + 2] == h[j + 1 + 2];
      }
      forall j | 0 <= j < |t| && t[j] != '%'
        ensures t[j] as int >= 0x80 || IsHostAscii(t[j])
      {
        assert h[j + 1] == t[j];
      }
    }
  }

  /** The host check accepts exactly the valid hosts. */
  lemma HostErrorValid(host: string)
    ensures HostError(host).None? <==> ValidHost(host)
  {
    HostUnescapeErrorText(host);
    var colon := CutAtLast(host, ':');
    assert ([':'] + colon.after)[1..] == colon.after;
  }

  /** The authority check accepts exactly the valid authorities. */
  lemma AuthorityErrorValid(a: string)
    ensures AuthorityError(a).None? <==> ValidAuthority(a)
  {
    var at := CutAtLast(a, '@');
    HostErrorValid(if at.found then at.after else a);
  }

  /** Go's host rules are stricter than the bare escape rule: an accepted
      authority is well escaped. */
  lemma ValidAuthorityEscaped(a: string)
    requires ValidAuthority(a)
    ensures WellEscaped(a)
  {
    var at := CutAtLast(a, '@');
    HostTextEscaped(if at.found then at.after else a);
    if at.found {
      CutAtLastJoin(a, '@');
      WellEscapedAround(at.before, '@', at.after);
    }
  }

  lemma HostTextEscaped(h: string)
    requires HostText(h)
    ensures WellEscaped(h)
  {
    forall i | 0 <= i < |h| && h[i] == '%'
      ensures i + 2 < |h| && IsHexDigit(h[i + 1]) && IsHexDigit(h[i + 2])
    {
      assert HostEscapeAt(h, i);
    }
  }

  /** A `scheme://authority/path` URL without query or fragment resolves
      exactly when Go accepts its authority and the path's percent-escapes
      are well formed (section 2.1 of RFC 3986). */
  lemma {:induction false} CallbackPathAccepted(scheme: string, r: string)
    requires IsScheme(scheme) && PlainHierarchy(r)
    ensures var cut := CutAt(r, '/');
      CallbackPath(scheme + "://" + r).Success? <==> ValidAuthority(cut.before) && WellEscaped(cut.after)
  {
    ParseHierarchy(scheme, r);
    AuthorityAndPathAccepted(r);
  }

  /** So a URL that resolves is well escaped throughout. */
  lemma {:induction false} CallbackPathWellEscaped(scheme: string, r: string)
    requires IsScheme(scheme) && PlainHierarchy(r)
    requires CallbackPath(scheme + "://" + r).Success?
    ensures WellEscaped(r)
  {
    var cut := CutAt(r, '/');
    CallbackPathAccepted(scheme, r);
    ValidAuthorityEscaped(cut.before);
    if cut.found {
      WellEscapedAround(cut.before, '/', cut.after);
    }
  }

  lemma AuthorityAndPathAccepted(r: string)
    ensures var cut := CutAt(r, '/');
      ParseAuthorityAndPath(r).Success? <==> ValidAuthority(cut.before) && WellEscaped(cut.after)
  {
    var cut := CutAt(r, '/');
    AuthorityErrorValid(cut.before);
    SlashEscaped(cut.after);
  }

  /** A leading `/` does not change escape validity. */
  lemma SlashEscaped(s: string)
    ensures WellEscaped("/" + s) <==> WellEscaped(s)
    ensures WellEscaped([])
  {
    WellEscapedAround([], '/', s);
    assert [] + ['/'] + s == "/" + s;
  }

  /** A host, then a path escaped where it must be, reads back as that path. */
  lemma {:induction false} CallbackPathRoundTrip(scheme: string, host: string, path: string)
    requires IsScheme(scheme)
    requires '/' !in host && PlainHierarchy(host) && ValidAuthority(host)
    requires path == [] || path[0] == '/'
    ensures CallbackPath(scheme + "://" + host + EscapePath(path)) == Success(path)
  {
    var r := host + EscapePath(path);
    EscapedHierarchy(scheme, host, path);
    ParseHierarchy(scheme, r);
    AuthorityAndPathEscaped(host, path);
  }

  /** The escaped URL is `scheme://` and a plain hierarchical part. */
  lemma EscapedHierarchy(scheme: string, host: string, path: string)
    requires PlainHierarchy(host)
    ensures var r := host + EscapePath(path);
      PlainHierarchy(r) && scheme + "://" + host + EscapePath(path) == scheme + "://" + r
  {
    var e := EscapePath(path);
    assert forall c <- host + e :: c in host || c in e;
  }

  lemma AuthorityAndPathEscaped(host: string, path: string)
    requires '/' !in host && ValidAuthority(host)
    requires path == [] || path[0] == '/'
    ensures ParseAuthorityAndPath(host + EscapePath(path)) == Success(path)
  {
    var e := EscapePath(path);
    UnescapeEscapePath(path);
    AuthorityErrorValid(host);
    if path == [] {
      assert host + e == host;
      AuthorityOnly(host);
    } else {
      assert e[0] == '/';
      AuthorityThenPath(host, e);
    }
  }

  /** Text without `%` is well escaped. */
  lemma NoEscapes(s: string)
    requires '%' !in s
    ensures WellEscaped(s)
  {
    assert forall i | 0 <= i < |s| :: s[i] in s;
  }

  /** With no `/` the whole text is the authority and the path is empty. */
  lemma AuthorityOnly(host: string)
    requires '/' !in host && AuthorityError(host).None?
    ensures ParseAuthorityAndPath(host) == DecodePath([])
  {
    CutAtAbsent(host, '/');
  }

  /** The path starts at the first `/`, which it keeps. */
  lemma AuthorityThenPath(host: string, p: string)
    requires '/' !in host && AuthorityError(host).None? && p != [] && p[0] == '/'
    ensures ParseAuthorityAndPath(host + p) == DecodePath(p)
  {
    PathCut(host, p);
  }

  lemma PathCut(host: string, p: string)
    requires '/' !in host && p != [] && p[0] == '/'
    ensures CutAt(host + p, '/') == Cut(host, p[1..], true) && "/" + p[1..] == p
  {
    var t := p[1..];
    assert p == ['/'] + t;
    assert host + p == host + ['/'] + t;
    CutAtJoin(host, '/', t);
  }

  /** A bad escape in the host is rejected (the second case of the path test). */
  lemma CallbackPathBadEscapeExample()
    ensures CallbackPath("http://www.strava.c%om/") == Failure(InvalidEscape)
  {
    var host := "www.strava.c%om";
    BadHostPlain();
    BadHostEscape(host);
    BadUrlLiteral();
    HttpExample(host + "/");
    AuthorityRejected(host, "/");
  }

  lemma BadUrlLiteral()
    ensures "http://" + ("www.strava.c%om" + "/") == "http://www.strava.c%om/"
  {
  }

  lemma BadHostPlain()
    ensures PlainHierarchy("www.strava.c%om" + "/") && '/' !in "www.strava.c%om"
  {
    var r := "www.strava.c%om" + "/";
    assert forall i | 0 <= i < |r| :: r[i] != '?' && r[i] != '#' && !IsControl(r[i]) && (i < |r| - 1 ==> r[i] != '/');
    assert forall i | 0 <= i < |r| - 1 :: "www.strava.c%om"[i] == r[i];
  }

  lemma BadHostEscape(host: string)
    requires host == "www.strava.c%om"
    ensures AuthorityError(host) == Some(InvalidEscape)
  {
    PlainHostPrefix(host, 12);
    assert host[12..][1] == 'o';
  }

  /** An escape of an ASCII byte in the host is rejected too: Go admits only
      escapes of bytes from 0x80 up, and `%25`, in a host. */
  lemma CallbackPathAsciiEscapeExample()
    ensures CallbackPath("http://ab%41.com/x") == Failure(InvalidEscape)
  {
    var host := "ab%41.com";
    AsciiEscapeHost(host);
    AsciiUrlLiteral();
    HttpExample(host + "/x");
    AuthorityRejected(host, "/x");
  }

  lemma AsciiUrlLiteral()
    ensures "http://" + ("ab%41.com" + "/x") == "http://ab%41.com/x"
  {
  }

  lemma AsciiEscapeHost(host: string)
    requires host == "ab%41.com"
    ensures PlainHierarchy(host + "/x") && '/' !in host
    ensures AuthorityError(host) == Some(InvalidEscape)
  {
    AsciiEscapeHostPlain(host);
    PlainHostPrefix(host, 2);
    assert host[2..][1] == '4' && host[2..][2] == '1';
  }

  lemma AsciiEscapeHostPlain(host: string)
    requires host == "ab%41.com"
    ensures PlainHierarchy(host + "/x") && '/' !in host
  {
    var r := host + "/x";
    assert forall i | 0 <= i < |r| :: r[i] != '?' && r[i] != '#' && !IsControl(r[i]) && (i < |host| ==> r[i] != '/');
    assert forall i | 0 <= i < |host| :: host[i] == r[i];
  }

  /** A host with no `@`, `:` or leading `[` whose first `k` characters are
      plain host characters: the host check starts at position `k`. */
  lemma PlainHostPrefix(host: string, k: nat)
    requires k <= |host| && (host == [] || host[0] != '[')
    requires forall i | 0 <= i < |host| :: host[i] != '@' && host[i] != ':'
    requires forall i | 0 <= i < k :: host[i] != '%' && IsHostAscii(host[i])
    ensures AuthorityError(host) == HostUnescapeError(host[k..])
  {
    assert '@' !in host && ':' !in host;
    assert !StartsWith(host, "[");
    assert host == host[..k] + host[k..];
    HostUnescapeSkip(host[..k], host[k..]);
  }

  /** Plain host characters are skipped by the scan. */
  lemma {:induction false} HostUnescapeSkip(a: string, b: string)
    requires forall c <- a :: c != '%' && IsHostAscii(c)
    ensures HostUnescapeError(a + b) == HostUnescapeError(b)
    decreases |a|
  {
    if a == [] {
      assert a + b == b;
    } else {
      assert a[0] in a && (a + b)[0] == a[0];
      assert (a + b)[1..] == a[1..] + b;
      assert forall c <- a[1..] :: c in a;
      HostUnescapeSkip(a[1..], b);
    }
  }

  /** A rejected authority is rejected whatever path follows it. */
  lemma AuthorityRejected(host: string, path: string)
    requires '/' !in host && AuthorityError(host).Some?
    requires path == [] || path[0] == '/'
    ensures ParseAuthorityAndPath(host + path) == Failure(AuthorityError(host).value)
  {
    if path == [] {
      assert host + path == host;
      CutAtAbsent(host, '/');
    } else {
      assert host + path == host + ['/'] + path[1..];
      CutAtJoin(host, '/', path[1..]);
    }
  }

  /** The plain case of the path test. */
  lemma CallbackPathExample()
    ensures CallbackPath("http://abc.com/strava/oauth") == Success("/strava/oauth")
  {
    var host := "abc.com";
    var path := "/strava/oauth";
    ExampleHostPlain();
    ExamplePathPlain();
    ExampleUrlLiteral();
    PlainAround(host, path);
    HttpExample(host + path);
    AuthorityAndPathPlain(host, path);
  }

  lemma ExampleUrlLiteral()
    ensures "http://" + ("abc.com" + "/strava/oauth") == "http://abc.com/strava/oauth"
  {
  }

  lemma ExampleHostPlain()
    ensures PlainHierarchy("abc.com") && '/' !in "abc.com" && AuthorityError("abc.com").None?
  {
    var host := "abc.com";
    assert forall i | 0 <= i < |host| :: host[i] != '?' && host[i] != '#' && host[i] != '%' && host[i] != '/' && !IsControl(host[i]);
    assert forall i | 0 <= i < |host| :: host[i] != '@' && host[i] != ':' && IsHostAscii(host[i]);
    PlainHostPrefix(host, |host|);
    assert host[|host|..] == [];
  }

  lemma ExamplePathPlain()
    ensures PlainHierarchy("/strava/oauth") && '%' !in "/strava/oauth"
  {
    var path := "/strava/oauth";
    assert forall i | 0 <= i < |path| :: path[i] != '?' && path[i] != '#' && path[i] != '%' && !IsControl(path[i]);
  }

  /** Two plain pieces make plain text. */
  lemma PlainAround(a: string, b: string)
    requires PlainHierarchy(a) && PlainHierarchy(b)
    ensures PlainHierarchy(a + b)
  {
    assert forall c <- a + b :: c in a || c in b;
  }

  /** An accepted host and an escape-free path give back that path. */
  lemma AuthorityAndPathPlain(host: string, path: string)
    requires '/' !in host && AuthorityError(host).None? && '%' !in path
    requires path == [] || path[0] == '/'
    ensures ParseAuthorityAndPath(host + path) == Success(path)
  {
    NoEscapes(path);
    if path == [] {
      assert host + path == host;
      AuthorityOnly(host);
    } else {
      AuthorityThenPath(host, path);
    }
  }

  lemma HttpExample(r: string)
    requires PlainHierarchy(r)
    ensures CallbackPath("http://" + r) == ParseAuthorityAndPath(r)
  {
    var scheme := "http";
    assert IsScheme(scheme) by {
      assert |scheme| == 4 && scheme[0] == 'h' && scheme[1] == 't' && scheme[2] == 't' && scheme[3] == 'p';
      assert forall i | 0 <= i < |scheme| :: IsSchemeChar(scheme[i]);
    }
    assert scheme + "://" + r == "http://" + r;
    ParseHierarchy(scheme, r);
  }

  // -------------------------------------------------------------------
  // Query parameters of the inbound request
  // -------------------------------------------------------------------

  /** Go's `url.ParseQuery` over the `&`-separated pieces: empty pieces, pieces
      holding `;` and pieces that fail to unescape are dropped; the rest become
      key/value pairs, in order, split at the first `=`. */
  function QueryPairs(pieces: seq<string>): (r: seq<(string, string)>)
    ensures |r| <= |pieces|
  {
    if pieces == [] then []
    else
      var rest := QueryPairs(pieces[1..]);
      var piece := pieces[0];
      if piece == [] || ';' in piece then rest
      else
        var kv := CutAt(piece, '=');
        match (Unescape(kv.before, true), Unescape(kv.after, true))
        case (Some(k), Some(v)) => [(k, v)] + rest
        case _ => rest
  }

  /** The first value stored under `key`, or the empty string. */
  function Lookup(pairs: seq<(string, string)>, key: string): (r: string)
    ensures r != [] ==> (key, r) in pairs
  {
    if pairs == [] then []
    else if pairs[0].0 == key then pairs[0].1
    else Lookup(pairs[1..], key)
  }

  /** Go's `Request.FormValue` for a GET request with this raw query. */
  function FormValue(rawQuery: string, key: string): (r: string)
    ensures r != [] ==> (key, r) in QueryPairs(Split(rawQuery, '&'))
  {
    Lookup(QueryPairs(Split(rawQuery, '&')), key)
  }

  /** Text that passes through query unescaping and splitting unchanged. */
  predicate QueryPlain(s: string)
  {
    '&' !in s && ';' !in s && '%' !in s && '+' !in s && '#' !in s
  }

  /** Plain text unescapes to itself. */
  lemma QueryPlainUnescapes(s: string)
    requires QueryPlain(s)
    ensures Unescape(s, true) == Some(s)
  {
    assert WellEscaped(s);
  }

  /** A parameter written first in the query is the value read back for its key. */
  lemma FormValueFirst(key: string, value: string, rest: string)
    requires key != [] && QueryPlain(key) && '=' !in key && QueryPlain(value)
    ensures FormValue(key + "=" + value, key) == value
    ensures FormValue(key + "=" + value + "&" + rest, key) == value
  {
    var piece := key + "=" + value;
    assert '&' !in piece;
    SplitSingle(piece, '&');
    assert piece + "&" + rest == piece + ['&'] + rest;
    SplitCons(piece, '&', rest);
    LookupFirstPiece([piece], key, value);
    LookupFirstPiece([piece] + Split(rest, '&'), key, value);
  }

  /** Pieces led by plain `key=value` find that value under the key. */
  lemma LookupFirstPiece(pieces: seq<string>, key: string, value: string)
    requires key != [] && QueryPlain(key) && '=' !in key && QueryPlain(value)
    requires pieces != [] && pieces[0] == key + "=" + value
    ensures Lookup(QueryPairs(pieces), key) == value
  {
    var piece := pieces[0];
    assert ';' !in piece && piece != [];
    assert piece == key + ['='] + value;
    CutAtJoin(key, '=', value);
    QueryPlainUnescapes(key);
    QueryPlainUnescapes(value);
    assert QueryPairs(pieces) == [(key, value)] + QueryPairs(pieces[1..]);
  }

  /** An empty query carries no parameter. */
  lemma FormValueEmpty(key: string)
    ensures FormValue([], key) == []
  {
    assert Split([], '&') == [[]];
  }
}
